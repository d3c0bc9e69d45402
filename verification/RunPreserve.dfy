// How the core of the invariant survives the changes that actions make to the tables it speaks about.
module RunPreserve {
  import opened RunTypes
  import opened Transcript
  import opened RunMachine
  import opened RunInvariant

  // ------------------------------------------------------------ ownership

  // A row that keeps its status, or settles a run that nobody can own.
  lemma OwnershipRow(c: Config, runs: Runs, workers: Workers, r: RunId, row: Run)
    requires Owned(c, runs, workers)
    requires r in runs ==>
               row.status == runs[r].status
               || (!row.status.Running? && (runs[r].status.Queued? || runs[r].status.AwaitingApproval?))
    requires r !in runs ==> !row.status.Running?
    ensures Owned(c, runs[r := row], workers)
  {
  }

  // Another row of the same run, whoever owns it by now: one that is failed by a late publication or cancelled by
  // an operator who found it waiting.
  lemma OwnershipFate(c: Config, runs: Runs, workers: Workers, r: RunId, row: Run)
    requires Owned(c, runs, workers) && r in runs && Ownable(c, row.status) && !row.status.Running?
    ensures Owned(c, runs[r := row], workers)
  {
  }

  lemma OwnershipWorker(c: Config, runs: Runs, workers: Workers, w: WorkerId, worker: Worker)
    requires Owned(c, runs, workers)
    requires w in workers && worker.run == workers[w].run
    requires worker.pc.Owning() <==> workers[w].pc.Owning()
    ensures Owned(c, runs, workers[w := worker])
  {
    var after := workers[w := worker];
    assert forall v, r :: OwnerOf(after, v, r) <==> OwnerOf(workers, v, r);
  }

  lemma OwnershipTake(c: Config, runs: Runs, workers: Workers, w: WorkerId, worker: Worker, row: Run)
    requires Owned(c, runs, workers)
    requires w !in workers && worker.pc.Owning() && worker.run in runs
    requires runs[worker.run].status.Queued? || runs[worker.run].status.AwaitingApproval?
    requires row.status.Running?
    ensures Owned(c, runs[worker.run := row], workers[w := worker])
  {
    var after := workers[w := worker];
    assert forall v, r :: OwnerOf(after, v, r) <==> OwnerOf(workers, v, r) || (v == w && r == worker.run);
    assert OwnerOf(after, w, worker.run);
  }

  lemma OwnershipRelease(c: Config, runs: Runs, workers: Workers, w: WorkerId, worker: Worker, row: Run)
    requires Owned(c, runs, workers)
    requires OwnerOf(workers, w, worker.run) && !worker.pc.Owning() && !row.status.Running?
    ensures Owned(c, runs[worker.run := row], workers[w := worker])
  {
    var after := workers[w := worker];
    assert forall v, r :: OwnerOf(after, v, r) <==> OwnerOf(workers, v, r) && r != worker.run;
  }

  lemma OwnershipDrop(c: Config, runs: Runs, workers: Workers, w: WorkerId)
    requires Owned(c, runs, workers)
    requires w in workers && !workers[w].pc.Owning()
    ensures Owned(c, runs, workers - {w})
  {
    var after := workers - {w};
    assert forall v, r :: OwnerOf(after, v, r) <==> OwnerOf(workers, v, r);
  }

  lemma OwnershipRequeue(c: Config, runs: Runs, workers: Workers, r: RunId, row: Run, dead: WorkerId)
    requires Owned(c, runs, workers)
    requires r in runs && OwnerOf(workers, dead, r) && !row.status.Running?
    ensures Owned(c, runs[r := row], workers - {dead})
  {
    var after := workers - {dead};
    forall v, q
      ensures OwnerOf(after, v, q) <==> OwnerOf(workers, v, q) && q != r
    {
      assert OwnerOf(workers, v, r) ==> v == dead;
    }
  }

  // ------------------------------------------------------------ conversations

  lemma AnswerFits(worker: Worker, text: string)
    requires ConversationFits(worker) && worker.pc.Owning() && worker.calls != []
    ensures ConversationFits(Answer(worker, text))
  {
    OutstandingAppend(worker.transcript, ToolResult(worker.calls[0].id, text));
  }

  lemma TurnFits(worker: Worker, content: string, calls: seq<ToolCall>, worker': Worker)
    requires ConversationFits(worker) && worker.pc.InTurn?
    requires worker'.transcript == worker.transcript + [Assistant(content, calls)] && worker'.calls == calls
    requires !worker'.pc.InTool? && !worker'.pc.Cleared? && !worker'.pc.InTurn?
    ensures ConversationFits(worker')
  {
    OutstandingAppend(worker.transcript, Assistant(content, calls));
  }

  // A resumed activation takes over the conversation of its checkpoint.
  lemma ResumedConversation(job: Resume, a: ApprovalId, steps: nat)
    requires job.read.Some? && CheckpointOk(job.read.value)
    ensures ConversationFits(ResumedWorker(job, job.read.value, a, steps))
    ensures
      var worker := ResumedWorker(job, job.read.value, a, steps);
      worker.run == job.run && worker.steps == steps && worker.pc == Decided(a, job.approved)
  {
  }

  // ------------------------------------------------------------ accounts

  lemma AccountsRow(c: Config, runs: Runs, workers: Workers, tallies: Tallies, r: RunId, row: Run)
    requires Accounts(c, runs, workers, tallies)
    requires r in runs && RowOk(row)
    requires row.stepCount == runs[r].stepCount || (row.status.Terminal() && row.stepCount <= c.maxSteps(r))
    requires row.status == runs[r].status || row.status.Terminal()
    requires runs[r].cancelRequested ==> row.cancelRequested
    ensures Accounts(c, runs[r := row], workers, tallies)
  {
    assert RowSteps(c.maxSteps(r), tallies[r], runs[r]);
  }

  lemma AccountsTake(c: Config, runs: Runs, workers: Workers, tallies: Tallies, w: WorkerId, worker: Worker,
                     row: Run)
    requires Accounts(c, runs, workers, tallies)
    requires w !in workers && worker.run in runs && RowOk(row)
    requires runs[worker.run].status.Queued? || runs[worker.run].status.AwaitingApproval?
    requires row.stepCount == worker.steps == runs[worker.run].stepCount && row.status.Running?
    requires row.cancelRequested == runs[worker.run].cancelRequested
    requires worker.pc.Draining? || worker.pc.Decided? || worker.pc.Dead?
    ensures Accounts(c, runs[worker.run := row], workers[w := worker], tallies)
  {
    assert RowSteps(c.maxSteps(worker.run), tallies[worker.run], runs[worker.run]);
  }

  lemma AccountsRelease(c: Config, runs: Runs, workers: Workers, tallies: Tallies, w: WorkerId, worker: Worker,
                        row: Run)
    requires Accounts(c, runs, workers, tallies)
    requires w in workers && workers[w].pc.Owning() && worker.run == workers[w].run && worker.run in runs
    requires worker.pc.Announcing? && RowOk(row) && row.stepCount == worker.steps == workers[w].steps
    requires row.status.Terminal() || (row.status.AwaitingApproval? && workers[w].pc.Draining?)
    requires row.cancelRequested == runs[worker.run].cancelRequested
    ensures Accounts(c, runs[worker.run := row], workers[w := worker], tallies)
  {
    assert WorkerSteps(c.maxSteps(worker.run), tallies[worker.run], workers[w]);
    assert RowSteps(c.maxSteps(worker.run), tallies[worker.run], runs[worker.run]);
  }

  lemma AccountsRequeue(c: Config, runs: Runs, workers: Workers, tallies: Tallies, r: RunId, row: Run, tally: Tally,
                        dead: WorkerId)
    requires Accounts(c, runs, workers, tallies) && Owned(c, runs, workers)
    requires r in runs && OwnerOf(workers, dead, r) && runs[r].status.Running? && row == RequeuedRow(runs[r])
    requires tally == tallies[r].(requeues := tallies[r].requeues + 1, forgiven := tallies[r].forgiven + c.maxSteps(r))
    ensures Accounts(c, runs[r := row], workers - {dead}, tallies[r := tally])
  {
    var max := c.maxSteps(r);
    var after := workers - {dead};
    forall w | w in after && after[w].run == r
      ensures !after[w].pc.Owning()
    {
      assert !OwnerOf(workers, w, r);
    }
    assert ForgivenOk(max, tallies[r]) && RowSteps(max, tallies[r], runs[r]);
    assert tally.requeues * max == tallies[r].requeues * max + max;
  }

  lemma AccountsInsert(c: Config, runs: Runs, workers: Workers, tallies: Tallies, r: RunId, row: Run)
    requires Accounts(c, runs, workers, tallies)
    requires forall w :: w in workers ==> workers[w].run in runs
    requires r !in runs && row.status.Queued? && row.checkpoint.None? && row.stepCount == 0
    ensures Accounts(c, runs[r := row], workers, tallies[r := Tally(0, 0, 0, 0)])
  {
  }

  // A step of the owner that may touch its run's heartbeat and tally.
  lemma AccountsOwn(c: Config, runs: Runs, workers: Workers, tallies: Tallies, w: WorkerId, worker: Worker,
                    row: Run, tally: Tally)
    requires Accounts(c, runs, workers, tallies) && Owned(c, runs, workers)
    requires w in workers && workers[w].pc.Owning() && worker.run == workers[w].run && worker.run in runs
    requires row == runs[worker.run].(heartbeat := row.heartbeat) && RowOk(row)
    requires WorkerSteps(c.maxSteps(worker.run), tally, worker) && RowSteps(c.maxSteps(worker.run), tally, row)
    requires ForgivenOk(c.maxSteps(worker.run), tally)
    requires tally.lateTurns <= if row.cancelRequested then 1 else 0
    requires worker.pc.Cleared? ==> tally.lateTurns == 0
    ensures Accounts(c, runs[worker.run := row], workers[w := worker], tallies[worker.run := tally])
  {
    var after := workers[w := worker];
    forall v | v in after && after[v].run == worker.run && v != w
      ensures !after[v].pc.Owning()
    {
      assert OwnerOf(workers, w, worker.run);
      assert OwnerOf(after, v, worker.run) ==> OwnerOf(workers, v, worker.run);
    }
  }
}
