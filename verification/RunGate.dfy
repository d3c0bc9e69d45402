// As long as no approval gets a second resume job, every action of the run protocol keeps the gate of the
// invariant: approvals, the tickets they give, the decisions that workers act on, and what was executed.
module RunGate {
  import opened Options
  import opened RunTypes
  import opened RunMachine
  import opened RunInvariant
  import opened RunSteps

  // ------------------------------------------------------------ tickets

  ghost predicate NoTicket(approvals: Approvals, resumes: Resumes, r: RunId) {
    forall a :: Ticket(approvals, resumes, a) ==> approvals[a].run != r
  }

  // The row of a run without a ticket may become anything, and that of any run may be settled.
  lemma TicketsRow(runs: Runs, approvals: Approvals, resumes: Resumes, r: RunId, row: Run)
    requires Tickets(runs, approvals, resumes)
    requires r in runs ==> row.status.Terminal() || NoTicket(approvals, resumes, r)
    ensures Tickets(runs[r := row], approvals, resumes)
  {
  }

  lemma TicketsPark(runs: Runs, approvals: Approvals, resumes: Resumes, a: ApprovalId, approval: Approval, row: Run)
    requires Tickets(runs, approvals, resumes)
    requires a !in approvals && approval.status.Pending?
    requires approval.run in runs && NoTicket(approvals, resumes, approval.run)
    requires TicketFits(row, approval, None)
    ensures Tickets(runs[approval.run := row], approvals[a := approval], resumes)
  {
    var approvals' := approvals[a := approval];
    assert forall b :: Ticket(approvals', resumes, b) <==> Ticket(approvals, resumes, b) || b == a;
  }

  lemma TicketsDecide(runs: Runs, approvals: Approvals, resumes: Resumes, a: ApprovalId, approved: bool)
    requires Tickets(runs, approvals, resumes)
    requires a in approvals && approvals[a].status.Pending?
    ensures Tickets(runs, approvals[a := approvals[a].(status := DecisionOf(approved))],
                    resumes[First(a) := Resume(approvals[a].run, approved, None)])
  {
    var approvals' := approvals[a := approvals[a].(status := DecisionOf(approved))];
    var resumes' := resumes[First(a) := Resume(approvals[a].run, approved, None)];
    assert forall b :: Ticket(approvals', resumes', b) <==> Ticket(approvals, resumes, b);
  }

  lemma TicketsRead(runs: Runs, approvals: Approvals, resumes: Resumes, a: ApprovalId, job: Resume)
    requires Tickets(runs, approvals, resumes)
    requires First(a) in resumes
    requires job.run == resumes[First(a)].run && job.approved == resumes[First(a)].approved
    requires job.run in runs && job.read == runs[job.run].checkpoint
    ensures Tickets(runs, approvals, resumes[First(a) := job])
  {
    assert forall b :: Ticket(approvals, resumes[First(a) := job], b) <==> Ticket(approvals, resumes, b);
  }

  lemma TicketsDrop(runs: Runs, approvals: Approvals, resumes: Resumes, a: ApprovalId)
    requires Tickets(runs, approvals, resumes)
    requires First(a) in resumes
    ensures Tickets(runs, approvals, resumes - {First(a)})
    ensures forall b :: Ticket(approvals, resumes - {First(a)}, b) <==> Ticket(approvals, resumes, b) && b != a
  {
  }

  // The resume job was the only ticket of its run, so its claim leaves the run without one.
  lemma TicketsUse(runs: Runs, approvals: Approvals, resumes: Resumes, a: ApprovalId, row: Run)
    requires Tickets(runs, approvals, resumes)
    requires First(a) in resumes
    ensures Tickets(runs[resumes[First(a)].run := row], approvals, resumes - {First(a)})
    ensures forall b :: Ticket(approvals, resumes - {First(a)}, b) <==> Ticket(approvals, resumes, b) && b != a
  {
    assert Ticket(approvals, resumes, a);
  }

  // ------------------------------------------------------------ existence of tickets

  lemma ExistRow(runs: Runs, approvals: Approvals, resumes: Resumes, stranded: set<RunId>, r: RunId, row: Run)
    requires TicketsExist(runs, approvals, resumes, stranded)
    requires row.status.AwaitingApproval? ==> r in runs && runs[r].status.AwaitingApproval?
    ensures TicketsExist(runs[r := row], approvals, resumes, stranded)
  {
    forall q | q in runs[r := row] && runs[r := row][q].status.AwaitingApproval? && q !in stranded
      ensures exists a :: Ticket(approvals, resumes, a) && approvals[a].run == q
    {
      assert q in runs && runs[q].status.AwaitingApproval?;
    }
  }

  lemma ExistPark(runs: Runs, approvals: Approvals, resumes: Resumes, stranded: set<RunId>,
                  a: ApprovalId, approval: Approval, row: Run)
    requires TicketsExist(runs, approvals, resumes, stranded)
    requires a !in approvals && approval.status.Pending?
    ensures TicketsExist(runs[approval.run := row], approvals[a := approval], resumes, stranded - {approval.run})
  {
    var runs' := runs[approval.run := row];
    var approvals' := approvals[a := approval];
    forall q | q in runs' && runs'[q].status.AwaitingApproval? && q !in stranded - {approval.run}
      ensures exists b :: Ticket(approvals', resumes, b) && approvals'[b].run == q
    {
      if q == approval.run {
        assert Ticket(approvals', resumes, a);
      } else {
        var b :| Ticket(approvals, resumes, b) && approvals[b].run == q;
        assert Ticket(approvals', resumes, b) && approvals'[b].run == q;
      }
    }
  }

  // A change that keeps every ticket of a run that stays parked.
  lemma ExistTickets(runs: Runs, approvals: Approvals, resumes: Resumes, stranded: set<RunId>,
                     approvals': Approvals, resumes': Resumes, stranded': set<RunId>)
    requires TicketsExist(runs, approvals, resumes, stranded)
    requires stranded <= stranded'
    requires forall a :: Ticket(approvals, resumes, a) ==>
               || (Ticket(approvals', resumes', a) && approvals'[a].run == approvals[a].run)
               || approvals[a].run in stranded'
               || (approvals[a].run in runs && !runs[approvals[a].run].status.AwaitingApproval?)
    ensures TicketsExist(runs, approvals', resumes', stranded')
  {
    forall q | q in runs && runs[q].status.AwaitingApproval? && q !in stranded'
      ensures exists a :: Ticket(approvals', resumes', a) && approvals'[a].run == q
    {
      var a :| Ticket(approvals, resumes, a) && approvals[a].run == q;
      assert Ticket(approvals', resumes', a);
    }
  }

  // ------------------------------------------------------------ decisions and executions

  // Approvals only ever lose tickets, save that a parked run brings a new one.
  ghost predicate OnlyLoses(approvals: Approvals, resumes: Resumes, approvals': Approvals, resumes': Resumes) {
    && approvals.Keys <= approvals'.Keys
    && (forall a :: a in approvals && !Ticket(approvals, resumes, a) ==> approvals'[a] == approvals[a])
    && (forall a :: a in approvals && !Ticket(approvals, resumes, a) ==> !Ticket(approvals', resumes', a))
  }

  lemma DecisionsTickets(workers: Workers, approvals: Approvals, resumes: Resumes, executions: seq<Execution>,
                         approvals': Approvals, resumes': Resumes)
    requires Decisions(workers, approvals, resumes, executions)
    requires OnlyLoses(approvals, resumes, approvals', resumes')
    ensures Decisions(workers, approvals', resumes', executions)
  {
    forall w | w in workers
      ensures DecisionFits(workers[w], approvals', resumes', executions)
    {
      assert DecisionFits(workers[w], approvals, resumes, executions);
    }
  }

  lemma DecisionsMore(workers: Workers, approvals: Approvals, resumes: Resumes, executions: seq<Execution>,
                      w: WorkerId, worker: Worker)
    requires Decisions(workers, approvals, resumes, executions)
    requires DecisionFits(worker, approvals, resumes, executions)
    ensures Decisions(workers[w := worker], approvals, resumes, executions)
  {
  }

  lemma ExecutionsTickets(gated: set<string>, approvals: Approvals, resumes: Resumes, executions: seq<Execution>,
                          approvals': Approvals, resumes': Resumes)
    requires Executions(gated, approvals, resumes, executions)
    requires OnlyLoses(approvals, resumes, approvals', resumes')
    ensures Executions(gated, approvals', resumes', executions)
  {
    forall i | 0 <= i < |executions|
      ensures ExecutionFits(gated, approvals', resumes', executions[i])
    {
      assert ExecutionFits(gated, approvals, resumes, executions[i]);
    }
  }

  // An execution spends its approval, and no other worker holds a decision on that approval.
  lemma DecisionsExecute(c: Config, runs: Runs, workers: Workers, approvals: Approvals, resumes: Resumes,
                         executions: seq<Execution>, w: WorkerId, worker: Worker, e: Execution)
    requires Owned(c, runs, workers) && Decisions(workers, approvals, resumes, executions)
    requires w in workers && workers[w].pc.Owning() && !worker.pc.Decided?
    requires e.approval.Some? ==> workers[w].pc.Decided? && e.approval.value == workers[w].pc.approval
    ensures Decisions(workers[w := worker], approvals, resumes, executions + [e])
  {
    forall v | v in workers && v != w
      ensures DecisionFits(workers[v], approvals, resumes, executions + [e])
    {
      assert DecisionFits(workers[v], approvals, resumes, executions);
      assert DecisionFits(workers[w], approvals, resumes, executions);
      if workers[v].pc.Decided? && e.approval == Some(workers[v].pc.approval) {
        assert OwnerOf(workers, v, workers[w].run) && OwnerOf(workers, w, workers[w].run);
      }
    }
  }

  lemma ExecutionsExecute(gated: set<string>, approvals: Approvals, resumes: Resumes, executions: seq<Execution>,
                          e: Execution)
    requires Executions(gated, approvals, resumes, executions)
    requires ExecutionFits(gated, approvals, resumes, e)
    requires e.approval.Some? ==> !Spent(executions, e.approval.value)
    ensures Executions(gated, approvals, resumes, executions + [e])
  {
    forall i | 0 <= i < |executions| && executions[i].approval.Some?
      ensures executions[i].approval != e.approval
    {
      assert e.approval.Some? ==> executions[i].approval != Some(e.approval.value);
    }
  }

  lemma UnspentTicket(gated: set<string>, approvals: Approvals, resumes: Resumes, executions: seq<Execution>,
                      a: ApprovalId)
    requires Executions(gated, approvals, resumes, executions)
    requires Ticket(approvals, resumes, a)
    ensures !Spent(executions, a)
  {
    forall i | 0 <= i < |executions|
      ensures executions[i].approval != Some(a)
    {
      assert ExecutionFits(gated, approvals, resumes, executions[i]);
    }
  }

  // A decision moves a ticket from the pending approval to the resume job.
  lemma DecideTables(runs: Runs, approvals: Approvals, resumes: Resumes, stranded: set<RunId>,
                     a: ApprovalId, approved: bool)
    requires Tickets(runs, approvals, resumes) && TicketsExist(runs, approvals, resumes, stranded)
    requires a in approvals && approvals[a].status.Pending?
    ensures
      var approvals' := approvals[a := approvals[a].(status := DecisionOf(approved))];
      var resumes' := resumes[First(a) := Resume(approvals[a].run, approved, None)];
      && Tickets(runs, approvals', resumes') && TicketsExist(runs, approvals', resumes', stranded)
      && OnlyLoses(approvals, resumes, approvals', resumes')
  {
    var approvals' := approvals[a := approvals[a].(status := DecisionOf(approved))];
    var resumes' := resumes[First(a) := Resume(approvals[a].run, approved, None)];
    TicketsDecide(runs, approvals, resumes, a, approved);
    ExistTickets(runs, approvals, resumes, stranded, approvals', resumes', stranded);
  }

  // A parked run brings its own ticket.
  lemma ParkTables(runs: Runs, approvals: Approvals, resumes: Resumes, stranded: set<RunId>,
                   a: ApprovalId, approval: Approval, row: Run)
    requires Tickets(runs, approvals, resumes) && TicketsExist(runs, approvals, resumes, stranded)
    requires a !in approvals && approval.status.Pending?
    requires approval.run in runs && NoTicket(approvals, resumes, approval.run)
    requires TicketFits(row, approval, None)
    ensures
      && Tickets(runs[approval.run := row], approvals[a := approval], resumes)
      && TicketsExist(runs[approval.run := row], approvals[a := approval], resumes, stranded - {approval.run})
      && OnlyLoses(approvals, resumes, approvals[a := approval], resumes)
  {
    TicketsPark(runs, approvals, resumes, a, approval, row);
    ExistPark(runs, approvals, resumes, stranded, a, approval, row);
  }

  // ------------------------------------------------------------ rows and workers

  // A change of rows that leaves approvals, jobs, workers and executions alone.
  lemma RowGate(c: Config, s: State, s': State, r: RunId, row: Run)
    requires Gate(c, s)
    requires s' == s.(runs := s.runs[r := row], tallies := s'.tallies)
    requires r in s.runs ==> row.status.Terminal() || NoTicket(s.approvals, s.resumes, r)
    requires row.status.AwaitingApproval? ==> r in s.runs && s.runs[r].status.AwaitingApproval?
    ensures Gate(c, s')
  {
    TicketsRow(s.runs, s.approvals, s.resumes, r, row);
    ExistRow(s.runs, s.approvals, s.resumes, s.strandedRuns, r, row);
  }

  // The steps of the owner of a run, which has no ticket.
  lemma OwnGate(c: Config, s: State, s': State, w: WorkerId, worker: Worker, row: Run)
    requires Core(c, s) && Gate(c, s)
    requires w in s.workers && s.workers[w].pc.Owning() && worker.pc.Owning() && worker.run == s.workers[w].run
    requires s'.runs == s.runs[worker.run := row] && s'.workers == s.workers[w := worker]
    requires s'.approvals == s.approvals && s'.resumes == s.resumes && s'.strandedRuns == s.strandedRuns
    requires s'.operators == s.operators
    requires !row.status.AwaitingApproval?
    requires Decisions(s'.workers, s.approvals, s.resumes, s'.executions)
    requires Executions(c.gated, s.approvals, s.resumes, s'.executions)
    ensures Gate(c, s')
  {
    TicketsRow(s.runs, s.approvals, s.resumes, worker.run, row);
    ExistRow(s.runs, s.approvals, s.resumes, s.strandedRuns, worker.run, row);
  }

  lemma StepGate(c: Config, s: State, s': State, w: WorkerId, row: Run)
    requires Core(c, s) && Gate(c, s)
    requires w in s.workers && s.workers[w].pc.Owning() && w in s'.workers && s'.workers[w].pc.Owning()
    requires s'.workers == s.workers[w := s'.workers[w]] && s'.workers[w].run == s.workers[w].run
    requires s'.runs == s.runs[s.workers[w].run := row] && !row.status.AwaitingApproval?
    requires s'.approvals == s.approvals && s'.resumes == s.resumes && s'.strandedRuns == s.strandedRuns
    requires s'.operators == s.operators
    requires s'.executions == s.executions && (s'.workers[w].pc.Decided? ==> s'.workers[w] == s.workers[w])
    ensures Gate(c, s')
  {
    OwnGate(c, s, s', w, s'.workers[w], row);
  }

  lemma TurnGate(c: Config, s: State, w: WorkerId, step: TurnStep)
    requires Core(c, s) && Gate(c, s) && TurnEnabled(c, s, w, step)
    ensures Gate(c, TurnApply(c, s, w, step))
  {
    OwnerFacts(c, s, w);
    TurnShape(c, s, w, step);
    hide Core, Gate, TurnApply, TurnEnabled, RowOk, ConversationFits, WorkerSteps, RowSteps;
    var s' := TurnApply(c, s, w, step);
    StepGate(c, s, s', w, s'.runs[s.workers[w].run]);
  }

  // A turn's steps change the worker, and its run's heartbeat and tally at most.
  lemma TurnShape(c: Config, s: State, w: WorkerId, step: TurnStep)
    requires TurnEnabled(c, s, w, step)
    ensures
      var s' := TurnApply(c, s, w, step);
      var r := s.workers[w].run;
      && s.workers[w].pc.Owning() && w in s'.workers && s'.workers[w].pc.Owning() && !s'.workers[w].pc.Decided?
      && s'.workers == s.workers[w := s'.workers[w]] && s'.workers[w].run == r
      && r in s'.runs && s'.runs == s.runs[r := s'.runs[r]] && s'.runs[r].status == s.runs[r].status
      && s' == s.(workers := s'.workers, runs := s'.runs, tallies := s'.tallies)
  {
    assert s.workers == s.workers[w := s.workers[w]];
    assert s.runs == s.runs[s.workers[w].run := s.runs[s.workers[w].run]];
  }

  lemma StartToolGate(c: Config, s: State, w: WorkerId)
    requires Core(c, s) && Gate(c, s) && ToolEnabled(c, s, w, StartTool)
    ensures Gate(c, ToolApply(c, s, w, StartTool))
  {
    OwnerFacts(c, s, w);
    var s' := ToolApply(c, s, w, StartTool);
    var worker := s'.workers[w];
    var e := s'.executions[|s.executions|];
    assert DecisionFits(s.workers[w], s.approvals, s.resumes, s.executions);
    DecisionsExecute(c, s.runs, s.workers, s.approvals, s.resumes, s.executions, w, worker, e);
    ExecutionsExecute(c.gated, s.approvals, s.resumes, s.executions, e);
    OwnGate(c, s, s', w, worker, s.runs[worker.run]);
  }

  lemma InsertGate(c: Config, s: State, r: RunId, row: Run)
    requires Gate(c, s) && r !in s.runs && row.status.Queued?
    ensures Gate(c, Insert(s, r, row))
  {
    RowGate(c, s, Insert(s, r, row), r, row);
  }

  lemma ToolGate(c: Config, s: State, w: WorkerId, step: ToolStep)
    requires Core(c, s) && Gate(c, s) && ToolEnabled(c, s, w, step)
    ensures Gate(c, ToolApply(c, s, w, step))
  {
    match step
    case StartTool => StartToolGate(c, s, w);
    case InsertChild(run) => InsertGate(c, s, run, NewRun(s.runs[s.workers[w].run].workspace, Some(s.workers[w].run)));
    case RefuseTool(text) => AnswerGate(c, s, w, text);
    case EndTool(text) => AnswerGate(c, s, w, text);
    case Deny(text) => AnswerGate(c, s, w, text);
  }

  lemma AnswerGate(c: Config, s: State, w: WorkerId, text: string)
    requires Core(c, s) && Gate(c, s)
    requires w in s.workers && s.workers[w].pc.Owning() && s.workers[w].calls != []
    ensures Gate(c, SetWorker(s, w, Answer(s.workers[w], text)))
  {
    OwnerFacts(c, s, w);
    hide Core, Gate, RowOk, ConversationFits, WorkerSteps, RowSteps;
    StepGate(c, s, SetWorker(s, w, Answer(s.workers[w], text)), w, s.runs[s.workers[w].run]);
  }

  // ------------------------------------------------------------ taking and releasing a run

  // Waiting runs have no ticket unless they are parked.
  lemma QueuedHasNoTicket(s: State, r: RunId)
    requires Tickets(s.runs, s.approvals, s.resumes) && r in s.runs
    requires s.runs[r].status.Queued? || s.runs[r].status.Running?
    ensures NoTicket(s.approvals, s.resumes, r)
  {
  }

  lemma ClaimGate(c: Config, s: State, w: WorkerId, r: RunId, transcript: seq<Message>)
    requires Gate(c, s) && OwnershipEnabled(c, s, w, Claim(r, transcript))
    ensures Gate(c, OwnershipApply(c, s, w, Claim(r, transcript)))
  {
    QueuedHasNoTicket(s, r);
    RowGate(c, s, SetRun(s, r, ClaimedRow(s.runs[r], s.now)), r, ClaimedRow(s.runs[r], s.now));
  }

  lemma ParkGate(c: Config, s: State, w: WorkerId, a: ApprovalId)
    requires Core(c, s) && Gate(c, s) && OwnershipEnabled(c, s, w, Park(a))
    ensures Gate(c, OwnershipApply(c, s, w, Park(a)))
  {
    hide Decisions, Executions, Tickets, TicketsExist, Ticket, Core, OwnersHoldNoTicket, DecisionFits, OnlyLoses;
    hide NoTicket, TicketFits, Deciders;
    var s' := OwnershipApply(c, s, w, Park(a));
    var r := s.workers[w].run;
    ParkReady(c, s, w, a);
    ParkTables(s.runs, s.approvals, s.resumes, s.strandedRuns, a, s'.approvals[a], s'.runs[r]);
    DecisionsTickets(s.workers, s.approvals, s.resumes, s.executions, s'.approvals, s'.resumes);
    DecisionsMore(s.workers, s'.approvals, s'.resumes, s.executions, w, s'.workers[w]);
    ExecutionsTickets(c.gated, s.approvals, s.resumes, s.executions, s'.approvals, s'.resumes);
    ParkOwners(c, s, w, a, s');
  }

  // What a pause leaves fits together, and whoever decides an approval decides an older one.
  lemma ParkReady(c: Config, s: State, w: WorkerId, a: ApprovalId)
    requires Core(c, s) && Gate(c, s) && OwnershipEnabled(c, s, w, Park(a))
    ensures
      var s' := OwnershipApply(c, s, w, Park(a));
      var r := s.workers[w].run;
      && NoTicket(s.approvals, s.resumes, r) && TicketFits(s'.runs[r], s'.approvals[a], None)
      && DecisionFits(s'.workers[w], s'.approvals, s'.resumes, s.executions)
      && Deciders(s'.approvals, s.operators)
  {
  }

  lemma ParkOwners(c: Config, s: State, w: WorkerId, a: ApprovalId, s': State)
    requires Core(c, s) && Gate(c, s) && OwnershipEnabled(c, s, w, Park(a))
    requires s' == OwnershipApply(c, s, w, Park(a))
    ensures OwnersHoldNoTicket(s'.workers, s'.approvals, s'.resumes)
  {
    var r := s.workers[w].run;
    forall v, b | v in s'.workers && s'.workers[v].pc.Owning() && Ticket(s'.approvals, s'.resumes, b)
      ensures s'.approvals[b].run != s'.workers[v].run
    {
      assert OwnerOf(s.workers, w, r) && (OwnerOf(s.workers, v, r) ==> v == w);
      assert b != a ==> Ticket(s.approvals, s.resumes, b);
    }
  }

  // A worker lets go of its run.
  lemma ReleaseGate(c: Config, s: State, w: WorkerId, worker: Worker)
    requires Gate(c, s) && !worker.pc.Owning()
    ensures Gate(c, SetWorker(s, w, worker))
  {
  }

  lemma FinishGate(c: Config, s: State, w: WorkerId)
    requires Core(c, s) && Gate(c, s) && OwnershipEnabled(c, s, w, Finish)
    ensures Gate(c, OwnershipApply(c, s, w, Finish))
  {
    var s' := OwnershipApply(c, s, w, Finish);
    var r := s.workers[w].run;
    var row := s'.runs[r];
    RowGate(c, s, SetRun(s, r, row), r, row);
    ReleaseGate(c, SetRun(s, r, row), w, s'.workers[w]);
    hide Gate;
  }

  lemma OwnershipGate(c: Config, s: State, w: WorkerId, step: OwnershipStep)
    requires Core(c, s) && Gate(c, s) && OwnershipEnabled(c, s, w, step)
    ensures Gate(c, OwnershipApply(c, s, w, step))
  {
    hide Owned, Reads, Conversations, Accounts, Sightings, Tickets, TicketsExist, Deciders, Executions;
    match step
    case Claim(r, transcript) => ClaimGate(c, s, w, r, transcript);
    case Park(approval) => ParkGate(c, s, w, approval);
    case Finish => FinishGate(c, s, w);
    case AnnounceFails =>
      var r := s.workers[w].run;
      var row := FinishedRow(s.runs[r], Failed, s.workers[w].steps);
      RowGate(c, s, SetRun(s, r, row), r, row);
    case Announce =>
    case Die =>
  }

  lemma OthersGate(c: Config, s: State, r: RunId, step: RunStep)
    requires Core(c, s) && Gate(c, s) && RunEnabled(c, s, r, step)
    ensures Gate(c, RunApply(c, s, r, step))
  {
    var row := RunApply(c, s, r, step).runs[r];
    if s.runs[r].status.Queued? || s.runs[r].status.Running? {
      QueuedHasNoTicket(s, r);
    }
    RowGate(c, s, s.(runs := s.runs[r := row], tallies := RunApply(c, s, r, step).tallies), r, row);
  }

  // ------------------------------------------------------------ operators

  // A change of approvals and resume jobs alone.
  lemma TablesGate(c: Config, s: State, s': State)
    requires Gate(c, s)
    requires s'.runs == s.runs && s'.workers == s.workers && s'.executions == s.executions
    requires OnlyLoses(s.approvals, s.resumes, s'.approvals, s'.resumes)
    requires Tickets(s'.runs, s'.approvals, s'.resumes)
    requires OwnersHoldNoTicket(s'.workers, s'.approvals, s'.resumes)
    requires TicketsExist(s'.runs, s'.approvals, s'.resumes, s'.strandedRuns)
    requires Deciders(s'.approvals, s'.operators)
    ensures Gate(c, s')
  {
    DecisionsTickets(s.workers, s.approvals, s.resumes, s.executions, s'.approvals, s'.resumes);
    ExecutionsTickets(c.gated, s.approvals, s.resumes, s.executions, s'.approvals, s'.resumes);
  }

  // The operator who begins to decide an approval is the only one at it.
  lemma DecidersRead(c: Config, approvals: Approvals, operators: Operators, o: OperatorId, a: ApprovalId,
                     approved: bool)
    requires Deciders(approvals, operators) && c.deciders <= 1
    requires o !in operators && a in approvals && approvals[a].status.Pending?
    requires |DecidersOf(operators, a)| < c.deciders
    ensures Deciders(approvals, operators[o := ToDecide(a, approved)])
  {
    assert forall p :: Decides(operators, p, a) <==> p in DecidersOf(operators, a);
    assert DecidersOf(operators, a) == {};
    var after := operators[o := ToDecide(a, approved)];
    assert forall p, b :: Decides(after, p, b) <==> Decides(operators, p, b) || (p == o && b == a);
  }

  lemma DecidersWrite(approvals: Approvals, operators: Operators, o: OperatorId, a: ApprovalId, row: Approval)
    requires Deciders(approvals, operators) && Decides(operators, o, a)
    ensures Deciders(approvals[a := row], operators - {o})
  {
    forall p, b | Decides(operators - {o}, p, b)
      ensures Decides(operators, p, b) && b != a
    {
      assert Decides(operators, p, b);
    }
  }

  lemma WriteGate(c: Config, s: State, o: OperatorId, copy: nat)
    requires Gate(c, s) && OperatorEnabled(c, s, o, WriteDecision(copy))
    ensures Gate(c, OperatorApply(c, s, o, WriteDecision(copy)))
  {
    var s' := OperatorApply(c, s, o, WriteDecision(copy));
    var ToDecide(a, approved) := s.operators[o];
    assert Decides(s.operators, o, a);
    DecideTables(s.runs, s.approvals, s.resumes, s.strandedRuns, a, approved);
    forall b | Ticket(s'.approvals, s'.resumes, b)
      ensures Ticket(s.approvals, s.resumes, b) && s'.approvals[b].run == s.approvals[b].run
    {
    }
    DecidersWrite(s.approvals, s.operators, o, a, s'.approvals[a]);
    hide Tickets, TicketsExist, OnlyLoses, Ticket, Executions, Decisions, Deciders;
    TablesGate(c, s, s');
  }

  lemma CancelGate(c: Config, s: State, o: OperatorId)
    requires Core(c, s) && Gate(c, s) && OperatorEnabled(c, s, o, WriteCancel)
    ensures Gate(c, OperatorApply(c, s, o, WriteCancel))
  {
    var ToCancel(r, seen) := s.operators[o];
    var row := CancelledRow(s.runs[r], seen);
    if !seen.Waiting() && s.runs[r].status.AwaitingApproval? {
      FlagGate(c, s, r);
    } else {
      if s.runs[r].status.Queued? || s.runs[r].status.Running? {
        QueuedHasNoTicket(s, r);
      }
      RowGate(c, s, SetRun(s, r, row), r, row);
    }
    LeaveGate(c, SetRun(s, r, row), o);
  }

  lemma FlagGate(c: Config, s: State, r: RunId)
    requires Gate(c, s) && r in s.runs
    ensures Gate(c, SetRun(s, r, s.runs[r].(cancelRequested := true)))
  {
    var row := s.runs[r].(cancelRequested := true);
    var runs' := s.runs[r := row];
    forall a | Ticket(s.approvals, s.resumes, a)
      ensures TicketFits(runs'[s.approvals[a].run], s.approvals[a], JobOf(s.resumes, a))
    {
      assert TicketFits(s.runs[s.approvals[a].run], s.approvals[a], JobOf(s.resumes, a));
    }
    ExistRow(s.runs, s.approvals, s.resumes, s.strandedRuns, r, row);
    hide TicketFits, TicketsExist, OwnersHoldNoTicket, Executions, Decisions, Deciders;
  }

  lemma LeaveGate(c: Config, s: State, o: OperatorId)
    requires Gate(c, s)
    ensures Gate(c, s.(operators := s.operators - {o}))
  {
    assert forall p, b :: Decides(s.operators - {o}, p, b) ==> Decides(s.operators, p, b);
  }

  lemma OperatorGate(c: Config, s: State, o: OperatorId, step: OperatorStep)
    requires OneJobEach(c) && Core(c, s) && Gate(c, s) && OperatorEnabled(c, s, o, step)
    ensures Gate(c, OperatorApply(c, s, o, step))
  {
    match step
    case ReadApproval(a, approved) => DecidersRead(c, s.approvals, s.operators, o, a, approved);
    case WriteDecision(copy) => WriteGate(c, s, o, copy);
    case ReadRun(r) =>
      assert forall p, b :: Decides(OperatorApply(c, s, o, step).operators, p, b) <==> Decides(s.operators, p, b);
    case WriteCancel => CancelGate(c, s, o);
    case Withdraw => LeaveGate(c, s, o);
  }

  // ------------------------------------------------------------ resume jobs

  // A resume job disappears: its run is no longer parked, or is stranded by the loss.
  lemma DropJobGate(c: Config, s: State, a: ApprovalId, stranded: set<RunId>)
    requires Gate(c, s)
    requires First(a) in s.resumes && s.resumes[First(a)].run in s.runs && s.strandedRuns <= stranded
    requires s.runs[s.resumes[First(a)].run].status.AwaitingApproval? ==> s.resumes[First(a)].run in stranded
    ensures Gate(c, DropJob(s, First(a)).(strandedRuns := stranded))
  {
    var s' := DropJob(s, First(a)).(strandedRuns := stranded);
    TicketsDrop(s.runs, s.approvals, s.resumes, a);
    ExistTickets(s.runs, s.approvals, s.resumes, s.strandedRuns, s.approvals, s'.resumes, stranded);
    TablesGate(c, s, s');
  }

  lemma ReadGate(c: Config, s: State, a: ApprovalId, job: Resume)
    requires Gate(c, s)
    requires First(a) in s.resumes && s.resumes[First(a)].run in s.runs
    requires job == s.resumes[First(a)].(read := s.runs[s.resumes[First(a)].run].checkpoint)
    ensures Gate(c, s.(resumes := s.resumes[First(a) := job]))
  {
    var s' := s.(resumes := s.resumes[First(a) := job]);
    TicketsRead(s.runs, s.approvals, s.resumes, a, job);
    ExistTickets(s.runs, s.approvals, s.resumes, s.strandedRuns, s.approvals, s'.resumes, s.strandedRuns);
    assert forall b :: Ticket(s.approvals, s'.resumes, b) <==> Ticket(s.approvals, s.resumes, b);
    TablesGate(c, s, s');
  }

  lemma ResumeExist(s: State, a: ApprovalId, row: Run)
    requires Tickets(s.runs, s.approvals, s.resumes)
    requires TicketsExist(s.runs, s.approvals, s.resumes, s.strandedRuns)
    requires First(a) in s.resumes && !row.status.AwaitingApproval?
    ensures TicketsExist(s.runs[s.resumes[First(a)].run := row], s.approvals, s.resumes - {First(a)}, s.strandedRuns)
  {
    var r := s.resumes[First(a)].run;
    ExistRow(s.runs, s.approvals, s.resumes, s.strandedRuns, r, row);
    ExistTickets(s.runs[r := row], s.approvals, s.resumes, s.strandedRuns,
                 s.approvals, s.resumes - {First(a)}, s.strandedRuns);
  }

  // The claim of a resumed run turns its ticket into the decision that the worker acts on.
  lemma ResumedDecision(c: Config, s: State, a: ApprovalId)
    requires Gate(c, s) && First(a) in s.resumes && s.resumes[First(a)].read.Some?
    requires s.resumes[First(a)].run in s.runs && s.runs[s.resumes[First(a)].run].status.AwaitingApproval?
    ensures
      var job := s.resumes[First(a)];
      var worker := ResumedWorker(job, job.read.value, a, s.runs[job.run].stepCount);
      DecisionFits(worker, s.approvals, s.resumes - {First(a)}, s.executions)
  {
    assert Ticket(s.approvals, s.resumes, a);
    UnspentTicket(c.gated, s.approvals, s.resumes, s.executions, a);
  }

  lemma ResumeGate(c: Config, s: State, a: ApprovalId, w: WorkerId)
    requires Core(c, s) && Gate(c, s) && JobEnabled(c, s, First(a), ClaimResumed(w))
    requires s.runs[s.resumes[First(a)].run].status.AwaitingApproval?
    ensures Gate(c, JobApply(c, s, First(a), ClaimResumed(w)))
  {
    hide Tickets, OwnersHoldNoTicket, TicketsExist, Decisions, Executions, Ticket, Core, DecisionFits, OnlyLoses;
    hide Deciders;
    var s' := JobApply(c, s, First(a), ClaimResumed(w));
    var r := s.resumes[First(a)].run;
    ResumedDecision(c, s, a);
    TicketsUse(s.runs, s.approvals, s.resumes, a, s'.runs[r]);
    ResumeExist(s, a, s'.runs[r]);
    JobLoses(s.approvals, s.resumes, First(a));
    DecisionsTickets(s.workers, s.approvals, s.resumes, s.executions, s.approvals, s.resumes - {First(a)});
    DecisionsMore(s.workers, s.approvals, s.resumes - {First(a)}, s.executions, w, s'.workers[w]);
    ExecutionsTickets(c.gated, s.approvals, s.resumes, s.executions, s.approvals, s.resumes - {First(a)});
    ResumeOwners(c, s, a, w, s');
  }

  lemma JobLoses(approvals: Approvals, resumes: Resumes, j: JobId)
    ensures OnlyLoses(approvals, resumes, approvals, resumes - {j})
  {
  }

  lemma ResumeOwners(c: Config, s: State, a: ApprovalId, w: WorkerId, s': State)
    requires Core(c, s) && Gate(c, s) && JobEnabled(c, s, First(a), ClaimResumed(w))
    requires s.runs[s.resumes[First(a)].run].status.AwaitingApproval?
    requires s' == JobApply(c, s, First(a), ClaimResumed(w))
    ensures OwnersHoldNoTicket(s'.workers, s'.approvals, s'.resumes)
  {
    hide Reads, Conversations, Accounts, TicketsExist, Deciders, Decisions, Executions, Sightings;
    assert Ticket(s.approvals, s.resumes, a) && s.approvals[a].run == s.resumes[First(a)].run;
  }

  lemma ResumeOrphanedGate(c: Config, s: State, a: ApprovalId)
    requires Gate(c, s) && JobEnabled(c, s, First(a), ClaimResumedOrphaned)
    requires s.runs[s.resumes[First(a)].run].status.AwaitingApproval?
    ensures Gate(c, JobApply(c, s, First(a), ClaimResumedOrphaned))
  {
    var r := s.resumes[First(a)].run;
    var row := ClaimedRow(s.runs[r], s.now).(status := Failed);
    RowGate(c, s, SetRun(s, r, row), r, row);
    DropJobGate(c, SetRun(s, r, row), a, s.strandedRuns);
  }

  lemma JobGate(c: Config, s: State, j: JobId, step: JobStep)
    requires OneJobEach(c) && Core(c, s) && Gate(c, s) && JobEnabled(c, s, j, step)
    ensures Gate(c, JobApply(c, s, j, step))
  {
    var a := j.approval;
    assert j == First(a);
    if step.LoseResume? {
      DropJobGate(c, s, a, JobApply(c, s, j, step).strandedRuns);
    } else if !s.runs[s.resumes[j].run].status.AwaitingApproval? {
      DropJobGate(c, s, a, s.strandedRuns);
    } else if step.ClaimResumed? {
      ResumeGate(c, s, a, step.w);
    } else if step.ReadCheckpoint? {
      assert RowOk(s.runs[s.resumes[j].run]);
      ReadGate(c, s, a, JobApply(c, s, j, step).resumes[j]);
    } else {
      ResumeOrphanedGate(c, s, a);
    }
  }

  // ------------------------------------------------------------ every action

  lemma GateKept(c: Config, s: State, a: Action)
    requires OneJobEach(c) && Core(c, s) && Gate(c, s) && Enabled(c, s, a)
    ensures Gate(c, Apply(c, s, a))
  {
    match a
    case Tick =>
    case Submission(u, step) =>
      if step.InsertRun? { InsertGate(c, s, step.run, NewRun(s.submissions[u], None)); }
    case Turn(w, step) => TurnGate(c, s, w, step);
    case Tool(w, step) => ToolGate(c, s, w, step);
    case Ownership(w, step) => OwnershipGate(c, s, w, step);
    case OnRun(r, step) => OthersGate(c, s, r, step);
    case Operator(o, step) => OperatorGate(c, s, o, step);
    case OnJob(j, step) => JobGate(c, s, j, step);
  }

  // Every action keeps the whole invariant, in every deployment.
  lemma ActionKept(c: Config, s: State, a: Action)
    requires Inv(c, s) && Enabled(c, s, a)
    ensures Inv(c, Apply(c, s, a))
  {
    CoreKept(c, s, a);
    if OneJobEach(c) {
      GateKept(c, s, a);
    }
  }
}
