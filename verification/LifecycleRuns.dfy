// Safety of whole runs of the command, response and triage protocol.
module LifecycleRuns {
  import opened Aggregates
  import opened Lifecycle
  import opened LifecycleInvariants

  lemma EmptyInv()
    ensures Inv(EMPTY) && FoldsTo(EMPTY)
    ensures forall now :: OneOpen(EMPTY, now)
  {
  }

  // In every reachable state, whatever ids the commands take: deliveries agree with phases, a command has a
  // result row exactly when its phase is that outcome and never two, and every approved action has its own
  // "resp-" command.
  lemma {:induction false} RunKeepsInv(s: State, ops: seq<Op>)
    requires Inv(s)
    ensures Inv(Run(s, ops))
  {
    hide Inv, Step;
    if ops != [] {
      RunKeepsInv(s, ops[..|ops| - 1]);
      StepGood(Run(s, ops[..|ops| - 1]), ops[|ops| - 1]);
      GoodInv(Run(s, ops[..|ops| - 1]), Run(s, ops), ops[|ops| - 1].now);
    }
  }

  lemma Reachable(ops: seq<Op>)
    ensures Inv(Run(EMPTY, ops))
  {
    EmptyInv();
    RunKeepsInv(EMPTY, ops);
  }

  // The part of Keeps that does not look at the clock.
  ghost predicate History(s: State, t: State) {
    && (forall id :: CommandKept(s, t, id))
    && (forall r :: ActionKept(s, t, r))
    && (forall r :: CancelKept(s, t, r))
  }

  lemma HistoryTrans(s: State, t: State, u: State)
    requires History(s, t) && History(t, u)
    ensures History(s, u)
  {
    forall id ensures CommandKept(s, u, id) { assert CommandKept(s, t, id) && CommandKept(t, u, id); }
    forall r ensures ActionKept(s, u, r) { assert ActionKept(s, t, r) && ActionKept(t, u, r); }
    forall r ensures CancelKept(s, u, r) { assert CancelKept(s, t, r) && CancelKept(t, u, r) && ActionKept(s, t, r); }
  }

  lemma StepHistory(s: State, op: Op)
    requires Inv(s)
    ensures History(s, Step(s, op)) && Inv(Step(s, op))
  {
    hide Inv, Step, CommandKept, ActionKept, CancelKept;
    StepGood(s, op);
  }

  // From any reachable state on, whatever happens: a terminal command never changes, a delivery is never
  // undone, a decided action keeps its decision, and once a run is cancelled none of its items is
  // authorized, dispatched, redelivered or accepted again.
  lemma {:induction false} RunHistory(s: State, ops: seq<Op>)
    requires Inv(s)
    ensures History(s, Run(s, ops))
  {
    hide Inv, Step, History;
    if ops == [] {
      assert History(s, s) by { KeepsSelf(s, 0); SelfHistory(s); }
    } else {
      var before := Run(s, ops[..|ops| - 1]);
      RunHistory(s, ops[..|ops| - 1]);
      RunKeepsInv(s, ops[..|ops| - 1]);
      StepHistory(before, ops[|ops| - 1]);
      HistoryTrans(s, before, Run(s, ops));
    }
  }

  lemma SelfHistory(s: State)
    ensures History(s, s)
  {
  }

  // A cancelled command was never delivered and never will be.
  lemma CancelledNeverDelivered(ops: seq<Op>, more: seq<Op>, id: CommandId)
    requires id in Run(EMPTY, ops).commands && Run(EMPTY, ops).commands[id].phase == Cancelled
    ensures var t := Run(Run(EMPTY, ops), more);
      id in t.commands && t.commands[id].phase == Cancelled && t.commands[id].delivered == None
  {
    hide Run;
    var s := Run(EMPTY, ops);
    Reachable(ops);
    RunHistory(s, more);
    assert CommandKept(s, Run(s, more), id);
    assert DeliveryOk(s.commands[id]);
  }

  // ---- the clock ----

  function When(op: Op): int { op.now }

  // With a clock that never goes back, at most one action of detection or analyst origin is open for the
  // same host, kind and target, at every point of every run.
  lemma {:induction false} RunOneOpen(s: State, ops: seq<Op>, start: int)
    requires Inv(s) && OneOpen(s, start) && Monotone(ops, When, start)
    ensures OneOpen(Run(s, ops), Clock(ops, When, start))
  {
    hide Inv, Step, OneOpen, Keeps;
    if ops != [] {
      var less := ops[..|ops| - 1];
      var op := ops[|ops| - 1];
      MonotonePrefix(ops, When, start);
      RunOneOpen(s, less, start);
      RunKeepsInv(s, less);
      OneOpenLater(Run(s, less), Clock(less, When, start), op.now);
      StepGood(Run(s, less), op);
    }
  }

  // A closed action never reopens.
  lemma {:induction false} ClosedStaysClosed(s: State, ops: seq<Op>, start: int, r: string)
    requires Inv(s) && Monotone(ops, When, start)
    requires r in s.actions && !OpenAt(s, r, start)
    ensures r in Run(s, ops).actions && !OpenAt(Run(s, ops), r, Clock(ops, When, start))
  {
    hide Inv, Step;
    if ops != [] {
      var less := ops[..|ops| - 1];
      var op := ops[|ops| - 1];
      MonotonePrefix(ops, When, start);
      ClosedStaysClosed(s, less, start, r);
      RunKeepsInv(s, less);
      var t := Run(s, less);
      StepGood(t, op);
      assert !OpenAt(t, r, op.now);
      assert ClosedKept(t, Step(t, op), op.now, r) && ActionKept(t, Step(t, op), r);
    }
  }

  // ---- the audit trail of a command reproduces its phase ----

  // The state in which submit_result looks at the command.
  predicate Heard(s: State, op: Op) {
    op.Submit? &&
    var t := SweepCommands(s, op.now);
    && op.id in t.commands && t.commands[op.id].agent == op.agent
    && (op.v2 || t.commands[op.id].expiresAt > op.now) && op.valid
    && !(op.v2 && op.resultId in t.receipts && t.receipts[op.resultId] != Receipt(op.agent, op.id, op.digest))
    && InFlight(t.commands[op.id].phase)
  }

  // A result is audited as received although its id is already taken by another command's result.
  predicate SilentResult(s: State, op: Op) { Heard(s, op) && op.resultId in s.results }

  lemma FoldRecord(s: State, id: CommandId, d: Command, e: Event)
    requires RowsOk(s) && FoldsTo(s)
    requires id in s.commands ==> Moves(s.commands[id], e, d) && (e.ResultReceived? ==> d.phase == Finished(e.outcome))
    requires id !in s.commands ==> e == Created && d.phase == Authorized
    ensures FoldsTo(Record(s, id, d, e))
  {
    FoldAppend(Log(s, id), e);
  }

  lemma FoldSame(s: State, t: State)
    requires FoldsTo(s) && t.commands == s.commands && t.audit == s.audit
    ensures FoldsTo(t)
  {
  }

  lemma FoldSweep(s: State, now: int)
    requires RowsOk(s) && FoldsTo(s)
    ensures FoldsTo(SweepCommands(s, now)) && RowsOk(SweepCommands(s, now))
  {
    hide Fold;
    var t := SweepCommands(s, now);
    forall id | id in t.commands ensures Fold(Log(t, id)) == Some(t.commands[id].phase) {
      FoldAppend(Log(s, id), Expiry);
    }
  }

  lemma FoldRetire(s: State, rids: set<string>)
    requires RowsOk(s) && FoldsTo(s)
    ensures FoldsTo(Retire(s, rids)) && RowsOk(Retire(s, rids))
  {
    hide Fold;
    var t := Retire(s, rids);
    forall id | id in t.commands ensures Fold(Log(t, id)) == Some(t.commands[id].phase) {
      FoldAppend(Log(s, id), Cancellation);
    }
  }

  lemma FoldSend(s: State, ids: set<CommandId>, now: int)
    requires RowsOk(s) && FoldsTo(s)
    ensures FoldsTo(Send(s, ids, now))
  {
    hide Fold;
    var t := Send(s, ids, now);
    forall id | id in t.commands ensures Fold(Log(t, id)) == Some(t.commands[id].phase) {
      FoldAppend(Log(s, id), Dispatch);
    }
  }

  lemma FoldCreate(s: State, id: CommandId, agent: string, collection: bool, expiresAt: int)
    requires RowsOk(s) && FoldsTo(s) && id !in s.commands
    ensures var t := Create(s, id, agent, collection, expiresAt); RowsOk(t) && FoldsTo(t)
  {
    hide Fold;
    FoldRecord(s, id, Command(agent, collection, Authorized, None, expiresAt), Created);
  }

  lemma FoldApprove(s: State, now: int, r: string, gate: Gate, collection: bool, expiresAt: int, vetoed: set<string>)
    requires RowsOk(s) && FoldsTo(s)
    ensures var a := Approve(s, now, r, gate, collection, expiresAt, vetoed); a.Some? ==> FoldsTo(a.value) && RowsOk(a.value)
  {
    hide RowsOk, FoldsTo, Create;
    var a := Approve(s, now, r, gate, collection, expiresAt, vetoed);
    if a.Some? {
      if r in s.actions && s.actions[r].state == Pending && s.actions[r].agent.Some? && gate == Proceed {
        FoldCreate(s, Resp(r), s.actions[r].agent.value, collection, expiresAt);
        RowsSame(Create(s, Resp(r), s.actions[r].agent.value, collection, expiresAt), a.value);
      } else {
        RowsSame(s, a.value);
      }
    }
  }

  lemma {:induction false} FoldStart(s: State, now: int, alert: string, agent: string, host: Option<string>, items: seq<Item>, deadline: int)
    requires RowsOk(s) && FoldsTo(s)
    ensures var r := StartItems(s, now, alert, agent, host, items, deadline); r.Some? ==> FoldsTo(r.value) && RowsOk(r.value)
  {
    hide Approve, RowsOk, FoldsTo;
    if items != [] {
      FoldStart(s, now, alert, agent, host, items[..|items| - 1], deadline);
      var before := StartItems(s, now, alert, agent, host, items[..|items| - 1], deadline);
      if before.Some? {
        var t := before.value;
        var i := items[|items| - 1];
        var staged := Stage(t, i.rid, Action(Some(agent), host, i.kind, i.target, Triage, Pending, None, now)).(items := t.items[i.rid := alert]);
        RowsSame(t, staged);
        FoldApprove(staged, now, i.rid, i.gate, true, deadline, if i.vetoed then {i.rid} else {});
      }
    }
  }

  lemma RowsSame(s: State, t: State)
    requires RowsOk(s) && FoldsTo(s) && t.commands == s.commands && t.audit == s.audit
    ensures RowsOk(t) && FoldsTo(t)
  {
  }

  // The state in which the submitted result is judged: swept, with its receipt kept.
  function Judged(s: State, op: Op): State
    requires op.Submit?
  {
    var t := SweepCommands(s, op.now);
    if op.v2 then t.(receipts := t.receipts[op.resultId := Receipt(op.agent, op.id, op.digest)]) else t
  }

  lemma JudgedFolds(s: State, op: Op)
    requires RowsOk(s) && FoldsTo(s) && op.Submit?
    ensures RowsOk(Judged(s, op)) && FoldsTo(Judged(s, op))
  {
    hide RowsOk, FoldsTo, SweepCommands;
    FoldSweep(s, op.now);
    RowsSame(SweepCommands(s, op.now), Judged(s, op));
  }

  lemma FoldSilent(s: State, op: Op)
    requires RowsOk(s) && FoldsTo(s) && op.Submit? && SilentResult(s, op)
    ensures !FoldsTo(Step(s, op))
  {
    hide Fold;
    var u := Judged(s, op);
    var after := Step(s, op);
    assert after == Record(u, op.id, u.commands[op.id], ResultReceived(op.outcome));
    FoldAppend(Log(u, op.id), ResultReceived(op.outcome));
    assert op.id in after.commands && Fold(Log(after, op.id)) != Some(after.commands[op.id].phase);
  }

  lemma FoldLoud(s: State, op: Op)
    requires RowsOk(s) && FoldsTo(s) && op.Submit? && !SilentResult(s, op)
    ensures FoldsTo(Step(s, op))
  {
    hide Fold, FoldsTo, RowsOk, SweepCommands, PollStep, AcceptStep, AlertStep, RequestStep, AuthorizeStep, RejectStep,
      CancelStep, StartStep, CancelRunStep, Reconcile;
    JudgedFolds(s, op);
    SweepsKeepResults(s, op.now, {}, {});
    var u := Judged(s, op);
    var after := Step(s, op);
    if Heard(s, op) {
      FoldRecord(u, op.id, u.commands[op.id].(phase := Finished(op.outcome)), ResultReceived(op.outcome));
      FoldSame(Record(u, op.id, u.commands[op.id].(phase := Finished(op.outcome)), ResultReceived(op.outcome)), after);
    } else if after != s {
      FoldRecord(u, op.id, u.commands[op.id], ResultIgnored(op.outcome));
    }
  }

  lemma FoldSubmit(s: State, op: Op)
    requires Inv(s) && FoldsTo(s) && op.Submit?
    ensures FoldsTo(Step(s, op)) <==> !SilentResult(s, op)
  {
    hide ResultsOk, LinksOk, ItemsOk, FoldsTo, RowsOk, Step, SilentResult;
    if SilentResult(s, op) { FoldSilent(s, op); } else { FoldLoud(s, op); }
  }

  lemma FoldAccept(s: State, op: Op)
    requires Inv(s) && FoldsTo(s) && op.Accept?
    ensures FoldsTo(Step(s, op))
  {
    hide ResultsOk, LinksOk, ItemsOk, RowsOk, FoldsTo, SweepCommands, Acknowledge;
    FoldSweep(s, op.now);
    var t := SweepCommands(s, op.now);
    if op.id in t.commands { FoldAcknowledge(t, op.id, op.vetoed); }
  }

  lemma FoldAcknowledge(t: State, id: CommandId, vetoed: set<string>)
    requires RowsOk(t) && FoldsTo(t) && id in t.commands
    ensures FoldsTo(Acknowledge(t, id, vetoed))
  {
    hide RowsOk, FoldsTo, Record, Blocked;
    FoldRecord(t, id, t.commands[id], AcceptanceRefused);
    if t.commands[id].phase == Dispatched {
      FoldRecord(t, id, t.commands[id].(phase := Accepted), Acceptance);
    }
  }

  lemma FoldCancel(s: State, op: Op)
    requires Inv(s) && FoldsTo(s) && op.Cancel?
    ensures FoldsTo(Step(s, op))
  {
    hide ResultsOk, LinksOk, ItemsOk, RowsOk, FoldsTo, SweepCommands, Record;
    FoldSweep(s, op.now);
    var t := SweepCommands(s, op.now);
    if op.rid in t.actions && t.actions[op.rid].command.Some? && t.actions[op.rid].command.value in t.commands {
      var id := t.actions[op.rid].command.value;
      if t.commands[id].phase == Authorized {
        FoldRecord(t, id, t.commands[id].(phase := Cancelled), Cancellation);
      }
    }
  }

  lemma FoldPoll(s: State, op: Op)
    requires Inv(s) && FoldsTo(s) && op.Poll?
    ensures FoldsTo(Step(s, op))
  {
    hide RowsOk, FoldsTo, SweepCommands, Retire, Send, Select, ResultsOk, LinksOk, ItemsOk;
    FoldSweep(s, op.now);
    var a := SweepCommands(s, op.now);
    FoldRetire(a, Unfit(a, Some(op.agent), op.retired));
    var b := Reconcile(a, Some(op.agent), op.retired);
    FoldSend(b, Select(b, op.rows, op.vetoed, op.agent, op.durable, op.now).ids, op.now);
  }

  lemma FoldActions(s: State, op: Op)
    requires Inv(s) && FoldsTo(s)
    requires op.OnAlert? || op.Authorize? || op.Request? || op.Reject? || op.ReadQueue?
    ensures FoldsTo(Step(s, op))
  {
    hide RowsOk, FoldsTo, Approve, ResultsOk, LinksOk, ItemsOk, OpenDuplicate, AgentDuplicate, SweepCommands;
    match op
    case OnAlert(now, rid, agent, host, hint, kind, target, collection, refusal, auto, gate) =>
      var row := Action(agent, host, kind, target, Detection, Pending, None, now);
      RowsSame(s, Stage(s, rid, row));
      RowsSame(s, Stage(s, rid, row.(state := Declined)));
      FoldApprove(Stage(s, rid, row), now, rid, gate, collection, now + COMMAND_TTL, {});
    case Authorize(now, rid, gate, collection, deadline, vetoed, allowed) =>
      RowsSame(s, SweepActions(s, now));
      FoldApprove(SweepActions(s, now), now, rid, gate, collection, if deadline.Some? then deadline.value else now + COMMAND_TTL, vetoed);
    case Request(now, rid, agent, host, alertHost, kind, target, valid) =>
      RowsSame(s, SweepActions(s, now));
      FoldSweep(SweepActions(s, now), now);
      var t := SweepCommands(SweepActions(s, now), now);
      RowsSame(t, Stage(t, rid, Action(Some(agent), alertHost, kind, target, Analyst, Pending, None, now)));
    case Reject(now, rid) =>
      RowsSame(s, SweepActions(s, now));
      if rid in s.actions {
        var t := SweepActions(s, now);
        RowsSame(t, Stage(t, rid, t.actions[rid].(state := Declined)));
      }
    case ReadQueue(now) =>
      RowsSame(s, SweepActions(s, now));
      FoldSweep(SweepActions(s, now), now);
  }

  lemma FoldRuns(s: State, op: Op)
    requires Inv(s) && FoldsTo(s)
    requires op.StartRun? || op.CancelRun? || op.ReadRuns? || op.Enqueue?
    ensures FoldsTo(Step(s, op))
  {
    hide RowsOk, FoldsTo, StartItems, ResultsOk, LinksOk, ItemsOk, Retire;
    match op
    case StartRun(now, alert, agent, host, items, until) =>
      var t := s.(runs := s.runs[alert := TriageRun(agent, false)]);
      RowsSame(s, t);
      FoldStart(t, now, alert, agent, host, items, until);
    case CancelRun(now, alert) =>
      if alert in s.runs {
        var t := s.(runs := s.runs[alert := s.runs[alert].(cancelled := true)]);
        RowsSame(s, t);
        FoldRetire(t, ItemsOf(s, alert));
      }
    case ReadRuns(now, retired) => FoldRetire(s, Unfit(s, None, retired));
    case Enqueue(now, id, agent, collection, expiresAt, allowed) =>
      if id !in s.commands {
        FoldRecord(s, id, Command(agent, collection, Authorized, None, expiresAt), Created);
      }
  }

  // Folding a command's own events reproduces its phase after a request exactly when the request did not
  // report a result under an id that another command's result already holds.
  lemma FoldExactly(s: State, op: Op)
    requires Inv(s) && FoldsTo(s)
    ensures FoldsTo(Step(s, op)) <==> !SilentResult(s, op)
  {
    hide Inv, FoldsTo, Step;
    match op
    case Submit(_, _, _, _, _, _, _, _) => FoldSubmit(s, op);
    case Accept(_, _, _, _) => FoldAccept(s, op);
    case Cancel(_, _) => FoldCancel(s, op);
    case Poll(_, _, _, _, _, _, _, _) => FoldPoll(s, op);
    case OnAlert(_, _, _, _, _, _, _, _, _, _, _) => FoldActions(s, op);
    case Authorize(_, _, _, _, _, _, _) => FoldActions(s, op);
    case Request(_, _, _, _, _, _, _, _) => FoldActions(s, op);
    case Reject(_, _) => FoldActions(s, op);
    case ReadQueue(_) => FoldActions(s, op);
    case StartRun(_, _, _, _, _, _) => FoldRuns(s, op);
    case CancelRun(_, _) => FoldRuns(s, op);
    case ReadRuns(_, _) => FoldRuns(s, op);
    case Enqueue(_, _, _, _, _, _) => FoldRuns(s, op);
  }

  // No two results of different commands are reported under one id.
  ghost predicate DistinctResultIds(ops: seq<Op>) {
    forall i, j :: 0 <= i < |ops| && 0 <= j < |ops| && ops[i].Submit? && ops[j].Submit? && ops[i].resultId == ops[j].resultId ==>
      ops[i].id == ops[j].id
  }

  ghost predicate Reported(ops: seq<Op>, k: string, id: CommandId) {
    exists i :: 0 <= i < |ops| && ops[i].Submit? && ops[i].resultId == k && ops[i].id == id
  }

  lemma ApproveResults(s: State, now: int, r: string, gate: Gate, collection: bool, expiresAt: int, vetoed: set<string>)
    ensures var a := Approve(s, now, r, gate, collection, expiresAt, vetoed); a.Some? ==> a.value.results == s.results
  {
    hide Blocked;
  }

  lemma {:induction false} StartResults(s: State, now: int, alert: string, agent: string, host: Option<string>, items: seq<Item>, deadline: int)
    ensures var r := StartItems(s, now, alert, agent, host, items, deadline); r.Some? ==> r.value.results == s.results
  {
    hide Approve;
    if items != [] {
      var n, i := |items| - 1, items[|items| - 1];
      StartResults(s, now, alert, agent, host, items[..n], deadline);
      var before := StartItems(s, now, alert, agent, host, items[..n], deadline);
      if before.Some? {
        var t := before.value;
        var staged := Stage(t, i.rid, Action(Some(agent), host, i.kind, i.target, Triage, Pending, None, now)).(items := t.items[i.rid := alert]);
        ApproveResults(staged, now, i.rid, i.gate, true, deadline, if i.vetoed then {i.rid} else {});
      }
    }
  }

  // Sweeps, withdrawals and dispatch leave the results alone.
  lemma SweepsKeepResults(s: State, now: int, rids: set<string>, ids: set<CommandId>)
    ensures SweepCommands(s, now).results == s.results && SweepActions(s, now).results == s.results
    ensures Retire(s, rids).results == s.results && Send(s, ids, now).results == s.results
  {
  }

  lemma PollResults(s: State, op: Op)
    requires op.Poll?
    ensures Step(s, op).results == s.results
  {
    hide SweepCommands, Retire, Send, Select, Unfit;
    var a := SweepCommands(s, op.now);
    var b := Retire(a, Unfit(a, Some(op.agent), op.retired));
    SweepsKeepResults(s, op.now, {}, {});
    SweepsKeepResults(a, op.now, Unfit(a, Some(op.agent), op.retired), {});
    SweepsKeepResults(b, op.now, {}, Select(b, op.rows, op.vetoed, op.agent, op.durable, op.now).ids);
  }

  lemma StagedResults(s: State, now: int, rid: string, row: Action, collection: bool, auto: bool, gate: Gate)
    ensures Staged(s, now, rid, row, collection, auto, gate).results == s.results
  {
    hide Approve;
    ApproveResults(Stage(s, rid, row), now, rid, gate, collection, now + COMMAND_TTL, {});
  }

  lemma ActionResults(s: State, op: Op)
    requires op.OnAlert? || op.Authorize? || op.StartRun?
    ensures Step(s, op).results == s.results
  {
    hide Approve, StartItems, Staged, OpenDuplicate, SweepActions;
    SweepsKeepResults(s, op.now, {}, {});
    match op
    case OnAlert(now, rid, owner, host, hint, kind, target, collection, _, auto, gate) =>
      StagedResults(s, now, rid, Action(owner, host, kind, target, Detection, Pending, None, now), collection, auto, gate);
    case Authorize(now, rid, gate, collection, deadline, vetoed, _) =>
      ApproveResults(SweepActions(s, now), now, rid, gate, collection, if deadline.Some? then deadline.value else now + COMMAND_TTL, vetoed);
    case StartRun(now, alert, agent, host, items, until) =>
      StartResults(s.(runs := s.runs[alert := TriageRun(agent, false)]), now, alert, agent, host, items, until);
  }

  lemma RecordResults(s: State, id: CommandId, c: Command, e: Event)
    ensures Record(s, id, c, e).results == s.results
  {
  }

  lemma CommandResults(s: State, op: Op)
    requires op.Accept? || op.Cancel? || op.Enqueue?
    ensures Step(s, op).results == s.results
  {
    hide SweepCommands, Blocked, Record;
    SweepsKeepResults(s, op.now, {}, {});
    forall t, id, c, e ensures Record(t, id, c, e).results == t.results { RecordResults(t, id, c, e); }
  }

  lemma OtherResults(s: State, op: Op)
    requires op.Request? || op.Reject? || op.ReadQueue? || op.CancelRun? || op.ReadRuns?
    ensures Step(s, op).results == s.results
  {
    hide SweepCommands, SweepActions, Retire, OpenDuplicate, AgentDuplicate, Unfit;
    SweepsKeepResults(s, op.now, if op.ReadRuns? then Unfit(s, None, op.retired) else {}, {});
    SweepsKeepResults(SweepActions(s, op.now), op.now, {}, {});
    if op.CancelRun? && op.alert in s.runs {
      SweepsKeepResults(s.(runs := s.runs[op.alert := s.runs[op.alert].(cancelled := true)]), op.now, ItemsOf(s, op.alert), {});
    }
  }

  lemma JudgeResults(u: State, agent: string, resultId: string, id: CommandId, outcome: Outcome)
    requires id in u.commands
    ensures Judge(u, agent, resultId, id, outcome).results ==
      if InFlight(u.commands[id].phase) && resultId !in u.results then u.results[resultId := Result(id, agent, outcome)] else u.results
  {
    hide Record;
    forall t, c, e ensures Record(t, id, c, e).results == t.results { RecordResults(t, id, c, e); }
  }

  lemma SubmitResults(s: State, op: Op)
    requires op.Submit?
    ensures var t := Step(s, op); t.results == s.results || t.results == s.results[op.resultId := Result(op.id, op.agent, op.outcome)]
  {
    hide SweepCommands, Judge;
    SweepsKeepResults(s, op.now, {}, {});
    if op.id in Judged(s, op).commands { JudgeResults(Judged(s, op), op.agent, op.resultId, op.id, op.outcome); }
  }

  // Only a submitted result adds a result row, under its own id and for its own command.
  lemma NewResult(s: State, op: Op, k: string)
    ensures k in Step(s, op).results && k !in s.results ==>
      op.Submit? && op.resultId == k && Step(s, op).results[k].command == op.id
  {
    hide Step;
    if op.Submit? { SubmitResults(s, op); }
    else if op.Poll? { PollResults(s, op); }
    else if op.OnAlert? || op.Authorize? || op.StartRun? { ActionResults(s, op); }
    else if op.Accept? || op.Cancel? || op.Enqueue? { CommandResults(s, op); }
    else { OtherResults(s, op); }
  }

  lemma {:induction false} ResultsReported(ops: seq<Op>, k: string)
    ensures k in Run(EMPTY, ops).results ==> Reported(ops, k, Run(EMPTY, ops).results[k].command)
  {
    hide Step, Inv, Reported;
    if ops != [] && k in Run(EMPTY, ops).results {
      var n := |ops| - 1;
      var s := Run(EMPTY, ops[..n]);
      ResultsReported(ops[..n], k);
      Reachable(ops[..n]);
      StepGood(s, ops[n]);
      if k !in s.results {
        NewResult(s, ops[n], k);
        ReportedLast(ops, k);
      } else {
        ReportedMore(ops, n, k, s.results[k].command);
      }
    }
  }

  lemma ReportedLast(ops: seq<Op>, k: string)
    requires ops != [] && ops[|ops| - 1].Submit? && ops[|ops| - 1].resultId == k
    ensures Reported(ops, k, ops[|ops| - 1].id)
  {
  }

  lemma ReportedMore(ops: seq<Op>, n: nat, k: string, id: CommandId)
    requires n <= |ops| && Reported(ops[..n], k, id)
    ensures Reported(ops, k, id)
  {
    var i :| 0 <= i < n && ops[..n][i].Submit? && ops[..n][i].resultId == k && ops[..n][i].id == id;
    assert ops[i].Submit?;
  }

  // A command that has a result is no longer in flight, also after the sweep.
  lemma FinishedNotHeard(s: State, op: Op)
    requires Inv(s) && (op.Submit? && op.resultId in s.results ==> s.results[op.resultId].command == op.id)
    ensures !SilentResult(s, op)
  {
    hide RowsOk, LinksOk, ItemsOk;
    if op.Submit? && op.resultId in s.results {
      assert s.commands[op.id].phase.Finished?;
      assert SweepCommands(s, op.now).commands[op.id] == s.commands[op.id];
    }
  }

  // In every run that reports no two commands' results under one id, the events of every command fold to its phase.
  lemma {:induction false} RunFolds(ops: seq<Op>)
    requires DistinctResultIds(ops)
    ensures FoldsTo(Run(EMPTY, ops))
  {
    hide Inv, FoldsTo, Step, SilentResult;
    if ops == [] {
      EmptyInv();
    } else {
      var n := |ops| - 1;
      var s, op := Run(EMPTY, ops[..n]), ops[n];
      RunFolds(ops[..n]);
      Reachable(ops[..n]);
      FoldExactly(s, op);
      if op.Submit? && op.resultId in s.results {
        ResultsReported(ops[..n], op.resultId);
        var i :| 0 <= i < n && ops[..n][i].Submit? && ops[..n][i].resultId == op.resultId
          && ops[..n][i].id == s.results[op.resultId].command;
        assert ops[i].id == ops[n].id;
      }
      FinishedNotHeard(s, op);
    }
  }

}
