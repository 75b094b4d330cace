// When at most one command of a triage run is dispatched or accepted, and which commands belong to no approval.
// The busy query of manager/auto_triage.py joins through response_actions.command_id, so it does not see a
// command that was enqueued directly under a response id.
module LifecycleExclusion {
  import opened Aggregates
  import opened Lifecycle
  import opened LifecycleInvariants
  import opened LifecycleEffects
  import LifecycleRuns

  // At most one command of a triage run is dispatched or accepted.
  ghost predicate Exclusive(s: State) {
    forall a, b :: a in s.items && b in s.items && s.items[a] == s.items[b] && Flying(s, a) && Flying(s, b) ==> a == b
  }

  // ---- where commands come from ----

  // Every new command is that of an approved action.
  ghost predicate Born(s: State, t: State) {
    forall id :: id in t.commands && id !in s.commands ==> id.Resp? && id.rid in t.actions && t.actions[id.rid].state == Approved
  }

  ghost predicate ApprovalsKept(s: State, t: State) {
    forall r :: r in s.actions && s.actions[r].state == Approved ==> r in t.actions && t.actions[r].state == Approved
  }

  // Nothing starts to fly.
  ghost predicate Grounded(s: State, t: State) { forall r :: Flying(t, r) ==> Flying(s, r) }

  ghost predicate Tame(s: State, t: State) { Born(s, t) && ApprovalsKept(s, t) && Grounded(s, t) }

  lemma TameTrans(s: State, t: State, u: State)
    requires Tame(s, t) && Tame(t, u)
    ensures Tame(s, u)
  {
  }

  lemma TameSame(s: State, t: State)
    requires t.commands == s.commands && t.actions == s.actions
    ensures Tame(s, t)
  {
  }

  lemma SweepCommandsTame(s: State, now: int)
    ensures Tame(s, SweepCommands(s, now)) && SweepCommands(s, now).items == s.items
  {
  }

  lemma SweepActionsTame(s: State, now: int)
    ensures Tame(s, SweepActions(s, now)) && SweepActions(s, now).items == s.items
  {
  }

  lemma RetireTame(s: State, rids: set<string>)
    ensures Tame(s, Retire(s, rids)) && Retire(s, rids).items == s.items
  {
  }

  lemma RecordTame(s: State, id: CommandId, c: Command, e: Event)
    requires id in s.commands && (InFlight(c.phase) ==> InFlight(s.commands[id].phase))
    ensures Tame(s, Record(s, id, c, e))
  {
    hide Tame;
    RowTame(s, Record(s, id, c, e), id);
  }

  lemma StageTame(s: State, r: string, a: Action)
    requires r !in s.actions || s.actions[r].state != Approved
    ensures Tame(s, Stage(s, r, a)) && Stage(s, r, a).items == s.items
  {
  }

  lemma ApprovalTame(s: State, r: string, agent: string, collection: bool, expiresAt: int)
    requires r in s.actions && Resp(r) !in s.commands
    ensures var t := Approval(s, r, agent, collection, expiresAt);
      Tame(s, t) && t.items == s.items && t.actions.Keys == s.actions.Keys && forall q :: Flying(s, q) ==> Flying(t, q)
  {
  }

  lemma ApproveTame(s: State, now: int, r: string, gate: Gate, collection: bool, expiresAt: int, vetoed: set<string>)
    ensures var a := Approve(s, now, r, gate, collection, expiresAt, vetoed); a.Some? ==> Tame(s, a.value) && a.value.items == s.items
  {
    hide Tame, Blocked, Stage, Approval;
    TameSame(s, s);
    if r in s.actions && s.actions[r].state == Pending {
      StageTame(s, r, s.actions[r].(state := Declined));
      if s.actions[r].agent.Some? && Resp(r) !in s.commands {
        ApprovalTame(s, r, s.actions[r].agent.value, collection, expiresAt);
      }
    }
  }

  lemma AlertTame(s: State, op: Op)
    requires op.OnAlert?
    ensures Tame(s, Step(s, op)) && Step(s, op).items == s.items
  {
    hide OpenDuplicate, Staged, Tame;
    TameSame(s, s);
    if op.rid !in s.actions {
      var row := Action(op.owner, op.host, op.kind, op.target, Detection, Pending, None, op.now);
      StageTame(s, op.rid, row.(state := Declined));
      StagedAlertTame(s, op.now, op.rid, row, op.collection, op.auto, op.gate);
    }
  }

  lemma StagedAlertTame(s: State, now: int, rid: string, row: Action, collection: bool, auto: bool, gate: Gate)
    requires rid !in s.actions
    ensures var t := Staged(s, now, rid, row, collection, auto, gate); Tame(s, t) && t.items == s.items
  {
    hide Approve, Tame;
    var staged := Stage(s, rid, row);
    StageTame(s, rid, row);
    StageTame(s, rid, row.(state := Declined));
    ApproveTame(staged, now, rid, gate, collection, now + COMMAND_TTL, {});
    var a := Approve(staged, now, rid, gate, collection, now + COMMAND_TTL, {});
    if a.Some? { TameTrans(s, staged, a.value); }
  }

  lemma AuthorizeTame(s: State, op: Op)
    requires op.Authorize?
    ensures Tame(s, Step(s, op)) && Step(s, op).items == s.items
  {
    hide Approve, Tame, SweepActions;
    TameSame(s, s);
    SweepActionsTame(s, op.now);
    var t := SweepActions(s, op.now);
    var until := if op.deadline.Some? then op.deadline.value else op.now + COMMAND_TTL;
    ApproveTame(t, op.now, op.rid, op.gate, op.collection, until, op.vetoed);
    var a := Approve(t, op.now, op.rid, op.gate, op.collection, until, op.vetoed);
    if a.Some? { TameTrans(s, t, a.value); }
  }

  lemma DecisionTame(s: State, op: Op)
    requires op.Request? || op.Reject? || op.ReadQueue?
    ensures Tame(s, Step(s, op)) && Step(s, op).items == s.items
  {
    hide Tame, SweepActions, SweepCommands, OpenDuplicate, AgentDuplicate;
    TameSame(s, s);
    var t := SweepActions(s, op.now);
    var u := SweepCommands(t, op.now);
    SweepActionsTame(s, op.now);
    SweepCommandsTame(t, op.now);
    TameTrans(s, t, u);
    match op
    case Request(_, rid, agent, _, alertHost, kind, target, _) =>
      if rid !in u.actions {
        var row := Action(Some(agent), alertHost, kind, target, Analyst, Pending, None, op.now);
        StageTame(u, rid, row);
        TameTrans(s, u, Stage(u, rid, row));
      }
    case Reject(_, rid) =>
      if rid in t.actions && t.actions[rid].state == Pending {
        StageTame(t, rid, t.actions[rid].(state := Declined));
        TameTrans(s, t, Stage(t, rid, t.actions[rid].(state := Declined)));
      }
    case ReadQueue(_) =>
  }

  lemma CommandTame(s: State, op: Op)
    requires op.Accept? || op.Submit? || op.Cancel?
    ensures Tame(s, Step(s, op)) && Step(s, op).items == s.items
  {
    hide Tame, SweepCommands;
    TameSame(s, s);
    var t := SweepCommands(s, op.now);
    SweepCommandsTame(s, op.now);
    match op
    case Accept(_, _, id, _) =>
      if id in t.commands {
        RecordTame(t, id, t.commands[id], AcceptanceRefused);
        TameTrans(s, t, Record(t, id, t.commands[id], AcceptanceRefused));
        if t.commands[id].phase == Dispatched {
          var c := t.commands[id].(phase := Accepted);
          RecordTame(t, id, c, Acceptance);
          TameTrans(s, t, Record(t, id, c, Acceptance));
        }
      }
    case Submit(_, agent, resultId, id, outcome, v2, digest, _) =>
      if id in t.commands { SubmitTame(s, t, op); }
    case Cancel(_, rid) =>
      if rid in t.actions && t.actions[rid].command.Some? && t.actions[rid].command.value in t.commands {
        var id := t.actions[rid].command.value;
        var c := t.commands[id].(phase := Cancelled);
        RecordTame(t, id, c, Cancellation);
        TameTrans(s, t, Record(t, id, c, Cancellation));
      }
  }

  lemma SubmitTame(s: State, t: State, op: Op)
    requires op.Submit? && t == SweepCommands(s, op.now) && Tame(s, t) && t.items == s.items && op.id in t.commands
    ensures Tame(s, Step(s, op)) && Step(s, op).items == s.items
  {
    hide Tame, SweepCommands, Judge;
    TameSame(s, s);
    var u := if op.v2 then t.(receipts := t.receipts[op.resultId := Receipt(op.agent, op.id, op.digest)]) else t;
    TameSame(t, u);
    TameTrans(s, t, u);
    JudgeTame(u, op.agent, op.resultId, op.id, op.outcome);
    TameTrans(s, u, Judge(u, op.agent, op.resultId, op.id, op.outcome));
  }

  lemma JudgeTame(u: State, agent: string, resultId: string, id: CommandId, outcome: Outcome)
    requires id in u.commands
    ensures var t := Judge(u, agent, resultId, id, outcome); Tame(u, t) && t.items == u.items
  {
    hide Tame;
    var c := u.commands[id];
    RecordTame(u, id, c, ResultIgnored(outcome));
    RecordTame(u, id, c, ResultReceived(outcome));
    var v := u.(results := u.results[resultId := Result(id, agent, outcome)]);
    TameSame(u, v);
    RecordTame(v, id, c.(phase := Finished(outcome)), ResultReceived(outcome));
    TameTrans(u, v, Record(v, id, c.(phase := Finished(outcome)), ResultReceived(outcome)));
    hide Record;
  }

  lemma RowTame(s: State, t: State, id: CommandId)
    requires id in s.commands && id in t.commands && t.commands == s.commands[id := t.commands[id]] && t.actions == s.actions
    requires InFlight(t.commands[id].phase) ==> InFlight(s.commands[id].phase)
    ensures Tame(s, t)
  {
  }

  lemma RunTame(s: State, op: Op)
    requires op.ReadRuns? || op.CancelRun?
    ensures Tame(s, Step(s, op)) && Step(s, op).items == s.items
  {
    hide Tame, Retire;
    TameSame(s, s);
    match op
    case ReadRuns(_, retired) => RetireTame(s, Unfit(s, None, retired));
    case CancelRun(_, alert) =>
      if alert in s.runs {
        var t := s.(runs := s.runs[alert := s.runs[alert].(cancelled := true)]);
        TameSame(s, t);
        RetireTame(t, ItemsOf(s, alert));
        TameTrans(s, t, Retire(t, ItemsOf(s, alert)));
      }
  }

  // Requests other than a direct command, a poll and the start of a run create only commands of approved
  // actions, let nothing fly, and add no item.
  lemma StepTame(s: State, op: Op)
    requires !op.Enqueue? && !op.Poll? && !op.StartRun?
    ensures Tame(s, Step(s, op)) && Step(s, op).items == s.items
  {
    hide Tame, Step;
    if op.OnAlert? { AlertTame(s, op); }
    else if op.Authorize? { AuthorizeTame(s, op); }
    else if op.Request? || op.Reject? || op.ReadQueue? { DecisionTame(s, op); }
    else if op.Accept? || op.Submit? || op.Cancel? { CommandTame(s, op); }
    else { RunTame(s, op); }
  }

  // The start of a run: its items are new, and nothing else of this concern changes.
  ghost predicate Started(s: State, t: State, alert: string, items: seq<Item>) {
    && Tame(s, t) && (forall r :: Flying(s, r) ==> Flying(t, r))
    && (forall i :: 0 <= i < |items| ==> items[i].rid !in s.actions && items[i].rid in t.actions)
    && (forall r :: r in s.actions ==> r in t.actions)
    && (forall i, j :: 0 <= i < j < |items| ==> items[i].rid != items[j].rid)
    && (forall r :: r in t.items <==> r in s.items || exists i :: 0 <= i < |items| && items[i].rid == r)
    && (forall i :: 0 <= i < |items| ==> items[i].rid in t.items && t.items[items[i].rid] == alert)
    && (forall r :: r in s.items && r in s.actions ==> t.items[r] == s.items[r])
  }

  lemma ApproveFlies(s: State, now: int, r: string, gate: Gate, collection: bool, expiresAt: int, vetoed: set<string>)
    ensures var a := Approve(s, now, r, gate, collection, expiresAt, vetoed);
      a.Some? ==> a.value.actions.Keys == s.actions.Keys && forall q :: Flying(s, q) ==> Flying(a.value, q)
  {
    hide Blocked, Approval, Flying;
    if r in s.actions {
      var declined := Stage(s, r, s.actions[r].(state := Declined));
      assert declined.actions.Keys == s.actions.Keys;
      SameFlying(s, declined);
      if s.actions[r].agent.Some? && Resp(r) !in s.commands {
        ApprovalTame(s, r, s.actions[r].agent.value, collection, expiresAt);
      }
    }
  }

  lemma StagedTame(s: State, t: State, r: string, row: Action, alert: string, u: State)
    requires Tame(s, t) && r !in t.actions && Tame(Stage(t, r, row).(items := t.items[r := alert]), u)
    ensures Tame(s, u)
  {
    hide Tame;
    var staged := Stage(t, r, row);
    StageTame(t, r, row);
    TameSame(staged, staged.(items := t.items[r := alert]));
    TameTrans(t, staged, staged.(items := t.items[r := alert]));
    TameTrans(t, staged.(items := t.items[r := alert]), u);
    TameTrans(s, t, u);
  }

  lemma StartedNext(s: State, t: State, alert: string, items: seq<Item>, i: Item, u: State)
    requires Started(s, t, alert, items) && i.rid !in t.actions && Tame(s, u)
    requires u.actions.Keys == t.actions.Keys + {i.rid} && u.items == t.items[i.rid := alert]
    requires forall r :: Flying(t, r) ==> Flying(u, r)
    ensures Started(s, u, alert, items + [i])
  {
    hide Tame, Flying;
    var all := items + [i];
    assert all[|items|] == i;
    forall r ensures r in u.items <==> r in s.items || exists k :: 0 <= k < |all| && all[k].rid == r {
      if k :| 0 <= k < |items| && items[k].rid == r { assert all[k].rid == r; }
    }
  }

  lemma {:induction false} StartShape(s: State, now: int, alert: string, agent: string, host: Option<string>, items: seq<Item>, deadline: int)
    ensures var r := StartItems(s, now, alert, agent, host, items, deadline); r.Some? ==> Started(s, r.value, alert, items)
  {
    hide Approve, Started, Tame, Flying;
    var r := StartItems(s, now, alert, agent, host, items, deadline);
    if items == [] {
      StartedNone(s, alert);
    } else if r.Some? {
      var n := |items| - 1;
      var i := items[n];
      StartShape(s, now, alert, agent, host, items[..n], deadline);
      var t := StartItems(s, now, alert, agent, host, items[..n], deadline).value;
      var row := Action(Some(agent), host, i.kind, i.target, Triage, Pending, None, now);
      var staged := Stage(t, i.rid, row).(items := t.items[i.rid := alert]);
      var vetoed: set<string> := if i.vetoed then {i.rid} else {};
      TameSame(staged, staged);
      ApproveTame(staged, now, i.rid, i.gate, true, deadline, vetoed);
      ApproveFlies(staged, now, i.rid, i.gate, true, deadline, vetoed);
      SameFlying(t, staged);
      assert items == items[..n] + [i];
      StartedTame(s, t, alert, items[..n]);
      StagedTame(s, t, i.rid, row, alert, r.value);
      StartedNext(s, t, alert, items[..n], i, r.value);
    }
  }

  lemma SameFlying(s: State, t: State)
    requires t.commands == s.commands
    ensures forall r :: Flying(s, r) <==> Flying(t, r)
  {
  }

  lemma StartedTame(s: State, t: State, alert: string, items: seq<Item>)
    requires Started(s, t, alert, items)
    ensures Tame(s, t)
  {
  }

  lemma StartedNone(s: State, alert: string)
    ensures Started(s, s, alert, [])
  {
  }

  // ---- commands that belong to no approval ----

  predicate Enqueues(s: State, op: Op, r: string) {
    op.Enqueue? && op.id == Resp(r) && op.allowed && op.expiresAt > op.now && op.id !in s.commands
  }

  lemma TameStrays(s: State, t: State, r: string)
    requires Tame(s, t) && Stray(t, r)
    ensures Stray(s, r)
  {
  }

  lemma PollShape(s: State, op: Op)
    requires op.Poll?
    ensures var u := Swept(s, op.now, op.agent, op.retired); var t := Step(s, op);
      && Tame(s, u) && u.items == s.items
      && t == if !op.allowed then s
              else if op.withhold then u
              else Send(u, Select(u, op.rows, op.vetoed, op.agent, op.durable, op.now).ids, op.now)
  {
    hide Tame, Send, Select, Retire, SweepCommands;
    var a := SweepCommands(s, op.now);
    SweepCommandsTame(s, op.now);
    RetireTame(a, Unfit(a, Some(op.agent), op.retired));
    TameTrans(s, a, Swept(s, op.now, op.agent, op.retired));
  }

  lemma SendStrays(s: State, ids: set<CommandId>, now: int, r: string)
    ensures Stray(Send(s, ids, now), r) <==> Stray(s, r)
    ensures Send(s, ids, now).items == s.items
  {
  }

  // A stray command appears exactly when a direct command takes the response id.
  lemma StrayExactly(s: State, op: Op, r: string)
    requires Inv(s) && !Stray(s, r)
    ensures Stray(Step(s, op), r) <==> Enqueues(s, op, r)
  {
    hide Inv, Tame, Stray;
    if op.Enqueue? {
      EnqueueStray(s, op, r);
    } else {
      var t := Step(s, op);
      hide Step;
      if op.Poll? {
        PollShape(s, op);
        var u := Swept(s, op.now, op.agent, op.retired);
        SendStrays(u, Select(u, op.rows, op.vetoed, op.agent, op.durable, op.now).ids, op.now, r);
        if Stray(u, r) { TameStrays(s, u, r); }
      } else if op.StartRun? {
        StartTame(s, op);
        if Stray(t, r) { TameStrays(s, t, r); }
      } else {
        StepTame(s, op);
        if Stray(t, r) { TameStrays(s, t, r); }
      }
    }
  }

  lemma EnqueueStray(s: State, op: Op, r: string)
    requires Inv(s) && !Stray(s, r) && op.Enqueue?
    ensures Stray(Step(s, op), r) <==> Enqueues(s, op, r)
  {
    if r in s.actions { assert LinkOk(s, r); }
  }

  lemma StartTame(s: State, op: Op)
    requires op.StartRun?
    ensures Tame(s, Step(s, op))
  {
    hide Tame, StartItems, Flying;
    TameSame(s, s);
    var t := s.(runs := s.runs[op.alert := TriageRun(op.agent, false)]);
    TameSame(s, t);
    StartShape(t, op.now, op.alert, op.agent, op.host, op.items, op.until);
    var r := StartItems(t, op.now, op.alert, op.agent, op.host, op.items, op.until);
    if r.Some? { TameTrans(s, t, r.value); }
  }

  // So over every run, an action is approved exactly when its command exists, unless a direct command took its id.
  lemma {:induction false} ApprovedExactly(ops: seq<Op>, r: string)
    requires forall i :: 0 <= i < |ops| && ops[i].Enqueue? ==> ops[i].id != Resp(r)
    ensures var s := Run(EMPTY, ops);
      && !Stray(s, r)
      && (Resp(r) in s.commands <==> r in s.actions && s.actions[r].state == Approved)
  {
    hide Step, Inv;
    LifecycleRuns.Reachable(ops);
    if ops != [] {
      var n := |ops| - 1;
      ApprovedExactly(ops[..n], r);
      LifecycleRuns.Reachable(ops[..n]);
      StrayExactly(Run(EMPTY, ops[..n]), ops[n], r);
    }
    ApprovedLinked(Run(EMPTY, ops), r);
  }

  lemma ApprovedLinked(s: State, r: string)
    requires Inv(s)
    ensures r in s.actions && s.actions[r].state == Approved ==> Resp(r) in s.commands
    ensures RunCancelled(s, r) ==> r in s.actions
  {
    if r in s.actions { assert LinkOk(s, r); }
  }

  // An item of a cancelled run gets a command exactly when a direct command takes its id.
  lemma CancelledCreatedExactly(s: State, op: Op, r: string)
    requires Inv(s) && RunCancelled(s, r) && Resp(r) !in s.commands
    ensures Resp(r) in Step(s, op).commands <==> Enqueues(s, op, r)
  {
    hide Inv, Step;
    StrayExactly(s, op, r);
    StepGood(s, op);
    assert CancelKept(s, Step(s, op), r) && ActionKept(s, Step(s, op), r);
    ApprovedLinked(s, r);
  }

  // ---- the exclusion ----

  // The poll selects an item while a stray command of a sibling is in flight.
  ghost predicate Clash(s: State, ids: set<CommandId>) {
    exists a, b :: a in s.items && b in s.items && a != b && s.items[a] == s.items[b]
      && Resp(a) in ids && Flying(s, b) && Stray(s, b)
  }

  // A sibling in flight is seen by the busy query unless it is stray.
  lemma SelectedAlone(s: State, ids: set<CommandId>, a: string, b: string)
    requires LinksOk(s) && ItemsOk(s) && Sendable(s, ids)
    requires a in s.items && b in s.items && s.items[a] == s.items[b] && Resp(a) in ids && Flying(s, b) && a != b
    ensures Stray(s, b)
  {
    assert LinkOk(s, b);
    if !Stray(s, b) { assert Busy(s, s.items[a], Resp(a)); }
  }

  lemma SendFlying(s: State, ids: set<CommandId>, now: int)
    requires Sendable(s, ids)
    ensures forall r :: Flying(Send(s, ids, now), r) <==> Flying(s, r) || Resp(r) in ids
  {
  }

  // Sending what was selected keeps the exclusion exactly when no selected item has a sibling in flight that the
  // busy query cannot see.
  lemma SendExclusiveExactly(s: State, ids: set<CommandId>, now: int)
    requires Exclusive(s) && LinksOk(s) && ItemsOk(s) && Sendable(s, ids)
    ensures Exclusive(Send(s, ids, now)) <==> !Clash(s, ids)
  {
    hide LinksOk, Stray, Busy;
    var t := Send(s, ids, now);
    SendFlying(s, ids, now);
    assert t.items == s.items;
    hide Send, Flying;
    if Clash(s, ids) {
      var a, b :| a in s.items && b in s.items && a != b && s.items[a] == s.items[b]
        && Resp(a) in ids && Flying(s, b) && Stray(s, b);
      assert Flying(t, a) && Flying(t, b);
    } else {
      forall a, b | a in t.items && b in t.items && t.items[a] == t.items[b] && Flying(t, a) && Flying(t, b)
        ensures a == b
      {
        if a != b && Resp(a) in ids && Flying(s, b) { SelectedAlone(s, ids, a, b); }
        if a != b && Resp(b) in ids && Flying(s, a) { SelectedAlone(s, ids, b, a); }
      }
    }
  }

  // Two of the items join the run with commands already in flight.
  ghost predicate JoinsFlying(s: State, items: seq<Item>) {
    exists i, j :: 0 <= i < j < |items| && Flying(s, items[i].rid) && Flying(s, items[j].rid)
  }

  lemma StartExclusiveExactly(s: State, t: State, alert: string, items: seq<Item>)
    requires Exclusive(s) && ItemsOk(s) && Started(s, t, alert, items) && forall r :: r in s.items ==> s.items[r] != alert
    ensures Exclusive(t) <==> !JoinsFlying(s, items)
  {
    hide Tame, Flying;
    TameGrounded(s, t);
    if JoinsFlying(s, items) {
      var i, j :| 0 <= i < j < |items| && Flying(s, items[i].rid) && Flying(s, items[j].rid);
      assert Flying(t, items[i].rid) && Flying(t, items[j].rid);
    } else {
      forall a, b | a in t.items && b in t.items && t.items[a] == t.items[b] && Flying(t, a) && Flying(t, b)
        ensures a == b
      {
        JoinedOrOld(s, t, alert, items, a);
        JoinedOrOld(s, t, alert, items, b);
      }
    }
  }

  lemma TameGrounded(s: State, t: State)
    requires Tame(s, t)
    ensures forall r :: Flying(t, r) ==> Flying(s, r)
  {
  }

  lemma JoinedOrOld(s: State, t: State, alert: string, items: seq<Item>, a: string)
    requires ItemsOk(s) && Started(s, t, alert, items) && a in t.items && forall r :: r in s.items ==> s.items[r] != alert
    ensures if t.items[a] == alert then exists i :: 0 <= i < |items| && items[i].rid == a
            else a in s.items && s.items[a] == t.items[a]
  {
    hide Tame, Flying;
  }

  // The requests that break the exclusion.
  ghost predicate Escapes(s: State, op: Op) {
    || (op.Poll? && op.allowed && !op.withhold
        && var u := Swept(s, op.now, op.agent, op.retired);
           Clash(u, Select(u, op.rows, op.vetoed, op.agent, op.durable, op.now).ids))
    || (op.StartRun? && op.alert !in s.runs && JoinsFlying(s, op.items)
        && StartItems(s.(runs := s.runs[op.alert := TriageRun(op.agent, false)]),
                      op.now, op.alert, op.agent, op.host, op.items, op.until).Some?)
  }

  lemma GroundedExclusive(s: State, t: State)
    requires Exclusive(s) && Tame(s, t) && t.items == s.items
    ensures Exclusive(t)
  {
  }

  // A request keeps the exclusion exactly when it is none of these.
  lemma ExclusionExactly(s: State, op: Op)
    requires Inv(s) && Exclusive(s)
    ensures Exclusive(Step(s, op)) <==> !Escapes(s, op)
  {
    hide Inv, Exclusive, Tame;
    if op.Poll? {
      PollExclusion(s, op);
    } else if op.StartRun? {
      StartExclusion(s, op);
    } else if op.Enqueue? {
      EnqueueExclusion(s, op);
    } else {
      StepTame(s, op);
      hide Step;
      GroundedExclusive(s, Step(s, op));
    }
  }

  lemma EnqueueExclusion(s: State, op: Op)
    requires Exclusive(s) && op.Enqueue?
    ensures Exclusive(Step(s, op))
  {
    var t := Step(s, op);
    forall r | Flying(t, r) ensures Flying(s, r) {}
  }

  lemma PollExclusion(s: State, op: Op)
    requires Inv(s) && Exclusive(s) && op.Poll?
    ensures Exclusive(Step(s, op)) <==> !Escapes(s, op)
  {
    hide Inv, Exclusive, Tame, Step, Select, Swept, Clash;
    PollShape(s, op);
    var u := Swept(s, op.now, op.agent, op.retired);
    GroundedExclusive(s, u);
    SweptInv(s, op.now, op.agent, op.retired);
    SelectSendable(u, op.rows, op.vetoed, op.agent, op.durable, op.now);
    SendExclusiveExactly(u, Select(u, op.rows, op.vetoed, op.agent, op.durable, op.now).ids, op.now);
  }

  lemma SweptInv(s: State, now: int, agent: string, retired: set<string>)
    requires Inv(s)
    ensures var u := Swept(s, now, agent, retired); Inv(u) && LinksOk(u) && ItemsOk(u)
  {
    var mid := SweepCommands(s, now);
    SweepCommandsOk(s, now, now);
    RetireOk(mid, Unfit(mid, Some(agent), retired), now);
  }

  lemma StartExclusion(s: State, op: Op)
    requires Inv(s) && Exclusive(s) && op.StartRun?
    ensures Exclusive(Step(s, op)) <==> !Escapes(s, op)
  {
    hide Exclusive, Started, StartItems, RowsOk, ResultsOk, LinksOk, Flying;
    var t := s.(runs := s.runs[op.alert := TriageRun(op.agent, false)]);
    var r := StartItems(t, op.now, op.alert, op.agent, op.host, op.items, op.until);
    StartShape(t, op.now, op.alert, op.agent, op.host, op.items, op.until);
    SameFlying(s, t);
    if op.alert !in s.runs && r.Some? {
      TameSame(s, t);
      GroundedExclusive(s, t);
      StartExclusiveExactly(t, r.value, op.alert, op.items);
    }
  }

  // ---- whole runs ----

  // No direct command takes the response id of a triage item.
  ghost predicate NoDirectItems(ops: seq<Op>) {
    forall i, j, k :: 0 <= i < |ops| && 0 <= j < |ops| && ops[i].Enqueue? && ops[j].StartRun? && 0 <= k < |ops[j].items| ==>
      ops[i].id != Resp(ops[j].items[k].rid)
  }

  ghost predicate FromRequest(ops: seq<Op>, r: string) {
    exists j, k :: 0 <= j < |ops| && ops[j].StartRun? && 0 <= k < |ops[j].items| && ops[j].items[k].rid == r
  }

  lemma {:induction false} ItemsRequested(ops: seq<Op>, r: string)
    ensures r in Run(EMPTY, ops).items ==> FromRequest(ops, r)
  {
    hide Step, FromRequest, Swept, Named;
    if ops != [] {
      var n := |ops| - 1;
      ItemsRequested(ops[..n], r);
      RequestedMore(ops, n, r);
      NewItem(Run(EMPTY, ops[..n]), ops[n], r);
      if ops[n].StartRun? && Named(ops[n].items, r) { RequestedLast(ops, n, r); }
    }
  }

  lemma RequestedMore(ops: seq<Op>, n: nat, r: string)
    requires n <= |ops|
    ensures FromRequest(ops[..n], r) ==> FromRequest(ops, r)
  {
    if FromRequest(ops[..n], r) {
      var j, k :| 0 <= j < n && ops[..n][j].StartRun? && 0 <= k < |ops[..n][j].items| && ops[..n][j].items[k].rid == r;
      assert ops[j].items[k].rid == r;
    }
  }

  predicate Named(items: seq<Item>, r: string) { exists k :: 0 <= k < |items| && items[k].rid == r }

  lemma RequestedLast(ops: seq<Op>, n: nat, r: string)
    requires n < |ops| && ops[n].StartRun? && Named(ops[n].items, r)
    ensures FromRequest(ops, r)
  {
  }

  // An item appears only as an item of the request that starts its run.
  lemma NewItem(s: State, op: Op, r: string)
    ensures r in Step(s, op).items && r !in s.items ==>
      op.StartRun? && Named(op.items, r)
  {
    hide Tame, StartItems, Flying;
    if op.Poll? {
      PollShape(s, op);
    } else if op.StartRun? {
      var t := s.(runs := s.runs[op.alert := TriageRun(op.agent, false)]);
      StartShape(t, op.now, op.alert, op.agent, op.host, op.items, op.until);
    } else if !op.Enqueue? {
      StepTame(s, op);
    }
  }

  // At every point of every run in which no direct command takes the response id of a triage item, at most one
  // command of a triage run is dispatched or accepted.
  lemma {:induction false} RunExclusive(ops: seq<Op>)
    requires NoDirectItems(ops)
    ensures Exclusive(Run(EMPTY, ops))
  {
    hide Step, Inv, Exclusive;
    if ops == [] {
      EmptyExclusive();
    } else {
      var n := |ops| - 1;
      var s := Run(EMPTY, ops[..n]);
      RunExclusive(ops[..n]);
      LifecycleRuns.Reachable(ops[..n]);
      ExclusionExactly(s, ops[n]);
      if Escapes(s, ops[n]) { NeverEscapes(ops, n); }
    }
  }

  lemma EmptyExclusive()
    ensures Exclusive(EMPTY)
  {
  }

  // Without such commands no stray item exists and no stray command joins.
  lemma NeverEscapes(ops: seq<Op>, n: nat)
    requires NoDirectItems(ops) && n < |ops|
    ensures !Escapes(Run(EMPTY, ops[..n]), ops[n])
  {
    hide Step, Inv, Tame, Select, Swept, Run;
    var s, op := Run(EMPTY, ops[..n]), ops[n];
    if op.Poll? {
      var u := Swept(s, op.now, op.agent, op.retired);
      PollShape(s, op);
      forall b | b in u.items ensures !Stray(u, b) {
        ItemsRequested(ops[..n], b);
        var j, k :| 0 <= j < n && ops[..n][j].StartRun? && 0 <= k < |ops[..n][j].items| && ops[..n][j].items[k].rid == b;
        assert ops[j].items[k].rid == b;
        ApprovedExactly(ops[..n], b);
        if Stray(u, b) { TameStrays(s, u, b); }
      }
    } else if op.StartRun? {
      var t := s.(runs := s.runs[op.alert := TriageRun(op.agent, false)]);
      StartShape(t, op.now, op.alert, op.agent, op.host, op.items, op.until);
      forall k | 0 <= k < |op.items| && op.items[k].rid !in s.actions ensures !Flying(s, op.items[k].rid) {
        assert ops[n].items[k].rid == op.items[k].rid;
        ApprovedExactly(ops[..n], op.items[k].rid);
      }
    }
  }
}
