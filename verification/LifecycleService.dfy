// The command, response and triage tables as the service updates them: row by row, in loops over
// query results. Every method is proved equal to the corresponding step of Lifecycle.dfy and keeps the
// invariant of LifecycleInvariants.dfy.
module LifecycleService {
  import opened Aggregates
  import opened Lifecycle
  import opened LifecycleInvariants
  import LifecycleEffects

  function ToExpired(c: Command): Command { c.(phase := Expired) }
  function ToCancelled(c: Command): Command { c.(phase := Cancelled) }
  function ToSent(now: int): Command -> Command {
    (c: Command) => c.(phase := Dispatched, delivered := if c.delivered.None? then Some(now) else c.delivered)
  }
  function Adding(e: Event): seq<Event> -> seq<Event> { (log: seq<Event>) => log + [e] }
  function ToLapsed(a: Action): Action { a.(state := Lapsed) }
  function ToDeclined(a: Action): Action { a.(state := Declined) }

  class Service {
    var commands: map<CommandId, Command>
    var audit: map<CommandId, seq<Event>>
    var results: map<string, Result>
    var receipts: map<string, Receipt>
    var actions: map<string, Action>
    var runs: map<string, TriageRun>
    var items: map<string, string>

    function Tables(): State
      reads this
    {
      State(commands, audit, results, receipts, actions, runs, items)
    }

    ghost predicate Valid()
      reads this
    {
      Inv(Tables())
    }

    constructor ()
      ensures Valid() && Tables() == EMPTY
    {
      commands, audit, results, receipts := map[], map[], map[], map[];
      actions, runs, items := map[], map[], map[];
    }

    // UPDATE of one command row and its audit event.
    method Write(id: CommandId, c: Command, e: Event)
      modifies `commands, `audit
      ensures Tables() == Record(old(Tables()), id, c, e)
    {
      commands := commands[id := c];
      audit := audit[id := (if id in audit then audit[id] else []) + [e]];
    }

    // The command rows of a query change one by one, each with its audit event.
    method MarkCommands(ids: set<CommandId>, f: Command -> Command, e: Event)
      requires ids <= commands.Keys && audit.Keys == commands.Keys
      modifies `commands, `audit
      ensures Tables() == old(Tables()).(commands := Updated(old(commands), ids, f), audit := Updated(old(audit), ids, Adding(e)))
    {
      hide Updated;
      commands := UpdateEach(commands, ids, f);
      audit := UpdateEach(audit, ids, Adding(e));
    }

    // _expire_stale_commands
    method ExpireCommands(now: int)
      requires audit.Keys == commands.Keys
      modifies `commands, `audit
      ensures Tables() == SweepCommands(old(Tables()), now)
    {
      hide SweepCommands, Updated;
      ghost var s := Tables();
      var due := set id | id in commands && Stale(commands[id], now);
      SweepParts(s, now, due);
      MarkCommands(due, ToExpired, Expiry);
    }

    // expire_stale_response_actions
    method ExpireActions(now: int)
      modifies `actions
      ensures Tables() == SweepActions(old(Tables()), now)
    {
      ghost var s := Tables();
      var due := set r | r in actions && Undecided(actions[r], now);
      actions := UpdateEach(actions, due, ToLapsed);
      assert actions == SweepActions(s, now).actions;
    }

    // reject_response_action, for the rows of a query
    method DeclineActions(rids: set<string>)
      requires rids <= actions.Keys
      modifies `actions
      ensures Tables() == old(Tables()).(actions := Updated(old(actions), rids, ToDeclined))
    {
      hide Updated;
      actions := UpdateEach(actions, rids, ToDeclined);
    }

    // expire_pending, before the queue is read
    method ExpirePending(now: int)
      requires Valid()
      modifies `commands, `audit, `actions
      ensures Valid()
      ensures Tables() == Step(old(Tables()), ReadQueue(now))
    {
      hide Inv, Keeps, OneOpen, SweepActions, SweepCommands;
      ghost var s := Tables();
      StepGood(s, ReadQueue(now));
      InvParts(s);
      ExpireActions(now);
      SweptActions(s, now);
      ExpireCommands(now);
    }

    // The items of reconcile or cancel_run: reject those undecided, else cancel their queued commands.
    method RetireItems(rids: set<string>)
      requires audit.Keys == commands.Keys
      modifies `actions, `commands, `audit
      ensures Tables() == Retire(old(Tables()), rids)
    {
      hide Retire, Updated, Withdrawn;
      var s := Tables();
      var undecided := set r | r in actions && r in rids && actions[r].state == Pending;
      var queued := set id | id in commands && Withdrawn(s, rids, id);
      RetireParts(s, rids, undecided, queued);
      DeclineActions(undecided);
      MarkCommands(queued, ToCancelled, Cancellation);
    }

    // The rows a poll hands out: dispatchable is asked row by row, remembering the selected runs.
    method SelectRows(rows: seq<CommandId>, vetoed: set<string>, agent: string, durable: bool, now: int)
      returns (ids: set<CommandId>)
      ensures ids == Select(Tables(), rows, vetoed, agent, durable, now).ids
    {
      ids := {};
      var selected: set<string> := {};
      var s := Tables();
      for i := 0 to |rows|
        invariant Selection(ids, selected) == Select(s, rows[..i], vetoed, agent, durable, now)
      {
        assert rows[..i + 1][..i] == rows[..i];
        var id := rows[i];
        if Eligible(s, id, agent, durable, now) && Dispatchable(s, id, vetoed, selected) {
          ids := ids + {id};
          if ItemCommand(s, id) { selected := selected + {items[id.rid]}; }
        }
      }
      assert rows[..|rows|] == rows;
    }

    method Dispatch(ids: set<CommandId>, now: int)
      requires ids <= commands.Keys && audit.Keys == commands.Keys
      modifies `commands, `audit
      ensures Tables() == Send(old(Tables()), ids, now)
    {
      hide Send, Updated;
      SendParts(Tables(), ids, now);
      MarkCommands(ids, ToSent(now), Lifecycle.Dispatch);
    }

    // GET .../commands
    method PollCommands(now: int, agent: string, durable: bool, rows: seq<CommandId>, vetoed: set<string>, retired: set<string>,
                        withhold: bool)
      requires Valid()
      modifies `commands, `audit, `actions
      ensures Valid()
      ensures Tables() == PollStep(old(Tables()), now, agent, durable, rows, vetoed, retired, withhold)
    {
      hide Inv, Keeps, OneOpen, Send, Select, Retire, SweepCommands;
      ghost var s := Tables();
      PollGood(s, now, agent, durable, rows, vetoed, retired, withhold);
      InvParts(s);
      ExpireCommands(now);
      SweepCommandsOk(s, now, now);
      InvParts(Tables());
      RetireItems(Unfit(Tables(), Some(agent), retired));
      RetireOk(SweepCommands(s, now), Unfit(SweepCommands(s, now), Some(agent), retired), now);
      InvParts(Tables());
      if !withhold {
        var ids := SelectRows(rows, vetoed, agent, durable, now);
        SelectSendable(Tables(), rows, vetoed, agent, durable, now);
        Dispatch(ids, now);
      }
    }

    // POST .../accept
    method AcceptCommand(now: int, agent: string, id: CommandId, vetoed: set<string>) returns (ok: bool)
      requires Valid()
      modifies `commands, `audit
      ensures Valid()
      ensures Tables() == AcceptStep(old(Tables()), now, agent, id, vetoed)
      ensures ok <==> id in commands && commands[id].agent == agent && !(id.Resp? && Blocked(Tables(), id.rid, vetoed))
                      && (commands[id].collection ==> commands[id].phase == Accepted)
    {
      hide Inv, Keeps, OneOpen, SweepCommands, Acknowledge, Blocked;
      ghost var s := Tables();
      AcceptGood(s, now, agent, id, vetoed);
      InvParts(s);
      SweepRows(s, now);
      if id !in commands || commands[id].agent != agent { return false; }
      ExpireCommands(now);
      ok := AcknowledgeCommand(id, vetoed);
    }

    method AcknowledgeCommand(id: CommandId, vetoed: set<string>) returns (ok: bool)
      requires id in commands
      modifies `commands, `audit
      ensures Tables() == Acknowledge(old(Tables()), id, vetoed)
      ensures id in commands && commands[id].agent == old(commands[id].agent)
      ensures ok <==> !(id.Resp? && Blocked(Tables(), id.rid, vetoed)) && (commands[id].collection ==> commands[id].phase == Accepted)
    {
      var c := commands[id];
      if id.Resp? && Blocked(Tables(), id.rid, vetoed) {
        Write(id, c, AcceptanceRefused);
        return false;
      }
      if c.collection && !InFlight(c.phase) {
        Write(id, c, AcceptanceRefused);
        return false;
      }
      if c.phase == Dispatched {
        Write(id, c.(phase := Accepted), Acceptance);
      }
      ok := true;
    }

    // POST .../command-results
    method SubmitResult(now: int, agent: string, resultId: string, id: CommandId, outcome: Outcome,
                        v2: bool, digest: string, valid: bool) returns (ok: bool)
      requires Valid()
      modifies `commands, `audit, `results, `receipts
      ensures Valid()
      ensures Tables() == SubmitStep(old(Tables()), now, agent, resultId, id, outcome, v2, digest, valid)
      ensures !ok ==> Tables() == old(Tables())
    {
      hide Inv, Keeps, OneOpen, SweepCommands, Judge, Record;
      ghost var s := Tables();
      SubmitGood(s, now, agent, resultId, id, outcome, v2, digest, valid);
      InvParts(s);
      SweepRows(s, now);
      if id !in commands || commands[id].agent != agent { return false; }
      if !v2 && commands[id].expiresAt <= now { return false; }
      if !valid { return false; }
      if v2 && resultId in receipts && receipts[resultId] != Receipt(agent, id, digest) { return false; }
      ExpireCommands(now);
      if v2 { receipts := receipts[resultId := Receipt(agent, id, digest)]; }
      RecordOutcome(agent, resultId, id, outcome);
      ok := true;
    }

    // A command in flight takes its one outcome; any other submission is only audited.
    method RecordOutcome(agent: string, resultId: string, id: CommandId, outcome: Outcome)
      requires id in commands
      modifies `commands, `audit, `results
      ensures Tables() == Judge(old(Tables()), agent, resultId, id, outcome)
    {
      var c := commands[id];
      if !InFlight(c.phase) {
        Write(id, c, ResultIgnored(outcome));
        return;
      }
      if resultId !in results {
        results := results[resultId := Result(id, agent, outcome)];
        c := c.(phase := Finished(outcome));
      }
      Write(id, c, ResultReceived(outcome));
    }

    // find_open_duplicate: a search over the actions.
    method FindOpenDuplicate(host: Option<string>, kind: string, target: string, now: int) returns (found: Option<string>)
      ensures found.Some? <==> OpenDuplicate(Tables(), host, kind, target, now)
      ensures found.Some? ==> found.value in actions && SameWork(actions[found.value], host.value, kind, target)
                              && OpenAt(Tables(), found.value, now)
    {
      if host.None? { return None; }
      var s := Tables();
      var rest := actions.Keys;
      while rest != {}
        invariant rest <= actions.Keys
        invariant forall r :: r in actions && r !in rest ==> !(SameWork(actions[r], host.value, kind, target) && OpenAt(s, r, now))
        decreases |rest|
      {
        var r :| r in rest;
        if SameWork(actions[r], host.value, kind, target) && OpenAt(s, r, now) { return Some(r); }
        rest := rest - {r};
      }
      found := None;
    }

    // POST .../triage/runs/{alert}/cancel
    method CancelTriage(alert: string) returns (ok: bool)
      requires Valid()
      modifies `runs, `commands, `audit, `actions
      ensures Valid()
      ensures Tables() == CancelRunStep(old(Tables()), alert)
      ensures ok ==> alert in runs && runs[alert].cancelled
    {
      hide Inv, Keeps, OneOpen, Retire;
      ghost var s := Tables();
      CancelRunGood(s, alert, 0);
      if alert !in runs { return false; }
      if runs[alert].cancelled { return true; }
      var mine := set r | r in items && items[r] == alert;
      runs := runs[alert := runs[alert].(cancelled := true)];
      RunsOk(s, Tables(), 0);
      InvParts(Tables());
      RetireItems(mine);
      LifecycleEffects.RetireRows(s.(runs := runs), mine);
      ok := true;
    }

    // ROLLBACK
    method Restore(s: State)
      modifies this
      ensures Tables() == s
    {
      commands, audit, results, receipts := s.commands, s.audit, s.results, s.receipts;
      actions, runs, items := s.actions, s.runs, s.items;
    }

    // authorize_and_enqueue for a command of its own
    method EnqueueCommand(now: int, id: CommandId, agent: string, collection: bool, expiresAt: int, allowed: bool) returns (ok: bool)
      requires Valid()
      modifies `commands, `audit
      ensures Valid()
      ensures Tables() == Step(old(Tables()), Enqueue(now, id, agent, collection, expiresAt, allowed))
      ensures ok <==> id in commands && id !in old(commands)
    {
      hide Inv, Keeps, OneOpen;
      ghost var s := Tables();
      StepGood(s, Enqueue(now, id, agent, collection, expiresAt, allowed));
      if !allowed || expiresAt <= now || id in commands { return false; }
      Write(id, Command(agent, collection, Authorized, None, expiresAt), Created);
      ok := true;
    }

    // authorize_response_action; false when it raises, before any change.
    method ApproveAction(now: int, rid: string, gate: Gate, collection: bool, expiresAt: int, vetoed: set<string>) returns (ok: bool)
      modifies `commands, `audit, `actions
      ensures var r := Approve(old(Tables()), now, rid, gate, collection, expiresAt, vetoed);
        (ok <==> r.Some?) && Tables() == if ok then r.value else old(Tables())
    {
      if rid !in actions || actions[rid].state != Pending { return true; }
      var a := actions[rid];
      if a.agent.None? {
        actions := actions[rid := a.(state := Declined)];
        return true;
      }
      if Blocked(Tables(), rid, vetoed) || gate == Refuse { return false; }
      if gate == TargetChanged {
        if a.origin != Detection { return false; }
        actions := actions[rid := a.(state := Declined)];
        return true;
      }
      if expiresAt <= now || Resp(rid) in commands { return false; }
      Write(Resp(rid), Command(a.agent.value, collection, Authorized, None, expiresAt), Created);
      actions := actions[rid := a.(state := Approved, command := Some(Resp(rid)))];
      ok := true;
    }

    // _on_alert_created: stage the action, and authorize it at once where policy says so.
    method AlertCreated(now: int, rid: string, agent: Option<string>, host: Option<string>, hint: Option<string>,
                        kind: string, target: string, collection: bool, refusal: bool, auto: bool, gate: Gate)
      requires Valid()
      modifies `commands, `audit, `actions
      ensures Valid()
      ensures Tables() == AlertStep(old(Tables()), now, rid, agent, host, hint, kind, target, collection, refusal, auto, gate)
    {
      hide Inv, Keeps, OneOpen, Staged, OpenDuplicate, OpenAt, SameWork;
      ghost var s := Tables();
      AlertGood(s, now, rid, agent, host, hint, kind, target, collection, refusal, auto, gate);
      if rid in actions { return; }
      var row := Action(agent, host, kind, target, Detection, Pending, None, now);
      var found := FindOpenDuplicate(if host.Some? then host else hint, kind, target, now);
      if refusal || found.Some? {
        actions := actions[rid := row.(state := Declined)];
        return;
      }
      StageAlert(now, rid, row, collection, auto, gate);
    }

    // A new action is staged, and with auto authorized or else declined.
    method StageAlert(now: int, rid: string, row: Action, collection: bool, auto: bool, gate: Gate)
      modifies `commands, `audit, `actions
      ensures Tables() == Staged(old(Tables()), now, rid, row, collection, auto, gate)
    {
      hide Approve;
      ghost var s := Tables();
      var before := actions;
      actions := actions[rid := row];
      if auto {
        assert Tables() == Stage(s, rid, row);
        var ok := ApproveAction(now, rid, gate, collection, now + COMMAND_TTL, {});
        if !ok { actions := before[rid := row.(state := Declined)]; }
      }
    }

    // The duplicate query of stage_manual_request by agent.
    method FindAgentDuplicate(agent: string, kind: string, target: string) returns (found: bool)
      ensures found <==> AgentDuplicate(Tables(), agent, kind, target)
    {
      var s := Tables();
      var rest := actions.Keys;
      while rest != {}
        invariant rest <= actions.Keys
        invariant forall r :: r in actions && r !in rest ==> !ForAgent(s, r, agent, kind, target)
        decreases |rest|
      {
        var r :| r in rest;
        if ForAgent(s, r, agent, kind, target) { return true; }
        rest := rest - {r};
      }
      found := false;
    }

    // stage_manual_request
    method StageManualRequest(now: int, rid: string, agent: string, enrolledHost: string, alertHost: Option<string>,
                              kind: string, target: string, valid: bool) returns (ok: bool)
      requires Valid()
      modifies this
      ensures Valid()
      ensures Tables() == RequestStep(old(Tables()), now, rid, agent, enrolledHost, alertHost, kind, target, valid)
      ensures ok <==> rid in actions && rid !in old(actions)
    {
      hide Inv, Keeps, OneOpen, OpenDuplicate, AgentDuplicate, SweepActions, SweepCommands;
      var s := Tables();
      RequestGood(s, now, rid, agent, enrolledHost, alertHost, kind, target, valid);
      InvParts(s);
      SweptActions(s, now);
      SweepRows(SweepActions(s, now), now);
      ExpireActions(now);
      ExpireCommands(now);
      if rid in actions || !valid || (alertHost.Some? && alertHost.value != enrolledHost) {
        Restore(s);
        return false;
      }
      var found := FindOpenDuplicate(Some(enrolledHost), kind, target, now);
      var again := FindAgentDuplicate(agent, kind, target);
      if found.Some? || again {
        Restore(s);
        return false;
      }
      actions := actions[rid := Action(Some(agent), alertHost, kind, target, Analyst, Pending, None, now)];
      ok := true;
    }

    // POST .../authorize
    method AuthorizeAction(now: int, rid: string, gate: Gate, collection: bool, deadline: Option<int>, vetoed: set<string>,
                           allowed: bool) returns (ok: bool)
      requires Valid()
      modifies this
      ensures Valid()
      ensures Tables() == AuthorizeStep(old(Tables()), now, rid, gate, collection, deadline, vetoed, allowed)
      ensures !ok ==> Tables() == old(Tables())
    {
      hide Inv, Keeps, OneOpen, Approve, SweepActions;
      var s := Tables();
      AuthorizeGood(s, now, rid, gate, collection, deadline, vetoed, allowed);
      ExpireActions(now);
      if rid !in actions || actions[rid].state != Pending || !allowed {
        Restore(s);
        return false;
      }
      ok := ApproveAction(now, rid, gate, collection, if deadline.Some? then deadline.value else now + COMMAND_TTL, vetoed);
      if !ok { Restore(s); }
    }

    // POST .../reject
    method RejectAction(now: int, rid: string) returns (ok: bool)
      requires Valid()
      modifies this
      ensures Valid()
      ensures Tables() == RejectStep(old(Tables()), now, rid)
      ensures ok ==> rid in actions && actions[rid].state == Declined
    {
      hide Inv, Keeps, OneOpen, SweepActions;
      var s := Tables();
      RejectGood(s, now, rid);
      ExpireActions(now);
      if rid !in actions || actions[rid].state != Pending {
        Restore(s);
        return false;
      }
      actions := actions[rid := actions[rid].(state := Declined)];
      ok := true;
    }

    // POST .../cancel, through cancel_queued
    method CancelQueued(now: int, rid: string) returns (ok: bool)
      requires Valid()
      modifies this
      ensures Valid()
      ensures Tables() == CancelStep(old(Tables()), now, rid)
      ensures ok ==> rid in actions && actions[rid].command.Some? && actions[rid].command.value in commands
                     && commands[actions[rid].command.value].phase == Cancelled
    {
      hide Inv, Keeps, OneOpen, SweepCommands;
      var s := Tables();
      CancelGood(s, now, rid);
      InvParts(s);
      ExpireCommands(now);
      if rid !in actions || actions[rid].command.None? || actions[rid].command.value !in commands {
        Restore(s);
        return false;
      }
      var id := actions[rid].command.value;
      if commands[id].phase == Cancelled { return true; }
      if commands[id].phase != Authorized {
        Restore(s);
        return false;
      }
      Write(id, commands[id].(phase := Cancelled), Cancellation);
      ok := true;
    }

    // The start of a triage run: its items are staged in order, the automatic ones authorized at once.
    method StartTriage(now: int, alert: string, agent: string, host: Option<string>, requested: seq<Item>, deadline: int) returns (ok: bool)
      requires Valid()
      modifies this
      ensures Valid()
      ensures Tables() == StartStep(old(Tables()), now, alert, agent, host, requested, deadline)
      ensures ok ==> alert in runs
      ensures !ok ==> Tables() == old(Tables())
    {
      hide Inv, Keeps, OneOpen, StartItem;
      var s := Tables();
      StartGood(s, now, alert, agent, host, requested, deadline);
      if alert in runs { return true; }
      runs := runs[alert := TriageRun(agent, false)];
      ghost var s1 := Tables();
      var n := 0;
      while n < |requested|
        invariant 0 <= n <= |requested|
        invariant StartItems(s1, now, alert, agent, host, requested[..n], deadline) == Some(Tables())
        invariant runs == s1.runs
      {
        assert requested[..n + 1][..n] == requested[..n];
        var fits := StageItem(now, alert, agent, host, requested[n], deadline);
        if !fits {
          StartFails(s1, now, alert, agent, host, requested, deadline, n + 1);
          Restore(s);
          return false;
        }
        n := n + 1;
      }
      assert requested[..n] == requested;
      ok := true;
    }

    method StageItem(now: int, alert: string, agent: string, host: Option<string>, i: Item, deadline: int) returns (ok: bool)
      modifies `actions, `items, `commands, `audit
      ensures var r := StartItem(old(Tables()), now, alert, agent, host, i, deadline); (ok <==> r.Some?) && (ok ==> Tables() == r.value)
    {
      hide Approve;
      if i.rid in actions { return false; }
      actions := actions[i.rid := Action(Some(agent), host, i.kind, i.target, Triage, Pending, None, now)];
      items := items[i.rid := alert];
      if i.auto {
        ok := ApproveAction(now, i.rid, i.gate, true, deadline, if i.vetoed then {i.rid} else {});
      } else {
        ok := true;
      }
    }

    // reconcile over every run, as the listing of runs does
    method ReconcileAll(retired: set<string>)
      requires Valid()
      modifies `commands, `audit, `actions
      ensures Valid()
      ensures Tables() == Reconcile(old(Tables()), None, retired)
    {
      hide Inv, Keeps, OneOpen, Retire;
      ghost var s := Tables();
      ReconcileGood(s, retired, 0);
      InvParts(s);
      RetireItems(Unfit(Tables(), None, retired));
    }
  }

  lemma InvParts(s: State)
    requires Inv(s)
    ensures s.audit.Keys == s.commands.Keys && LinksOk(s)
  {
  }

  lemma SweepRows(s: State, now: int)
    ensures var t := SweepCommands(s, now);
      && t.commands.Keys == s.commands.Keys
      && (forall id :: id in s.commands ==>
            t.commands[id].agent == s.commands[id].agent && t.commands[id].expiresAt == s.commands[id].expiresAt)
      && t.results == s.results && t.receipts == s.receipts && t.actions == s.actions && t.items == s.items && t.runs == s.runs
  {
  }

  lemma SweepParts(s: State, now: int, due: set<CommandId>)
    requires due == set id | id in s.commands && Stale(s.commands[id], now)
    ensures SweepCommands(s, now) ==
            s.(commands := Updated(s.commands, due, ToExpired), audit := Updated(s.audit, due, Adding(Expiry)))
  {
    assert SweepCommands(s, now).commands == Updated(s.commands, due, ToExpired);
    assert SweepCommands(s, now).audit == Updated(s.audit, due, Adding(Expiry));
  }

  lemma SendParts(s: State, ids: set<CommandId>, now: int)
    requires ids <= s.commands.Keys
    ensures Send(s, ids, now) ==
            s.(commands := Updated(s.commands, ids, ToSent(now)), audit := Updated(s.audit, ids, Adding(Dispatch)))
  {
    assert Send(s, ids, now).commands == Updated(s.commands, ids, ToSent(now));
    assert Send(s, ids, now).audit == Updated(s.audit, ids, Adding(Dispatch));
  }

  lemma RetireParts(s: State, rids: set<string>, undecided: set<string>, queued: set<CommandId>)
    requires undecided == set r | r in s.actions && r in rids && s.actions[r].state == Pending
    requires queued == set id | id in s.commands && Withdrawn(s, rids, id)
    ensures Retire(s, rids) ==
            s.(actions := Updated(s.actions, undecided, ToDeclined),
               commands := Updated(s.commands, queued, ToCancelled),
               audit := Updated(s.audit, queued, Adding(Cancellation)))
  {
    hide Withdrawn;
    forall id ensures Withdrawn(s, rids, id) ==> id in s.commands { WithdrawnKnown(s, rids, id); }
    assert Retire(s, rids).actions == Updated(s.actions, undecided, ToDeclined);
    assert Retire(s, rids).commands == Updated(s.commands, queued, ToCancelled);
    assert Retire(s, rids).audit == Updated(s.audit, queued, Adding(Cancellation));
  }

  lemma WithdrawnKnown(s: State, rids: set<string>, id: CommandId)
    ensures Withdrawn(s, rids, id) ==> id in s.commands
  {
  }

  lemma SweptActions(s: State, now: int)
    ensures SweepActions(s, now) == s.(actions := SweepActions(s, now).actions)
    ensures SweepActions(s, now).actions.Keys == s.actions.Keys
  {
  }

  // An item that cannot be started undoes the whole start.
  lemma {:induction false} StartFails(s: State, now: int, alert: string, agent: string, host: Option<string>, items: seq<Item>, deadline: int, n: nat)
    requires n <= |items| && StartItems(s, now, alert, agent, host, items[..n], deadline).None?
    ensures StartItems(s, now, alert, agent, host, items, deadline).None?
    decreases |items| - n
  {
    hide StartItem;
    if n == |items| {
      assert items[..n] == items;
    } else {
      assert items[..n + 1][..n] == items[..n];
      StartFails(s, now, alert, agent, host, items, deadline, n + 1);
    }
  }
}
