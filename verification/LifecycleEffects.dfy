// What single requests of the command, response and triage protocol hand out, admit and withdraw.
module LifecycleEffects {
  import opened Aggregates
  import opened Lifecycle
  import opened LifecycleInvariants

  // ---- what a poll hands out ----

  lemma {:induction false} SelectIn(s: State, rows: seq<CommandId>, vetoed: set<string>, agent: string, durable: bool, now: int, id: CommandId)
    ensures id in Select(s, rows, vetoed, agent, durable, now).ids ==>
      id in rows && Eligible(s, id, agent, durable, now) && (ItemCommand(s, id) ==> !Blocked(s, id.rid, vetoed))
    ensures id in rows && Eligible(s, id, agent, durable, now) && !ItemCommand(s, id) ==>
      id in Select(s, rows, vetoed, agent, durable, now).ids
  {
    hide Eligible, Blocked, Busy;
    if rows != [] {
      var n := |rows| - 1;
      SelectIn(s, rows[..n], vetoed, agent, durable, now, id);
      assert rows == rows[..n] + [rows[n]];
    }
  }

  // A granted command has one more event that dispatches or accepts it.
  predicate Granted(s: State, t: State, id: CommandId) { Handed(Log(t, id)) != Handed(Log(s, id)) }

  // The state in which a poll selects its rows.
  function Swept(s: State, now: int, agent: string, retired: set<string>): State {
    Reconcile(SweepCommands(s, now), Some(agent), retired)
  }

  // Only the phase of the row may differ, and nothing was granted.
  ghost predicate PhaseOnly(s: State, u: State, id: CommandId)
    requires id in s.commands
  {
    id in u.commands && u.commands[id] == s.commands[id].(phase := u.commands[id].phase) && !Granted(s, u, id)
      && (Terminal(s.commands[id].phase) ==> Terminal(u.commands[id].phase))
  }

  lemma SweepSettles(s: State, now: int, id: CommandId)
    requires s.audit.Keys == s.commands.Keys && id in s.commands
    ensures PhaseOnly(s, SweepCommands(s, now), id) && !Stale(SweepCommands(s, now).commands[id], now)
    ensures SweepCommands(s, now).commands[id].phase == Expired ==> s.commands[id].phase == Expired || s.commands[id].expiresAt <= now
  {
    HandedAppend(Log(s, id), Expiry);
  }

  lemma RetireSettlesRow(s: State, rids: set<string>, id: CommandId)
    requires s.audit.Keys == s.commands.Keys && id in s.commands
    ensures PhaseOnly(s, Retire(s, rids), id) && (Retire(s, rids).commands[id].phase == Expired ==> s.commands[id].phase == Expired)
  {
    HandedAppend(Log(s, id), Cancellation);
  }

  lemma SweptCalm(s: State, now: int, agent: string, retired: set<string>, id: CommandId)
    requires Inv(s) && id in s.commands
    ensures var u := Swept(s, now, agent, retired);
      && Inv(u) && u.items == s.items && u.runs == s.runs && PhaseOnly(s, u, id) && !Stale(u.commands[id], now)
      && (u.commands[id].phase == Expired ==> s.commands[id].phase == Expired || s.commands[id].expiresAt <= now)
  {
    var mid := SweepCommands(s, now);
    var rids := Unfit(mid, Some(agent), retired);
    SweepCommandsOk(s, now, now);
    RetireOk(mid, rids, now);
    RowsAudited(s);
    RowsAudited(mid);
    SweepSettles(s, now, id);
    RetireSettlesRow(mid, rids, id);
    RetireRows(mid, rids);
    hide Inv, Retire, Unfit;
  }

  lemma RowsAudited(s: State)
    requires Inv(s)
    ensures s.audit.Keys == s.commands.Keys
    ensures forall id :: id in s.commands && s.commands[id].phase == Authorized ==> s.commands[id].delivered.None?
  {
  }

  // A poll grants exactly what it dispatches: rows of the query, of this agent, unexpired, and not blocked.
  // Nothing stale stays live, and every eligible row outside triage is handed out.
  lemma PollHandsOut(s: State, op: Op, id: CommandId)
    requires Inv(s) && op.Poll? && op.allowed && !op.withhold && id in s.commands
    ensures var t := Step(s, op);
      && id in t.commands && (Live(t.commands[id].phase) ==> t.commands[id].expiresAt > op.now)
      && (t.commands[id].phase == Expired ==> s.commands[id].phase == Expired || s.commands[id].expiresAt <= op.now)
    ensures var t := Step(s, op);
      Granted(s, t, id) ==>
        && id in op.rows && t.commands[id].agent == op.agent && t.commands[id].expiresAt > op.now
        && t.commands[id].phase == Dispatched
        && t.commands[id].delivered == (if s.commands[id].delivered.Some? then s.commands[id].delivered else Some(op.now))
        && (ItemCommand(s, id) ==> !Blocked(s, id.rid, op.vetoed))
        && (!op.durable ==> s.commands[id].delivered.None?)
    ensures var t := Step(s, op);
      var c := s.commands[id];
      id in op.rows && !(id.Resp? && id.rid in s.items) && c.agent == op.agent && c.expiresAt > op.now
        && (c.phase == Authorized || (op.durable && c.phase == Dispatched)) ==>
        Granted(s, t, id)
  {
    var u := Swept(s, op.now, op.agent, op.retired);
    SweptCalm(s, op.now, op.agent, op.retired, id);
    PollIsSend(s, op);
    SelectIn(u, op.rows, op.vetoed, op.agent, op.durable, op.now, id);
    var ids := Select(u, op.rows, op.vetoed, op.agent, op.durable, op.now).ids;
    RowsAudited(u);
    RowsAudited(s);
    SweptSame(s, op.now, op.agent, op.retired, id);
    hide Inv, Step, Select, Swept;
    SendHanded(u, ids, op.now, id);
  }

  // Sweep and reconciliation leave an unexpired command outside triage alone.
  lemma SweptSame(s: State, now: int, agent: string, retired: set<string>, id: CommandId)
    requires id in s.commands
    ensures var u := Swept(s, now, agent, retired);
      s.commands[id].expiresAt > now && !(id.Resp? && id.rid in s.items) ==> id in u.commands && u.commands[id] == s.commands[id]
  {
  }

  lemma PollIsSend(s: State, op: Op)
    requires op.Poll? && op.allowed && !op.withhold
    ensures var u := Swept(s, op.now, op.agent, op.retired);
      Step(s, op) == Send(u, Select(u, op.rows, op.vetoed, op.agent, op.durable, op.now).ids, op.now)
  {
    hide Send, Select, Reconcile, SweepCommands;
  }

  lemma SendHanded(u: State, ids: set<CommandId>, now: int, id: CommandId)
    requires id in u.commands && u.audit.Keys == u.commands.Keys
    ensures var t := Send(u, ids, now);
      && id in t.commands && (Granted(u, t, id) <==> id in ids)
      && (id !in ids ==> t.commands[id] == u.commands[id])
      && (id in ids ==> t.commands[id] == u.commands[id].(phase := Dispatched,
                          delivered := if u.commands[id].delivered.Some? then u.commands[id].delivered else Some(now)))
  {
    HandedAppend(Log(u, id), Dispatch);
  }

  // ---- what a manual request joins ----

  // A request that is staged is alone: no other action of the agent, and none on the enrolled host, is open
  // for the same kind and target, hosts missing from old alerts included.
  lemma RequestAlone(s: State, op: Op, r: string)
    requires op.Request? && op.rid !in s.actions && op.rid in Step(s, op).actions && r != op.rid
    ensures var t := Step(s, op);
      && !ForAgent(t, r, op.agent, op.kind, op.target)
      && !(r in t.actions && SameWork(t.actions[r], op.enrolledHost, op.kind, op.target) && OpenAt(t, r, op.now))
  {
    hide SweepActions, SweepCommands;
    var x := SweepCommands(SweepActions(s, op.now), op.now);
    var t := Step(s, op);
    assert t == Stage(x, op.rid, t.actions[op.rid]);
    var agent, kind, target, now := op.agent, op.kind, op.target, op.now;
    assert ForAgent(t, r, agent, kind, target) <==> ForAgent(x, r, agent, kind, target);
    assert OpenAt(t, r, now) <==> OpenAt(x, r, now);
  }

  // ---- what a cancellation withdraws ----

  // Nothing of the item is left that could still be started.
  predicate Withheld(s: State, r: string) {
    (r in s.actions ==> s.actions[r].state != Pending)
    && (Resp(r) in s.commands ==> s.commands[Resp(r)].phase != Authorized)
  }

  // A queued command that no approval made is not withdrawn with its item; dispatch is what stops it.
  predicate StrayQueued(s: State, r: string) { Stray(s, r) && s.commands[Resp(r)].phase == Authorized }

  lemma RetireWithholds(s: State, rids: set<string>, r: string)
    requires LinksOk(s) && r in rids
    ensures Withheld(Retire(s, rids), r) <==> !StrayQueued(s, r)
  {
    if r in s.actions { assert LinkOk(s, r); }
  }

  // Retiring touches nothing else: other actions and commands, and commands in flight or finished.
  lemma RetireOnly(s: State, rids: set<string>)
    ensures var t := Retire(s, rids);
      && (forall r :: r in s.actions && (r !in rids || s.actions[r].state != Pending) ==> t.actions[r] == s.actions[r])
      && (forall id :: id in s.commands && (!(id.Resp? && id.rid in rids) || s.commands[id].phase != Authorized) ==>
            t.commands[id] == s.commands[id])
  {
  }

  // Cancelling a run withdraws every item that has not been dispatched, but for stray commands, and only those.
  lemma CancelRunWithdraws(s: State, op: Op, r: string)
    requires Inv(s) && op.CancelRun? && op.alert in s.runs && !s.runs[op.alert].cancelled
    ensures r in s.items && s.items[r] == op.alert ==> (Withheld(Step(s, op), r) <==> !StrayQueued(s, r))
    ensures r in s.actions && !(r in s.items && s.items[r] == op.alert) ==> Step(s, op).actions[r] == s.actions[r]
    ensures Flying(s, r) ==> Flying(Step(s, op), r)
    ensures Step(s, op).runs == s.runs[op.alert := s.runs[op.alert].(cancelled := true)]
  {
    var u := s.(runs := s.runs[op.alert := s.runs[op.alert].(cancelled := true)]);
    RunsOk(s, u, op.now);
    assert LinksOk(u);
    hide Retire;
    assert Step(s, op) == Retire(u, ItemsOf(s, op.alert));
    if r in s.items && s.items[r] == op.alert { RetireWithholds(u, ItemsOf(s, op.alert), r); }
    RetireOnly(u, ItemsOf(s, op.alert));
    RetireRows(u, ItemsOf(s, op.alert));
  }

  lemma RetireRows(s: State, rids: set<string>)
    ensures Retire(s, rids).commands.Keys == s.commands.Keys && Retire(s, rids).actions.Keys == s.actions.Keys
    ensures Retire(s, rids).items == s.items && Retire(s, rids).runs == s.runs
  {
  }

  // Reconciliation withdraws exactly the unfit items, of one agent's runs or of all, but for stray commands.
  lemma ReconcileWithdraws(s: State, agent: Option<string>, retired: set<string>, r: string)
    requires Inv(s) && r in s.items && s.items[r] in s.runs
    ensures var run := s.runs[s.items[r]];
      var unfit := (agent.None? || run.agent == agent.value) && (run.cancelled || r in retired);
      var t := Reconcile(s, agent, retired);
      && (unfit ==> (Withheld(t, r) <==> !StrayQueued(s, r)))
      && (!unfit ==>
            && (r in s.actions ==> t.actions[r] == s.actions[r])
            && (Resp(r) in s.commands ==> t.commands[Resp(r)] == s.commands[Resp(r)]))
      && (agent.None? ==> forall now :: Step(s, ReadRuns(now, retired)) == t)
  {
    var rids := Unfit(s, agent, retired);
    hide Retire;
    if r in rids { RetireWithholds(s, rids, r); }
    RetireOnly(s, rids);
  }

  // Reading the queue leaves nothing live past its expiry and nothing undecided past its time.
  lemma ReadsSweep(s: State, op: Op)
    requires op.ReadQueue?
    ensures var t := Step(s, op);
      && (forall id :: id in t.commands && Live(t.commands[id].phase) ==> t.commands[id].expiresAt > op.now)
      && (forall r :: r in t.actions && t.actions[r].state == Pending ==> t.actions[r].createdAt > op.now - ACTION_TTL)
  {
  }
}
