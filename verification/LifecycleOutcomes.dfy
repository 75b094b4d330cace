// What each request of the command, response and triage protocol brings about, and exactly when.
module LifecycleOutcomes {
  import opened Aggregates
  import opened Lifecycle
  import opened LifecycleInvariants
  import opened LifecycleRuns

  // ---- the sweep, seen from one row ----

  // A live command is over at its expiry; nothing else about it, and no other command, changes.
  function Aged(c: Command, now: int): Command {
    if (c.phase == Authorized || c.phase == Dispatched || c.phase == Accepted) && c.expiresAt <= now then c.(phase := Expired) else c
  }

  lemma SweepOne(s: State, now: int, id: CommandId)
    requires id in s.commands && id in s.audit
    ensures var t := SweepCommands(s, now);
      && id in t.commands && t.commands[id] == Aged(s.commands[id], now)
      && Log(t, id) == Log(s, id) + (if Aged(s.commands[id], now) != s.commands[id] then [Expiry] else [])
  {
  }

  lemma SweepElse(s: State, now: int)
    ensures var t := SweepCommands(s, now);
      t == s.(commands := t.commands, audit := t.audit) && t.commands.Keys == s.commands.Keys && t.audit.Keys == s.audit.Keys
  {
  }

  lemma Audited(s: State, id: CommandId)
    requires Inv(s)
    ensures if id in s.commands then id in s.audit else Log(s, id) == []
  {
  }

  // An unexpired command in flight.
  predicate Running(s: State, id: CommandId, now: int) {
    id in s.commands && (s.commands[id].phase == Dispatched || s.commands[id].phase == Accepted) && s.commands[id].expiresAt > now
  }

  // ---- acceptance ----

  // An agent that accepts its own running command, not blocked, has it accepted, with one event when it was new.
  lemma AcceptanceMoves(s: State, now: int, agent: string, id: CommandId, vetoed: set<string>)
    requires Inv(s) && Running(s, id, now) && s.commands[id].agent == agent && !(id.Resp? && Blocked(s, id.rid, vetoed))
    ensures var t := Step(s, Accept(now, agent, id, vetoed));
      && id in t.commands && t.commands[id] == s.commands[id].(phase := Accepted)
      && Log(t, id) == Log(s, id) + (if s.commands[id].phase == Dispatched then [Acceptance] else [])
  {
    hide Inv;
    Audited(s, id);
    SweepOne(s, now, id);
    SweepElse(s, now);
    hide SweepCommands;
  }

  // A blocked item, or a collection that is not running, is refused with one event and no move.
  lemma AcceptanceRefuses(s: State, now: int, agent: string, id: CommandId, vetoed: set<string>)
    requires Inv(s) && id in s.commands && s.commands[id].agent == agent
    requires (id.Resp? && Blocked(s, id.rid, vetoed)) || (s.commands[id].collection && !Running(s, id, now))
    ensures var t := Step(s, Accept(now, agent, id, vetoed));
      && id in t.commands && t.commands[id] == Aged(s.commands[id], now)
      && Log(t, id) == Log(s, id) + (if t.commands[id] != s.commands[id] then [Expiry] else []) + [AcceptanceRefused]
  {
    hide Inv;
    Audited(s, id);
    SweepOne(s, now, id);
    SweepElse(s, now);
    hide SweepCommands, Acknowledge;
    AcknowledgeRefuses(SweepCommands(s, now), id, vetoed);
  }

  lemma AcknowledgeRefuses(t: State, id: CommandId, vetoed: set<string>)
    requires id in t.commands
    requires (id.Resp? && Blocked(t, id.rid, vetoed)) || (t.commands[id].collection && !InFlight(t.commands[id].phase))
    ensures var u := Acknowledge(t, id, vetoed);
      id in u.commands && u.commands[id] == t.commands[id] && Log(u, id) == Log(t, id) + [AcceptanceRefused]
  {
  }

  // From then on, whatever happens, it is never handed out or accepted again.
  lemma AcceptedOnce(s: State, ops: seq<Op>, id: CommandId)
    requires Inv(s) && id in s.commands && (s.commands[id].phase == Accepted || !Live(s.commands[id].phase))
    ensures var t := Run(s, ops); id in t.commands && Handed(Log(t, id)) == Handed(Log(s, id))
  {
    hide Inv, Run, Handed;
    RunHistory(s, ops);
    assert CommandKept(s, Run(s, ops), id);
  }

  // A request about another agent's command changes nothing.
  lemma ForeignCommandRefused(s: State, op: Op)
    requires op.Accept? || op.Submit?
    requires op.id !in s.commands || s.commands[op.id].agent != op.agent
    ensures Step(s, op) == s
  {
    SweepElse(s, op.now);
    if op.id in s.commands { PhaseSwept(s, op.now, op.id); }
    hide SweepCommands;
  }

  // ---- results ----

  // A result that may be filed: valid, and under no receipt of another submission.
  predicate Admissible(s: State, op: Op)
    requires op.Submit?
  {
    op.valid && (op.v2 && op.resultId in s.receipts ==> s.receipts[op.resultId] == Receipt(op.agent, op.id, op.digest))
  }

  // The first result of the agent's running command is its outcome, with its row, its receipt and one event.
  lemma ResultRecorded(s: State, op: Op)
    requires Inv(s) && op.Submit? && Admissible(s, op) && Running(s, op.id, op.now) && s.commands[op.id].agent == op.agent
    requires op.resultId !in s.results
    ensures var t := Step(s, op);
      && op.id in t.commands && t.commands[op.id] == s.commands[op.id].(phase := Finished(op.outcome))
      && t.results == s.results[op.resultId := Result(op.id, op.agent, op.outcome)]
      && (op.v2 ==> op.resultId in t.receipts && t.receipts[op.resultId] == Receipt(op.agent, op.id, op.digest))
      && Log(t, op.id) == Log(s, op.id) + [ResultReceived(op.outcome)]
  {
    hide Inv;
    Audited(s, op.id);
    SweepOne(s, op.now, op.id);
    SweepElse(s, op.now);
    hide SweepCommands;
  }

  // A result of the first schema is refused outright once its command is past its expiry, and so is an invalid one.
  lemma LateResultRefused(s: State, op: Op)
    requires op.Submit? && op.id in s.commands && (!op.valid || (!op.v2 && s.commands[op.id].expiresAt <= op.now))
    ensures Step(s, op) == s
  {
    SweepElse(s, op.now);
    PhaseSwept(s, op.now, op.id);
    hide SweepCommands;
  }

  // A result for a command that is not in flight is only audited: the command, its outcome and all results stay.
  lemma LateResultIgnored(s: State, op: Op)
    requires Inv(s) && op.Submit? && Admissible(s, op) && op.id in s.commands && s.commands[op.id].agent == op.agent
    requires op.v2 || s.commands[op.id].expiresAt > op.now
    requires !(Aged(s.commands[op.id], op.now).phase == Dispatched || Aged(s.commands[op.id], op.now).phase == Accepted)
    ensures var t := Step(s, op);
      && t.results == s.results && op.id in t.commands && t.commands[op.id] == Aged(s.commands[op.id], op.now)
      && Log(t, op.id) == Log(s, op.id) + (if t.commands[op.id] != s.commands[op.id] then [Expiry] else []) + [ResultIgnored(op.outcome)]
  {
    hide Inv;
    Audited(s, op.id);
    SweepOne(s, op.now, op.id);
    SweepElse(s, op.now);
    hide SweepCommands;
  }

  // A result id that was received for another submission is refused, and no receipt ever changes.
  lemma ReceiptBinds(s: State, op: Op)
    requires op.Submit? && op.v2 && op.resultId in s.receipts && s.receipts[op.resultId] != Receipt(op.agent, op.id, op.digest)
    ensures Step(s, op) == s
  {
    SweepElse(s, op.now);
    hide SweepCommands;
  }

  lemma {:induction false} ReceiptsKept(s: State, ops: seq<Op>, k: string)
    requires Inv(s) && k in s.receipts
    ensures var t := Run(s, ops); k in t.receipts && t.receipts[k] == s.receipts[k]
  {
    hide Inv, Step;
    if ops != [] {
      var n := |ops| - 1;
      ReceiptsKept(s, ops[..n], k);
      RunKeepsInv(s, ops[..n]);
      StepGood(Run(s, ops[..n]), ops[n]);
    }
  }

  // ---- direct commands ----

  // A direct command is queued for its agent exactly when it is allowed, unexpired and new.
  lemma EnqueueExactly(s: State, op: Op)
    requires Inv(s) && op.Enqueue? && op.id !in s.commands
    ensures var t := Step(s, op);
      && (op.id in t.commands <==> op.allowed && op.now < op.expiresAt)
      && (op.id in t.commands ==> t.commands[op.id] == Command(op.agent, op.collection, Authorized, None, op.expiresAt) && Log(t, op.id) == [Created])
      && forall i :: i in s.commands ==> i in t.commands && t.commands[i] == s.commands[i]
  {
    Audited(s, op.id);
  }

  // ---- decisions on actions ----

  predicate Fresh(a: Action, now: int) { a.state == Pending && a.createdAt > now - ACTION_TTL }

  lemma SweptAction(s: State, now: int, r: string)
    ensures var t := SweepActions(s, now);
      && t == s.(actions := t.actions) && t.actions.Keys == s.actions.Keys
      && (r in s.actions ==>
            && (s.actions[r].state == Pending && !Fresh(s.actions[r], now) ==> t.actions[r] == s.actions[r].(state := Lapsed))
            && (s.actions[r].state != Pending || Fresh(s.actions[r], now) ==> t.actions[r] == s.actions[r]))
  {
  }

  // Nothing stands against approving the action.
  predicate Approvable(s: State, now: int, r: string, gate: Gate, expiresAt: int, vetoed: set<string>) {
    && r in s.actions && s.actions[r].state == Pending && s.actions[r].agent.Some?
    && !Blocked(s, r, vetoed) && gate == Proceed && now < expiresAt && Resp(r) !in s.commands
  }

  // It can never be approved: it has no agent, or the target of a detection changed.
  predicate Hopeless(s: State, r: string, gate: Gate, vetoed: set<string>) {
    r in s.actions &&
    (s.actions[r].agent.None? || (!Blocked(s, r, vetoed) && gate == TargetChanged && s.actions[r].origin == Detection))
  }

  // The action is approved, and its new command is queued for its agent until the deadline.
  ghost predicate ApprovedWith(s: State, t: State, r: string, collection: bool, expiresAt: int) {
    && r in s.actions && s.actions[r].agent.Some? && r in t.actions && Resp(r) in t.commands
    && t.actions[r] == s.actions[r].(state := Approved, command := Some(Resp(r)))
    && t.commands[Resp(r)] == Command(s.actions[r].agent.value, collection, Authorized, None, expiresAt)
    && Log(t, Resp(r)) == Log(s, Resp(r)) + [Created]
    && (forall q :: q in s.actions && q != r ==> q in t.actions && t.actions[q] == s.actions[q])
    && (forall i :: i in s.commands ==> i in t.commands && t.commands[i] == s.commands[i])
    && t.items == s.items && t.runs == s.runs
  }

  lemma ApprovalGrants(s: State, r: string, agent: string, collection: bool, expiresAt: int)
    requires r in s.actions && s.actions[r].agent == Some(agent) && Resp(r) !in s.commands
    ensures ApprovedWith(s, Approval(s, r, agent, collection, expiresAt), r, collection, expiresAt)
  {
  }

  lemma ApproveExactly(s: State, now: int, r: string, gate: Gate, collection: bool, expiresAt: int, vetoed: set<string>)
    requires r in s.actions && s.actions[r].state == Pending
    ensures var a := Approve(s, now, r, gate, collection, expiresAt, vetoed);
      && (a.Some? ==> r in a.value.actions && (a.value.actions[r].state == Approved <==> Approvable(s, now, r, gate, expiresAt, vetoed)))
      && (Approvable(s, now, r, gate, expiresAt, vetoed) ==> a.Some? && ApprovedWith(s, a.value, r, collection, expiresAt))
      && (a.Some? && !Approvable(s, now, r, gate, expiresAt, vetoed) ==> a.value.actions[r].state == Declined)
  {
    hide Blocked, Approval, ApprovedWith;
    if s.actions[r].agent.Some? && Resp(r) !in s.commands {
      ApprovalGrants(s, r, s.actions[r].agent.value, collection, expiresAt);
      GrantedNew(s, Approval(s, r, s.actions[r].agent.value, collection, expiresAt), r, collection, expiresAt);
    }
  }

  lemma DeclinedExactly(s: State, now: int, r: string, gate: Gate, collection: bool, expiresAt: int, vetoed: set<string>)
    requires r in s.actions && s.actions[r].state == Pending
    ensures var a := Approve(s, now, r, gate, collection, expiresAt, vetoed);
      && (a.Some? && !Approvable(s, now, r, gate, expiresAt, vetoed) <==> Hopeless(s, r, gate, vetoed))
  {
    hide Blocked, Approval, Stage;
  }

  function Until(op: Op): int
    requires op.Authorize?
  {
    if op.deadline.Some? then op.deadline.value else op.now + COMMAND_TTL
  }

  // An undecided action becomes approved exactly when it is fresh, has an agent, and nothing stands against it; then
  // its command is queued for that agent until the deadline.
  lemma AuthorizeExactly(s: State, op: Op)
    requires Inv(s) && op.Authorize? && op.rid in s.actions && s.actions[op.rid].state == Pending
    ensures var t := Step(s, op); var a := s.actions[op.rid];
      && op.rid in t.actions
      && (t.actions[op.rid].state == Approved <==>
            op.allowed && Fresh(a, op.now) && Approvable(s, op.now, op.rid, op.gate, Until(op), op.vetoed))
      && (t.actions[op.rid].state == Declined <==> op.allowed && Fresh(a, op.now) && Hopeless(s, op.rid, op.gate, op.vetoed))
      && (t.actions[op.rid].state == Pending ==> t == s) && t.actions[op.rid].state != Lapsed
      && (t.actions[op.rid].state == Approved ==>
            && t.actions[op.rid] == a.(state := Approved, command := Some(Resp(op.rid)))
            && Resp(op.rid) in t.commands && Log(t, Resp(op.rid)) == [Created]
            && t.commands[Resp(op.rid)] == Command(a.agent.value, op.collection, Authorized, None, Until(op)))
  {
    hide Inv, Approve, Approvable, ApprovedWith, Hopeless, SweepActions;
    SweptAction(s, op.now, op.rid);
    if Resp(op.rid) !in s.commands { Audited(s, Resp(op.rid)); }
    var t := SweepActions(s, op.now);
    if Fresh(s.actions[op.rid], op.now) {
      ApproveExactly(t, op.now, op.rid, op.gate, op.collection, Until(op), op.vetoed);
      DeclinedExactly(t, op.now, op.rid, op.gate, op.collection, Until(op), op.vetoed);
      ApprovableSame(s, t, op.now, op.rid, op.gate, Until(op), op.vetoed);
      if Approvable(t, op.now, op.rid, op.gate, Until(op), op.vetoed) {
        GrantedNew(t, Approve(t, op.now, op.rid, op.gate, op.collection, Until(op), op.vetoed).value, op.rid, op.collection, Until(op));
      }
    }
  }

  lemma ApprovableSame(s: State, t: State, now: int, r: string, gate: Gate, expiresAt: int, vetoed: set<string>)
    requires t == s.(actions := t.actions) && r in s.actions && r in t.actions && t.actions[r] == s.actions[r]
    ensures Approvable(t, now, r, gate, expiresAt, vetoed) <==> Approvable(s, now, r, gate, expiresAt, vetoed)
    ensures Hopeless(t, r, gate, vetoed) <==> Hopeless(s, r, gate, vetoed)
    ensures Approvable(s, now, r, gate, expiresAt, vetoed) ==> Resp(r) !in s.commands && s.actions[r].agent.Some?
  {
  }

  // A fresh undecided action is declined by its rejection; any other stays as it is.
  lemma RejectExactly(s: State, op: Op)
    requires op.Reject? && op.rid in s.actions
    ensures var t := Step(s, op);
      op.rid in t.actions && t.actions[op.rid] == if Fresh(s.actions[op.rid], op.now) then s.actions[op.rid].(state := Declined) else s.actions[op.rid]
  {
    SweptAction(s, op.now, op.rid);
    hide SweepActions;
  }

  // A cancellation cancels exactly the unexpired queued command of the action.
  lemma CancelExactly(s: State, op: Op)
    requires Inv(s) && op.Cancel? && op.rid in s.actions && s.actions[op.rid].command.Some?
    requires s.actions[op.rid].command.value in s.commands
    ensures var t := Step(s, op); var id := s.actions[op.rid].command.value; var c := s.commands[id];
      && id in t.commands
      && (t.commands[id].phase == Cancelled <==> c.phase == Cancelled || (c.phase == Authorized && c.expiresAt > op.now))
      && (t.commands[id].phase == Cancelled && c.phase != Cancelled ==>
            t.commands[id] == c.(phase := Cancelled) && Log(t, id) == Log(s, id) + [Cancellation])
  {
    hide Inv;
    var id := s.actions[op.rid].command.value;
    Audited(s, id);
    SweepOne(s, op.now, id);
    SweepElse(s, op.now);
    hide SweepCommands;
  }

  // ---- staging ----

  lemma GrantedNew(s: State, t: State, r: string, collection: bool, expiresAt: int)
    requires ApprovedWith(s, t, r, collection, expiresAt)
    ensures r in s.actions && s.actions[r].agent.Some? && r in t.actions
    ensures Resp(r) in t.commands && t.commands[Resp(r)] == Command(s.actions[r].agent.value, collection, Authorized, None, expiresAt)
    ensures t.actions[r] == s.actions[r].(state := Approved, command := Some(Resp(r))) && Log(t, Resp(r)) == Log(s, Resp(r)) + [Created]
  {
  }

  // Some open action does the same work on the host.
  ghost predicate Duplicated(s: State, host: Option<string>, kind: string, target: string, now: int) {
    host.Some? && exists r :: (r in s.actions && OpenAt(s, r, now) && s.actions[r].host == host && s.actions[r].kind == kind && s.actions[r].target == target)
  }

  // A new action stays undecided, or with auto is settled at once: approved exactly when nothing stands against it,
  // and then its command is queued.
  ghost predicate Decided(s: State, t: State, now: int, rid: string, row: Action, collection: bool, auto: bool, gate: Gate) {
    && rid in t.actions && t.actions[rid] == row.(state := t.actions[rid].state, command := t.actions[rid].command)
    && (t.actions[rid].state == Pending <==> !auto)
    && (auto && row.agent.Some? && gate == Proceed && Resp(rid) !in s.commands && rid !in s.items ==> t.actions[rid].state == Approved)
    && (t.actions[rid].state == Approved ==>
          && auto && row.agent.Some? && gate == Proceed && Resp(rid) in t.commands
          && t.commands[Resp(rid)] == Command(row.agent.value, collection, Authorized, None, now + COMMAND_TTL))
  }

  lemma StagedExactly(s: State, now: int, rid: string, row: Action, collection: bool, auto: bool, gate: Gate)
    requires rid !in s.actions && row.state == Pending
    ensures Decided(s, Staged(s, now, rid, row, collection, auto, gate), now, rid, row, collection, auto, gate)
  {
    hide Approve, ApprovedWith, Approvable;
    var staged := Stage(s, rid, row);
    var until := now + COMMAND_TTL;
    ApproveExactly(staged, now, rid, gate, collection, until, {});
    ApprovableMeans(staged, now, rid, gate, until);
    ApproveShape(staged, now, rid, gate, collection, until, {});
    var a := Approve(staged, now, rid, gate, collection, until, {});
    if a.Some? && Approvable(staged, now, rid, gate, until, {}) { GrantedNew(staged, a.value, rid, collection, until); }
  }

  // An alert always leaves an action of its own: declined when it is refused or a duplicate, else settled as above.
  lemma AlertExactly(s: State, op: Op)
    requires op.OnAlert? && op.rid !in s.actions
    ensures var t := Step(s, op); var row := Action(op.owner, op.host, op.kind, op.target, Detection, Pending, None, op.now);
      if op.refusal || Duplicated(s, if op.host.Some? then op.host else op.hint, op.kind, op.target, op.now)
      then t == s.(actions := s.actions[op.rid := row.(state := Declined)])
      else Decided(s, t, op.now, op.rid, row, op.collection, op.auto, op.gate)
  {
    hide Staged, Decided, OpenDuplicate, Duplicated;
    DuplicateMeans(s, if op.host.Some? then op.host else op.hint, op.kind, op.target, op.now);
    StagedExactly(s, op.now, op.rid, Action(op.owner, op.host, op.kind, op.target, Detection, Pending, None, op.now),
                  op.collection, op.auto, op.gate);
  }

  lemma DuplicateMeans(s: State, host: Option<string>, kind: string, target: string, now: int)
    ensures OpenDuplicate(s, host, kind, target, now) <==> Duplicated(s, host, kind, target, now)
  {
    hide OpenAt;
    if OpenDuplicate(s, host, kind, target, now) {
      var r :| r in s.actions && SameWork(s.actions[r], host.value, kind, target) && OpenAt(s, r, now);
      assert s.actions[r].host == host;
    }
    if Duplicated(s, host, kind, target, now) {
      var r :| r in s.actions && OpenAt(s, r, now) && s.actions[r].host == host && s.actions[r].kind == kind && s.actions[r].target == target;
      assert SameWork(s.actions[r], host.value, kind, target);
    }
  }

  lemma ApprovableMeans(s: State, now: int, r: string, gate: Gate, expiresAt: int)
    ensures Approvable(s, now, r, gate, expiresAt, {}) ==> r in s.actions && s.actions[r].agent.Some? && gate == Proceed
    ensures (r in s.actions && s.actions[r].state == Pending && s.actions[r].agent.Some? && gate == Proceed && now < expiresAt
             && Resp(r) !in s.commands && r !in s.items) ==> Approvable(s, now, r, gate, expiresAt, {})
  {
  }

  lemma ApproveShape(s: State, now: int, r: string, gate: Gate, collection: bool, expiresAt: int, vetoed: set<string>)
    requires r in s.actions
    ensures var a := Approve(s, now, r, gate, collection, expiresAt, vetoed);
      a.Some? ==> r in a.value.actions
                  && a.value.actions[r] == s.actions[r].(state := a.value.actions[r].state, command := a.value.actions[r].command)
  {
    hide Blocked;
  }

  // An action that is open at this time, commands past their expiry not counted.
  predicate OpenNow(s: State, r: string, now: int) {
    && r in s.actions
    && (Fresh(s.actions[r], now)
        || (s.actions[r].state == Approved && s.actions[r].command.Some? && s.actions[r].command.value in s.commands
            && var c := s.commands[s.actions[r].command.value]; Live(c.phase) && c.expiresAt > now))
  }

  predicate Equivalent(a: Action, agent: string, host: string, kind: string, target: string) {
    (a.agent == Some(agent) || a.host == Some(host)) && a.kind == kind && a.target == target
  }

  function BothSwept(s: State, now: int): State { SweepCommands(SweepActions(s, now), now) }

  lemma SweptOpen(s: State, now: int, r: string)
    ensures OpenAt(BothSwept(s, now), r, now) <==> OpenNow(s, r, now)
    ensures r in s.actions ==>
      r in BothSwept(s, now).actions && BothSwept(s, now).actions[r] == s.actions[r].(state := BothSwept(s, now).actions[r].state)
    ensures BothSwept(s, now).actions.Keys == s.actions.Keys
  {
    var t := SweepActions(s, now);
    SweptAction(s, now, r);
    SweepElse(t, now);
    if r in s.actions && s.actions[r].command.Some? && s.actions[r].command.value in s.commands {
      PhaseSwept(t, now, s.actions[r].command.value);
    }
    hide SweepActions, SweepCommands;
  }

  lemma PhaseSwept(s: State, now: int, id: CommandId)
    requires id in s.commands
    ensures SweepCommands(s, now).commands[id] == Aged(s.commands[id], now)
  {
  }

  lemma SweptForAgent(s: State, now: int, r: string, agent: string, kind: string, target: string)
    ensures var u := BothSwept(s, now);
      ForAgent(u, r, agent, kind, target) <==>
        r in u.actions && u.actions[r].agent == Some(agent) && u.actions[r].kind == kind && u.actions[r].target == target && OpenAt(u, r, now)
  {
    SweptAction(s, now, r);
    SweepElse(SweepActions(s, now), now);
    hide SweepActions, SweepCommands;
  }

  // A request is staged exactly when it is new, valid, for the alert's host, and no equivalent action of its agent or
  // on its host is open; then it is undecided from now.
  lemma RequestExactly(s: State, op: Op)
    requires op.Request? && op.rid !in s.actions
    ensures var t := Step(s, op);
      && (op.rid in t.actions <==>
            && op.valid && (op.alertHost.Some? ==> op.alertHost.value == op.enrolledHost)
            && forall r :: r in s.actions && OpenNow(s, r, op.now) ==> !Equivalent(s.actions[r], op.agent, op.enrolledHost, op.kind, op.target))
      && (op.rid in t.actions ==>
            t.actions[op.rid] == Action(Some(op.agent), op.alertHost, op.kind, op.target, Analyst, Pending, None, op.now))
  {
    var u := BothSwept(s, op.now);
    SweptOpen(s, op.now, op.rid);
    RequestBarred(s, op.now, op.agent, op.enrolledHost, op.kind, op.target);
    hide SweepActions, SweepCommands, OpenDuplicate, AgentDuplicate, OpenNow, Equivalent;
  }

  lemma RequestBarred(s: State, now: int, agent: string, host: string, kind: string, target: string)
    ensures var u := BothSwept(s, now);
      OpenDuplicate(u, Some(host), kind, target, now) || AgentDuplicate(u, agent, kind, target) <==>
      exists r :: r in s.actions && OpenNow(s, r, now) && Equivalent(s.actions[r], agent, host, kind, target)
  {
    hide OpenNow, OpenAt, ForAgent, BothSwept;
    var u := BothSwept(s, now);
    forall r ensures (OpenAt(u, r, now) <==> OpenNow(s, r, now))
      && (r in u.actions <==> r in s.actions) && (r in s.actions ==> u.actions[r] == s.actions[r].(state := u.actions[r].state))
      && (ForAgent(u, r, agent, kind, target) <==>
            r in u.actions && u.actions[r].agent == Some(agent) && u.actions[r].kind == kind && u.actions[r].target == target && OpenAt(u, r, now))
    {
      SweptOpen(s, now, r);
      SweptForAgent(s, now, r, agent, kind, target);
    }
    if OpenDuplicate(u, Some(host), kind, target, now) {
      var r :| r in u.actions && SameWork(u.actions[r], host, kind, target) && OpenAt(u, r, now);
      assert Equivalent(s.actions[r], agent, host, kind, target);
    }
    if AgentDuplicate(u, agent, kind, target) {
      var r :| r in u.actions && ForAgent(u, r, agent, kind, target);
      assert Equivalent(s.actions[r], agent, host, kind, target);
    }
    if r :| r in s.actions && OpenNow(s, r, now) && Equivalent(s.actions[r], agent, host, kind, target) {
      if s.actions[r].host == Some(host) { assert SameWork(u.actions[r], host, kind, target); } else { assert ForAgent(u, r, agent, kind, target); }
    }
  }

  // ---- triage runs ----

  // An item can join: its response id is new, and an automatic one can be approved.
  predicate CanJoin(s: State, now: int, i: Item, deadline: int) {
    i.rid !in s.actions && (i.auto ==> i.gate == Proceed && !i.vetoed && now < deadline && Resp(i.rid) !in s.commands)
  }

  // Its action, and its command when it is automatic.
  ghost predicate Joined(t: State, now: int, alert: string, agent: string, host: Option<string>, i: Item, deadline: int) {
    && i.rid in t.items && t.items[i.rid] == alert && i.rid in t.actions
    && t.actions[i.rid] == Action(Some(agent), host, i.kind, i.target, Triage, if i.auto then Approved else Pending,
                                  if i.auto then Some(Resp(i.rid)) else None, now)
    && (i.auto ==> Resp(i.rid) in t.commands && t.commands[Resp(i.rid)] == Command(agent, true, Authorized, None, deadline))
  }

  // Everything else is as before.
  ghost predicate OthersKept(s: State, t: State, i: Item) {
    && t.runs == s.runs
    && (forall q :: q in s.actions ==> q in t.actions && t.actions[q] == s.actions[q])
    && (forall q :: q in t.actions ==> q in s.actions || q == i.rid)
    && (forall c :: c in s.commands ==> c in t.commands && t.commands[c] == s.commands[c])
    && (forall c :: c in t.commands ==> c in s.commands || c == Resp(i.rid))
    && (forall q :: q in s.items && q != i.rid ==> q in t.items && t.items[q] == s.items[q])
  }

  lemma ItemExactly(s: State, now: int, alert: string, agent: string, host: Option<string>, i: Item, deadline: int)
    requires alert in s.runs && !s.runs[alert].cancelled
    ensures var r := StartItem(s, now, alert, agent, host, i, deadline);
      && (r.Some? <==> CanJoin(s, now, i, deadline))
      && (r.Some? ==> Joined(r.value, now, alert, agent, host, i, deadline) && OthersKept(s, r.value, i))
  {
    hide Approve;
    if i.rid !in s.actions {
      var row := Action(Some(agent), host, i.kind, i.target, Triage, Pending, None, now);
      var staged := Stage(s, i.rid, row).(items := s.items[i.rid := alert]);
      var vetoed: set<string> := if i.vetoed then {i.rid} else {};
      ItemApproved(staged, now, i.rid, i.gate, deadline, i.vetoed);
      if i.auto && Approve(staged, now, i.rid, i.gate, true, deadline, vetoed).Some? { hide Blocked; }
    }
  }

  // A fresh item of a run that is not cancelled is approved exactly when it can be.
  lemma ItemApproved(s: State, now: int, r: string, gate: Gate, deadline: int, veto: bool)
    requires r in s.actions && s.actions[r].state == Pending && s.actions[r].origin == Triage && s.actions[r].agent.Some?
    requires r in s.items && s.items[r] in s.runs && !s.runs[s.items[r]].cancelled
    ensures var a := Approve(s, now, r, gate, true, deadline, if veto then {r} else {});
      && (a.Some? <==> gate == Proceed && !veto && now < deadline && Resp(r) !in s.commands)
      && (a.Some? ==> a.value == Approval(s, r, s.actions[r].agent.value, true, deadline))
  {
  }

  // All items join in turn.
  ghost predicate AllCanJoin(s: State, now: int, items: seq<Item>, deadline: int) {
    && (forall k :: 0 <= k < |items| ==> CanJoin(s, now, items[k], deadline))
    && (forall j, k :: 0 <= j < k < |items| ==> items[j].rid != items[k].rid)
  }

  ghost predicate AllJoined(s: State, t: State, now: int, alert: string, agent: string, host: Option<string>, items: seq<Item>, deadline: int) {
    && t.runs == s.runs
    && (forall k :: 0 <= k < |items| ==> Joined(t, now, alert, agent, host, items[k], deadline))
    && (forall q :: q in s.actions ==> q in t.actions && t.actions[q] == s.actions[q])
    && (forall q :: q in t.actions && q !in s.actions ==> HasRid(items, q))
    && (forall c :: c in s.commands ==> c in t.commands && t.commands[c] == s.commands[c])
    && (forall c :: c in t.commands && c !in s.commands ==> c.Resp? && HasRid(items, c.rid))
  }

  ghost predicate HasRid(items: seq<Item>, r: string) { exists k :: 0 <= k < |items| && items[k].rid == r }

  lemma {:induction false} ItemsExactly(s: State, now: int, alert: string, agent: string, host: Option<string>, items: seq<Item>, deadline: int)
    requires alert in s.runs && !s.runs[alert].cancelled
    ensures var r := StartItems(s, now, alert, agent, host, items, deadline);
      && (r.Some? <==> AllCanJoin(s, now, items, deadline))
      && (r.Some? ==> AllJoined(s, r.value, now, alert, agent, host, items, deadline))
  {
    hide StartItem, CanJoin, Joined, AllJoined, AllCanJoin;
    if items == [] {
      NoneJoined(s, now, alert, agent, host, deadline);
    } else {
      var n := |items| - 1;
      var i := items[n];
      ItemsExactly(s, now, alert, agent, host, items[..n], deadline);
      assert items == items[..n] + [i];
      FirstCanJoin(s, now, items[..n], i, deadline);
      var before := StartItems(s, now, alert, agent, host, items[..n], deadline);
      if before.Some? {
        JoinedRuns(s, before.value, now, alert, agent, host, items[..n], deadline);
        ItemExactly(before.value, now, alert, agent, host, i, deadline);
        NextCanJoin(s, before.value, now, alert, agent, host, items[..n], i, deadline);
        var r := StartItem(before.value, now, alert, agent, host, i, deadline);
        CanJoinNew(before.value, now, i, deadline);
        if r.Some? { NextJoined(s, before.value, r.value, now, alert, agent, host, items[..n], i, deadline); }
      }
    }
  }

  lemma CanJoinNew(s: State, now: int, i: Item, deadline: int)
    ensures CanJoin(s, now, i, deadline) ==> i.rid !in s.actions
  {
  }

  lemma NoneJoined(s: State, now: int, alert: string, agent: string, host: Option<string>, deadline: int)
    ensures AllCanJoin(s, now, [], deadline) && AllJoined(s, s, now, alert, agent, host, [], deadline)
  {
  }

  lemma JoinedRuns(s: State, t: State, now: int, alert: string, agent: string, host: Option<string>, items: seq<Item>, deadline: int)
    requires AllJoined(s, t, now, alert, agent, host, items, deadline)
    ensures t.runs == s.runs
  {
  }

  lemma FirstCanJoin(s: State, now: int, items: seq<Item>, i: Item, deadline: int)
    ensures AllCanJoin(s, now, items + [i], deadline) ==> AllCanJoin(s, now, items, deadline)
  {
    hide CanJoin;
    assert forall k :: 0 <= k < |items| ==> (items + [i])[k] == items[k];
  }

  lemma NextCanJoin(s: State, t: State, now: int, alert: string, agent: string, host: Option<string>, items: seq<Item>, i: Item, deadline: int)
    requires AllCanJoin(s, now, items, deadline) && AllJoined(s, t, now, alert, agent, host, items, deadline)
    ensures CanJoin(t, now, i, deadline) <==> AllCanJoin(s, now, items + [i], deadline)
  {
    var all := items + [i];
    assert (forall k :: 0 <= k < |items| ==> all[k] == items[k]) && all[|items|] == i;
    if CanJoin(t, now, i, deadline) {
      forall k | 0 <= k < |items| ensures items[k].rid != i.rid { assert Joined(t, now, alert, agent, host, items[k], deadline); }
    }
    if AllCanJoin(s, now, all, deadline) {
      assert CanJoin(s, now, all[|items|], deadline);
      forall k | 0 <= k < |items| ensures items[k].rid != i.rid { assert all[k].rid != all[|items|].rid; }
      assert !HasRid(items, i.rid);
    }
  }

  lemma NextJoined(s: State, t: State, u: State, now: int, alert: string, agent: string, host: Option<string>, items: seq<Item>, i: Item, deadline: int)
    requires AllJoined(s, t, now, alert, agent, host, items, deadline) && i.rid !in t.actions
    requires Joined(u, now, alert, agent, host, i, deadline) && OthersKept(t, u, i)
    ensures AllJoined(s, u, now, alert, agent, host, items + [i], deadline)
  {
    var all := items + [i];
    assert (forall k :: 0 <= k < |items| ==> all[k] == items[k]) && all[|items|] == i;
    forall k | 0 <= k < |all| ensures Joined(u, now, alert, agent, host, all[k], deadline) {
      if k < |items| { assert Joined(t, now, alert, agent, host, items[k], deadline); }
    }
    forall q | HasRid(items, q) || q == i.rid ensures HasRid(all, q) {
      if HasRid(items, q) { var k :| 0 <= k < |items| && items[k].rid == q; assert all[k].rid == q; }
    }
  }

  // A new run is started exactly when all its items can join; then it is registered for its agent and they all have.
  // Otherwise nothing changes.
  lemma StartExactly(s: State, op: Op)
    requires op.StartRun? && op.alert !in s.runs
    ensures var t := Step(s, op);
      && (op.alert in t.runs <==> AllCanJoin(s, op.now, op.items, op.until))
      && (op.alert !in t.runs ==> t == s)
      && (op.alert in t.runs ==>
            && t.runs == s.runs[op.alert := TriageRun(op.agent, false)]
            && AllJoined(s.(runs := t.runs), t, op.now, op.alert, op.agent, op.host, op.items, op.until))
  {
    hide StartItems, AllJoined, CanJoin;
    var u := s.(runs := s.runs[op.alert := TriageRun(op.agent, false)]);
    ItemsExactly(u, op.now, op.alert, op.agent, op.host, op.items, op.until);
    var r := StartItems(u, op.now, op.alert, op.agent, op.host, op.items, op.until);
    forall k | 0 <= k < |op.items| ensures CanJoin(u, op.now, op.items[k], op.until) <==> CanJoin(s, op.now, op.items[k], op.until) {
      SameJoin(s, u, op.now, op.items[k], op.until);
    }
    if r.Some? { JoinedRuns(u, r.value, op.now, op.alert, op.agent, op.host, op.items, op.until); }
  }

  lemma SameJoin(s: State, u: State, now: int, i: Item, deadline: int)
    requires u == s.(runs := u.runs)
    ensures CanJoin(u, now, i, deadline) <==> CanJoin(s, now, i, deadline)
  {
  }

  // Every run with an eligible, unblocked row and no other command in flight is served by the poll.
  lemma {:induction false} RunServed(s: State, rows: seq<CommandId>, vetoed: set<string>, agent: string, durable: bool, now: int, id: CommandId)
    requires id in rows && id in s.commands && id.Resp? && id.rid in s.items
    requires s.commands[id].agent == agent && s.commands[id].expiresAt > now
    requires (s.commands[id].phase == Authorized && s.commands[id].delivered.None?) ||
             (durable && (s.commands[id].phase == Authorized || s.commands[id].phase == Dispatched))
    requires !Blocked(s, id.rid, vetoed) && !Busy(s, s.items[id.rid], id)
    ensures exists r :: r in s.items && s.items[r] == s.items[id.rid] && Resp(r) in Select(s, rows, vetoed, agent, durable, now).ids
  {
    assert Eligible(s, id, agent, durable, now);
    hide Eligible, Blocked, Busy;
    var run := s.items[id.rid];
    var sel := Select(s, rows, vetoed, agent, durable, now);
    RunTaken(s, rows, vetoed, agent, durable, now, id);
    TakenServed(s, rows, vetoed, agent, durable, now, run);
  }

  lemma {:induction false} RunTaken(s: State, rows: seq<CommandId>, vetoed: set<string>, agent: string, durable: bool, now: int, id: CommandId)
    requires id in rows && ItemCommand(s, id) && Eligible(s, id, agent, durable, now)
    requires !Blocked(s, id.rid, vetoed) && !Busy(s, s.items[id.rid], id)
    ensures s.items[id.rid] in Select(s, rows, vetoed, agent, durable, now).runs
  {
    hide Eligible, Blocked, Busy;
    var n := |rows| - 1;
    assert rows == rows[..n] + [rows[n]];
    if rows[n] != id { RunTaken(s, rows[..n], vetoed, agent, durable, now, id); }
  }

  lemma {:induction false} TakenServed(s: State, rows: seq<CommandId>, vetoed: set<string>, agent: string, durable: bool, now: int, run: string)
    ensures var sel := Select(s, rows, vetoed, agent, durable, now);
      run in sel.runs ==> exists r :: r in s.items && s.items[r] == run && Resp(r) in sel.ids
  {
    hide Eligible, Blocked, Busy;
    if rows != [] {
      var n := |rows| - 1;
      var id := rows[n];
      TakenServed(s, rows[..n], vetoed, agent, durable, now, run);
      var before, sel := Select(s, rows[..n], vetoed, agent, durable, now), Select(s, rows, vetoed, agent, durable, now);
      if run in before.runs {
        var r :| r in s.items && s.items[r] == run && Resp(r) in before.ids;
        assert Resp(r) in sel.ids;
      } else if run in sel.runs {
        assert Resp(id.rid) in sel.ids;
      }
    }
  }
}
