// What every request keeps, for every interleaving and every command id: command histories, results,
// approvals, cancelled runs and the absence of duplicate open work.
module LifecycleInvariants {
  import opened Aggregates
  import opened Lifecycle

  // ---- one command: its row and its own audit events ----

  // The phase that a command's events lead to.
  function Fold(log: seq<Event>): Option<Phase> {
    if log == [] then None
    else
      var before := Fold(log[..|log| - 1]);
      match log[|log| - 1]
      case Created => Some(Authorized)
      case Dispatch => Some(Dispatched)
      case Acceptance => Some(Accepted)
      case Expiry => Some(Expired)
      case Cancellation => Some(Cancelled)
      case ResultReceived(o) => Some(Finished(o))
      case AcceptanceRefused => before
      case ResultIgnored(_) => before
  }

  // The moves a command can make, with the event that records each. A received result whose id is
  // already taken moves nothing.
  predicate Moves(c: Command, e: Event, d: Command) {
    && d == c.(phase := d.phase, delivered := d.delivered)
    && match e
       case Created => false
       case Dispatch => (c.phase == Authorized || c.phase == Dispatched) && d.phase == Dispatched
                        && d.delivered.Some? && (c.delivered.Some? ==> d.delivered == c.delivered)
       case Acceptance => c.phase == Dispatched && d.phase == Accepted && d.delivered == c.delivered
       case Expiry => Live(c.phase) && d.phase == Expired && d.delivered == c.delivered
       case Cancellation => c.phase == Authorized && d.phase == Cancelled && d.delivered == c.delivered
       case ResultReceived(o) => InFlight(c.phase) && (d == c || d == c.(phase := Finished(o)))
       case AcceptanceRefused => d == c
       case ResultIgnored(_) => !InFlight(c.phase) && d == c
  }

  // Delivery agrees with the phase: queued and cancelled commands were never delivered.
  predicate DeliveryOk(c: Command) {
    && (c.phase == Authorized || c.phase == Cancelled ==> c.delivered.None?)
    && (InFlight(c.phase) || c.phase.Finished? ==> c.delivered.Some?)
  }

  // Every row's delivery agrees with its phase, and exactly the commands have events.
  ghost predicate RowsOk(s: State) {
    && (forall id :: id in s.commands ==> DeliveryOk(s.commands[id]))
    && s.audit.Keys == s.commands.Keys
  }

  // A command's events fold to its phase.
  ghost predicate FoldsTo(s: State) {
    forall id :: id in s.commands ==> Fold(Log(s, id)) == Some(s.commands[id].phase)
  }

  lemma FoldAppend(log: seq<Event>, e: Event)
    ensures Fold(log + [e]) == match e
      case Created => Some(Authorized)
      case Dispatch => Some(Dispatched)
      case Acceptance => Some(Accepted)
      case Expiry => Some(Expired)
      case Cancellation => Some(Cancelled)
      case ResultReceived(o) => Some(Finished(o))
      case AcceptanceRefused => Fold(log)
      case ResultIgnored(_) => Fold(log)
  {
    assert (log + [e])[..|log|] == log;
  }

  // ---- the invariant ----

  // A command has a result row exactly when its phase is that result's outcome, and never two.
  ghost predicate ResultsOk(s: State) {
    && (forall k :: k in s.results ==>
          s.results[k].command in s.commands && s.commands[s.results[k].command].phase == Finished(s.results[k].outcome))
    && (forall k, l :: k in s.results && l in s.results && s.results[k].command == s.results[l].command ==> k == l)
    && (forall id :: id in s.commands && s.commands[id].phase.Finished? ==>
          exists k :: k in s.results && s.results[k].command == id)
  }

  // An approved action has its own "resp-" command, and no other action has a command.
  ghost predicate LinkOk(s: State, r: string)
    requires r in s.actions
  {
    if s.actions[r].state == Approved then s.actions[r].command == Some(Resp(r)) && Resp(r) in s.commands
    else s.actions[r].command == None
  }

  ghost predicate LinksOk(s: State) { forall r :: r in s.actions ==> LinkOk(s, r) }

  ghost predicate ItemsOk(s: State) {
    forall r :: r in s.items ==> r in s.actions && s.actions[r].origin == Triage && s.items[r] in s.runs
  }

  // A command of a response action, or of an action still to come, that no approval made.
  predicate Stray(s: State, r: string) { Resp(r) in s.commands && !(r in s.actions && s.actions[r].state == Approved) }

  predicate Flying(s: State, r: string) { Resp(r) in s.commands && InFlight(s.commands[Resp(r)].phase) }

  ghost predicate Inv(s: State) {
    RowsOk(s) && ResultsOk(s) && LinksOk(s) && ItemsOk(s)
  }

  // ---- what one change keeps of the state before it ----

  ghost predicate CommandKept(s: State, t: State, id: CommandId) {
    id in s.commands ==>
      && id in t.commands
      && t.commands[id].agent == s.commands[id].agent
      && (Terminal(s.commands[id].phase) ==> t.commands[id] == s.commands[id])
      && (s.commands[id].delivered.Some? ==> t.commands[id].delivered == s.commands[id].delivered)
      && Log(s, id) <= Log(t, id)
      && (Past(s.commands[id].phase) ==> Past(t.commands[id].phase) && Handed(Log(t, id)) == Handed(Log(s, id)))
  }

  // The agent has the command or it is over: it is not to be handed out again.
  predicate Past(p: Phase) { p == Accepted || Terminal(p) }

  ghost predicate ActionKept(s: State, t: State, r: string) {
    r in s.actions ==>
      && r in t.actions
      && t.actions[r] == s.actions[r].(state := t.actions[r].state, command := t.actions[r].command)
      && (s.actions[r].state != Pending ==> t.actions[r] == s.actions[r])
  }

  // How often a command was handed to an agent or let run.
  function Handed(log: seq<Event>): nat {
    if log == [] then 0
    else Handed(log[..|log| - 1]) + if log[|log| - 1] == Dispatch || log[|log| - 1] == Acceptance then 1 else 0
  }

  // A cancelled run stays cancelled, and its items are not authorized, dispatched or accepted again.
  ghost predicate CancelKept(s: State, t: State, r: string) {
    RunCancelled(s, r) ==>
      && RunCancelled(t, r) && Handed(Log(t, Resp(r))) == Handed(Log(s, Resp(r)))
      && (r in s.actions && r in t.actions && t.actions[r].state == Approved ==> s.actions[r].state == Approved)
  }

  // Work that is closed at this time stays closed.
  ghost predicate ClosedKept(s: State, t: State, now: int, r: string) {
    r in s.actions && !OpenAt(s, r, now) ==> !OpenAt(t, r, now)
  }

  ghost predicate Keeps(s: State, t: State, now: int) {
    && (forall id :: CommandKept(s, t, id))
    && (forall r :: ActionKept(s, t, r))
    && (forall r :: CancelKept(s, t, r))
    && (forall r :: ClosedKept(s, t, now, r))
    && (forall k :: k in s.results ==> k in t.results && t.results[k] == s.results[k])
    && (forall k :: k in s.receipts ==> k in t.receipts && t.receipts[k] == s.receipts[k])
    && (forall r :: r in s.items ==> r in t.items && t.items[r] == s.items[r])
    && (forall n :: n in s.runs ==> n in t.runs && t.runs[n].agent == s.runs[n].agent)
  }

  lemma KeepsTrans(s: State, t: State, u: State, now: int)
    requires Keeps(s, t, now) && Keeps(t, u, now)
    ensures Keeps(s, u, now)
  {
    forall id ensures CommandKept(s, u, id) { assert CommandKept(s, t, id) && CommandKept(t, u, id); }
    forall r ensures ActionKept(s, u, r) { assert ActionKept(s, t, r) && ActionKept(t, u, r); }
    forall r ensures CancelKept(s, u, r) { assert CancelKept(s, t, r) && CancelKept(t, u, r) && ActionKept(s, t, r); }
    forall r ensures ClosedKept(s, u, now, r) {
      assert ClosedKept(s, t, now, r) && ClosedKept(t, u, now, r) && ActionKept(s, t, r);
    }
  }

  lemma KeepsSelf(s: State, now: int)
    ensures Keeps(s, s, now)
  {
  }

  lemma HandedAppend(log: seq<Event>, e: Event)
    ensures Handed(log + [e]) == Handed(log) + if e == Dispatch || e == Acceptance then 1 else 0
  {
    assert (log + [e])[..|log|] == log;
  }

  // ---- changes that touch only commands and their events ----

  // Everything but commands and events is the same.
  ghost predicate OnlyCommands(s: State, t: State) {
    t == s.(commands := t.commands, audit := t.audit)
  }

  // Every command makes at most one move, none starts to fly, and none finishes.
  ghost predicate Settles(s: State, t: State) {
    && s.commands.Keys == t.commands.Keys == t.audit.Keys
    && (forall id :: id in s.commands ==> Settled(s, t, id))
  }

  ghost predicate Settled(s: State, t: State, id: CommandId)
    requires id in s.commands && id in t.commands
  {
    || (t.commands[id] == s.commands[id] && Log(t, id) == Log(s, id))
    || exists e :: Log(t, id) == Log(s, id) + [e] && Settling(s.commands[id], e, t.commands[id])
  }

  // A move that neither grants anything nor finishes the command.
  predicate Settling(c: Command, e: Event, d: Command) {
    Moves(c, e, d) && !e.Dispatch? && !e.Acceptance? && (d.phase.Finished? ==> d == c)
  }

  // The finished commands are the same and no command starts to fly.
  ghost predicate Calm(s: State, t: State) {
    && s.commands.Keys == t.commands.Keys
    && (forall id :: id in s.commands ==>
          && (s.commands[id].phase.Finished? || t.commands[id].phase.Finished? ==> t.commands[id] == s.commands[id])
          && (InFlight(t.commands[id].phase) ==> InFlight(s.commands[id].phase)))
  }

  lemma CalmResults(s: State, t: State)
    requires ResultsOk(s) && Calm(s, t) && t.results == s.results
    ensures ResultsOk(t)
  {
  }

  lemma SameLinks(s: State, t: State)
    requires LinksOk(s) && s.commands.Keys == t.commands.Keys && t.actions == s.actions
    ensures LinksOk(t)
  {
    forall r | r in t.actions ensures LinkOk(t, r) { assert LinkOk(s, r); }
  }

  lemma SettledRow(s: State, t: State, id: CommandId)
    requires id in s.commands && id in t.commands && Settled(s, t, id) && DeliveryOk(s.commands[id])
    ensures DeliveryOk(t.commands[id])
    ensures s.commands[id].phase.Finished? || t.commands[id].phase.Finished? ==> t.commands[id] == s.commands[id]
    ensures InFlight(t.commands[id].phase) ==> InFlight(s.commands[id].phase)
  {
    if t.commands[id] != s.commands[id] {
      var e :| Log(t, id) == Log(s, id) + [e] && Settling(s.commands[id], e, t.commands[id]);
    }
  }

  lemma SettlesRows(s: State, t: State)
    requires RowsOk(s) && Settles(s, t)
    ensures RowsOk(t) && Calm(s, t)
  {
    hide Settled, DeliveryOk, InFlight;
    forall id | id in t.commands
      ensures DeliveryOk(t.commands[id])
      ensures s.commands[id].phase.Finished? || t.commands[id].phase.Finished? ==> t.commands[id] == s.commands[id]
      ensures InFlight(t.commands[id].phase) ==> InFlight(s.commands[id].phase)
    {
      SettledRow(s, t, id);
    }
  }

  lemma SettlesInv(s: State, t: State)
    requires Inv(s) && OnlyCommands(s, t) && Settles(s, t)
    ensures Inv(t)
  {
    hide RowsOk, ResultsOk, LinksOk, Calm;
    SettlesRows(s, t);
    CalmResults(s, t);
    SameLinks(s, t);
  }

  lemma SettlesKeeps(s: State, t: State, now: int)
    requires Inv(s) && OnlyCommands(s, t) && Settles(s, t)
    ensures Keeps(s, t, now)
  {
    hide Inv, Settled;
    forall id ensures CommandKept(s, t, id) {
      if id in s.commands { SettledKept(s, t, id); }
    }
    forall r ensures CancelKept(s, t, r) {
      if Resp(r) in s.commands {
        SettledHanded(s, t, Resp(r));
      } else {
        NoLog(s, t, Resp(r));
      }
    }
    forall r ensures ClosedKept(s, t, now, r) {
      if r in s.actions && s.actions[r].command.Some? && s.actions[r].command.value in s.commands {
        SettledKept(s, t, s.actions[r].command.value);
      }
    }
  }

  lemma SettledKept(s: State, t: State, id: CommandId)
    requires id in s.commands && id in t.commands && Settled(s, t, id)
    ensures CommandKept(s, t, id)
    ensures Live(t.commands[id].phase) ==> Live(s.commands[id].phase)
  {
  }

  lemma SettledHanded(s: State, t: State, id: CommandId)
    requires id in s.commands && id in t.commands && Settled(s, t, id)
    ensures Handed(Log(t, id)) == Handed(Log(s, id))
  {
    if Log(t, id) != Log(s, id) {
      var e :| Log(t, id) == Log(s, id) + [e] && Settling(s.commands[id], e, t.commands[id]);
      HandedAppend(Log(s, id), e);
    }
  }

  lemma NoLog(s: State, t: State, id: CommandId)
    requires Inv(s) && Settles(s, t) && id !in s.commands
    ensures Log(s, id) == Log(t, id) == []
  {
  }

  lemma SweepCommandsOk(s: State, now: int, at: int)
    requires Inv(s)
    ensures Inv(SweepCommands(s, now)) && Keeps(s, SweepCommands(s, now), at)
  {
    hide ResultsOk, LinksOk, ItemsOk;
    var t := SweepCommands(s, now);
    forall id | id in s.commands ensures Settled(s, t, id) {
      if Stale(s.commands[id], now) { assert Log(t, id) == Log(s, id) + [Expiry]; }
    }
    SettlesInv(s, t);
    SettlesKeeps(s, t, at);
  }

  // One recorded move that grants nothing and finishes nothing.
  lemma RecordOk(s: State, id: CommandId, d: Command, e: Event, at: int)
    requires Inv(s) && id in s.commands && Settling(s.commands[id], e, d)
    ensures Inv(Record(s, id, d, e)) && Keeps(s, Record(s, id, d, e), at)
  {
    hide ResultsOk, LinksOk, ItemsOk;
    var t := Record(s, id, d, e);
    forall i | i in s.commands ensures Settled(s, t, i) {
      if i == id { assert Log(t, id) == Log(s, id) + [e]; }
    }
    SettlesInv(s, t);
    SettlesKeeps(s, t, at);
  }

  // ---- changes that touch only undecided actions ----

  // Some pending actions are declined or lapse.
  ghost predicate Decides(s: State, t: State) {
    && t == s.(actions := t.actions)
    && s.actions.Keys == t.actions.Keys
    && (forall r :: r in s.actions ==>
          || t.actions[r] == s.actions[r]
          || (s.actions[r].state == Pending && (t.actions[r].state == Declined || t.actions[r].state == Lapsed)
              && t.actions[r] == s.actions[r].(state := t.actions[r].state)))
  }

  lemma DecidesOk(s: State, t: State, at: int)
    requires Inv(s) && Decides(s, t)
    ensures Inv(t) && Keeps(s, t, at)
  {
    hide RowsOk, ResultsOk, LinksOk, Keeps;
    SameCommands(s, t);
    DecidesLinks(s, t);
    DecidesKeeps(s, t, at);
  }

  lemma DecidesLinks(s: State, t: State)
    requires LinksOk(s) && Decides(s, t)
    ensures LinksOk(t)
  {
    forall r | r in t.actions ensures LinkOk(t, r) { assert LinkOk(s, r); }
  }

  lemma DecidesKeeps(s: State, t: State, at: int)
    requires Decides(s, t)
    ensures Keeps(s, t, at)
  {
    forall r ensures ActionKept(s, t, r) {}
    forall r ensures ClosedKept(s, t, at, r) {}
    forall id ensures CommandKept(s, t, id) {}
    forall r ensures CancelKept(s, t, r) {}
  }

  lemma SameCommands(s: State, t: State)
    requires RowsOk(s) && ResultsOk(s)
    requires t.commands == s.commands && t.audit == s.audit && t.results == s.results
    ensures RowsOk(t) && ResultsOk(t)
  {
  }

  lemma SweepActionsOk(s: State, now: int, at: int)
    requires Inv(s)
    ensures Inv(SweepActions(s, now)) && Keeps(s, SweepActions(s, now), at)
  {
    hide Inv, Keeps;
    DecidesOk(s, SweepActions(s, now), at);
  }

  lemma DeclineOk(s: State, r: string, at: int)
    requires Inv(s) && r in s.actions && s.actions[r].state == Pending
    ensures var t := Stage(s, r, s.actions[r].(state := Declined)); Inv(t) && Keeps(s, t, at)
  {
    hide Inv, Keeps;
    DecidesOk(s, Stage(s, r, s.actions[r].(state := Declined)), at);
  }

  lemma RetireOk(s: State, rids: set<string>, at: int)
    requires Inv(s)
    ensures Inv(Retire(s, rids)) && Keeps(s, Retire(s, rids), at)
  {
    hide Inv, Keeps;
    var t := Retire(s, rids);
    var mid := s.(commands := t.commands, audit := t.audit);
    RetireSettles(s, rids, mid);
    SettlesInv(s, mid);
    SettlesKeeps(s, mid, at);
    DecidesOk(mid, t, at);
    KeepsTrans(s, mid, t, at);
  }

  lemma RetireSettles(s: State, rids: set<string>, mid: State)
    requires Inv(s) && mid == s.(commands := Retire(s, rids).commands, audit := Retire(s, rids).audit)
    ensures Settles(s, mid)
  {
    hide ResultsOk, LinksOk, ItemsOk;
    forall id | id in s.commands ensures Settled(s, mid, id) {
      if Withdrawn(s, rids, id) {
        assert Log(mid, id) == Log(s, id) + [Cancellation];
      }
    }
  }

  // ---- changes that hand commands out ----

  // Some commands are dispatched, redelivered or accepted, none of them for a cancelled run.
  ghost predicate Advances(s: State, t: State) {
    && s.commands.Keys == t.commands.Keys == t.audit.Keys
    && (forall id :: id in s.commands ==> Advanced(s, t, id))
    && (forall r :: RunCancelled(s, r) && Resp(r) in s.commands ==> Log(t, Resp(r)) == Log(s, Resp(r)))
  }

  ghost predicate Advanced(s: State, t: State, id: CommandId)
    requires id in s.commands && id in t.commands
  {
    || (t.commands[id] == s.commands[id] && Log(t, id) == Log(s, id))
    || (Log(t, id) == Log(s, id) + [Dispatch] && Moves(s.commands[id], Dispatch, t.commands[id]))
    || (Log(t, id) == Log(s, id) + [Acceptance] && Moves(s.commands[id], Acceptance, t.commands[id]))
  }

  lemma AdvancedRow(s: State, t: State, id: CommandId)
    requires id in s.commands && id in t.commands && Advanced(s, t, id) && DeliveryOk(s.commands[id])
    ensures DeliveryOk(t.commands[id])
    ensures s.commands[id].phase.Finished? || t.commands[id].phase.Finished? ==> t.commands[id] == s.commands[id]
  {
  }

  lemma AdvancesRows(s: State, t: State)
    requires RowsOk(s) && ResultsOk(s) && Advances(s, t) && t.results == s.results
    ensures RowsOk(t) && ResultsOk(t)
  {
    hide Advanced, DeliveryOk;
    forall id | id in t.commands
      ensures DeliveryOk(t.commands[id])
      ensures s.commands[id].phase.Finished? || t.commands[id].phase.Finished? ==> t.commands[id] == s.commands[id]
    {
      AdvancedRow(s, t, id);
    }
  }

  lemma AdvancedKept(s: State, t: State, id: CommandId)
    requires id in s.commands && id in t.commands && Advanced(s, t, id)
    ensures CommandKept(s, t, id) && (Live(t.commands[id].phase) ==> Live(s.commands[id].phase))
  {
    hide Handed;
    assert Past(s.commands[id].phase) ==> t.commands[id] == s.commands[id] && Log(t, id) == Log(s, id);
  }

  lemma AdvancesKeeps(s: State, t: State, at: int)
    requires RowsOk(s) && OnlyCommands(s, t) && Advances(s, t)
    ensures Keeps(s, t, at)
  {
    hide Advanced, CommandKept, Live;
    forall id ensures CommandKept(s, t, id) {
      if id in s.commands { AdvancedKept(s, t, id); } else { OtherKept(s, t, id); }
    }
    forall r ensures CancelKept(s, t, r) {
      if Resp(r) !in s.commands { assert Resp(r) !in t.audit && Resp(r) !in s.audit; }
    }
    forall r ensures ClosedKept(s, t, at, r) {
      if r in s.actions && s.actions[r].command.Some? && s.actions[r].command.value in s.commands {
        AdvancedKept(s, t, s.actions[r].command.value);
      }
    }
  }

  lemma AdvancesOk(s: State, t: State, at: int)
    requires Inv(s) && OnlyCommands(s, t) && Advances(s, t)
    ensures Inv(t) && Keeps(s, t, at)
  {
    hide RowsOk, ResultsOk, LinksOk, ItemsOk, Keeps;
    AdvancesRows(s, t);
    SameLinks(s, t);
    SameItems(s, t);
    AdvancesKeeps(s, t, at);
  }

  lemma SameItems(s: State, t: State)
    requires ItemsOk(s) && t.items == s.items && t.actions == s.actions && t.runs == s.runs
    ensures ItemsOk(t)
  {
  }

  // What a poll selects: eligible commands, at most one per run, none of a busy or cancelled run.
  ghost predicate Sendable(s: State, ids: set<CommandId>) {
    && (forall id :: id in ids ==> id in s.commands && (s.commands[id].phase == Authorized || s.commands[id].phase == Dispatched))
    && (forall r :: r in s.items && Resp(r) in ids ==> !RunCancelled(s, r) && !Busy(s, s.items[r], Resp(r)))
    && (forall a, b :: a in s.items && b in s.items && s.items[a] == s.items[b] && Resp(a) in ids && Resp(b) in ids ==> a == b)
  }

  lemma {:induction false} SelectSendable(s: State, rows: seq<CommandId>, vetoed: set<string>, agent: string, durable: bool, now: int)
    ensures var sel := Select(s, rows, vetoed, agent, durable, now);
      Sendable(s, sel.ids) && forall r :: r in s.items && Resp(r) in sel.ids ==> s.items[r] in sel.runs
  {
    if rows != [] {
      SelectSendable(s, rows[..|rows| - 1], vetoed, agent, durable, now);
    }
  }

  lemma SendOk(s: State, ids: set<CommandId>, now: int, at: int)
    requires Inv(s) && Sendable(s, ids)
    ensures Inv(Send(s, ids, now)) && Keeps(s, Send(s, ids, now), at)
  {
    hide ResultsOk, LinksOk, ItemsOk, Keeps;
    var t := Send(s, ids, now);
    forall id | id in s.commands ensures Advanced(s, t, id) {
      if id in ids { assert Log(t, id) == Log(s, id) + [Dispatch]; }
    }
    AdvancesOk(s, t, at);
  }

  lemma AcceptanceOk(s: State, id: CommandId, at: int)
    requires Inv(s) && id in s.commands && s.commands[id].phase == Dispatched
    requires id.Resp? ==> !RunCancelled(s, id.rid)
    ensures var t := Record(s, id, s.commands[id].(phase := Accepted), Acceptance); Inv(t) && Keeps(s, t, at)
  {
    hide ResultsOk, LinksOk, ItemsOk, Keeps;
    var t := Record(s, id, s.commands[id].(phase := Accepted), Acceptance);
    forall i | i in s.commands ensures Advanced(s, t, i) {}
    AdvancesOk(s, t, at);
  }

  // ---- results ----

  lemma ReceiptOk(s: State, t: State, at: int)
    requires Inv(s) && t == s.(receipts := t.receipts)
    requires forall k :: k in s.receipts ==> k in t.receipts && t.receipts[k] == s.receipts[k]
    ensures Inv(t) && Keeps(s, t, at)
  {
    hide RowsOk, ResultsOk;
    SameCommands(s, t);
    forall r | r in t.actions ensures LinkOk(t, r) { assert LinkOk(s, r); }
  }

  function Finish(s: State, k: string, id: CommandId, agent: string, o: Outcome): State
    requires id in s.commands
  {
    Record(s.(results := s.results[k := Result(id, agent, o)]), id, s.commands[id].(phase := Finished(o)), ResultReceived(o))
  }

  lemma FinishResults(s: State, k: string, id: CommandId, agent: string, o: Outcome)
    requires RowsOk(s) && ResultsOk(s) && id in s.commands && InFlight(s.commands[id].phase) && k !in s.results
    ensures var t := Finish(s, k, id, agent, o); RowsOk(t) && ResultsOk(t)
  {
    var t := Finish(s, k, id, agent, o);
    forall i | i in t.commands && t.commands[i].phase.Finished?
      ensures exists l :: l in t.results && t.results[l].command == i
    {
      if i == id { assert t.results[k].command == id; }
      else {
        var l :| l in s.results && s.results[l].command == i;
        assert l in t.results;
      }
    }
  }

  lemma FinishInv(s: State, k: string, id: CommandId, agent: string, o: Outcome)
    requires Inv(s) && id in s.commands && InFlight(s.commands[id].phase) && k !in s.results
    ensures Inv(Finish(s, k, id, agent, o))
  {
    hide RowsOk, ResultsOk, LinksOk;
    var t := Finish(s, k, id, agent, o);
    FinishResults(s, k, id, agent, o);
    assert s.commands.Keys == t.commands.Keys;
    SameLinks(s, t);
  }

  lemma FinishKeeps(s: State, k: string, id: CommandId, agent: string, o: Outcome, at: int)
    requires id in s.commands && InFlight(s.commands[id].phase) && k !in s.results
    ensures Keeps(s, Finish(s, k, id, agent, o), at)
  {
    hide CommandKept;
    var t := Finish(s, k, id, agent, o);
    HandedAppend(Log(s, id), ResultReceived(o));
    forall r ensures CancelKept(s, t, r) {}
    forall i ensures CommandKept(s, t, i) {
      if i == id { FinishedKept(s, k, id, agent, o); } else { OtherKept(s, t, i); }
    }
    forall r ensures ClosedKept(s, t, at, r) {}
  }

  lemma FinishedKept(s: State, k: string, id: CommandId, agent: string, o: Outcome)
    requires id in s.commands && InFlight(s.commands[id].phase)
    ensures CommandKept(s, Finish(s, k, id, agent, o), id)
  {
    HandedAppend(Log(s, id), ResultReceived(o));
  }

  lemma OtherKept(s: State, t: State, i: CommandId)
    requires i in s.commands ==> i in t.commands && t.commands[i] == s.commands[i] && Log(t, i) == Log(s, i)
    ensures CommandKept(s, t, i)
  {
  }

  // ---- creation, staging and runs ----

  lemma CreateRows(s: State, id: CommandId, agent: string, collection: bool, expiresAt: int)
    requires RowsOk(s) && ResultsOk(s) && id !in s.commands
    ensures var t := Create(s, id, agent, collection, expiresAt); RowsOk(t) && ResultsOk(t)
  {
    var t := Create(s, id, agent, collection, expiresAt);
    forall i | i in t.commands && t.commands[i].phase.Finished?
      ensures exists l :: l in t.results && t.results[l].command == i
    {
      var l :| l in s.results && s.results[l].command == i;
    }
  }

  lemma CreateOk(s: State, id: CommandId, agent: string, collection: bool, expiresAt: int, at: int)
    requires Inv(s) && id !in s.commands
    ensures var t := Create(s, id, agent, collection, expiresAt); Inv(t) && Keeps(s, t, at)
  {
    hide RowsOk, ResultsOk, Keeps;
    var t := Create(s, id, agent, collection, expiresAt);
    CreateRows(s, id, agent, collection, expiresAt);
    forall r | r in t.actions ensures LinkOk(t, r) { assert LinkOk(s, r); }
    CreateKeeps(s, id, agent, collection, expiresAt, at);
  }

  lemma CreateKeeps(s: State, id: CommandId, agent: string, collection: bool, expiresAt: int, at: int)
    requires LinksOk(s) && id !in s.commands
    ensures Keeps(s, Create(s, id, agent, collection, expiresAt), at)
  {
    var t := Create(s, id, agent, collection, expiresAt);
    forall r ensures CancelKept(s, t, r) {
      HandedAppend(Log(s, id), Created);
    }
    forall r ensures ClosedKept(s, t, at, r) {
      if r in s.actions { assert LinkOk(s, r); }
    }
  }

  lemma ApprovalInv(s: State, r: string, agent: string, collection: bool, expiresAt: int)
    requires Inv(s) && r in s.actions && s.actions[r].state == Pending && Resp(r) !in s.commands
    ensures Inv(Approval(s, r, agent, collection, expiresAt))
  {
    hide RowsOk, ResultsOk;
    var t := Approval(s, r, agent, collection, expiresAt);
    CreateRows(s, Resp(r), agent, collection, expiresAt);
    SameCommands(Create(s, Resp(r), agent, collection, expiresAt), t);
    forall q | q in t.actions ensures LinkOk(t, q) { assert LinkOk(s, q); }
  }

  lemma ApprovalKeeps(s: State, r: string, agent: string, collection: bool, expiresAt: int, at: int)
    requires Inv(s) && r in s.actions && s.actions[r].state == Pending && Resp(r) !in s.commands
    requires OpenAt(s, r, at) && !RunCancelled(s, r)
    ensures Keeps(s, Approval(s, r, agent, collection, expiresAt), at)
  {
    hide RowsOk, ResultsOk, ItemsOk;
    var t := Approval(s, r, agent, collection, expiresAt);
    forall q ensures ClosedKept(s, t, at, q) {
      if q in s.actions && q != r { assert LinkOk(s, q); }
    }
  }

  lemma ApproveOk(s: State, now: int, r: string, gate: Gate, collection: bool, expiresAt: int, vetoed: set<string>)
    requires Inv(s) && OpenAt(s, r, now)
    ensures var a := Approve(s, now, r, gate, collection, expiresAt, vetoed);
      a.Some? ==> Inv(a.value) && Keeps(s, a.value, now) && a.value.actions.Keys == s.actions.Keys
                  && a.value.items == s.items && a.value.runs == s.runs
  {
    hide Inv, Keeps, ClosedKept;
    KeepsSelf(s, now);
    var a := Approve(s, now, r, gate, collection, expiresAt, vetoed);
    if a.Some? && s.actions[r].state == Pending {
      if s.actions[r].agent.None? || gate == TargetChanged {
        DeclineOk(s, r, now);
      } else {
        var t := Approval(s, r, s.actions[r].agent.value, collection, expiresAt);
        ApprovalInv(s, r, s.actions[r].agent.value, collection, expiresAt);
        ApprovalKeeps(s, r, s.actions[r].agent.value, collection, expiresAt, now);
        assert a.value == t;
      }
    }
  }

  lemma StageOk(s: State, r: string, a: Action, at: int)
    requires Inv(s) && r !in s.actions && a.command == None && a.state != Approved
    ensures Inv(Stage(s, r, a)) && Keeps(s, Stage(s, r, a), at)
  {
    hide RowsOk, ResultsOk, Keeps;
    var t := Stage(s, r, a);
    SameCommands(s, t);
    forall q | q in t.actions ensures LinkOk(t, q) { if q != r { assert LinkOk(s, q); } }
    StageKeeps(s, r, a, at);
  }

  lemma StageKeeps(s: State, r: string, a: Action, at: int)
    requires ItemsOk(s) && r !in s.actions
    ensures Keeps(s, Stage(s, r, a), at)
  {
  }

  // A new item joins a run that is not cancelled.
  lemma AddItemOk(s: State, r: string, alert: string, at: int)
    requires Inv(s) && r in s.actions && r !in s.items && s.actions[r].origin == Triage && s.actions[r].state != Approved
    requires alert in s.runs && !s.runs[alert].cancelled
    ensures var t := s.(items := s.items[r := alert]); Inv(t) && Keeps(s, t, at)
  {
    hide RowsOk, ResultsOk, LinksOk;
    var t := s.(items := s.items[r := alert]);
    SameCommands(s, t);
    SameLinks(s, t);
  }

  lemma StageItemOk(s: State, r: string, a: Action, alert: string, at: int)
    requires Inv(s) && r !in s.actions && a.command == None && a.state != Approved && a.origin == Triage
    requires alert in s.runs && !s.runs[alert].cancelled
    ensures var t := Stage(s, r, a).(items := s.items[r := alert]); Inv(t) && Keeps(s, t, at)
  {
    hide RowsOk, ResultsOk, LinksOk, Keeps;
    var mid := Stage(s, r, a);
    var t := mid.(items := s.items[r := alert]);
    StageOk(s, r, a, at);
    AddItemOk(mid, r, alert, at);
    KeepsTrans(s, mid, t, at);
  }

  // Registering a run, or marking one as cancelled.
  lemma RunsOk(s: State, t: State, at: int)
    requires Inv(s) && t == s.(runs := t.runs)
    requires forall n :: n in s.runs ==> n in t.runs && t.runs[n].agent == s.runs[n].agent
                                         && (s.runs[n].cancelled ==> t.runs[n].cancelled)
    ensures Inv(t) && Keeps(s, t, at)
  {
    hide RowsOk, ResultsOk;
    SameCommands(s, t);
    forall r | r in t.actions ensures LinkOk(t, r) { assert LinkOk(s, r); }
  }

  // ---- no duplicate open work ----

  predicate Counted(a: Action) { a.origin != Triage && a.host.Some? }

  // At most one action of detection or analyst origin is open for the same host, kind and target.
  ghost predicate OneOpen(s: State, now: int) {
    forall a, b :: a in s.actions && b in s.actions && a != b && Counted(s.actions[a]) && Counted(s.actions[b])
      && SameWork(s.actions[a], s.actions[b].host.value, s.actions[b].kind, s.actions[b].target)
      ==> !(OpenAt(s, a, now) && OpenAt(s, b, now))
  }

  lemma OneOpenLater(s: State, before: int, now: int)
    requires OneOpen(s, before) && before <= now
    ensures OneOpen(s, now)
  {
    forall r | OpenAt(s, r, now) ensures OpenAt(s, r, before) {}
  }

  lemma OneOpenSame(s: State, t: State, now: int)
    requires OneOpen(s, now) && Keeps(s, t, now) && t.actions.Keys == s.actions.Keys
    ensures OneOpen(t, now)
  {
    forall r | r in t.actions && OpenAt(t, r, now) ensures OpenAt(s, r, now) { assert ClosedKept(s, t, now, r); }
    forall r | r in s.actions ensures ActionKept(s, t, r) {}
  }

  lemma OneOpenStage(s: State, r: string, a: Action, now: int)
    requires OneOpen(s, now) && r !in s.actions && a.command == None && a.state != Approved
    requires a.state != Pending || !Counted(a) || !OpenDuplicate(s, a.host, a.kind, a.target, now)
    ensures OneOpen(Stage(s, r, a), now)
  {
    var t := Stage(s, r, a);
    forall q | q in s.actions ensures OpenAt(t, q, now) <==> OpenAt(s, q, now) {}
  }

  // What each request establishes.
  ghost predicate Good(s: State, t: State, now: int) {
    Inv(t) && Keeps(s, t, now) && (OneOpen(s, now) ==> OneOpen(t, now))
  }

  lemma GoodTrans(s: State, t: State, u: State, now: int)
    requires Good(s, t, now) && Good(t, u, now)
    ensures Good(s, u, now)
  {
    hide Inv, Keeps, OneOpen;
    KeepsTrans(s, t, u, now);
  }

  lemma GoodSame(s: State, t: State, now: int)
    requires Inv(t) && Keeps(s, t, now) && t.actions.Keys == s.actions.Keys
    ensures Good(s, t, now)
  {
    hide Inv, Keeps, OneOpen;
    if OneOpen(s, now) { OneOpenSame(s, t, now); }
  }

  lemma GoodSelf(s: State, now: int)
    requires Inv(s)
    ensures Good(s, s, now)
  {
    hide Inv, Keeps, OneOpen;
    KeepsSelf(s, now);
  }

  lemma GoodSweepCommands(s: State, now: int)
    requires Inv(s)
    ensures Good(s, SweepCommands(s, now), now)
  {
    hide Inv, Keeps, OneOpen, Good;
    SweepCommandsOk(s, now, now);
    GoodSame(s, SweepCommands(s, now), now);
  }

  lemma GoodSweepActions(s: State, now: int)
    requires Inv(s)
    ensures Good(s, SweepActions(s, now), now)
  {
    hide Inv, Keeps, OneOpen, Good;
    SweepActionsOk(s, now, now);
    assert SweepActions(s, now).actions.Keys == s.actions.Keys;
    GoodSame(s, SweepActions(s, now), now);
  }

  lemma GoodRetire(s: State, rids: set<string>, now: int)
    requires Inv(s)
    ensures Good(s, Retire(s, rids), now)
  {
    hide Inv, Keeps, OneOpen, Good;
    RetireOk(s, rids, now);
    assert Retire(s, rids).actions.Keys == s.actions.Keys;
    GoodSame(s, Retire(s, rids), now);
  }

  lemma GoodRecord(s: State, id: CommandId, d: Command, e: Event, now: int)
    requires Inv(s) && id in s.commands && Settling(s.commands[id], e, d)
    ensures Good(s, Record(s, id, d, e), now)
  {
    hide Inv, Keeps, OneOpen, Good;
    RecordOk(s, id, d, e, now);
    GoodSame(s, Record(s, id, d, e), now);
  }

  lemma GoodStage(s: State, r: string, a: Action, now: int)
    requires Inv(s) && r !in s.actions && a.command == None && a.state != Approved
    requires a.state != Pending || !Counted(a) || !OpenDuplicate(s, a.host, a.kind, a.target, now)
    ensures Good(s, Stage(s, r, a), now)
  {
    hide Inv, Keeps, OneOpen;
    StageOk(s, r, a, now);
    if OneOpen(s, now) { OneOpenStage(s, r, a, now); }
  }

  // ---- every request ----

  lemma PollGood(s: State, now: int, agent: string, durable: bool, rows: seq<CommandId>,
                 vetoed: set<string>, retired: set<string>, withhold: bool)
    requires Inv(s)
    ensures Good(s, PollStep(s, now, agent, durable, rows, vetoed, retired, withhold), now)
  {
    hide Inv, Keeps, OneOpen, Good, SweepCommands, Retire, Send, Select;
    var a := SweepCommands(s, now);
    var b := Reconcile(a, Some(agent), retired);
    GoodSweepCommands(s, now);
    GoodInv(s, a, now);
    GoodRetire(a, Unfit(a, Some(agent), retired), now);
    GoodTrans(s, a, b, now);
    GoodInv(a, b, now);
    if !withhold {
      var ids := Select(b, rows, vetoed, agent, durable, now).ids;
      SelectSendable(b, rows, vetoed, agent, durable, now);
      SendOk(b, ids, now, now);
      assert Send(b, ids, now).actions == b.actions by { SendActions(b, ids, now); }
      GoodSame(b, Send(b, ids, now), now);
      GoodTrans(s, b, Send(b, ids, now), now);
    }
  }

  lemma GoodInv(s: State, t: State, now: int)
    requires Good(s, t, now)
    ensures Inv(t)
  {
  }

  lemma SendActions(s: State, ids: set<CommandId>, now: int)
    ensures Send(s, ids, now).actions == s.actions
  {
  }

  lemma AcceptGood(s: State, now: int, agent: string, id: CommandId, vetoed: set<string>)
    requires Inv(s)
    ensures Good(s, AcceptStep(s, now, agent, id, vetoed), now)
  {
    hide Inv, Keeps, OneOpen, Good, SweepCommands;
    GoodSelf(s, now);
    GoodSweepCommands(s, now);
    var t := SweepCommands(s, now);
    GoodInv(s, t, now);
    if id in t.commands && t.commands[id].agent == agent {
      if (id.Resp? && Blocked(t, id.rid, vetoed)) || (t.commands[id].collection && !InFlight(t.commands[id].phase)) {
        GoodRecord(t, id, t.commands[id], AcceptanceRefused, now);
        GoodTrans(s, t, Record(t, id, t.commands[id], AcceptanceRefused), now);
      } else if t.commands[id].phase == Dispatched {
        var u := Record(t, id, t.commands[id].(phase := Accepted), Acceptance);
        AcceptanceOk(t, id, now);
        GoodSame(t, u, now);
        GoodTrans(s, t, u, now);
      }
    }
  }

  lemma SubmitGood(s: State, now: int, agent: string, resultId: string, id: CommandId, outcome: Outcome,
                   v2: bool, digest: string, valid: bool)
    requires Inv(s)
    ensures Good(s, SubmitStep(s, now, agent, resultId, id, outcome, v2, digest, valid), now)
  {
    hide Inv, Keeps, OneOpen, Good, SweepCommands;
    GoodSelf(s, now);
    GoodSweepCommands(s, now);
    var t := SweepCommands(s, now);
    GoodInv(s, t, now);
    var after := SubmitStep(s, now, agent, resultId, id, outcome, v2, digest, valid);
    if after != s {
      var u := if v2 then t.(receipts := t.receipts[resultId := Receipt(agent, id, digest)]) else t;
      ReceiptOk(t, u, now);
      GoodSame(t, u, now);
      GoodTrans(s, t, u, now);
      if !InFlight(u.commands[id].phase) {
        GoodRecord(u, id, u.commands[id], ResultIgnored(outcome), now);
      } else if resultId in u.results {
        GoodRecord(u, id, u.commands[id], ResultReceived(outcome), now);
      } else {
        FinishInv(u, resultId, id, agent, outcome);
        FinishKeeps(u, resultId, id, agent, outcome, now);
        GoodSame(u, Finish(u, resultId, id, agent, outcome), now);
      }
      GoodTrans(s, u, after, now);
    }
  }

  lemma AlertGood(s: State, now: int, rid: string, agent: Option<string>, host: Option<string>, hint: Option<string>,
                  kind: string, target: string, collection: bool, refusal: bool, auto: bool, gate: Gate)
    requires Inv(s)
    ensures Good(s, AlertStep(s, now, rid, agent, host, hint, kind, target, collection, refusal, auto, gate), now)
  {
    hide Inv, Keeps, OneOpen, Good, OpenDuplicate, Approve;
    GoodSelf(s, now);
    if rid !in s.actions {
      var row := Action(agent, host, kind, target, Detection, Pending, None, now);
      GoodStage(s, rid, row.(state := Declined), now);
      if !refusal && !OpenDuplicate(s, if host.Some? then host else hint, kind, target, now) {
        GoodStage(s, rid, row, now);
        AutoGood(s, now, rid, row, gate, collection);
      }
    }
  }

  lemma AutoGood(s: State, now: int, rid: string, row: Action, gate: Gate, collection: bool)
    requires Inv(s) && Good(s, Stage(s, rid, row), now) && row.state == Pending && row.createdAt == now
    ensures var a := Approve(Stage(s, rid, row), now, rid, gate, collection, now + COMMAND_TTL, {});
      a.Some? ==> Good(s, a.value, now)
  {
    hide Inv, Keeps, OneOpen, Good, Approve;
    var staged := Stage(s, rid, row);
    GoodInv(s, staged, now);
    assert OpenAt(staged, rid, now);
    ApproveOk(staged, now, rid, gate, collection, now + COMMAND_TTL, {});
    var a := Approve(staged, now, rid, gate, collection, now + COMMAND_TTL, {});
    if a.Some? {
      GoodSame(staged, a.value, now);
      GoodTrans(s, staged, a.value, now);
    }
  }

  lemma RequestGood(s: State, now: int, rid: string, agent: string, host: string, alertHost: Option<string>,
                    kind: string, target: string, valid: bool)
    requires Inv(s)
    ensures Good(s, RequestStep(s, now, rid, agent, host, alertHost, kind, target, valid), now)
  {
    hide Inv, Keeps, OneOpen, Good, SweepCommands, SweepActions, OpenDuplicate, AgentDuplicate;
    GoodSelf(s, now);
    var t := SweepActions(s, now);
    var u := SweepCommands(t, now);
    GoodSweepActions(s, now);
    GoodInv(s, t, now);
    GoodSweepCommands(t, now);
    GoodTrans(s, t, u, now);
    GoodInv(t, u, now);
    var after := RequestStep(s, now, rid, agent, host, alertHost, kind, target, valid);
    if after != s {
      GoodStage(u, rid, Action(Some(agent), alertHost, kind, target, Analyst, Pending, None, now), now);
      GoodTrans(s, u, after, now);
    }
  }

  lemma AuthorizeGood(s: State, now: int, rid: string, gate: Gate, collection: bool, deadline: Option<int>,
                      vetoed: set<string>, allowed: bool)
    requires Inv(s)
    ensures Good(s, AuthorizeStep(s, now, rid, gate, collection, deadline, vetoed, allowed), now)
  {
    hide Inv, Keeps, OneOpen, Good;
    GoodSelf(s, now);
    GoodSweepActions(s, now);
    var t := SweepActions(s, now);
    GoodInv(s, t, now);
    if rid in t.actions && t.actions[rid].state == Pending && allowed {
      assert OpenAt(t, rid, now);
      var until := if deadline.Some? then deadline.value else now + COMMAND_TTL;
      ApproveOk(t, now, rid, gate, collection, until, vetoed);
      var a := Approve(t, now, rid, gate, collection, until, vetoed);
      if a.Some? {
        GoodSame(t, a.value, now);
        GoodTrans(s, t, a.value, now);
      }
    }
  }

  lemma RejectGood(s: State, now: int, rid: string)
    requires Inv(s)
    ensures Good(s, RejectStep(s, now, rid), now)
  {
    hide Inv, Keeps, OneOpen, Good, SweepActions;
    GoodSelf(s, now);
    GoodSweepActions(s, now);
    var t := SweepActions(s, now);
    GoodInv(s, t, now);
    if rid in t.actions && t.actions[rid].state == Pending {
      var u := Stage(t, rid, t.actions[rid].(state := Declined));
      DeclineOk(t, rid, now);
      assert u.actions.Keys == t.actions.Keys;
      GoodSame(t, u, now);
      GoodTrans(s, t, u, now);
    }
  }

  lemma CancelGood(s: State, now: int, rid: string)
    requires Inv(s)
    ensures Good(s, CancelStep(s, now, rid), now)
  {
    hide Inv, Keeps, OneOpen, Good, SweepCommands;
    GoodSelf(s, now);
    GoodSweepCommands(s, now);
    var t := SweepCommands(s, now);
    GoodInv(s, t, now);
    if rid in t.actions && t.actions[rid].command.Some? && t.actions[rid].command.value in t.commands {
      var id := t.actions[rid].command.value;
      if t.commands[id].phase == Authorized {
        GoodRecord(t, id, t.commands[id].(phase := Cancelled), Cancellation, now);
        GoodTrans(s, t, Record(t, id, t.commands[id].(phase := Cancelled), Cancellation), now);
      }
    }
  }

  lemma {:induction false} StartItemsGood(s: State, now: int, alert: string, agent: string, host: Option<string>,
                                          items: seq<Item>, deadline: int)
    requires Inv(s) && alert in s.runs && !s.runs[alert].cancelled
    ensures var r := StartItems(s, now, alert, agent, host, items, deadline);
      r.Some? ==> Good(s, r.value, now) && r.value.runs == s.runs
  {
    hide Inv, Keeps, OneOpen, Good, Approve;
    GoodSelf(s, now);
    var r := StartItems(s, now, alert, agent, host, items, deadline);
    if items != [] && r.Some? {
      var before := StartItems(s, now, alert, agent, host, items[..|items| - 1], deadline);
      StartItemsGood(s, now, alert, agent, host, items[..|items| - 1], deadline);
      var t := before.value;
      GoodInv(s, t, now);
      var i := items[|items| - 1];
      var row := Action(Some(agent), host, i.kind, i.target, Triage, Pending, None, now);
      var staged := Stage(t, i.rid, row).(items := t.items[i.rid := alert]);
      StartItemGood(t, i.rid, row, alert, now);
      GoodTrans(s, t, staged, now);
      GoodInv(t, staged, now);
      if i.auto {
        ApproveOk(staged, now, i.rid, i.gate, true, deadline, if i.vetoed then {i.rid} else {});
        GoodSame(staged, r.value, now);
        GoodTrans(s, staged, r.value, now);
      }
    }
  }

  lemma StartItemGood(s: State, r: string, a: Action, alert: string, now: int)
    requires Inv(s) && r !in s.actions && a.command == None && a.state != Approved && a.origin == Triage
    requires alert in s.runs && !s.runs[alert].cancelled
    ensures Good(s, Stage(s, r, a).(items := s.items[r := alert]), now)
  {
    hide Inv, Keeps, OneOpen, Stage;
    var t := Stage(s, r, a).(items := s.items[r := alert]);
    StageItemOk(s, r, a, alert, now);
    if OneOpen(s, now) {
      OneOpenStage(s, r, a, now);
      OneOpenItems(Stage(s, r, a), t, now);
    }
  }

  lemma OneOpenItems(s: State, t: State, now: int)
    requires OneOpen(s, now) && t.actions == s.actions && t.commands == s.commands
    ensures OneOpen(t, now)
  {
    forall r ensures OpenAt(t, r, now) <==> OpenAt(s, r, now) {}
  }

  lemma StartGood(s: State, now: int, alert: string, agent: string, host: Option<string>, items: seq<Item>, deadline: int)
    requires Inv(s)
    ensures Good(s, StartStep(s, now, alert, agent, host, items, deadline), now)
  {
    hide Inv, Keeps, OneOpen, Good, StartItems;
    GoodSelf(s, now);
    if alert !in s.runs {
      var t := s.(runs := s.runs[alert := TriageRun(agent, false)]);
      RunsOk(s, t, now);
      GoodSame(s, t, now);
      StartItemsGood(t, now, alert, agent, host, items, deadline);
      var r := StartItems(t, now, alert, agent, host, items, deadline);
      if r.Some? { GoodTrans(s, t, r.value, now); }
    }
  }

  lemma CancelRunGood(s: State, alert: string, now: int)
    requires Inv(s)
    ensures Good(s, CancelRunStep(s, alert), now)
  {
    hide Inv, Keeps, OneOpen, Good, Retire;
    GoodSelf(s, now);
    if alert in s.runs && !s.runs[alert].cancelled {
      var t := s.(runs := s.runs[alert := s.runs[alert].(cancelled := true)]);
      RunsOk(s, t, now);
      GoodSame(s, t, now);
      GoodRetire(t, ItemsOf(s, alert), now);
      GoodTrans(s, t, Retire(t, ItemsOf(s, alert)), now);
    }
  }

  lemma StepGood(s: State, op: Op)
    requires Inv(s)
    ensures Good(s, Step(s, op), op.now)
  {
    hide Inv, Good, PollStep, AcceptStep, SubmitStep, AlertStep, RequestStep, AuthorizeStep, RejectStep, CancelStep,
      StartStep, CancelRunStep, SweepActions, SweepCommands, Reconcile;
    GoodSelf(s, op.now);
    match op
    case Enqueue(now, id, agent, collection, expiresAt, allowed) =>
      if allowed && expiresAt > now && id !in s.commands {
        CreateOk(s, id, agent, collection, expiresAt, now);
        GoodSame(s, Create(s, id, agent, collection, expiresAt), now);
      }
    case Poll(now, agent, durable, rows, vetoed, retired, allowed, withhold) =>
      PollGood(s, now, agent, durable, rows, vetoed, retired, withhold);
    case Accept(now, agent, id, vetoed) => AcceptGood(s, now, agent, id, vetoed);
    case Submit(now, agent, resultId, id, outcome, v2, digest, valid) =>
      SubmitGood(s, now, agent, resultId, id, outcome, v2, digest, valid);
    case ReadQueue(now) =>
      GoodSweepActions(s, now);
      GoodInv(s, SweepActions(s, now), now);
      GoodSweepCommands(SweepActions(s, now), now);
      GoodTrans(s, SweepActions(s, now), SweepCommands(SweepActions(s, now), now), now);
    case ReadRuns(now, retired) => ReconcileGood(s, retired, now);
    case OnAlert(now, rid, agent, host, hint, kind, target, collection, refusal, auto, gate) =>
      AlertGood(s, now, rid, agent, host, hint, kind, target, collection, refusal, auto, gate);
    case Request(now, rid, agent, host, alertHost, kind, target, valid) =>
      RequestGood(s, now, rid, agent, host, alertHost, kind, target, valid);
    case Authorize(now, rid, gate, collection, deadline, vetoed, allowed) =>
      AuthorizeGood(s, now, rid, gate, collection, deadline, vetoed, allowed);
    case Reject(now, rid) => RejectGood(s, now, rid);
    case Cancel(now, rid) => CancelGood(s, now, rid);
    case StartRun(now, alert, agent, host, items, deadline) => StartGood(s, now, alert, agent, host, items, deadline);
    case CancelRun(now, alert) => CancelRunGood(s, alert, now);
  }

  lemma ReconcileGood(s: State, retired: set<string>, now: int)
    requires Inv(s)
    ensures Good(s, Reconcile(s, None, retired), now)
  {
    hide Inv, Good, Retire;
    GoodRetire(s, Unfit(s, None, retired), now);
  }
}
