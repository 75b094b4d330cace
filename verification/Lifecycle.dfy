// Commands, response actions and triage runs as one state machine: manager/routers/commands.py,
// manager/detection/response.py, manager/routers/response_actions.py and manager/auto_triage.py.
//
// The audit trail of a command is kept as the sequence of its own events. Live policy, profiles and
// target resolution are not part of the state: each request carries what they answer.
module Lifecycle {
  import opened Aggregates

  const COMMAND_TTL: nat := 900
  const ACTION_TTL: nat := 900

  // A command id is "resp-" followed by a response id, or any other string.
  datatype CommandId = Resp(rid: string) | Direct(name: string)

  datatype Outcome = Success | Failure | Rejection | Unknown

  datatype Phase = Authorized | Dispatched | Accepted | Finished(outcome: Outcome) | Expired | Cancelled

  datatype Event =
    | Created | Dispatch | Acceptance | AcceptanceRefused | Expiry | Cancellation
    | ResultReceived(outcome: Outcome) | ResultIgnored(outcome: Outcome)

  datatype Command = Command(agent: string, collection: bool, phase: Phase, delivered: Option<int>, expiresAt: int)

  datatype Result = Result(command: CommandId, agent: string, outcome: Outcome)
  datatype Receipt = Receipt(agent: string, command: CommandId, digest: string)

  datatype ActionState = Pending | Approved | Declined | Lapsed
  datatype Origin = Detection | Analyst | Triage

  // A response action. host is the host of its alert; command is set when it is approved.
  datatype Action = Action(
    agent: Option<string>, host: Option<string>, kind: string, target: string, origin: Origin,
    state: ActionState, command: Option<CommandId>, createdAt: int)

  datatype TriageRun = TriageRun(agent: string, cancelled: bool)

  datatype State = State(
    commands: map<CommandId, Command>,
    audit: map<CommandId, seq<Event>>,
    results: map<string, Result>,
    receipts: map<string, Receipt>,
    actions: map<string, Action>,
    runs: map<string, TriageRun>,
    items: map<string, string>)  // response id of a triage item -> alert of its run

  const EMPTY := State(map[], map[], map[], map[], map[], map[], map[])

  predicate Live(p: Phase) { p == Authorized || p == Dispatched || p == Accepted }
  predicate InFlight(p: Phase) { p == Dispatched || p == Accepted }
  predicate Terminal(p: Phase) { !Live(p) }

  function Log(s: State, id: CommandId): seq<Event> { if id in s.audit then s.audit[id] else [] }

  // ---- elementary changes ----

  // One command row changes and one event is recorded.
  function Record(s: State, id: CommandId, c: Command, e: Event): State {
    s.(commands := s.commands[id := c], audit := s.audit[id := Log(s, id) + [e]])
  }

  function Create(s: State, id: CommandId, agent: string, collection: bool, expiresAt: int): State {
    Record(s, id, Command(agent, collection, Authorized, None, expiresAt), Created)
  }

  predicate Stale(c: Command, now: int) { Live(c.phase) && c.expiresAt <= now }

  // _expire_stale_commands
  function SweepCommands(s: State, now: int): State {
    s.(commands := map id | id in s.commands ::
         if Stale(s.commands[id], now) then s.commands[id].(phase := Expired) else s.commands[id],
       audit := map id | id in s.audit ::
         if id in s.commands && Stale(s.commands[id], now) then s.audit[id] + [Expiry] else s.audit[id])
  }

  predicate Undecided(a: Action, now: int) { a.state == Pending && a.createdAt <= now - ACTION_TTL }

  // expire_stale_response_actions
  function SweepActions(s: State, now: int): State {
    s.(actions := map r | r in s.actions ::
         if Undecided(s.actions[r], now) then s.actions[r].(state := Lapsed) else s.actions[r])
  }

  // The queued command of an approved action in rids, if it can still be cancelled.
  predicate Withdrawn(s: State, rids: set<string>, id: CommandId) {
    && id.Resp? && id.rid in rids && id.rid in s.actions && s.actions[id.rid].command == Some(id)
    && s.actions[id.rid].state != Pending
    && id in s.commands && s.commands[id].phase == Authorized
  }

  // Retire work that has not been dispatched: pending actions are declined, queued commands cancelled.
  function Retire(s: State, rids: set<string>): State {
    s.(actions := map r | r in s.actions ::
         if r in rids && s.actions[r].state == Pending then s.actions[r].(state := Declined) else s.actions[r],
       commands := map id | id in s.commands ::
         if Withdrawn(s, rids, id) then s.commands[id].(phase := Cancelled) else s.commands[id],
       audit := map id | id in s.audit ::
         if Withdrawn(s, rids, id) then s.audit[id] + [Cancellation] else s.audit[id])
  }

  predicate RunCancelled(s: State, rid: string) {
    rid in s.items && s.items[rid] in s.runs && s.runs[s.items[rid]].cancelled
  }

  // guard: a triage item is blocked when its run is cancelled or live policy vetoes it.
  predicate Blocked(s: State, rid: string, vetoed: set<string>) {
    rid in s.items && (RunCancelled(s, rid) || rid in vetoed)
  }

  predicate ItemCommand(s: State, id: CommandId) { id.Resp? && id.rid in s.items }

  // reconcile: the items, of one agent or of all, whose blocker is permanent.
  function Unfit(s: State, agent: Option<string>, retired: set<string>): set<string> {
    set r | r in s.items && s.items[r] in s.runs
            && (agent.None? || s.runs[s.items[r]].agent == agent.value)
            && (s.runs[s.items[r]].cancelled || r in retired)
  }

  function Reconcile(s: State, agent: Option<string>, retired: set<string>): State {
    Retire(s, Unfit(s, agent, retired))
  }

  // ---- dispatch ----

  predicate Eligible(s: State, id: CommandId, agent: string, durable: bool, now: int) {
    && id in s.commands && s.commands[id].agent == agent && s.commands[id].expiresAt > now
    && if durable then s.commands[id].phase == Authorized || s.commands[id].phase == Dispatched
       else s.commands[id].phase == Authorized && s.commands[id].delivered.None?
  }

  // Another command of the same run is dispatched or accepted.
  predicate Busy(s: State, run: string, id: CommandId) {
    exists r :: r in s.items && s.items[r] == run && r in s.actions && s.actions[r].command.Some?
      && var other := s.actions[r].command.value;
         other != id && other in s.commands && InFlight(s.commands[other].phase)
  }

  // dispatchable, given the runs selected so far in this poll.
  predicate Dispatchable(s: State, id: CommandId, vetoed: set<string>, selected: set<string>) {
    ItemCommand(s, id) ==>
      !Blocked(s, id.rid, vetoed) && !Busy(s, s.items[id.rid], id) && s.items[id.rid] !in selected
  }

  datatype Selection = Selection(ids: set<CommandId>, runs: set<string>)

  // The rows of one poll, in any order, filtered one by one; the runs taken so far are remembered.
  function Select(s: State, rows: seq<CommandId>, vetoed: set<string>, agent: string, durable: bool, now: int): Selection {
    if rows == [] then Selection({}, {})
    else
      var before := Select(s, rows[..|rows| - 1], vetoed, agent, durable, now);
      var id := rows[|rows| - 1];
      if !Eligible(s, id, agent, durable, now) || !Dispatchable(s, id, vetoed, before.runs) then before
      else Selection(before.ids + {id}, if ItemCommand(s, id) then before.runs + {s.items[id.rid]} else before.runs)
  }

  function Send(s: State, ids: set<CommandId>, now: int): State {
    s.(commands := map id | id in s.commands ::
         if id in ids then
           s.commands[id].(phase := Dispatched,
                           delivered := if s.commands[id].delivered.None? then Some(now) else s.commands[id].delivered)
         else s.commands[id],
       audit := map id | id in s.audit ::
         if id in ids && id in s.commands then s.audit[id] + [Dispatch] else s.audit[id])
  }

  // ---- authorization ----

  // What the checks before enqueueing answer: go ahead, refuse the request, or decline the action
  // because its target changed.
  datatype Gate = Proceed | Refuse | TargetChanged

  // The approved action of an open, unblocked request and its new command.
  function Approval(s: State, r: string, agent: string, collection: bool, expiresAt: int): State
    requires r in s.actions
  {
    Create(s, Resp(r), agent, collection, expiresAt)
      .(actions := s.actions[r := s.actions[r].(state := Approved, command := Some(Resp(r)))])
  }

  function Stage(s: State, rid: string, a: Action): State { s.(actions := s.actions[rid := a]) }

  // The action after authorize_response_action; None when it raised.
  function Approve(s: State, now: int, rid: string, gate: Gate, collection: bool, expiresAt: int, vetoed: set<string>): Option<State> {
    if rid !in s.actions || s.actions[rid].state != Pending then Some(s)
    else if s.actions[rid].agent.None? then Some(Stage(s, rid, s.actions[rid].(state := Declined)))
    else if Blocked(s, rid, vetoed) || gate == Refuse then None
    else if gate == TargetChanged then
      if s.actions[rid].origin == Detection then Some(Stage(s, rid, s.actions[rid].(state := Declined))) else None
    else if expiresAt <= now || Resp(rid) in s.commands then None
    else Some(Approval(s, rid, s.actions[rid].agent.value, collection, expiresAt))
  }

  // An action is open while it can still lead, or has led, to unfinished work.
  predicate OpenAt(s: State, rid: string, now: int) {
    && rid in s.actions
    && var a := s.actions[rid];
       || (a.state == Pending && a.createdAt > now - ACTION_TTL)
       || (a.state == Approved && a.command.Some? && a.command.value in s.commands && Live(s.commands[a.command.value].phase))
  }

  predicate SameWork(a: Action, host: string, kind: string, target: string) {
    a.host == Some(host) && a.kind == kind && a.target == target
  }

  // find_open_duplicate
  predicate OpenDuplicate(s: State, host: Option<string>, kind: string, target: string, now: int) {
    host.Some? && exists r :: r in s.actions && SameWork(s.actions[r], host.value, kind, target) && OpenAt(s, r, now)
  }

  // An equivalent action of the agent is undecided or in flight.
  predicate ForAgent(s: State, r: string, agent: string, kind: string, target: string) {
    && r in s.actions && s.actions[r].agent == Some(agent) && s.actions[r].kind == kind && s.actions[r].target == target
    && (s.actions[r].state == Pending
        || (s.actions[r].state == Approved && s.actions[r].command.Some?
            && s.actions[r].command.value in s.commands && Live(s.commands[s.actions[r].command.value].phase)))
  }

  // The second duplicate query of stage_manual_request, by agent.
  predicate AgentDuplicate(s: State, agent: string, kind: string, target: string) {
    exists r :: r in s.actions && ForAgent(s, r, agent, kind, target)
  }

  // ---- requests ----

  datatype Item = Item(rid: string, kind: string, target: string, auto: bool, gate: Gate, vetoed: bool)

  datatype Op =
    | Enqueue(now: int, id: CommandId, agent: string, collection: bool, expiresAt: int, allowed: bool)
    | Poll(now: int, agent: string, durable: bool, rows: seq<CommandId>, vetoed: set<string>, retired: set<string>,
           allowed: bool, withhold: bool)
    | Accept(now: int, agent: string, id: CommandId, vetoed: set<string>)
    | Submit(now: int, agent: string, resultId: string, id: CommandId, outcome: Outcome, v2: bool, digest: string, valid: bool)
    | ReadQueue(now: int)
    | ReadRuns(now: int, retired: set<string>)
    | OnAlert(now: int, rid: string, owner: Option<string>, host: Option<string>, hint: Option<string>,
              kind: string, target: string, collection: bool, refusal: bool, auto: bool, gate: Gate)
    | Request(now: int, rid: string, agent: string, enrolledHost: string, alertHost: Option<string>, kind: string, target: string, valid: bool)
    | Authorize(now: int, rid: string, gate: Gate, collection: bool, deadline: Option<int>, vetoed: set<string>, allowed: bool)
    | Reject(now: int, rid: string)
    | Cancel(now: int, rid: string)
    | StartRun(now: int, alert: string, agent: string, host: Option<string>, items: seq<Item>, until: int)
    | CancelRun(now: int, alert: string)

  function PollStep(s: State, now: int, agent: string, durable: bool, rows: seq<CommandId>,
                    vetoed: set<string>, retired: set<string>, withhold: bool): State
  {
    var swept := Reconcile(SweepCommands(s, now), Some(agent), retired);
    if withhold then swept
    else Send(swept, Select(swept, rows, vetoed, agent, durable, now).ids, now)
  }

  // The answer to a known command: refused, accepted, or accepted before.
  function Acknowledge(t: State, id: CommandId, vetoed: set<string>): State
    requires id in t.commands
  {
    if id.Resp? && Blocked(t, id.rid, vetoed) then Record(t, id, t.commands[id], AcceptanceRefused)
    else if t.commands[id].collection && !InFlight(t.commands[id].phase) then
      Record(t, id, t.commands[id], AcceptanceRefused)
    else if t.commands[id].phase == Dispatched then
      Record(t, id, t.commands[id].(phase := Accepted), Acceptance)
    else t
  }

  function AcceptStep(s: State, now: int, agent: string, id: CommandId, vetoed: set<string>): State {
    var t := SweepCommands(s, now);
    if id !in t.commands || t.commands[id].agent != agent then s else Acknowledge(t, id, vetoed)
  }

  // What submit_result does once the submission is admissible: a command in flight takes its one outcome.
  function Judge(u: State, agent: string, resultId: string, id: CommandId, outcome: Outcome): State
    requires id in u.commands
  {
    if !InFlight(u.commands[id].phase) then Record(u, id, u.commands[id], ResultIgnored(outcome))
    else if resultId in u.results then Record(u, id, u.commands[id], ResultReceived(outcome))
    else
      Record(u.(results := u.results[resultId := Result(id, agent, outcome)]),
             id, u.commands[id].(phase := Finished(outcome)), ResultReceived(outcome))
  }

  function SubmitStep(s: State, now: int, agent: string, resultId: string, id: CommandId, outcome: Outcome,
                      v2: bool, digest: string, valid: bool): State
  {
    var t := SweepCommands(s, now);
    if id !in t.commands || t.commands[id].agent != agent then s
    else if !v2 && t.commands[id].expiresAt <= now then s
    else if !valid then s
    else if v2 && resultId in t.receipts && t.receipts[resultId] != Receipt(agent, id, digest) then s
    else
      Judge(if v2 then t.(receipts := t.receipts[resultId := Receipt(agent, id, digest)]) else t, agent, resultId, id, outcome)
  }

  // A new action is staged, and with auto authorized or else declined.
  function Staged(s: State, now: int, rid: string, row: Action, collection: bool, auto: bool, gate: Gate): State {
    if !auto then Stage(s, rid, row)
    else
      var r := Approve(Stage(s, rid, row), now, rid, gate, collection, now + COMMAND_TTL, {});
      if r.Some? then r.value else Stage(s, rid, row.(state := Declined))
  }

  function AlertStep(s: State, now: int, rid: string, agent: Option<string>, host: Option<string>, hint: Option<string>,
                     kind: string, target: string, collection: bool, refusal: bool, auto: bool, gate: Gate): State
  {
    var row := Action(agent, host, kind, target, Detection, Pending, None, now);
    if rid in s.actions then s
    else if refusal || OpenDuplicate(s, if host.Some? then host else hint, kind, target, now) then
      Stage(s, rid, row.(state := Declined))
    else Staged(s, now, rid, row, collection, auto, gate)
  }

  function RequestStep(s: State, now: int, rid: string, agent: string, host: string, alertHost: Option<string>,
                       kind: string, target: string, valid: bool): State
  {
    var t := SweepCommands(SweepActions(s, now), now);
    if rid in t.actions || !valid || (alertHost.Some? && alertHost.value != host) then s
    else if OpenDuplicate(t, Some(host), kind, target, now) || AgentDuplicate(t, agent, kind, target) then s
    else Stage(t, rid, Action(Some(agent), alertHost, kind, target, Analyst, Pending, None, now))
  }

  function AuthorizeStep(s: State, now: int, rid: string, gate: Gate, collection: bool, deadline: Option<int>,
                         vetoed: set<string>, allowed: bool): State
  {
    var t := SweepActions(s, now);
    if rid !in t.actions || t.actions[rid].state != Pending || !allowed then s
    else
      var r := Approve(t, now, rid, gate, collection, if deadline.Some? then deadline.value else now + COMMAND_TTL, vetoed);
      if r.Some? then r.value else s
  }

  function RejectStep(s: State, now: int, rid: string): State {
    var t := SweepActions(s, now);
    if rid !in t.actions || t.actions[rid].state != Pending then s
    else Stage(t, rid, t.actions[rid].(state := Declined))
  }

  // cancel_queued behind its request; only commands awaiting dispatch can be cancelled.
  function CancelStep(s: State, now: int, rid: string): State {
    var t := SweepCommands(s, now);
    if rid !in t.actions || t.actions[rid].command.None? || t.actions[rid].command.value !in t.commands then s
    else
      var id := t.actions[rid].command.value;
      if t.commands[id].phase == Cancelled then t
      else if t.commands[id].phase != Authorized then s
      else Record(t, id, t.commands[id].(phase := Cancelled), Cancellation)
  }

  // One item of a new run is staged and, where policy says so, authorized at once.
  function StartItem(t: State, now: int, alert: string, agent: string, host: Option<string>, i: Item, deadline: int): Option<State> {
    if i.rid in t.actions then None
    else
      var staged := Stage(t, i.rid, Action(Some(agent), host, i.kind, i.target, Triage, Pending, None, now)).(items := t.items[i.rid := alert]);
      if i.auto then Approve(staged, now, i.rid, i.gate, true, deadline, if i.vetoed then {i.rid} else {}) else Some(staged)
  }

  // The items in order; one that cannot be authorized undoes the whole start.
  function StartItems(s: State, now: int, alert: string, agent: string, host: Option<string>, items: seq<Item>, deadline: int): Option<State> {
    if items == [] then Some(s)
    else
      var before := StartItems(s, now, alert, agent, host, items[..|items| - 1], deadline);
      if before.None? then None
      else StartItem(before.value, now, alert, agent, host, items[|items| - 1], deadline)
  }

  function StartStep(s: State, now: int, alert: string, agent: string, host: Option<string>, items: seq<Item>, deadline: int): State {
    if alert in s.runs then s
    else
      var r := StartItems(s.(runs := s.runs[alert := TriageRun(agent, false)]), now, alert, agent, host, items, deadline);
      if r.Some? then r.value else s
  }

  function ItemsOf(s: State, alert: string): set<string> { set r | r in s.items && s.items[r] == alert }

  function CancelRunStep(s: State, alert: string): State {
    if alert !in s.runs || s.runs[alert].cancelled then s
    else Retire(s.(runs := s.runs[alert := s.runs[alert].(cancelled := true)]), ItemsOf(s, alert))
  }

  function Step(s: State, op: Op): State {
    match op
    case Enqueue(now, id, agent, collection, expiresAt, allowed) =>
      if !allowed || expiresAt <= now || id in s.commands then s else Create(s, id, agent, collection, expiresAt)
    case Poll(now, agent, durable, rows, vetoed, retired, allowed, withhold) =>
      if !allowed then s else PollStep(s, now, agent, durable, rows, vetoed, retired, withhold)
    case Accept(now, agent, id, vetoed) => AcceptStep(s, now, agent, id, vetoed)
    case Submit(now, agent, resultId, id, outcome, v2, digest, valid) =>
      SubmitStep(s, now, agent, resultId, id, outcome, v2, digest, valid)
    case ReadQueue(now) => SweepCommands(SweepActions(s, now), now)
    case ReadRuns(now, retired) => Reconcile(s, None, retired)
    case OnAlert(now, rid, agent, host, hint, kind, target, collection, refusal, auto, gate) =>
      AlertStep(s, now, rid, agent, host, hint, kind, target, collection, refusal, auto, gate)
    case Request(now, rid, agent, host, alertHost, kind, target, valid) =>
      RequestStep(s, now, rid, agent, host, alertHost, kind, target, valid)
    case Authorize(now, rid, gate, collection, deadline, vetoed, allowed) =>
      AuthorizeStep(s, now, rid, gate, collection, deadline, vetoed, allowed)
    case Reject(now, rid) => RejectStep(s, now, rid)
    case Cancel(now, rid) => CancelStep(s, now, rid)
    case StartRun(now, alert, agent, host, items, deadline) => StartStep(s, now, alert, agent, host, items, deadline)
    case CancelRun(now, alert) => CancelRunStep(s, alert)
  }

  function Run(s: State, ops: seq<Op>): State {
    if ops == [] then s else Step(Run(s, ops[..|ops| - 1]), ops[|ops| - 1])
  }
}
