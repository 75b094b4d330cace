// Runs that show the conditions of LifecycleRuns.dfy and LifecycleExclusion.dfy are needed.
module LifecycleExamples {
  import opened Aggregates
  import opened Lifecycle
  import opened LifecycleInvariants
  import opened LifecycleExclusion
  import opened LifecycleRuns

  lemma RunAppend(s: State, ops: seq<Op>, op: Op)
    ensures Run(s, ops + [op]) == Step(Run(s, ops), op) && Run(s, []) == s
  {
    assert (ops + [op])[..|ops|] == ops;
  }

  lemma SweepNone(s: State, now: int)
    requires forall i :: i in s.commands ==> !Stale(s.commands[i], now)
    ensures SweepCommands(s, now) == s
  {
    assert SweepCommands(s, now).commands == s.commands && SweepCommands(s, now).audit == s.audit;
  }

  lemma RetireNone(s: State)
    ensures Retire(s, {}) == s
  {
    var t := Retire(s, {});
    assert t.actions == s.actions && t.commands == s.commands && t.audit == s.audit;
  }

  lemma SelectOne(s: State, id: CommandId, agent: string, now: int)
    requires Eligible(s, id, agent, false, now) && Dispatchable(s, id, {}, {})
    ensures Select(s, [id], {}, agent, false, now).ids == {id}
  {
    hide Eligible, Dispatchable;
    assert [id][..0] == [];
    assert Select(s, [], {}, agent, false, now) == Selection({}, {});
  }

  // A poll that finds nothing stale or unfit hands out its one dispatchable row.
  lemma PollOne(s: State, id: CommandId, now: int, agent: string)
    requires forall i :: i in s.commands ==> !Stale(s.commands[i], now)
    requires forall r :: r in s.items ==> !RunCancelled(s, r)
    requires Eligible(s, id, agent, false, now) && Dispatchable(s, id, {}, {})
    ensures Step(s, Poll(now, agent, false, [id], {}, {}, true, false)) == Send(s, {id}, now)
  {
    hide Send, Select, Retire, SweepCommands, Eligible, Dispatchable, AcceptStep, SubmitStep, AlertStep, RequestStep,
      AuthorizeStep, RejectStep, CancelStep, StartStep, CancelRunStep;
    SweepNone(s, now);
    assert Unfit(s, Some(agent), {}) == {};
    RetireNone(s);
    SelectOne(s, id, agent, now);
  }

  function Queued(): Command { Command("agent", true, Authorized, None, 100) }
  function Sent(): Command { Command("agent", true, Dispatched, Some(0), 100) }

  // A direct command under the response id of a triage item: two commands of one run end up in flight.
  lemma DirectRespEscapesExclusion()
    ensures exists ops :: !Exclusive(Run(EMPTY, ops))
  {
    hide Step, Run, Send;
    var a, b := Resp("a"), Resp("b");
    var i, j := Item("a", "f", "x", false, Proceed, false), Item("b", "p", "y", false, Proceed, false);
    var op0 := StartRun(0, "run", "agent", None, [i, j], 100);
    var op1 := Enqueue(0, a, "agent", true, 100, true);
    var op2 := Authorize(0, "b", Proceed, true, Some(100), {}, true);
    var op3, op4 := Poll(0, "agent", false, [a], {}, {}, true, false), Poll(0, "agent", false, [b], {}, {}, true, false);
    var s0 := TwoItems(i, j);
    EnqueueA(s0, op1);
    var s1 := Step(s0, op1);
    var s2 := Step(s1, op2);
    AuthorizeB(s1, s2);
    PollA(s2);
    var s3 := Step(s2, op3);
    PollB(s3);
    var s4 := Step(s3, op4);
    NotExclusive(s4);
    RunAppend(EMPTY, [], op0);
    RunAppend(EMPTY, [] + [op0], op1);
    RunAppend(EMPTY, [] + [op0] + [op1], op2);
    RunAppend(EMPTY, [] + [op0] + [op1] + [op2], op3);
    RunAppend(EMPTY, [] + [op0] + [op1] + [op2] + [op3], op4);
    assert !Exclusive(Run(EMPTY, [] + [op0] + [op1] + [op2] + [op3] + [op4]));
  }

  lemma EnqueueA(s: State, op: Op)
    requires op == Enqueue(0, Resp("a"), "agent", true, 100, true) && s.commands == map[]
    ensures Step(s, op).commands == map[Resp("a") := Queued()]
    ensures Step(s, op).items == s.items && Step(s, op).runs == s.runs && Step(s, op).actions == s.actions
  {
  }

  // The item of a is pending, so nothing links it to its command.
  predicate Linked(s: State) {
    && s.items == map["a" := "run", "b" := "run"] && s.runs == map["run" := TriageRun("agent", false)]
    && s.actions.Keys == {"a", "b"}
    && s.actions["a"].command == None && s.actions["b"].command == Some(Resp("b"))
  }

  lemma PollA(s: State)
    requires Linked(s) && s.commands == map[Resp("a") := Queued(), Resp("b") := Queued()]
    ensures var t := Step(s, Poll(0, "agent", false, [Resp("a")], {}, {}, true, false));
      Linked(t) && t.commands == map[Resp("a") := Sent(), Resp("b") := Queued()]
  {
    hide Step;
    PollOne(s, Resp("a"), 0, "agent");
  }

  lemma PollB(s: State)
    requires Linked(s) && s.commands == map[Resp("a") := Sent(), Resp("b") := Queued()]
    ensures var t := Step(s, Poll(0, "agent", false, [Resp("b")], {}, {}, true, false));
      Linked(t) && t.commands == map[Resp("a") := Sent(), Resp("b") := Sent()]
  {
    hide Step;
    PollOne(s, Resp("b"), 0, "agent");
  }

  lemma NotExclusive(s: State)
    requires Linked(s) && s.commands == map[Resp("a") := Sent(), Resp("b") := Sent()]
    ensures !Exclusive(s)
  {
    assert Flying(s, "a") && Flying(s, "b") && s.items["a"] == s.items["b"];
  }

  // The run of two pending items that the example starts from.
  lemma TwoItems(i: Item, j: Item) returns (s: State)
    requires i == Item("a", "f", "x", false, Proceed, false) && j == Item("b", "p", "y", false, Proceed, false)
    ensures s == Step(EMPTY, StartRun(0, "run", "agent", None, [i, j], 100))
    ensures s.commands == map[] && s.audit == map[] && s.results == map[]
    ensures s.items == map["a" := "run", "b" := "run"] && s.runs == map["run" := TriageRun("agent", false)]
    ensures s.actions == map["a" := Action(Some("agent"), None, "f", "x", Triage, Pending, None, 0),
                             "b" := Action(Some("agent"), None, "p", "y", Triage, Pending, None, 0)]
  {
    var t := EMPTY.(runs := map["run" := TriageRun("agent", false)]);
    assert [i, j][..1] == [i] && [i][..0] == [];
    assert StartItems(t, 0, "run", "agent", None, [], 100) == Some(t);
    var one := StartItems(t, 0, "run", "agent", None, [i], 100).value;
    assert one.items == map["a" := "run"];
    var two := StartItems(t, 0, "run", "agent", None, [i, j], 100);
    s := two.value;
    assert EMPTY.runs["run" := TriageRun("agent", false)] == t.runs;
  }

  lemma SweepActionsNone(s: State)
    requires forall r :: r in s.actions ==> !Undecided(s.actions[r], 0)
    ensures SweepActions(s, 0) == s
  {
    assert SweepActions(s, 0).actions == s.actions;
  }

  lemma AuthorizeB(s1: State, s2: State)
    requires s1.items == map["a" := "run", "b" := "run"] && s1.runs == map["run" := TriageRun("agent", false)]
    requires s1.actions == map["a" := Action(Some("agent"), None, "f", "x", Triage, Pending, None, 0),
                               "b" := Action(Some("agent"), None, "p", "y", Triage, Pending, None, 0)]
    requires s1.commands == map[Resp("a") := Queued()]
    requires s2 == Step(s1, Authorize(0, "b", Proceed, true, Some(100), {}, true))
    ensures Linked(s2) && s2.commands == map[Resp("a") := Queued(), Resp("b") := Queued()]
  {
    hide PollStep, AcceptStep, SubmitStep, AlertStep, RequestStep, RejectStep, CancelStep, StartStep, CancelRunStep,
      Reconcile, SweepCommands, SweepActions, Approve;
    SweepActionsNone(s1);
    ApproveOpen(s1, "b", "agent");
    assert s2 == Approval(s1, "b", "agent", true, 100);
  }

  lemma ApproveOpen(s: State, r: string, agent: string)
    requires r in s.actions && s.actions[r].state == Pending && s.actions[r].agent == Some(agent)
    requires !RunCancelled(s, r) && Resp(r) !in s.commands
    ensures Approve(s, 0, r, Proceed, true, 100, {}) == Some(Approval(s, r, agent, true, 100))
  {
  }

  // ---- one result id for two commands ----

  function Given(name: string): Op { Enqueue(0, Direct(name), "agent", false, 100, true) }
  function Asked(name: string): Op { Poll(0, "agent", false, [Direct(name)], {}, {}, true, false) }
  function Said(name: string): Op { Submit(0, "agent", "r", Direct(name), Success, false, "", true) }

  predicate Bare(s: State) { s.items == map[] && s.actions == map[] && s.runs == map[] }

  lemma GivenStep(s: State, name: string)
    requires Bare(s) && Direct(name) !in s.commands
    ensures var t := Step(s, Given(name));
      Bare(t) && t.results == s.results && t.commands == s.commands[Direct(name) := Waiting()]
  {
  }

  function Waiting(): Command { Command("agent", false, Authorized, None, 100) }
  function Busily(): Command { Command("agent", false, Dispatched, Some(0), 100) }

  lemma AskedStep(s: State, name: string)
    requires Bare(s) && Direct(name) in s.commands && s.commands[Direct(name)] == Waiting()
    requires forall i :: i in s.commands ==> !Stale(s.commands[i], 0)
    ensures var t := Step(s, Asked(name));
      Bare(t) && t.results == s.results && t.commands == s.commands[Direct(name) := Busily()]
  {
    hide Step;
    PollOne(s, Direct(name), 0, "agent");
  }

  lemma SaidStep(s: State, name: string)
    requires Bare(s) && Direct(name) in s.commands && s.commands[Direct(name)] == Busily() && "r" !in s.results
    requires forall i :: i in s.commands ==> !Stale(s.commands[i], 0)
    ensures var t := Step(s, Said(name));
      && Bare(t) && t.results == s.results["r" := Result(Direct(name), "agent", Success)]
      && t.commands == s.commands[Direct(name) := Busily().(phase := Finished(Success))]
  {
    hide SweepCommands;
    SweepNone(s, 0);
  }

  // Two dispatched commands whose results come under one id: the second is audited and not recorded.
  lemma ReusedResultIdMisleads()
    ensures exists ops :: !FoldsTo(Run(EMPTY, ops))
  {
    hide Step, Run, FoldsTo, Inv, Stale;
    var a, b := Direct("a"), Direct("b");
    var ops := [Given("a"), Given("b"), Asked("a"), Asked("b"), Said("a")];
    var s0, s1 := EMPTY, Step(EMPTY, Given("a"));
    var s2 := Step(s1, Given("b"));
    var s3 := Step(s2, Asked("a"));
    var s4 := Step(s3, Asked("b"));
    var s5 := Step(s4, Said("a"));
    NotStale();
    GivenStep(s0, "a");
    GivenStep(s1, "b");
    AskedStep(s2, "a");
    AskedStep(s3, "b");
    SaidStep(s4, "a");
    RunAppend(EMPTY, [], Given("a"));
    RunAppend(EMPTY, [] + [Given("a")], Given("b"));
    RunAppend(EMPTY, [] + [Given("a")] + [Given("b")], Asked("a"));
    RunAppend(EMPTY, [] + [Given("a")] + [Given("b")] + [Asked("a")], Asked("b"));
    RunAppend(EMPTY, [] + [Given("a")] + [Given("b")] + [Asked("a")] + [Asked("b")], Said("a"));
    assert ops == [] + [Given("a")] + [Given("b")] + [Asked("a")] + [Asked("b")] + [Said("a")];
    RunAppend(EMPTY, ops, Said("b"));
    Reachable(ops);
    RunFolds(ops);
    HeardAgain(s5);
    FoldExactly(s5, Said("b"));
    assert !FoldsTo(Run(EMPTY, ops + [Said("b")]));
  }

  lemma NotStale()
    ensures !Stale(Waiting(), 0) && !Stale(Busily(), 0) && !Stale(Busily().(phase := Finished(Success)), 0)
  {
  }

  lemma HeardAgain(s: State)
    requires Direct("b") in s.commands && s.commands[Direct("b")] == Busily() && "r" in s.results
    requires forall i :: i in s.commands ==> !Stale(s.commands[i], 0)
    ensures SilentResult(s, Said("b"))
  {
    hide SweepCommands;
    SweepNone(s, 0);
  }
}
