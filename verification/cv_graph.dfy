/**
 * The CV-evaluation workflow graph (`CVAgent.create_compiled_agent_graph`):
 * its nodes, the methods they are bound to, the partial updates those methods
 * return, the `route_inappropriate` gate, and what every run does.
 *
 *   entry -> classify_cv --route_inappropriate--> clean_up_inappropriate_cv -> END
 *                                             \--> first_cv_step -> second_cv_step -> END
 *
 * The graph is built over an arbitrary node behaviour (`GraphWith`), so the
 * gate is stated for any classifier; `CvAgent` is the graph over the
 * methods as written.
 */
module CvGraph {
  import opened Wrappers
  import opened Engine
  import opened CvState

  /** The registered node names. */
  datatype Node = ClassifyCv | CleanUpInappropriateCv | FirstCvStep | SecondCvStep

  const AllNodes: set<Node> := {ClassifyCv, CleanUpInappropriateCv, FirstCvStep, SecondCvStep}

  /** The name each node is registered under. */
  function NodeName(n: Node): string {
    match n
    case ClassifyCv => "classify_cv"
    case CleanUpInappropriateCv => "clean_up_inappropriate_cv"
    case FirstCvStep => "first_cv_step"
    case SecondCvStep => "second_cv_step"
  }

  /** The methods of the `Nodes` class. */
  datatype Method = ClassifyCvMethod | CleanUpInappropriateCvMethod | FirstCvStepMethod | SecondCvStepMethod

  /** The Python name of each method. */
  function MethodName(m: Method): string {
    match m
    case ClassifyCvMethod => "classify_cv"
    case CleanUpInappropriateCvMethod => "clean_up_inappropriate_cv"
    case FirstCvStepMethod => "first_cv_step"
    case SecondCvStepMethod => "second_cv_step"
  }

  /** The method each node name is bound to. Every node runs the method of its
      own name except `second_cv_step`, which is registered with
      `nodes.first_cv_step`; `nodes.second_cv_step` is never bound. */
  function Bound(n: Node): (m: Method)
    ensures n != SecondCvStep ==> MethodName(m) == NodeName(n)
    ensures n == SecondCvStep ==> MethodName(m) == NodeName(FirstCvStep)
    ensures m != SecondCvStepMethod
  {
    match n
    case ClassifyCv => ClassifyCvMethod
    case CleanUpInappropriateCv => CleanUpInappropriateCvMethod
    case FirstCvStep => FirstCvStepMethod
    case SecondCvStep => FirstCvStepMethod
  }

  /** The value the placeholder classifier assigns to every CV. */
  const Everyday := "everyday"

  /** The `cv_type` value that routes to the clean-up node. */
  const NotAiAppropriate := "not_ai_appropriate"

  /** The partial update each method returns. Only `classify_cv` sets a key,
      `cv_type`, always to "everyday"; the others return `{}`. */
  function Update(m: Method, s: State): (u: State)
    ensures u.cvType.Some? <==> m == ClassifyCvMethod
    ensures u.cvType.Some? ==> u.cvType.value == Everyday
    ensures u.(cvType := None) == Empty
  {
    match m
    case ClassifyCvMethod => Empty.(cvType := Some(Everyday))
    case _ => Empty
  }

  /** The two literal targets `route_inappropriate` may return. */
  datatype Route = ToCleanUp | ToFirstStep

  /** The literal string each route returns. */
  function RouteName(r: Route): string {
    match r
    case ToCleanUp => "clean_up_inappropriate_cv"
    case ToFirstStep => "first_cv_step"
  }

  /** The node a route's literal names. */
  function RouteNode(r: Route): Node {
    match r
    case ToCleanUp => CleanUpInappropriateCv
    case ToFirstStep => FirstCvStep
  }

  /** `Edges.route_inappropriate`: indexing `state["cv_type"]` raises
      `KeyError` when the key is absent; otherwise a two-way gate. */
  function RouteInappropriate(s: State): (r: Result<Route, Error>)
    ensures r.Failure? <==> s.cvType.None?
    ensures r.Failure? ==> r.error == KeyError("cv_type")
    ensures r == Success(ToCleanUp) <==> s.cvType == Some(NotAiAppropriate)
    ensures r == Success(ToFirstStep) <==> s.cvType.Some? && s.cvType.value != NotAiAppropriate
  {
    match s.cvType
    case None => Failure(KeyError("cv_type"))
    case Some(t) => if t == NotAiAppropriate then Success(ToCleanUp) else Success(ToFirstStep)
  }

  /** The router as the engine sees it: a target node or the error. */
  function RouteTarget(s: State): Result<Target<Node>, Error> {
    match RouteInappropriate(s)
    case Success(r) => Success(Goto(RouteNode(r)))
    case Failure(e) => Failure(e)
  }

  /** The outgoing rule of each node: `classify_cv` alone is routed, by
      `route_inappropriate`; `first_cv_step` leads to `second_cv_step`; the
      clean-up node and `second_cv_step` lead to END. */
  function Rules(n: Node): (r: Rule<Node, State>)
    ensures r.Branch? <==> n == ClassifyCv
    ensures r.Branch? ==> r.route == RouteTarget
    ensures r == Edge(End) <==> n == CleanUpInappropriateCv || n == SecondCvStep
    ensures r == Edge(Goto(SecondCvStep)) <==> n == FirstCvStep
  {
    match n
    case ClassifyCv => Branch(RouteTarget)
    case CleanUpInappropriateCv => Edge(End)
    case FirstCvStep => Edge(Goto(SecondCvStep))
    case SecondCvStep => Edge(End)
  }

  /** Run node `n` with the methods `update` and merge its partial update. */
  function InvokeWith(update: (Method, State) -> State, n: Node, s: State): State {
    Merge(s, update(Bound(n), s))
  }

  /** The graph whose methods return the updates `update` computes. */
  function GraphWith(update: (Method, State) -> State): Graph<Node, State> {
    Graph(AllNodes, ClassifyCv, Rules, (n, s) => InvokeWith(update, n, s))
  }

  /** The compiled graph over the methods as written: it starts at
      `classify_cv`, registers the four nodes and passes the compile checks. */
  function CvAgent(): (g: Graph<Node, State>)
    ensures g.entry == ClassifyCv && g.nodes == AllNodes
    ensures WellFormed(g)
  {
    GraphWellFormed(Update);
    GraphWith(Update)
  }

  /** The state after `classify_cv` has run and its update has been merged. */
  function AfterClassify(update: (Method, State) -> State, s: State): State {
    Merge(s, update(ClassifyCvMethod, s))
  }

  // ---------------------------------------------------------------------------
  // Graph structure

  /** Both router literals name registered nodes, by their registered names,
      and distinct routes name distinct nodes. */
  lemma RouteTargetsRegistered(r: Route, r': Route)
    ensures RouteNode(r) in AllNodes
    ensures NodeName(RouteNode(r)) == RouteName(r)
    ensures r != r' ==> RouteNode(r) != RouteNode(r')
  {
  }

  /** The graph passes the compile-time checks, whatever the node behaviour. */
  lemma GraphWellFormed(update: (Method, State) -> State)
    ensures WellFormed(GraphWith(update))
  {
    var g := GraphWith(update);
    forall n, s | n in g.nodes && g.rule(n).Branch? && g.rule(n).route(s).Success?
      ensures Registered(g.nodes, g.rule(n).route(s).value)
    {
      assert n == ClassifyCv;
      RouteTargetsRegistered(RouteInappropriate(s).value, ToCleanUp);
    }
  }

  /** The node after `classify_cv` is decided on the merged state, and is one
      of the two router targets, or the run fails on a missing `cv_type`. */
  lemma ClassifyNext(update: (Method, State) -> State, s: State)
    ensures var n := Next(GraphWith(update), ClassifyCv, s);
      && (n == Success(Goto(CleanUpInappropriateCv)) <==> s.cvType == Some(NotAiAppropriate))
      && (n == Success(Goto(FirstCvStep)) <==> s.cvType.Some? && s.cvType.value != NotAiAppropriate)
      && (n == Failure(KeyError("cv_type")) <==> s.cvType.None?)
  {
  }

  // ---------------------------------------------------------------------------
  // Runs over any node behaviour

  /** Gate short-circuit: when the merged state after classification says the
      CV is not appropriate for AI processing, the run visits exactly
      classify_cv and clean_up_inappropriate_cv, then stops at END. */
  lemma GateShortCircuit(update: (Method, State) -> State, s: State, fuel: nat)
    requires fuel >= 2
    requires AfterClassify(update, s).cvType == Some(NotAiAppropriate)
    ensures var s1 := AfterClassify(update, s);
      Run(GraphWith(update), s, fuel)
        == Finished([ClassifyCv, CleanUpInappropriateCv], Merge(s1, update(CleanUpInappropriateCvMethod, s1)))
  {
    var g := GraphWith(update);
    var s1 := AfterClassify(update, s);
    assert g.invoke(ClassifyCv, s) == s1;
    ClassifyNext(update, s1);
    assert Exec(g, CleanUpInappropriateCv, s1, fuel - 1)
      == Finished([CleanUpInappropriateCv], Merge(s1, update(CleanUpInappropriateCvMethod, s1)));
  }

  /** Main path: any other `cv_type` leads through first_cv_step and
      second_cv_step, both running `nodes.first_cv_step`, then END. */
  lemma MainPath(update: (Method, State) -> State, s: State, fuel: nat)
    requires fuel >= 3
    requires AfterClassify(update, s).cvType.Some?
    requires AfterClassify(update, s).cvType.value != NotAiAppropriate
    ensures var s1 := AfterClassify(update, s);
      var s2 := Merge(s1, update(FirstCvStepMethod, s1));
      var s3 := Merge(s2, update(FirstCvStepMethod, s2));
      Run(GraphWith(update), s, fuel) == Finished([ClassifyCv, FirstCvStep, SecondCvStep], s3)
  {
    var g := GraphWith(update);
    var s1 := AfterClassify(update, s);
    var s2 := Merge(s1, update(FirstCvStepMethod, s1));
    var s3 := Merge(s2, update(FirstCvStepMethod, s2));
    assert g.invoke(ClassifyCv, s) == s1;
    ClassifyNext(update, s1);
    assert g.invoke(FirstCvStep, s1) == s2;
    assert g.invoke(SecondCvStep, s2) == s3;
    assert Exec(g, SecondCvStep, s2, fuel - 2) == Finished([SecondCvStep], s3);
    assert Exec(g, FirstCvStep, s1, fuel - 1) == Finished([FirstCvStep, SecondCvStep], s3);
  }

  /** A classifier that leaves `cv_type` unset makes the router raise
      `KeyError` right after the first node. */
  lemma MissingCvTypeFails(update: (Method, State) -> State, s: State, fuel: nat)
    requires fuel >= 1
    requires AfterClassify(update, s).cvType.None?
    ensures Run(GraphWith(update), s, fuel) == Failed([ClassifyCv], KeyError("cv_type"))
  {
    var g := GraphWith(update);
    assert g.invoke(ClassifyCv, s) == AfterClassify(update, s);
    ClassifyNext(update, AfterClassify(update, s));
  }

  /** Termination: with any node behaviour, three invocations always suffice
      to reach END or the router's error; the visitation sequence is one of
      the three possible paths. */
  lemma RunsStop(update: (Method, State) -> State, s: State, fuel: nat)
    requires fuel >= 3
    ensures var o := Run(GraphWith(update), s, fuel);
      && !o.OutOfFuel?
      && o.trace in {[ClassifyCv], [ClassifyCv, CleanUpInappropriateCv], [ClassifyCv, FirstCvStep, SecondCvStep]}
  {
    var s1 := AfterClassify(update, s);
    if s1.cvType.None? {
      MissingCvTypeFails(update, s, fuel);
    } else if s1.cvType.value == NotAiAppropriate {
      GateShortCircuit(update, s, fuel);
    } else {
      MainPath(update, s, fuel);
    }
  }

  // ---------------------------------------------------------------------------
  // The methods as written

  /** `classify_cv` sets `cv_type` to "everyday" and nothing else, whatever
      the state it is given. */
  lemma ClassifyUpdate(s: State)
    ensures ToMap(Update(ClassifyCvMethod, s)) == map[CvType := Text(Everyday)]
  {
    var m := ToMap(Update(ClassifyCvMethod, s));
    assert m.Keys == {CvType} by {
      forall k | k in m ensures k == CvType {
      }
    }
  }

  /** Every other method returns `{}`, so merging its update changes nothing. */
  lemma EmptyUpdates(m: Method, s: State)
    requires m != ClassifyCvMethod
    ensures ToMap(Update(m, s)) == map[]
    ensures Merge(s, Update(m, s)) == s
  {
    MergeEmpty(s);
  }

  /** No update depends on the state it is computed from. */
  lemma UpdatesIgnoreState(m: Method, s: State, t: State)
    ensures Update(m, s) == Update(m, t)
  {
  }

  /** Applying classify_cv's update twice is applying it once. */
  lemma ClassifyIdempotent(s: State)
    ensures var u := Update(ClassifyCvMethod, s);
      Merge(Merge(s, u), u) == Merge(s, u)
  {
    MergeIdempotent(s, Update(ClassifyCvMethod, s));
  }

  /** Every run of the graph as written takes the main path: it visits
      classify_cv, first_cv_step, second_cv_step, and the final state is the
      initial state with only `cv_type` set to "everyday". */
  lemma CvAgentRun(s: State, fuel: nat)
    requires fuel >= 3
    ensures Run(CvAgent(), s, fuel)
      == Finished([ClassifyCv, FirstCvStep, SecondCvStep], s.(cvType := Some(Everyday)))
  {
    var s1 := AfterClassify(Update, s);
    assert s1 == s.(cvType := Some(Everyday));
    EmptyUpdates(FirstCvStepMethod, s1);
    MainPath(Update, s, fuel);
  }

  /** The gate cannot be triggered from the input: an initial state that
      already says "not_ai_appropriate" still takes the main path, because
      `classify_cv` overwrites `cv_type` before the router reads it. */
  lemma PresetCvTypeOverwritten(s: State, fuel: nat)
    requires fuel >= 3
    requires s.cvType == Some(NotAiAppropriate)
    ensures var o := Run(CvAgent(), s, fuel);
      o.Finished? && o.trace == [ClassifyCv, FirstCvStep, SecondCvStep] && o.final.cvType == Some(Everyday)
  {
    CvAgentRun(s, fuel);
  }

  /** The clean-up node is unreachable under the placeholder classifier, for
      any fuel. */
  lemma CleanUpUnreachable(s: State, fuel: nat)
    ensures CleanUpInappropriateCv !in Run(CvAgent(), s, fuel).trace
  {
    var g := CvAgent();
    var s1 := s.(cvType := Some(Everyday));
    assert g.invoke(ClassifyCv, s) == s1;
    if fuel >= 3 {
      CvAgentRun(s, fuel);
    } else if fuel > 0 {
      var o := Exec(g, FirstCvStep, s1, fuel - 1);
      assert Run(g, s, fuel) == Visit(ClassifyCv, o);
      if fuel == 2 {
        assert g.invoke(FirstCvStep, s1) == s1;
        assert o == Visit(FirstCvStep, Exec(g, SecondCvStep, s1, 0));
      }
    }
  }

  /** The fields no node writes keep their initial values, or stay absent,
      through every run. */
  lemma UntouchedFields(s: State, fuel: nat)
    requires fuel >= 3
    ensures Run(CvAgent(), s, fuel).Finished?
    ensures var f := Run(CvAgent(), s, fuel).final;
      && f.safe == s.safe
      && f.calibrationScheduled == s.calibrationScheduled
      && f.calibrationNeeded == s.calibrationNeeded
      && f.relatedApplications == s.relatedApplications
      && f.promptInjection == s.promptInjection
      && f.extra == s.extra
  {
    CvAgentRun(s, fuel);
  }

  /** `process_cv` invokes the graph on `{"doc_id": "123abc"}`. */
  const ProcessCvInput := Empty.(extra := map["doc_id" := "123abc"])

  /** The invocation in `process_cv` takes the main path and returns the
      document id together with `cv_type` "everyday". */
  lemma ProcessCvRun()
    ensures Run(CvAgent(), ProcessCvInput, 3)
      == Finished([ClassifyCv, FirstCvStep, SecondCvStep],
                  Empty.(cvType := Some(Everyday), extra := map["doc_id" := "123abc"]))
  {
    CvAgentRun(ProcessCvInput, 3);
  }
}
