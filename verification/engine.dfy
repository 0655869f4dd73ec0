/**
 * The assumed execution semantics of a compiled LangGraph `StateGraph`, the
 * engine both workflow graphs run on:
 *   start at the entry node; run the node and merge its partial update into
 *   the state; follow the node's unconditional edge, or call its router on the
 *   merged state; stop at END.
 * Running a node and merging its update is one function of the graph
 * (`Invoke`), so the engine is generic in the shape of state and update.
 * `fuel` bounds the number of node invocations; the engine itself does not
 * bound iteration.
 */
module Engine {
  import opened Wrappers

  /** Run-time failures the engine surfaces to the caller of `Run`. */
  datatype Error = KeyError(key: string)

  /** Where control goes after a node: another registered node, or END. */
  datatype Target<N> = Goto(node: N) | End

  /** The single outgoing rule of a node: `add_edge` or `add_conditional_edges`. */
  datatype Rule<N, !S> =
    | Edge(to: Target<N>)
    | Branch(route: S -> Result<Target<N>, Error>)

  /** A compiled graph: registered node names, entry point, one outgoing rule
      per node, and the bound node function followed by the state merge. */
  datatype Graph<!N, !S> = Graph(
    nodes: set<N>,
    entry: N,
    rule: N -> Rule<N, S>,
    invoke: (N, S) -> S)

  /** What a run returns: the visited nodes in order, and either the final
      state, the error that stopped it, or the state when the fuel ran out. */
  datatype Outcome<N, S> =
    | Finished(trace: seq<N>, final: S)
    | Failed(trace: seq<N>, error: Error)
    | OutOfFuel(trace: seq<N>, state: S)

  /** A target names a registered node or END. */
  predicate Registered<N>(nodes: set<N>, t: Target<N>) {
    t.Goto? ==> t.node in nodes
  }

  /** The compile-time checks: the entry point and every target an edge or a
      router can produce are registered nodes. */
  ghost predicate WellFormed<N(!new), S(!new)>(g: Graph<N, S>) {
    && g.entry in g.nodes
    && (forall n :: n in g.nodes && g.rule(n).Edge? ==> Registered(g.nodes, g.rule(n).to))
    && (forall n, s :: n in g.nodes && g.rule(n).Branch? && g.rule(n).route(s).Success? ==>
          Registered(g.nodes, g.rule(n).route(s).value))
  }

  /** The target after node `cur`, decided on the post-merge state `s`. */
  function Next<N, S>(g: Graph<N, S>, cur: N, s: S): Result<Target<N>, Error> {
    match g.rule(cur)
    case Edge(t) => Success(t)
    case Branch(route) => route(s)
  }

  /** Record `n` as visited before everything in `o`. */
  function Visit<N, S>(n: N, o: Outcome<N, S>): (r: Outcome<N, S>)
    ensures r.trace == [n] + o.trace
  {
    match o
    case Finished(t, f) => Finished([n] + t, f)
    case Failed(t, e) => Failed([n] + t, e)
    case OutOfFuel(t, s) => OutOfFuel([n] + t, s)
  }

  /** Execute from node `cur` on state `s` with at most `fuel` invocations. */
  function Exec<N, S>(g: Graph<N, S>, cur: N, s: S, fuel: nat): (o: Outcome<N, S>)
    ensures |o.trace| <= fuel
    ensures fuel > 0 ==> o.trace != [] && o.trace[0] == cur
    ensures o.OutOfFuel? ==> |o.trace| == fuel
    ensures !o.OutOfFuel? ==> o.trace != []
    decreases fuel
  {
    if fuel == 0 then OutOfFuel([], s)
    else
      var s' := g.invoke(cur, s);
      match Next(g, cur, s')
      case Failure(e) => Failed([cur], e)
      case Success(End) => Finished([cur], s')
      case Success(Goto(n)) => Visit(cur, Exec(g, n, s', fuel - 1))
  }

  /** `graph.invoke(initial)`: execute from the entry node. Every run with
      fuel starts at the entry point and invokes at most `fuel` nodes. */
  function Run<N, S>(g: Graph<N, S>, initial: S, fuel: nat): (o: Outcome<N, S>)
    ensures fuel > 0 ==> o.trace != [] && o.trace[0] == g.entry
    ensures |o.trace| <= fuel
  {
    Exec(g, g.entry, initial, fuel)
  }

  /** In a well-formed graph, a run from a registered node only ever visits
      registered nodes. */
  lemma {:induction false} ExecStaysRegistered<N(!new), S(!new)>(g: Graph<N, S>, cur: N, s: S, fuel: nat)
    requires WellFormed(g) && cur in g.nodes
    ensures forall i :: 0 <= i < |Exec(g, cur, s, fuel).trace| ==> Exec(g, cur, s, fuel).trace[i] in g.nodes
    decreases fuel
  {
    if fuel > 0 {
      var s' := g.invoke(cur, s);
      var next := Next(g, cur, s');
      if next.Success? && next.value.Goto? {
        assert Registered(g.nodes, next.value);
        ExecStaysRegistered(g, next.value.node, s', fuel - 1);
      }
    }
  }

  /** More fuel does not change a run that already stopped on its own. */
  lemma {:induction false} ExecFuelMonotone<N, S>(g: Graph<N, S>, cur: N, s: S, fuel: nat, more: nat)
    requires !Exec(g, cur, s, fuel).OutOfFuel? && fuel <= more
    ensures Exec(g, cur, s, more) == Exec(g, cur, s, fuel)
    decreases fuel
  {
    var s' := g.invoke(cur, s);
    match Next(g, cur, s')
    case Failure(_) =>
    case Success(End) =>
    case Success(Goto(n)) =>
      ExecFuelMonotone(g, n, s', fuel - 1, more - 1);
  }
}
