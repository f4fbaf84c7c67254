/** The code graph as its server answers, and distances in it. */
module CodeGraph {
  import opened Wrappers

  datatype CallEdge = CallEdge(from: string, to: string, file: string)

  /** Down follows calls to callees, Up follows them back to callers. */
  datatype Direction = Down | Up

  /** What the server says about a name; None is a failed request. */
  datatype Server = Server(
    callees: string -> Option<seq<CallEdge>>, wireCallees: string -> Option<seq<CallEdge>>,
    callers: string -> Option<seq<CallEdge>>, wireCallers: string -> Option<seq<CallEdge>>,
    importers: string -> Option<seq<CallEdge>>, parents: string -> Option<seq<CallEdge>>,
    methods: string -> Option<seq<CallEdge>>, nameHits: string -> Option<nat>)

  function Calls(g: Server, dir: Direction, name: string): Option<seq<CallEdge>> {
    if dir == Down then g.callees(name) else g.callers(name)
  }

  function Wires(g: Server, dir: Direction, name: string): Option<seq<CallEdge>> {
    if dir == Down then g.wireCallees(name) else g.wireCallers(name)
  }

  /** The end of an edge a walk moves to, and the one it came from. */
  function Far(e: CallEdge, dir: Direction): string { if dir == Down then e.to else e.from }

  function Near(e: CallEdge, dir: Direction): string { if dir == Down then e.from else e.to }

  function FarEnds(edges: seq<CallEdge>, dir: Direction): set<string> {
    set e | e in edges && Far(e, dir) != "" :: Far(e, dir)
  }

  function AnswerEnds(answer: Option<seq<CallEdge>>, dir: Direction): set<string> {
    if answer.None? then {} else FarEnds(answer.value, dir)
  }

  function Neighbours(g: Server, dir: Direction, name: string): set<string> {
    AnswerEnds(Calls(g, dir, name), dir) + AnswerEnds(Wires(g, dir, name), dir)
  }

  function Out(g: Server, dir: Direction, names: set<string>): set<string> {
    set x, y | x in names && y in Neighbours(g, dir, x) :: y
  }

  /** The names reached from start by some walk of exactly k steps. */
  function Exactly(g: Server, dir: Direction, start: string, k: nat): set<string> {
    if k == 0 then {start} else Out(g, dir, Exactly(g, dir, start, k - 1))
  }

  /** The names at distance at most k from start. */
  function Within(g: Server, dir: Direction, start: string, k: nat): set<string> {
    if k == 0 then {start}
    else Within(g, dir, start, k - 1) + Out(g, dir, Within(g, dir, start, k - 1))
  }

  /** The names at distance exactly k. */
  function Layer(g: Server, dir: Direction, start: string, k: nat): set<string> {
    if k == 0 then {start} else Within(g, dir, start, k) - Within(g, dir, start, k - 1)
  }

  lemma {:induction false} WithinGrows(g: Server, dir: Direction, start: string, j: nat, k: nat)
    requires j <= k
    ensures Within(g, dir, start, j) <= Within(g, dir, start, k)
  {
    if j < k { WithinGrows(g, dir, start, j, k - 1); }
  }

  lemma OutIsMonotone(g: Server, dir: Direction, xs: set<string>, ys: set<string>)
    requires xs <= ys
    ensures Out(g, dir, xs) <= Out(g, dir, ys)
  {}

  lemma OutComesFrom(g: Server, dir: Direction, xs: set<string>, y: string) returns (x: string)
    requires y in Out(g, dir, xs)
    ensures x in xs && y in Neighbours(g, dir, x)
  {
    x :| x in xs && y in Neighbours(g, dir, x);
  }

  lemma WalkGoesOn(g: Server, dir: Direction, start: string, k: nat, x: string, y: string)
    requires x in Exactly(g, dir, start, k) && y in Neighbours(g, dir, x)
    ensures y in Exactly(g, dir, start, k + 1)
  {}

  lemma {:induction false} ExactlyIsWithin(g: Server, dir: Direction, start: string, k: nat)
    ensures Exactly(g, dir, start, k) <= Within(g, dir, start, k)
  {
    if k > 0 {
      ExactlyIsWithin(g, dir, start, k - 1);
      OutIsMonotone(g, dir, Exactly(g, dir, start, k - 1), Within(g, dir, start, k - 1));
    }
  }

  /** A name within k is within k - 1, or a neighbour of one that is. */
  lemma OneStepBack(g: Server, dir: Direction, start: string, k: nat, name: string) returns (x: string)
    requires k > 0 && name in Within(g, dir, start, k)
    ensures x in Within(g, dir, start, k - 1) && (x == name || name in Neighbours(g, dir, x))
  {
    if name in Within(g, dir, start, k - 1) {
      x := name;
    } else {
      x := OutComesFrom(g, dir, Within(g, dir, start, k - 1), name);
    }
  }

  lemma OneStepOn(g: Server, dir: Direction, start: string, j: nat, x: string, name: string) returns (k: nat)
    requires x in Exactly(g, dir, start, j) && (x == name || name in Neighbours(g, dir, x))
    ensures k <= j + 1 && name in Exactly(g, dir, start, k)
  {
    if x == name {
      k := j;
    } else {
      WalkGoesOn(g, dir, start, j, x, name);
      k := j + 1;
    }
  }

  lemma {:induction false} WithinHasWalk(g: Server, dir: Direction, start: string, k: nat, name: string) returns (j: nat)
    requires name in Within(g, dir, start, k)
    ensures j <= k && name in Exactly(g, dir, start, j)
  {
    if k == 0 {
      j := 0;
    } else {
      var x := OneStepBack(g, dir, start, k, name);
      j := WithinHasWalk(g, dir, start, k - 1, x);
      j := OneStepOn(g, dir, start, j, x, name);
    }
  }

  /** A name is within k exactly when some walk of at most k steps leads to it. */
  lemma WithinIsReachable(g: Server, dir: Direction, start: string, k: nat, name: string)
    ensures name in Within(g, dir, start, k) <==> exists j: nat :: j <= k && name in Exactly(g, dir, start, j)
  {
    if name in Within(g, dir, start, k) {
      var _ := WithinHasWalk(g, dir, start, k, name);
    }
    if exists j: nat :: j <= k && name in Exactly(g, dir, start, j) {
      var j: nat :| j <= k && name in Exactly(g, dir, start, j);
      ExactlyIsWithin(g, dir, start, j);
      WithinGrows(g, dir, start, j, k);
    }
  }

  /** One more level is found from the last layer alone. */
  lemma NextLevelFromLayer(g: Server, dir: Direction, start: string, k: nat)
    ensures Within(g, dir, start, k + 1) == Within(g, dir, start, k) + Out(g, dir, Layer(g, dir, start, k))
  {
    if k > 0 {
      var w := Within(g, dir, start, k);
      forall y | y in Out(g, dir, w) ensures y in w + Out(g, dir, Layer(g, dir, start, k)) {
        var x :| x in w && y in Neighbours(g, dir, x);
        if x in Within(g, dir, start, k - 1) {
          assert y in Out(g, dir, Within(g, dir, start, k - 1));
        }
      }
    }
  }

  lemma EmptyLayerStops(g: Server, dir: Direction, start: string, k: nat)
    requires Layer(g, dir, start, k) == {}
    ensures Within(g, dir, start, k + 1) == Within(g, dir, start, k) && Layer(g, dir, start, k + 1) == {}
  {
    NextLevelFromLayer(g, dir, start, k);
    assert Out(g, dir, {}) == {};
  }

  /** Once a layer is empty there is nothing further out. */
  lemma {:induction false} EmptyLayerIsTheEnd(g: Server, dir: Direction, start: string, k: nat, m: nat)
    requires Layer(g, dir, start, k) == {} && k <= m
    ensures Within(g, dir, start, m) == Within(g, dir, start, k)
    decreases m - k
  {
    if k < m {
      EmptyLayerStops(g, dir, start, k);
      EmptyLayerIsTheEnd(g, dir, start, k + 1, m);
    }
  }

  /** Who extends the name and whom it extends. */
  predicate AnchoredAtEitherEnd(answer: Option<seq<CallEdge>>, name: string) {
    answer.Some? ==> forall e | e in answer.value :: e.from == name || e.to == name
  }

  predicate AnchoredAnswer(answer: Option<seq<CallEdge>>, dir: Direction, name: string) {
    answer.Some? ==> forall e | e in answer.value :: Near(e, dir) == name
  }

  /** The server anchors its answers: it files them under the name it was asked about. */
  ghost predicate Anchored(g: Server) {
    && (forall dir, name :: AnchoredAnswer(Calls(g, dir, name), dir, name) && AnchoredAnswer(Wires(g, dir, name), dir, name))
    && (forall name :: AnchoredAnswer(g.methods(name), Down, name) && AnchoredAnswer(g.importers(name), Up, name))
    && (forall name :: AnchoredAtEitherEnd(g.parents(name), name))
  }
}
