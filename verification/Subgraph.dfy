/** A bounded snapshot of the code graph around seed names: one walk down and one walk up from
    every seed, then its structural neighbours, under caps on levels, frontier, nodes and edges.
    The first record of a name wins. */
module Subgraph {
  import opened Wrappers
  import opened Text
  import opened Sorting
  import opened CodeGraph

  const MAX_SEEDS := 8
  const MAX_NODES := 500
  const MAX_EDGES := 1000
  const MAX_DEPTH := 5
  const MAX_FRONTIER := 40
  const ANSWER_LIMIT := 15
  const TAIL_RARITY := 30

  datatype Role = Seed | Caller | Callee | Method | Parent | Importer
  datatype Node = Node(name: string, file: string, role: Role, depth: int)
  datatype Edge = Edge(from: string, to: string, etype: string)

  /** Nodes by name, and edges by their keys. */
  type Nodes = map<string, Node>

  type Edges = map<string, Edge>

  /** The kinds of answers: two that walks follow, and three about the surroundings of a start. */
  datatype Relation = Call | Wire | Import | Extend | Own

  function Label(r: Relation): string {
    match r
    case Call => "CALLS"
    case Wire => "INVOKES"
    case Import => "IMPORTS"
    case Extend => "EXTENDS"
    case Own => "HAS_METHOD"
  }

  /** The answer a walk asks for about a name. */
  function WalkAnswer(g: Server, r: Relation, dir: Direction, name: string): Option<seq<CallEdge>> {
    if r == Call then Calls(g, dir, name) else Wires(g, dir, name)
  }

  /** The answer about a start's surroundings. */
  function AuxAnswer(g: Server, r: Relation, seed: string): Option<seq<CallEdge>> {
    match r
    case Import => g.importers(seed)
    case Extend => g.parents(seed)
    case _ => g.methods(seed)
  }

  function AuxRole(r: Relation): Role {
    match r
    case Import => Importer
    case Extend => Parent
    case _ => Method
  }

  /** The end of a structural edge that is recorded, and where its edge is drawn to: methods belong
      to the owner the server names, all else is joined to the start. */
  function AuxFar(e: CallEdge, r: Relation): string { if r == Own then e.to else e.from }

  function AuxTo(e: CallEdge, r: Relation, seed: string): string { if r == Own then e.to else seed }

  function AuxFars(edges: seq<CallEdge>, r: Relation): set<string> {
    set e | e in edges && AuxFar(e, r) != "" :: AuxFar(e, r)
  }

  function AuxEnds(g: Server, r: Relation, seed: string): set<string> {
    if AuxAnswer(g, r, seed).None? then {} else AuxFars(AuxAnswer(g, r, seed).value, r)
  }

  function RoleOf(dir: Direction): Role { if dir == Down then Callee else Caller }
  function Signed(dir: Direction, d: nat): int { if dir == Down then d as int else 0 - d as int }

  ghost predicate IsBeside(g: Server, starts: set<string>, x: Node, r: Relation) {
    x.depth == 1 && exists s :: s in starts && x.name in AuxEnds(g, r, s)
  }

  /** A walked node is the end of a walk of exactly its depth from some start; a seed is a start; any
      other is an end of a structural answer about some start. */
  ghost predicate SoundNode(g: Server, starts: set<string>, x: Node) {
    match x.role
    case Seed => x.depth == 0 && x.name in starts
    case Callee => 1 <= x.depth <= MAX_DEPTH && exists s :: s in starts && x.name in Exactly(g, Down, s, x.depth)
    case Caller => 1 <= -x.depth <= MAX_DEPTH && exists s :: s in starts && x.name in Exactly(g, Up, s, -x.depth)
    case Method => IsBeside(g, starts, x, Own)
    case Parent => IsBeside(g, starts, x, Extend)
    case Importer => IsBeside(g, starts, x, Import)
  }

  ghost predicate Sound(g: Server, starts: set<string>, nodes: Nodes) {
    forall n | n in nodes :: n != "" && nodes[n].name == n && SoundNode(g, starts, nodes[n])
  }

  ghost predicate EndsAreNodes(nodes: Nodes, edges: Edges) {
    forall k | k in edges :: edges[k].from in nodes && edges[k].to in nodes
  }

  /** Nothing recorded is ever changed or lost. */
  ghost predicate Kept<T>(a: map<string, T>, b: map<string, T>) {
    forall n | n in a :: n in b && b[n] == a[n]
  }

  /** What a step of a walk at distance d may add: names among targets, with their role and depth. */
  ghost predicate Walked(a: Nodes, b: Nodes, dir: Direction, d: nat, targets: set<string>) {
    && Kept(a, b) && |b| <= MAX_NODES
    && forall n | n in b && n !in a ::
         n in targets && n != "" && b[n].name == n && b[n].role == RoleOf(dir) && b[n].depth == Signed(dir, d)
  }

  function EdgeKey(e: Edge): string { e.etype + "|" + e.from + "|" + e.to }

  /** Every edge stands under the key made of its three fields. */
  ghost predicate Keyed(edges: Edges) { forall k | k in edges :: k == EdgeKey(edges[k]) }

  /** The answer holds an edge between these names. */
  predicate Says(answer: Option<seq<CallEdge>>, from: string, to: string) {
    answer.Some? && exists e :: e in answer.value && e.from == from && e.to == to
  }

  predicate Drawable(from: string, to: string) { from != "" && to != "" && from != to }

  ghost predicate IsLink(x: Edge, answers: seq<CallEdge>, r: Relation) {
    x.etype == Label(r) && Drawable(x.from, x.to) && Says(Some(answers), x.from, x.to)
  }

  /** The edges a step may add: those of its answers. */
  ghost predicate Linked(a: Edges, b: Edges, answers: seq<CallEdge>, r: Relation) {
    && |b| <= MAX_EDGES
    && Kept(a, b)
    && forall k | k in b && k !in a :: k == EdgeKey(b[k]) && IsLink(b[k], answers, r)
  }

  predicate SaysFrom(answer: Option<seq<CallEdge>>, from: string) {
    answer.Some? && exists e :: e in answer.value && e.from == from
  }

  /** The server answered with this edge: a walk's edge to the question about some name, a method to
      the question about some start, and what imports or extends a start to the question about it. */
  ghost predicate Offered(g: Server, asked: set<string>, r: Relation, from: string, to: string) {
    match r
    case Call => exists dir, name :: Says(Calls(g, dir, name), from, to)
    case Wire => exists dir, name :: Says(Wires(g, dir, name), from, to)
    case Import => to in asked && SaysFrom(g.importers(to), from)
    case Extend => to in asked && SaysFrom(g.parents(to), from)
    case Own => exists s :: s in asked && Says(g.methods(s), from, to)
  }

  ghost predicate EdgeSound(g: Server, asked: set<string>, x: Edge) {
    Drawable(x.from, x.to) && exists r :: x.etype == Label(r) && Offered(g, asked, r, x.from, x.to)
  }

  /** asked are the starts whose surroundings were asked for. */
  ghost predicate EdgesSound(g: Server, asked: set<string>, edges: Edges) {
    forall k | k in edges :: EdgeSound(g, asked, edges[k])
  }

  function Names(xs: seq<string>): set<string> { set x | x in xs }

  /** The edges after one more is offered: blank ends, loops and known keys are passed over, and a
      full snapshot takes no more. */
  function WithEdge(edges: Edges, e: Edge): Edges {
    if Drawable(e.from, e.to) && EdgeKey(e) !in edges && |edges| < MAX_EDGES then edges[EdgeKey(e) := e] else edges
  }

  /** The edge is there, unless it is none that can be drawn. */
  ghost predicate IsDrawn(edges: Edges, from: string, to: string, etype: string) {
    Drawable(from, to) ==> EdgeKey(Edge(from, to, etype)) in edges
  }

  ghost predicate Drawn(edges: Edges, answer: Option<seq<CallEdge>>, r: Relation) {
    answer.Some? ==> forall e | e in answer.value :: IsDrawn(edges, e.from, e.to, Label(r))
  }

  /** The answer is shorter than the server's limit, so nothing was withheld. */
  predicate Uncut(answer: Option<seq<CallEdge>>) { answer.Some? ==> |answer.value| < ANSWER_LIMIT }

  /** Both answers about a name are drawn, and its calls were not cut by the server. */
  ghost predicate CallsDrawn(g: Server, dir: Direction, edges: Edges, name: string) {
    && Uncut(Calls(g, dir, name))
    && Drawn(edges, Calls(g, dir, name), Call) && Drawn(edges, Wires(g, dir, name), Wire)
  }

  ghost predicate AllDrawn(g: Server, dir: Direction, edges: Edges, names: set<string>) {
    forall n | n in names :: CallsDrawn(g, dir, edges, n)
  }

  ghost predicate AuxTakenAt(nodes: Nodes, edges: Edges, e: CallEdge, seed: string, r: Relation) {
    (AuxFar(e, r) == "" || AuxFar(e, r) in nodes) && IsDrawn(edges, e.from, AuxTo(e, r, seed), Label(r))
  }

  /** What the snapshot takes of a structural answer about a start: the recorded end of every edge,
      and an edge from its From end to where AuxTo points. */
  ghost predicate AuxTaken(nodes: Nodes, edges: Edges, answer: Option<seq<CallEdge>>,
                           seed: string, r: Relation) {
    answer.Some? ==> forall e | e in answer.value :: AuxTakenAt(nodes, edges, e, seed, r)
  }

  ghost predicate TakenAbout(g: Server, nodes: Nodes, edges: Edges, seed: string, r: Relation) {
    AuxTaken(nodes, edges, AuxAnswer(g, r, seed), seed, r)
  }

  ghost predicate AuxAround(g: Server, nodes: Nodes, edges: Edges, seed: string) {
    && TakenAbout(g, nodes, edges, seed, Import)
    && TakenAbout(g, nodes, edges, seed, Extend)
    && TakenAbout(g, nodes, edges, seed, Own)
  }

  /** What the snapshot takes of all answers about a start: both directions and all three structural
      relations. It is all they say exactly as far as AroundShows and ParentShownIff go. */
  ghost predicate Around(g: Server, nodes: Nodes, edges: Edges, seed: string) {
    && Neighbours(g, Down, seed) <= nodes.Keys && CallsDrawn(g, Down, edges, seed)
    && Neighbours(g, Up, seed) <= nodes.Keys && CallsDrawn(g, Up, edges, seed)
    && AuxAround(g, nodes, edges, seed)
  }

  /** Both ends of an answered edge are nodes, and it is drawn as the server gave it. */
  ghost predicate EdgeShown(nodes: Nodes, edges: Edges, e: CallEdge, r: Relation) {
    && (e.from == "" || e.from in nodes) && (e.to == "" || e.to in nodes)
    && IsDrawn(edges, e.from, e.to, Label(r))
  }

  ghost predicate Shown(nodes: Nodes, edges: Edges, answer: Option<seq<CallEdge>>, r: Relation) {
    answer.Some? ==> forall e | e in answer.value :: EdgeShown(nodes, edges, e, r)
  }

  /** All the server says about a start, but for what it extends and what extends it. */
  ghost predicate AllShown(g: Server, nodes: Nodes, edges: Edges, seed: string) {
    && Shown(nodes, edges, g.callees(seed), Call) && Shown(nodes, edges, g.wireCallees(seed), Wire)
    && Shown(nodes, edges, g.callers(seed), Call) && Shown(nodes, edges, g.wireCallers(seed), Wire)
    && Shown(nodes, edges, g.importers(seed), Import) && Shown(nodes, edges, g.methods(seed), Own)
  }

  /** A walk's answer is shown when its near end, the name asked about, is a node. */
  lemma WalkAnswerShows(nodes: Nodes, edges: Edges, answer: Option<seq<CallEdge>>,
                        dir: Direction, seed: string, r: Relation)
    requires AnchoredAnswer(answer, dir, seed) && seed in nodes
    requires AnswerEnds(answer, dir) <= nodes.Keys && Drawn(edges, answer, r)
    ensures Shown(nodes, edges, answer, r)
  {
    if answer.Some? {
      forall e | e in answer.value ensures EdgeShown(nodes, edges, e, r) {
        assert Near(e, dir) == seed;
        assert Far(e, dir) != "" ==> Far(e, dir) in FarEnds(answer.value, dir);
      }
    }
  }

  lemma BothWaysAnchored(g: Server, dir: Direction, seed: string)
    requires Anchored(g)
    ensures AnchoredAnswer(Calls(g, dir, seed), dir, seed) && AnchoredAnswer(Wires(g, dir, seed), dir, seed)
    ensures AnchoredAnswer(g.methods(seed), Down, seed) && AnchoredAnswer(g.importers(seed), Up, seed)
  {}

  lemma AuxShows(nodes: Nodes, edges: Edges, answer: Option<seq<CallEdge>>,
                 dir: Direction, seed: string, r: Relation)
    requires (r == Own && dir == Down) || (r == Import && dir == Up)
    requires AnchoredAnswer(answer, dir, seed) && seed in nodes && AuxTaken(nodes, edges, answer, seed, r)
    ensures Shown(nodes, edges, answer, r)
  {
    if answer.Some? {
      forall e | e in answer.value ensures EdgeShown(nodes, edges, e, r) {
        assert Near(e, dir) == seed && AuxTakenAt(nodes, edges, e, seed, r);
      }
    }
  }

  /** From a server that anchors its answers, everything about a start is shown except parents. */
  lemma AroundShows(g: Server, nodes: Nodes, edges: Edges, seed: string)
    requires Anchored(g) && seed in nodes && Around(g, nodes, edges, seed)
    ensures AllShown(g, nodes, edges, seed)
  {
    BothWaysAnchored(g, Down, seed);
    BothWaysAnchored(g, Up, seed);
    WalkAnswerShows(nodes, edges, Calls(g, Down, seed), Down, seed, Call);
    WalkAnswerShows(nodes, edges, Wires(g, Down, seed), Down, seed, Wire);
    WalkAnswerShows(nodes, edges, Calls(g, Up, seed), Up, seed, Call);
    WalkAnswerShows(nodes, edges, Wires(g, Up, seed), Up, seed, Wire);
    AuxShows(nodes, edges, g.importers(seed), Up, seed, Import);
    AuxShows(nodes, edges, g.methods(seed), Down, seed, Own);
  }

  lemma LabelsHoldNoBar(r: Relation)
    ensures '|' !in Label(r)
  {}

  lemma LabelOf(g: Server, asked: set<string>, x: Edge)
    requires EdgeSound(g, asked, x)
    ensures '|' !in x.etype
  {
    var r :| x.etype == Label(r) && Offered(g, asked, r, x.from, x.to);
    LabelsHoldNoBar(r);
  }

  lemma KeyInParts(x: Edge)
    ensures EdgeKey(x) == x.etype + ['|'] + (x.from + ['|'] + x.to)
  {}

  lemma OneBarOnly(a: string, b: string, c: string, d: string)
    requires a + ['|'] + b == c + ['|'] + d && '|' !in a && '|' !in b
    ensures a == c && b == d
  {
    var s, t := a + ['|'] + b, c + ['|'] + d;
    assert t[|c|] == '|' && s[|c|] == '|';
    assert forall i | 0 <= i < |a| :: s[i] == a[i] && a[i] in a;
    assert forall i | |a| < i < |s| :: s[i] == b[i - |a| - 1] && s[i] in b;
    if |c| != |a| { assert false; }
    assert a == s[..|a|] && c == t[..|c|] && b == s[|a| + 1..] && d == t[|c| + 1..];
  }

  lemma SameKeySameEdge(x: Edge, y: Edge)
    requires EdgeKey(x) == EdgeKey(y)
    requires '|' !in x.etype && '|' !in x.from && '|' !in x.to && '|' !in y.etype
    ensures x == y
  {
    KeyInParts(x);
    KeyInParts(y);
    SplitAtFirst('|', x.etype, x.from + ['|'] + x.to, y.etype, y.from + ['|'] + y.to);
    OneBarOnly(x.from, x.to, y.from, y.to);
  }

  /** An edge whose ends hold no bar is the only one with its key, so it stands there itself. */
  lemma KeyTells(g: Server, asked: set<string>, edges: Edges, x: Edge)
    requires Keyed(edges) && EdgesSound(g, asked, edges) && EdgeKey(x) in edges
    requires '|' !in x.etype && '|' !in x.from && '|' !in x.to
    ensures edges[EdgeKey(x)] == x
  {
    var y := edges[EdgeKey(x)];
    assert EdgeSound(g, asked, y);
    LabelOf(g, asked, y);
    SameKeySameEdge(x, y);
  }

  lemma LabelsDiffer(r: Relation)
    requires Label(r) == "EXTENDS"
    ensures r == Extend
  {
    assert Label(r)[0] == 'E';
  }

  lemma DrawnParentWasAsked(g: Server, asked: set<string>, edges: Edges, e: CallEdge)
    requires Keyed(edges) && EdgesSound(g, asked, edges) && Drawable(e.from, e.to)
    requires '|' !in e.from && '|' !in e.to && IsDrawn(edges, e.from, e.to, Label(Extend))
    ensures e.to in asked && SaysFrom(g.parents(e.to), e.from)
  {
    var x := Edge(e.from, e.to, Label(Extend));
    LabelsHoldNoBar(Extend);
    KeyTells(g, asked, edges, x);
    assert EdgeSound(g, asked, x);
    var r :| x.etype == Label(r) && Offered(g, asked, r, x.from, x.to);
    LabelsDiffer(r);
  }

  ghost predicate AllAround(g: Server, asked: set<string>, nodes: Nodes, edges: Edges) {
    forall s | s in asked :: s in nodes && Around(g, nodes, edges, s)
  }

  /** Parents are shown less often: what a start extends is drawn only if the parent is a start too
      and was asked. All this holds of a finished snapshot that was not cut. */
  lemma ParentShownIff(g: Server, asked: set<string>, nodes: Nodes, edges: Edges, seed: string, e: CallEdge)
    requires Keyed(edges) && EdgesSound(g, asked, edges) && AllAround(g, asked, nodes, edges)
    requires seed in asked && g.parents(seed).Some? && e in g.parents(seed).value
    requires Drawable(e.from, e.to) && '|' !in e.from && '|' !in e.to
    ensures EdgeShown(nodes, edges, e, Extend) <==> e.to in asked && SaysFrom(g.parents(e.to), e.from)
    ensures asked == {seed} ==> (EdgeShown(nodes, edges, e, Extend) <==> e.to == seed)
  {
    assert Around(g, nodes, edges, seed);
    assert AuxTakenAt(nodes, edges, e, seed, Extend);
    if EdgeShown(nodes, edges, e, Extend) { DrawnParentWasAsked(g, asked, edges, e); }
    if e.to in asked && SaysFrom(g.parents(e.to), e.from) {
      var x :| x in g.parents(e.to).value && x.from == e.from;
      assert Around(g, nodes, edges, e.to);
      assert AuxTakenAt(nodes, edges, x, e.to, Extend);
    }
  }

  lemma CallsStayDrawn(g: Server, dir: Direction, a: Edges, b: Edges, n: string)
    requires Kept(a, b) && CallsDrawn(g, dir, a, n)
    ensures CallsDrawn(g, dir, b, n)
  {}

  lemma DrawnStays(g: Server, dir: Direction, a: Edges, b: Edges, names: set<string>)
    requires Kept(a, b) && AllDrawn(g, dir, a, names)
    ensures AllDrawn(g, dir, b, names)
  {
    forall n | n in names ensures CallsDrawn(g, dir, b, n) { CallsStayDrawn(g, dir, a, b, n); }
  }

  lemma AuxStaysTaken(n0: Nodes, n1: Nodes, e0: Edges, e1: Edges,
                      answer: Option<seq<CallEdge>>, seed: string, r: Relation)
    requires Kept(n0, n1) && Kept(e0, e1) && AuxTaken(n0, e0, answer, seed, r)
    ensures AuxTaken(n1, e1, answer, seed, r)
  {
    if answer.Some? {
      forall e | e in answer.value ensures AuxTakenAt(n1, e1, e, seed, r) { assert AuxTakenAt(n0, e0, e, seed, r); }
    }
  }

  lemma AroundStays(g: Server, n0: Nodes, n1: Nodes, e0: Edges, e1: Edges, seed: string)
    requires Kept(n0, n1) && Kept(e0, e1) && Around(g, n0, e0, seed)
    ensures Around(g, n1, e1, seed)
  {
    CallsStayDrawn(g, Down, e0, e1, seed);
    CallsStayDrawn(g, Up, e0, e1, seed);
    forall r ensures TakenAbout(g, n0, e0, seed, r) ==> TakenAbout(g, n1, e1, seed, r) {
      if TakenAbout(g, n0, e0, seed, r) { AuxStaysTaken(n0, n1, e0, e1, AuxAnswer(g, r, seed), seed, r); }
    }
  }

  /** What holds of a snapshot at any moment: its caps, one key per edge, every edge answered by the
      server, and, as long as the server anchors its answers and the node cap is not met, edges
      that join nodes. */
  ghost predicate WellFormed(g: Server, asked: set<string>, nodes: Nodes, edges: Edges) {
    && |nodes| <= MAX_NODES && |edges| <= MAX_EDGES && Keyed(edges) && EdgesSound(g, asked, edges)
    && (Anchored(g) && |nodes| < MAX_NODES ==> EndsAreNodes(nodes, edges))
  }

  /** A name other than the seed is new. */
  ghost predicate NewBeside(a: Nodes, b: Nodes, seed: string) {
    exists n :: n in b && n !in a && n != seed
  }

  lemma OneIsNew(a: Nodes, b: Nodes, c: Nodes, seed: string)
    requires Kept(a, b) && Kept(b, c) && seed in b && |b| < |c|
    ensures NewBeside(a, c, seed)
  {
    assert |c| == |c.Keys| && |b| == |b.Keys|;
    if c.Keys <= b.Keys {
      SubsetSize(c.Keys, b.Keys);
    } else {
      var n :| n in c && n !in b;
      assert n in c && n !in a && n != seed;
    }
  }

  lemma SomethingNew(a: Nodes, b: Nodes, c: Nodes, seed: string)
    requires Kept(a, b) && Kept(b, c) && (seed in b || |b| >= MAX_NODES)
    ensures |b| < |c| < MAX_NODES ==> NewBeside(a, c, seed)
  {
    if |b| < |c| < MAX_NODES { OneIsNew(a, b, c, seed); }
  }

  const COMMON_SHORT_SYMBOLS := {
    "init", "new", "run", "start", "stop", "close", "open", "read", "write", "get", "set", "add", "do", "main"}

  predicate IsCommonShortSymbol(tail: string) { ToLower(tail) in COMMON_SHORT_SYMBOLS }

  /** The name after the last dot, unless it is missing or shorter than three characters. */
  function BareTail(name: string): (tail: string)
    ensures tail != "" ==> |tail| >= 3 && '.' !in tail && exists head :: name == head + "." + tail
  {
    var i := LastIndex(name, '.');
    if i < 0 || i == |name| - 1 || |name[i + 1..]| < 3 then "" else
      assert name == name[..i] + "." + name[i + 1..];
      name[i + 1..]
  }

  /** What follows the last dot counts from three characters on; without a dot there is no tail. */
  lemma BareTailMeans(head: string, tail: string)
    requires '.' !in tail
    ensures BareTail(head + "." + tail) == if |tail| >= 3 then tail else ""
    ensures BareTail(tail) == ""
  {
    assert (head + "." + tail)[|head| + 1..] == tail;
    LastIndexIs(head + "." + tail, '.', |head|);
  }

  /** The name after the last dot is tried only when it is neither generic nor too frequent. */
  ghost predicate WorthTrying(g: Server, seed: string) {
    var tail := BareTail(seed);
    && tail != "" && tail != seed && ToLower(tail) !in COMMON_SHORT_SYMBOLS
    && !(g.nameHits(tail).Some? && g.nameHits(tail).value > 30)
  }

  lemma AllAroundGrows(g: Server, asked: set<string>, n0: Nodes, n1: Nodes,
                       e0: Edges, e1: Edges, seed: string)
    requires Kept(n0, n1) && Kept(e0, e1)
    requires AllAround(g, asked, n0, e0) && seed in n1 && Around(g, n1, e1, seed)
    ensures AllAround(g, asked + {seed}, n1, e1)
  {
    forall s | s in asked ensures s in n1 && Around(g, n1, e1, s) { AroundStays(g, n0, n1, e0, e1, s); }
  }

  lemma AllAroundShows(g: Server, asked: set<string>, nodes: Nodes, edges: Edges)
    requires Anchored(g) && AllAround(g, asked, nodes, edges)
    ensures forall s | s in asked :: AllShown(g, nodes, edges, s)
  {
    forall s | s in asked ensures AllShown(g, nodes, edges, s) { AroundShows(g, nodes, edges, s); }
  }

  lemma Already(starts: set<string>, seed: string)
    requires seed in starts
    ensures starts + {seed} == starts
  {}

  lemma BothKept(n0: Nodes, n1: Nodes, n2: Nodes,
                 e0: Edges, e1: Edges, e2: Edges)
    requires Kept(n0, n1) && Kept(n1, n2) && Kept(e0, e1) && Kept(e1, e2)
    ensures Kept(n0, n2) && Kept(e0, e2)
  {}

  /** What a snapshot may start from: the seeds, and those of their tails that are worth trying. */
  ghost function StartsOf(g: Server, cleaned: seq<string>): set<string> {
    Names(cleaned) + (set s | s in cleaned && WorthTrying(g, s) :: BareTail(s))
  }

  lemma StartsHold(g: Server, cleaned: seq<string>, i: nat)
    requires i < |cleaned|
    ensures cleaned[i] in StartsOf(g, cleaned)
    ensures WorthTrying(g, cleaned[i]) ==> BareTail(cleaned[i]) in StartsOf(g, cleaned)
    ensures Names(cleaned[..i + 1]) == Names(cleaned[..i]) + {cleaned[i]}
  {
    assert cleaned[..i + 1] == cleaned[..i] + [cleaned[i]];
  }

  /** A start's callees and callers are known already, but for itself. */
  ghost predicate AllKnown(g: Server, nodes: Nodes, seed: string) {
    Neighbours(g, Down, seed) + Neighbours(g, Up, seed) <= nodes.Keys + {seed}
  }

  lemma NothingCameOf(g: Server, asked: set<string>, n0: Nodes, n1: Nodes, e1: Edges, seed: string)
    requires AllAround(g, asked, n1, e1) && seed in asked && n1.Keys <= n0.Keys + {seed}
    ensures AllKnown(g, n0, seed)
  {
    assert Around(g, n1, e1, seed);
  }

  lemma AskedAreStarts(asked: set<string>, seed: string, more: set<string>, starts: set<string>)
    requires seed in starts && more <= starts
    ensures asked + {seed} <= asked + {seed} + more <= asked + starts
  {}

  lemma EmptyIsWellFormed(g: Server)
    ensures WellFormed(g, {}, map[], map[])
  {}

  /** The first max distinct non-blank names, trimmed, in order. */
  function FirstUsable(seeds: seq<string>, max: nat): seq<string> {
    if seeds == [] then [] else
      var before := FirstUsable(seeds[..|seeds| - 1], max);
      var s := TrimSpace(seeds[|seeds| - 1]);
      if s == "" || s in before || |before| >= max then before else before + [s]
  }

  lemma {:induction false} UsableAreNonempty(seeds: seq<string>, max: nat)
    ensures |FirstUsable(seeds, max)| <= max
    ensures forall i | 0 <= i < |FirstUsable(seeds, max)| :: FirstUsable(seeds, max)[i] != ""
    ensures forall i, j | 0 <= i < j < |FirstUsable(seeds, max)| :: FirstUsable(seeds, max)[i] != FirstUsable(seeds, max)[j]
  {
    if seeds != [] { UsableAreNonempty(seeds[..|seeds| - 1], max); }
  }

  /** They are trimmed seeds, and of those none is missing unless there are max before it. A longer list
      of seeds only adds at the end, so they stand in the order in which they first come. */
  lemma {:induction false} UsableAreTheFirst(seeds: seq<string>, i: nat, max: nat)
    requires i <= |seeds|
    ensures FirstUsable(seeds[..i], max) <= FirstUsable(seeds, max)
    ensures forall x | x in FirstUsable(seeds, max) :: exists k :: 0 <= k < |seeds| && TrimSpace(seeds[k]) == x
    ensures i < |seeds| && TrimSpace(seeds[i]) != "" ==>
      TrimSpace(seeds[i]) in FirstUsable(seeds[..i + 1], max) || |FirstUsable(seeds[..i], max)| >= max
    decreases |seeds|
  {
    if seeds != [] {
      var init := seeds[..|seeds| - 1];
      if i < |seeds| {
        UsableAreTheFirst(init, i, max);
        assert init[..i] == seeds[..i] && seeds[..i + 1][..i] == seeds[..i];
      } else {
        UsableAreTheFirst(init, |init|, max);
        assert seeds[..i] == seeds;
      }
      forall x | x in FirstUsable(seeds, max) ensures exists k :: 0 <= k < |seeds| && TrimSpace(seeds[k]) == x {
        if x in FirstUsable(init, max) {
          var k :| 0 <= k < |init| && TrimSpace(init[k]) == x;
          assert TrimSpace(seeds[k]) == x;
        } else {
          assert TrimSpace(seeds[|seeds| - 1]) == x;
        }
      }
    }
  }

  /** Once max names are found the rest of the list is of no use. */
  lemma {:induction false} EnoughIsEnough(seeds: seq<string>, i: nat, max: nat)
    requires i <= |seeds| && |FirstUsable(seeds[..i], max)| >= max
    ensures FirstUsable(seeds, max) == FirstUsable(seeds[..i], max)
    decreases |seeds|
  {
    if i < |seeds| {
      assert seeds[..|seeds| - 1][..i] == seeds[..i];
      EnoughIsEnough(seeds[..|seeds| - 1], i, max);
    } else {
      assert seeds[..i] == seeds;
    }
  }

  method CleanSeeds(seeds: seq<string>) returns (cleaned: seq<string>)
    ensures cleaned == FirstUsable(seeds, MAX_SEEDS)
  {
    cleaned := [];
    var seen: set<string> := {};
    for i := 0 to |seeds|
      invariant cleaned == FirstUsable(seeds[..i], MAX_SEEDS) && seen == Names(cleaned)
      invariant |cleaned| < MAX_SEEDS
    {
      assert seeds[..i + 1][..i] == seeds[..i];
      var s := TrimSpace(seeds[i]);
      if s == "" || s in seen {
        continue;
      }
      seen := seen + {s};
      cleaned := cleaned + [s];
      if |cleaned| >= MAX_SEEDS {
        EnoughIsEnough(seeds, i + 1, MAX_SEEDS);
        return;
      }
    }
    assert seeds[..|seeds|] == seeds;
  }

  function Union(levels: seq<set<string>>): set<string> {
    if levels == [] then {} else Union(levels[..|levels| - 1]) + levels[|levels| - 1]
  }

  ghost predicate AllNew(g: Server, dir: Direction, levels: seq<set<string>>, k: int)
    requires 1 <= k < |levels|
  {
    levels[k] == Out(g, dir, levels[k - 1]) - Union(levels[..k])
  }

  /** And holds everything one step out that was not in an earlier level. */
  ghost predicate Breadthfirst(g: Server, dir: Direction, levels: seq<set<string>>) {
    forall k | 1 <= k < |levels| :: AllNew(g, dir, levels, k)
  }

  /** Nothing was missed: the levels are breadth-first, and the nodes and the frontier are theirs. */
  ghost predicate Complete(g: Server, dir: Direction, levels: seq<set<string>>, nodes: Nodes, frontier: set<string>) {
    |levels| > 0 && Breadthfirst(g, dir, levels) && nodes.Keys == Union(levels) && frontier == levels[|levels| - 1]
  }

  ghost predicate OneOut(g: Server, dir: Direction, levels: seq<set<string>>, k: int)
    requires 1 <= k < |levels|
  {
    levels[k] <= Out(g, dir, levels[k - 1])
  }

  /** Every level is one step out from the one before. */
  ghost predicate Chained(g: Server, dir: Direction, start: string, levels: seq<set<string>>) {
    && |levels| > 0 && levels[0] == {start}
    && forall k | 1 <= k < |levels| :: OneOut(g, dir, levels, k)
  }

  /** What a walk adds: names of its levels after the first, each recorded with its level. */
  ghost predicate WalkedBy(a: Nodes, b: Nodes, dir: Direction, levels: seq<set<string>>) {
    && Kept(a, b)
    && forall n | n in b && n !in a ::
         && n != "" && b[n].name == n && b[n].role == RoleOf(dir)
         && exists k: nat :: 1 <= k < |levels| && n in levels[k] && b[n].depth == Signed(dir, k)
  }

  lemma TrailStarts(g: Server, dir: Direction, nodes: Nodes, start: string)
    ensures Names([start]) == {start} && Chained(g, dir, start, [{start}])
    ensures nodes.Keys == {start} ==> Complete(g, dir, [{start}], nodes, {start})
    ensures WalkedBy(nodes, nodes, dir, [{start}])
  {
    assert Union([{start}][..0]) == {};
  }

  lemma UnionGrows(levels: seq<set<string>>, last: set<string>)
    ensures Union(levels + [last]) == Union(levels) + last
  {
    assert (levels + [last])[..|levels|] == levels;
  }

  lemma CompleteGrows(g: Server, dir: Direction, levels: seq<set<string>>, a: Nodes, b: Nodes,
                      frontier: set<string>, found: set<string>)
    requires Complete(g, dir, levels, a, frontier)
    requires found == Out(g, dir, frontier) - a.Keys && found == b.Keys - a.Keys && Kept(a, b)
    ensures Complete(g, dir, levels + [found], b, found)
  {
    var longer := levels + [found];
    UnionGrows(levels, found);
    forall k | 1 <= k < |longer| ensures AllNew(g, dir, longer, k) {
      assert longer[..k] == levels[..k];
      if k == |levels| { assert levels[..k] == levels; } else { assert AllNew(g, dir, levels, k); }
    }
  }

  ghost predicate StructuralNode(g: Server, seed: string, n: string, x: Node) {
    && n != "" && x.name == n && x.depth == 1
    && exists r :: r != Call && r != Wire && x.role == AuxRole(r) && n in AuxEnds(g, r, seed)
  }

  ghost predicate NewAreBeside(g: Server, seed: string, a: Nodes, b: Nodes) {
    forall n | n in b && n !in a :: StructuralNode(g, seed, n, b[n])
  }

  ghost predicate Attached(a: Nodes, b: Nodes, role: Role, targets: set<string>) {
    && Kept(a, b)
    && forall n | n in b && n !in a :: n in targets && n != "" && b[n].name == n && b[n].depth == 1 && b[n].role == role
  }

  lemma UpsertAttaches(a: Nodes, b: Nodes, added: bool, name: string, file: string,
                       role: Role, targets: set<string>, seed: string)
    requires |a| <= MAX_NODES && (name == "" || name in targets)
    requires added <==> name != "" && name !in a && |a| < MAX_NODES
    requires b == if added then a[name := Node(name, file, role, 1)] else a
    ensures Attached(a, b, role, targets) && |a| <= |b| <= MAX_NODES
    ensures |b| < MAX_NODES ==> name == "" || name in b
    ensures seed in a || |a| >= MAX_NODES ==> seed in b || |b| >= MAX_NODES
    ensures forall n | n in b && n !in a :: b[n] == Node(name, file, role, 1)
  {}

  lemma AttachedOn(a: Nodes, b: Nodes, c: Nodes, role: Role, targets: set<string>)
    requires Attached(a, b, role, targets) && Attached(b, c, role, targets)
    ensures Attached(a, c, role, targets)
  {
    forall n | n in c && n !in a
      ensures n in targets && n != "" && c[n].name == n && c[n].depth == 1 && c[n].role == role
    {
      if n in b { assert c[n] == b[n]; }
    }
  }

  /** One more structural answer. */
  lemma MoreBeside(g: Server, seed: string, a: Nodes, b: Nodes, c: Nodes, r: Relation)
    requires NewAreBeside(g, seed, a, b) && Attached(b, c, AuxRole(r), AuxEnds(g, r, seed)) && r != Call && r != Wire
    ensures NewAreBeside(g, seed, a, c)
  {
    forall n | n in c && n !in a ensures StructuralNode(g, seed, n, c[n]) {
      if n in b { assert StructuralNode(g, seed, n, b[n]); }
    }
  }

  /** Walking adds nodes, so there are no fewer of them. */
  lemma KeptSize<T>(a: map<string, T>, b: map<string, T>)
    requires Kept(a, b)
    ensures a.Keys <= b.Keys && |a| <= |b|
  {
    assert a.Keys <= b.Keys;
    SubsetSize(a.Keys, b.Keys);
    assert |a| == |a.Keys| && |b| == |b.Keys|;
  }

  /** What an earlier answer brought is still there after a later one; what was cut stays cut. */
  lemma TakenLater(g: Server, seed: string, n1: Nodes, n2: Nodes,
                   e1: Edges, e2: Edges, r: Relation, cut1: bool, cut2: bool)
    requires Kept(n1, n2) && Kept(e1, e2) && (cut1 ==> cut2)
    requires !cut1 && |n1| < MAX_NODES ==> TakenAbout(g, n1, e1, seed, r)
    ensures !cut2 && |n2| < MAX_NODES ==> TakenAbout(g, n2, e2, seed, r)
  {
    KeptSize(n1, n2);
    if !cut2 && |n2| < MAX_NODES { AuxStaysTaken(n1, n2, e1, e2, AuxAnswer(g, r, seed), seed, r); }
  }

  lemma StillOffered(g: Server, asked: set<string>, seed: string, r: Relation, from: string, to: string)
    requires Offered(g, asked, r, from, to)
    ensures Offered(g, asked + {seed}, r, from, to)
  {}

  lemma StillAnswered(g: Server, asked: set<string>, seed: string, x: Edge)
    requires EdgeSound(g, asked, x)
    ensures EdgeSound(g, asked + {seed}, x)
  {
    var r :| x.etype == Label(r) && Offered(g, asked, r, x.from, x.to);
    StillOffered(g, asked, seed, r, x.from, x.to);
  }

  lemma MoreAsked(g: Server, asked: set<string>, seed: string, nodes: Nodes, edges: Edges)
    requires WellFormed(g, asked, nodes, edges)
    ensures WellFormed(g, asked + {seed}, nodes, edges)
  {
    forall k | k in edges ensures EdgeSound(g, asked + {seed}, edges[k]) { StillAnswered(g, asked, seed, edges[k]); }
  }

  /** A new node changes nothing for the edges. */
  lemma FormOfMoreNodes(g: Server, asked: set<string>, a: Nodes, b: Nodes, edges: Edges)
    requires WellFormed(g, asked, a, edges) && Kept(a, b) && |a| <= |b| <= MAX_NODES
    ensures WellFormed(g, asked, b, edges)
  {}

  lemma LinkIsSound(g: Server, asked: set<string>, x: Edge, answer: seq<CallEdge>, name: string, dir: Direction, r: Relation)
    requires IsLink(x, answer, r) && (r == Call || r == Wire) && Some(answer) == WalkAnswer(g, r, dir, name)
    ensures EdgeSound(g, asked, x)
  {
    assert Offered(g, asked, r, x.from, x.to);
  }

  lemma LinksJoinNodes(a: Nodes, b: Nodes, e0: Edges, e1: Edges,
                       answer: seq<CallEdge>, dir: Direction, name: string, r: Relation)
    requires EndsAreNodes(a, e0) && Kept(a, b) && name in b && Linked(e0, e1, answer, r)
    requires FarEnds(answer, dir) <= b.Keys && AnchoredAnswer(Some(answer), dir, name)
    ensures EndsAreNodes(b, e1)
  {
    forall k | k in e1 ensures e1[k].from in b && e1[k].to in b {
      if k in e0 {
        assert e1[k] == e0[k];
      } else {
        assert IsLink(e1[k], answer, r);
        var e :| e in answer && e.from == e1[k].from && e.to == e1[k].to;
        assert Far(e, dir) in FarEnds(answer, dir) && Near(e, dir) == name;
      }
    }
  }

  /** A walk's answer about a node leaves the snapshot well formed. */
  lemma StaysWellFormed(g: Server, asked: set<string>, n0: Nodes, n1: Nodes, e0: Edges, e1: Edges,
                        answer: seq<CallEdge>, name: string, dir: Direction, r: Relation)
    requires WellFormed(g, asked, n0, e0) && Kept(n0, n1) && |n0| <= |n1| <= MAX_NODES && Linked(e0, e1, answer, r)
    requires (r == Call || r == Wire) && Some(answer) == WalkAnswer(g, r, dir, name)
    requires |n1| < MAX_NODES ==> name in n1 && FarEnds(answer, dir) <= n1.Keys
    ensures WellFormed(g, asked, n1, e1)
  {
    forall k | k in e1 ensures EdgeSound(g, asked, e1[k]) && k == EdgeKey(e1[k]) {
      if k in e0 { assert e1[k] == e0[k]; } else { LinkIsSound(g, asked, e1[k], answer, name, dir, r); }
    }
    if Anchored(g) && |n1| < MAX_NODES {
      BothWaysAnchored(g, dir, name);
      LinksJoinNodes(n0, n1, e0, e1, answer, dir, name, r);
    }
  }

  ghost predicate IsAuxEdge(g: Server, e: CallEdge, seed: string, r: Relation) {
    r != Call && r != Wire && AuxAnswer(g, r, seed).Some? && e in AuxAnswer(g, r, seed).value
  }

  lemma AuxEdgeIsSound(g: Server, asked: set<string>, e: CallEdge, seed: string, r: Relation)
    requires seed in asked && IsAuxEdge(g, e, seed, r) && Drawable(e.from, AuxTo(e, r, seed))
    ensures EdgeSound(g, asked, Edge(e.from, AuxTo(e, r, seed), Label(r)))
  {
    assert Offered(g, asked, r, e.from, AuxTo(e, r, seed));
  }

  lemma SoundEdgeJoins(g: Server, asked: set<string>, edges: Edges, x: Edge)
    requires Keyed(edges) && EdgesSound(g, asked, edges) && |edges| <= MAX_EDGES && EdgeSound(g, asked, x)
    ensures var after := WithEdge(edges, x);
      Keyed(after) && EdgesSound(g, asked, after) && |after| <= MAX_EDGES && Kept(edges, after)
  {}

  lemma NodesJoin(nodes: Nodes, edges: Edges, x: Edge)
    requires EndsAreNodes(nodes, edges) && (x.from == "" || x.from in nodes) && (x.to == "" || x.to in nodes)
    ensures EndsAreNodes(nodes, WithEdge(edges, x))
  {}

  /** One structural edge about an asked start leaves the snapshot well formed. */
  lemma AttachingKeepsForm(g: Server, asked: set<string>, nodes: Nodes, edges: Edges,
                           e: CallEdge, seed: string, r: Relation)
    requires WellFormed(g, asked, nodes, edges) && seed in asked && IsAuxEdge(g, e, seed, r)
    requires seed in nodes || |nodes| >= MAX_NODES
    requires |nodes| < MAX_NODES ==> AuxFar(e, r) == "" || AuxFar(e, r) in nodes
    ensures var after := WithEdge(edges, Edge(e.from, AuxTo(e, r, seed), Label(r)));
      WellFormed(g, asked, nodes, after) && Kept(edges, after)
  {
    var x := Edge(e.from, AuxTo(e, r, seed), Label(r));
    if Drawable(x.from, x.to) {
      AuxEdgeIsSound(g, asked, e, seed, r);
      SoundEdgeJoins(g, asked, edges, x);
    }
    if Anchored(g) && |nodes| < MAX_NODES {
      BothWaysAnchored(g, Down, seed);
      NodesJoin(nodes, edges, x);
    }
  }

  lemma AuxFarIsEnd(g: Server, e: CallEdge, seed: string, r: Relation)
    requires IsAuxEdge(g, e, seed, r)
    ensures AuxFar(e, r) == "" || AuxFar(e, r) in AuxEnds(g, r, seed)
  {}

  lemma MoreStarts(g: Server, starts: set<string>, seed: string, x: Node)
    requires SoundNode(g, starts, x)
    ensures SoundNode(g, starts + {seed}, x)
  {}

  lemma SeedIsSound(g: Server, starts: set<string>, a: Nodes, b: Nodes, seed: string)
    requires Sound(g, starts, a) && (b == a || (seed != "" && b == a[seed := Node(seed, "", Seed, 0)]))
    ensures Sound(g, starts + {seed}, b)
  {
    forall n | n in b ensures n != "" && b[n].name == n && SoundNode(g, starts + {seed}, b[n]) {
      if n in a && b[n] == a[n] { MoreStarts(g, starts, seed, a[n]); }
    }
  }

  lemma SameSizeSubset(xs: set<string>, ys: set<string>)
    requires xs <= ys && |xs| == |ys|
    ensures xs == ys
  {
    assert |ys| == |xs| + |ys - xs| by { assert ys == xs + (ys - xs); }
  }

  lemma NothingNew(a: Nodes, b: Nodes)
    requires Kept(a, b) && |b| <= |a|
    ensures a.Keys == b.Keys
  {
    KeptSize(a, b);
    assert |a| == |a.Keys| && |b| == |b.Keys|;
    SameSizeSubset(a.Keys, b.Keys);
  }

  lemma OnlySeedIsNew(a: Nodes, b: Nodes, c: Nodes, seed: string)
    requires Kept(b, c) && b.Keys <= a.Keys + {seed}
    ensures |c| <= |b| ==> c.Keys <= a.Keys + {seed}
  {
    if |c| <= |b| { NothingNew(b, c); }
  }

  /** The name is a node, and recorded as a seed. */
  predicate StandsAsSeed(nodes: Nodes, name: string) {
    name in nodes && nodes[name].role == Seed && nodes[name].depth == 0
  }

  /** The snapshot holds nothing but the start. */
  ghost predicate IsAlone(nodes: Nodes, start: string) {
    nodes == map[start := Node(start, "", Seed, 0)]
  }

  lemma PlantingIsSound(g: Server, starts: set<string>, asked: set<string>, a: Nodes, b: Nodes,
                        edges: Edges, seed: string, added: bool)
    requires WellFormed(g, asked, a, edges) && Sound(g, starts, a) && seed != ""
    requires added <==> seed !in a && |a| < MAX_NODES
    requires b == if added then a[seed := Node(seed, "", Seed, 0)] else a
    ensures WellFormed(g, asked + {seed}, b, edges) && Sound(g, starts + {seed}, b) && Kept(a, b) && |a| <= |b|
    ensures (seed in b || |b| >= MAX_NODES) && (a == map[] ==> IsAlone(b, seed))
    ensures StandsAsSeed(b, seed) <==> (seed !in a && |a| < MAX_NODES) || StandsAsSeed(a, seed)
  {
    SeedIsSound(g, starts, a, b, seed);
    FormOfMoreNodes(g, asked, a, b, edges);
    MoreAsked(g, asked, seed, b, edges);
  }

  lemma FullStays(a: Nodes, b: Nodes)
    requires Kept(a, b) && |a| >= MAX_NODES >= |b|
    ensures b.Keys == a.Keys
  {
    KeptSize(a, b);
    assert |a| == |a.Keys| && |b| == |b.Keys|;
    SameSizeSubset(a.Keys, b.Keys);
  }

  lemma StillStands(a: Nodes, b: Nodes, name: string)
    requires Kept(a, b) && |b| <= MAX_NODES && (name in a || |a| >= MAX_NODES)
    ensures StandsAsSeed(b, name) <==> StandsAsSeed(a, name)
  {
    if name !in a { FullStays(a, b); }
  }

  lemma WalkedNodeIsSound(g: Server, starts: set<string>, start: string, dir: Direction, k: nat, x: Node)
    requires start in starts && 1 <= k <= MAX_DEPTH && x.name in Exactly(g, dir, start, k)
    requires x.role == RoleOf(dir) && x.depth == Signed(dir, k)
    ensures SoundNode(g, starts, x)
  {}

  /** Names of level k are reached by walks of exactly k steps. */
  lemma {:induction false} ChainedIsExact(g: Server, dir: Direction, start: string, levels: seq<set<string>>, k: nat)
    requires Chained(g, dir, start, levels) && k < |levels|
    ensures levels[k] <= Exactly(g, dir, start, k)
  {
    if k > 0 {
      ChainedIsExact(g, dir, start, levels, k - 1);
      assert OneOut(g, dir, levels, k);
      OutIsMonotone(g, dir, levels[k - 1], Exactly(g, dir, start, k - 1));
    }
  }

  lemma WalkIsSound(g: Server, starts: set<string>, start: string, a: Nodes, b: Nodes,
                    dir: Direction, levels: seq<set<string>>)
    requires Sound(g, starts, a) && start in starts && WalkedBy(a, b, dir, levels)
    requires Chained(g, dir, start, levels) && |levels| <= MAX_DEPTH + 1
    ensures Sound(g, starts, b)
  {
    forall n | n in b ensures n != "" && b[n].name == n && SoundNode(g, starts, b[n]) {
      if n in a {
        assert b[n] == a[n];
      } else {
        var k: nat :| 1 <= k < |levels| && n in levels[k] && b[n].depth == Signed(dir, k);
        ChainedIsExact(g, dir, start, levels, k);
        WalkedNodeIsSound(g, starts, start, dir, k, b[n]);
      }
    }
  }

  lemma StructuralIsSound(g: Server, starts: set<string>, seed: string, n: string, x: Node)
    requires StructuralNode(g, seed, n, x) && seed in starts
    ensures SoundNode(g, starts, x)
  {
    var r :| r != Call && r != Wire && x.role == AuxRole(r) && n in AuxEnds(g, r, seed);
    assert IsBeside(g, starts, x, r);
  }

  lemma AuxIsSound(g: Server, starts: set<string>, seed: string, a: Nodes, b: Nodes)
    requires Sound(g, starts, a) && Kept(a, b) && seed in starts
    requires NewAreBeside(g, seed, a, b)
    ensures Sound(g, starts, b)
  {
    forall n | n in b ensures n != "" && b[n].name == n && SoundNode(g, starts, b[n]) {
      if n in a { assert b[n] == a[n]; } else { StructuralIsSound(g, starts, seed, n, b[n]); }
    }
  }

  /** The shortest walk from start to name has exactly d steps. */
  predicate AtDistance(g: Server, dir: Direction, start: string, name: string, d: nat) {
    name in Layer(g, dir, start, d)
  }

  ghost predicate CoveredAt(g: Server, start: string, nodes: Nodes, n: string) {
    n in nodes && nodes[n].depth >= 0 && AtDistance(g, Down, start, n, nodes[n].depth)
      && (nodes[n].role == Callee || nodes[n].role == Seed)
  }

  /** Every name within MAX_DEPTH steps down from start is a node, at its shortest distance. */
  ghost predicate Covers(g: Server, start: string, nodes: Nodes) {
    forall n | n in Within(g, Down, start, MAX_DEPTH) :: CoveredAt(g, start, nodes, n)
  }

  /** The start's surroundings downstream are all there: every name at its distance, and every edge
      out of a name that is not at the last level. */
  ghost predicate Mapped(g: Server, start: string, nodes: Nodes, edges: Edges) {
    Covers(g, start, nodes) && AllDrawn(g, Down, edges, Within(g, Down, start, MAX_DEPTH - 1))
  }

  lemma CoversStays(g: Server, start: string, a: Nodes, b: Nodes)
    requires Covers(g, start, a) && Kept(a, b)
    ensures Covers(g, start, b)
  {
    forall n | n in Within(g, Down, start, MAX_DEPTH) ensures CoveredAt(g, start, b, n) {
      assert CoveredAt(g, start, a, n);
    }
  }

  lemma MappedStays(g: Server, start: string, n0: Nodes, n1: Nodes, e0: Edges, e1: Edges)
    requires Mapped(g, start, n0, e0) && Kept(n0, n1) && Kept(e0, e1)
    ensures Mapped(g, start, n1, e1)
  {
    CoversStays(g, start, n0, n1);
    DrawnStays(g, Down, e0, e1, Within(g, Down, start, MAX_DEPTH - 1));
  }

  lemma NewOnly(w: set<string>, o: set<string>)
    ensures (w + o) - w == o - w && w + (o - w) == w + o
  {}

  /** Breadth-first levels are the layers of the graph. */
  lemma {:induction false} BreadthfirstIsLayers(g: Server, dir: Direction, start: string, levels: seq<set<string>>, k: nat)
    requires Chained(g, dir, start, levels) && Breadthfirst(g, dir, levels) && k < |levels|
    ensures levels[k] == Layer(g, dir, start, k)
    ensures Union(levels[..k + 1]) == Within(g, dir, start, k)
  {
    UnionGrows(levels[..k], levels[k]);
    assert levels[..k + 1] == levels[..k] + [levels[k]];
    if k > 0 {
      BreadthfirstIsLayers(g, dir, start, levels, k - 1);
      assert AllNew(g, dir, levels, k);
      NextLevelFromLayer(g, dir, start, k - 1);
      NewOnly(Within(g, dir, start, k - 1), Out(g, dir, levels[k - 1]));
    } else {
      assert levels[..0] == [];
    }
  }

  lemma AllButLastLevel(g: Server, start: string, levels: seq<set<string>>)
    requires Chained(g, Down, start, levels) && Breadthfirst(g, Down, levels) && 1 < |levels| <= MAX_DEPTH + 1
    requires levels[|levels| - 1] == {} || |levels| == MAX_DEPTH + 1
    ensures Union(levels[..|levels| - 1]) == Within(g, Down, start, MAX_DEPTH - 1)
  {
    var k := |levels| - 1;
    BreadthfirstIsLayers(g, Down, start, levels, k - 1);
    if k < MAX_DEPTH {
      BreadthfirstIsLayers(g, Down, start, levels, k);
      WithinGrows(g, Down, start, k - 1, k);
      EmptyLayerIsTheEnd(g, Down, start, k, MAX_DEPTH - 1);
    }
  }

  /** The levels but the last are all names at most MAX_DEPTH - 1 steps out. */
  lemma WalkDraws(g: Server, start: string, edges: Edges, levels: seq<set<string>>)
    requires Chained(g, Down, start, levels) && Breadthfirst(g, Down, levels) && 1 < |levels| <= MAX_DEPTH + 1
    requires levels[|levels| - 1] == {} || |levels| == MAX_DEPTH + 1
    requires AllDrawn(g, Down, edges, Union(levels[..|levels| - 1]))
    ensures AllDrawn(g, Down, edges, Within(g, Down, start, MAX_DEPTH - 1))
  {
    AllButLastLevel(g, start, levels);
  }

  lemma KeptThrice<T>(a: map<string, T>, b: map<string, T>, c: map<string, T>, d: map<string, T>)
    requires Kept(a, b) && Kept(b, c) && Kept(c, d)
    ensures Kept(a, c) && Kept(a, d) && Kept(b, d)
  {}

  lemma WalkCovers(g: Server, start: string, a: Nodes, b: Nodes, levels: seq<set<string>>)
    requires IsAlone(a, start) && WalkedBy(a, b, Down, levels) && Chained(g, Down, start, levels)
    requires |levels| <= MAX_DEPTH + 1 && Complete(g, Down, levels, b, levels[|levels| - 1])
    requires levels[|levels| - 1] == {} || |levels| == MAX_DEPTH + 1
    ensures Covers(g, start, b)
  {
    var last := |levels| - 1;
    assert levels[..|levels|] == levels;
    BreadthfirstIsLayers(g, Down, start, levels, last);
    if last < MAX_DEPTH { EmptyLayerIsTheEnd(g, Down, start, last, MAX_DEPTH); }
    forall n | n in Within(g, Down, start, MAX_DEPTH) ensures CoveredAt(g, start, b, n) {
      assert n in b;
      if n in a {
        assert b[n] == a[n] == Node(start, "", Seed, 0) && n == start;
      } else {
        var k: nat :| 1 <= k < |levels| && n in levels[k] && b[n].depth == Signed(Down, k);
        BreadthfirstIsLayers(g, Down, start, levels, k);
      }
    }
  }

  lemma ChainGrows(g: Server, dir: Direction, start: string, levels: seq<set<string>>, frontier: set<string>, found: set<string>)
    requires Chained(g, dir, start, levels)
    requires frontier <= levels[|levels| - 1] && found <= Out(g, dir, frontier)
    ensures Chained(g, dir, start, levels + [found])
  {
    OutIsMonotone(g, dir, frontier, levels[|levels| - 1]);
    var longer := levels + [found];
    forall k | 1 <= k < |longer| ensures OneOut(g, dir, longer, k) {
      if k < |levels| { assert OneOut(g, dir, levels, k); }
    }
  }

  lemma WalkedFurther(a: Nodes, b: Nodes, c: Nodes, dir: Direction,
                      levels: seq<set<string>>, found: set<string>)
    requires WalkedBy(a, b, dir, levels) && |levels| > 0
    requires Walked(b, c, dir, |levels|, found)
    ensures WalkedBy(a, c, dir, levels + [found])
  {
    forall n | n in c && n !in a
      ensures n != "" && c[n].name == n && c[n].role == RoleOf(dir)
      ensures exists k: nat :: 1 <= k < |levels + [found]| && n in (levels + [found])[k] && c[n].depth == Signed(dir, k)
    {
      if n in b {
        assert c[n] == b[n];
        var k: nat :| 1 <= k < |levels| && n in levels[k] && b[n].depth == Signed(dir, k);
        assert (levels + [found])[k] == levels[k];
      } else {
        assert n in (levels + [found])[|levels|];
      }
    }
  }

  lemma KeptOn<T>(a: map<string, T>, b: map<string, T>, c: map<string, T>)
    requires Kept(a, b) && Kept(b, c)
    ensures Kept(a, c)
  {}

  lemma LevelFound(g: Server, a: Nodes, b: Nodes, dir: Direction, d: nat, frontier: seq<string>, found: set<string>)
    requires Walked(a, b, dir, d, Out(g, dir, Names(frontier))) && found == b.Keys - a.Keys
    ensures Walked(a, b, dir, d, found) && found <= Out(g, dir, Names(frontier))
    ensures Out(g, dir, Names(frontier)) <= b.Keys ==> found == Out(g, dir, Names(frontier)) - a.Keys
  {}

  lemma NamesOfBoth(xs: seq<string>, ys: seq<string>)
    ensures Names(xs + ys) == Names(xs) + Names(ys)
  {}

  lemma WalkedThen(a: Nodes, b: Nodes, c: Nodes, dir: Direction, d: nat,
                   xs: set<string>, ys: set<string>)
    requires Walked(a, b, dir, d, xs) && Walked(b, c, dir, d, ys)
    ensures Walked(a, c, dir, d, xs + ys)
  {
    forall n | n in c && n !in a
      ensures n in xs + ys && n != "" && c[n].name == n && c[n].role == RoleOf(dir) && c[n].depth == Signed(dir, d)
    {
      if n in b { assert c[n] == b[n]; }
    }
  }

  lemma NothingWalked(nodes: Nodes, dir: Direction, d: nat)
    requires |nodes| <= MAX_NODES
    ensures Walked(nodes, nodes, dir, d, {}) && Names([]) == nodes.Keys - nodes.Keys
  {}

  lemma WalkedToMore(a: Nodes, b: Nodes, dir: Direction, d: nat, xs: set<string>, ys: set<string>)
    requires Walked(a, b, dir, d, xs) && xs <= ys
    ensures Walked(a, b, dir, d, ys)
  {}

  /** Both answers about a name together. */
  lemma VisitGrows(g: Server, a: Nodes, b: Nodes, c: Nodes, dir: Direction, d: nat, name: string,
                   found: seq<string>, more: seq<string>)
    requires Walked(a, b, dir, d, AnswerEnds(Calls(g, dir, name), dir)) && Walked(b, c, dir, d, AnswerEnds(Wires(g, dir, name), dir))
    requires Names(found) == b.Keys - a.Keys && Names(more) == c.Keys - b.Keys
    ensures Walked(a, c, dir, d, Neighbours(g, dir, name)) && |b| <= |c|
    ensures Names(found + more) == c.Keys - a.Keys
    ensures AnswerEnds(Calls(g, dir, name), dir) <= b.Keys && AnswerEnds(Wires(g, dir, name), dir) <= c.Keys
      ==> Neighbours(g, dir, name) <= c.Keys
  {
    WalkedThen(a, b, c, dir, d, AnswerEnds(Calls(g, dir, name), dir), AnswerEnds(Wires(g, dir, name), dir));
    KeptSize(b, c);
    NamesOfBoth(found, more);
  }

  lemma VisitDraws(g: Server, dir: Direction, a: Edges, b: Edges, name: string)
    requires Uncut(Calls(g, dir, name)) && Drawn(a, Calls(g, dir, name), Call) && Kept(a, b)
    requires Drawn(b, Wires(g, dir, name), Wire)
    ensures CallsDrawn(g, dir, b, name)
  {}

  lemma NeighboursAreOut(g: Server, dir: Direction, frontier: seq<string>, i: nat)
    requires i < |frontier|
    ensures Neighbours(g, dir, frontier[i]) <= Out(g, dir, Names(frontier))
    ensures Out(g, dir, Names(frontier)) + Neighbours(g, dir, frontier[i]) == Out(g, dir, Names(frontier))
    ensures Out(g, dir, Names(frontier[..i + 1])) == Out(g, dir, Names(frontier[..i])) + Neighbours(g, dir, frontier[i])
  {
    assert frontier[..i + 1] == frontier[..i] + [frontier[i]];
    assert frontier[i] in Names(frontier);
  }

  /** What one more visited name adds to a level. */
  lemma LevelGrows(g: Server, dir: Direction, d: nat, frontier: seq<string>, i: nat,
                   a: Nodes, b: Nodes, c: Nodes, next: seq<string>, found: seq<string>)
    requires i < |frontier|
    requires Walked(a, b, dir, d, Out(g, dir, Names(frontier))) && Walked(b, c, dir, d, Neighbours(g, dir, frontier[i]))
    requires Names(next) == b.Keys - a.Keys && Names(found) == c.Keys - b.Keys
    ensures Walked(a, c, dir, d, Out(g, dir, Names(frontier))) && |b| <= |c|
    ensures Names(next + found) == c.Keys - a.Keys
    ensures Out(g, dir, Names(frontier[..i])) <= b.Keys && Neighbours(g, dir, frontier[i]) <= c.Keys
      ==> Out(g, dir, Names(frontier[..i + 1])) <= c.Keys
  {
    NeighboursAreOut(g, dir, frontier, i);
    WalkedThen(a, b, c, dir, d, Out(g, dir, Names(frontier)), Neighbours(g, dir, frontier[i]));
    KeptSize(b, c);
    KeptSize(a, b);
    NamesOfBoth(next, found);
  }

  lemma DrawnOfBoth(g: Server, dir: Direction, edges: Edges, xs: set<string>, ys: set<string>)
    requires AllDrawn(g, dir, edges, xs) && AllDrawn(g, dir, edges, ys)
    ensures AllDrawn(g, dir, edges, xs + ys)
  {}

  lemma DrawnLevelsGrow(g: Server, dir: Direction, levels: seq<set<string>>, e1: Edges, e2: Edges)
    requires |levels| > 0 && Kept(e1, e2) && AllDrawn(g, dir, e2, levels[|levels| - 1])
    requires |levels| > 1 ==> AllDrawn(g, dir, e1, Union(levels[..|levels| - 1]))
    ensures AllDrawn(g, dir, e2, Union(levels))
  {
    var last := |levels| - 1;
    if last > 0 {
      DrawnStays(g, dir, e1, e2, Union(levels[..last]));
      DrawnOfBoth(g, dir, e2, Union(levels[..last]), levels[last]);
    } else {
      assert levels[..0] == [];
    }
  }

  /** A round draws the frontier it started from, and keeps what was drawn before. */
  lemma ShowsMore(g: Server, dir: Direction, start: string, levels: seq<set<string>>, found: set<string>, frontier: seq<string>,
                  n0: Nodes, n1: Nodes, n2: Nodes, e1: Edges, e2: Edges)
    requires |levels| > 0 && Kept(n1, n2) && Kept(e1, e2)
    requires AllDrawn(g, dir, e2, Names(frontier)) && Out(g, dir, Names(frontier)) <= n2.Keys
    requires if |levels| == 1 then frontier == [start] && levels[0] == {start}
             else Neighbours(g, dir, start) <= n1.Keys && CallsDrawn(g, dir, e1, start)
    requires n0.Keys == {start} ==> Names(frontier) == levels[|levels| - 1]
    requires n0.Keys == {start} && |levels| > 1 ==> AllDrawn(g, dir, e1, Union(levels[..|levels| - 1]))
    ensures Neighbours(g, dir, start) <= n2.Keys && CallsDrawn(g, dir, e2, start)
    ensures n0.Keys == {start} ==> AllDrawn(g, dir, e2, Union((levels + [found])[..|levels|]))
  {
    if |levels| == 1 {
      NeighboursAreOut(g, dir, frontier, 0);
      assert start in Names(frontier);
    } else {
      CallsStayDrawn(g, dir, e1, e2, start);
    }
    if n0.Keys == {start} {
      DrawnLevelsGrow(g, dir, levels, e1, e2);
      assert (levels + [found])[..|levels|] == levels;
    }
  }

  lemma MoreDrawn(g: Server, dir: Direction, a: Edges, b: Edges, frontier: seq<string>, i: nat)
    requires i < |frontier| && Kept(a, b)
    requires AllDrawn(g, dir, a, Names(frontier[..i])) && CallsDrawn(g, dir, b, frontier[i])
    ensures AllDrawn(g, dir, b, Names(frontier[..i + 1]))
  {
    DrawnStays(g, dir, a, b, Names(frontier[..i]));
    assert frontier[..i + 1] == frontier[..i] + [frontier[i]];
  }

  /** A walk passed this name: its neighbours are nodes, and its answers are drawn. */
  ghost predicate Explored(g: Server, dir: Direction, nodes: Nodes, edges: Edges, n: string) {
    Neighbours(g, dir, n) <= nodes.Keys && CallsDrawn(g, dir, edges, n)
  }

  /** No walk stops short: it passed every callee less than five steps down, and every caller less than
      five steps up. */
  ghost predicate FollowedAt(g: Server, nodes: Nodes, edges: Edges, n: string)
    requires n in nodes
  {
    && (nodes[n].role == Callee && nodes[n].depth < 5 ==> Explored(g, Down, nodes, edges, n))
    && (nodes[n].role == Caller && nodes[n].depth > -5 ==> Explored(g, Up, nodes, edges, n))
  }

  ghost predicate Followed(g: Server, nodes: Nodes, edges: Edges, but: set<string>) {
    forall n | n in nodes && n !in but :: FollowedAt(g, nodes, edges, n)
  }

  /** The names a walk found last are one level out. */
  ghost predicate Awaiting(nodes: Nodes, dir: Direction, d: nat, names: set<string>) {
    forall n | n in names :: n in nodes && nodes[n].role == RoleOf(dir) && nodes[n].depth == Signed(dir, d)
  }

  /** What a walk at level d has yet to pass: its frontier, after the first level. */
  function Pending(d: nat, frontier: seq<string>): set<string> { if d == 1 then {} else Names(frontier) }

  lemma FollowedAtStays(g: Server, n0: Nodes, n1: Nodes, e0: Edges, e1: Edges, n: string)
    requires Kept(n0, n1) && Kept(e0, e1) && n in n0 && FollowedAt(g, n0, e0, n)
    ensures FollowedAt(g, n1, e1, n)
  {}

  /** New nodes that are neither callees nor callers ask for nothing. */
  lemma FollowedStays(g: Server, n0: Nodes, n1: Nodes, e0: Edges, e1: Edges)
    requires Kept(n0, n1) && Kept(e0, e1) && Followed(g, n0, e0, {})
    requires forall n | n in n1 && n !in n0 :: n1[n].role != Callee && n1[n].role != Caller
    ensures Followed(g, n1, e1, {})
  {
    forall n | n in n1 ensures FollowedAt(g, n1, e1, n) {
      if n in n0 { FollowedAtStays(g, n0, n1, e0, e1, n); }
    }
  }

  lemma PassedName(g: Server, nodes: Nodes, edges: Edges, dir: Direction, frontier: seq<string>, n: string)
    requires n in nodes && nodes[n].role == RoleOf(dir) && n in Names(frontier)
    requires AllDrawn(g, dir, edges, Names(frontier)) && Out(g, dir, Names(frontier)) <= nodes.Keys
    ensures FollowedAt(g, nodes, edges, n)
  {
    var i :| 0 <= i < |frontier| && frontier[i] == n;
    NeighboursAreOut(g, dir, frontier, i);
  }

  /** An uncut level passes its frontier, and leaves only what it found. */
  lemma FollowedOn(g: Server, n0: Nodes, n1: Nodes, e0: Edges, e1: Edges,
                   dir: Direction, d: nat, but: set<string>, frontier: seq<string>, found: set<string>)
    requires Walked(n0, n1, dir, d, found) && found == n1.Keys - n0.Keys && Kept(e0, e1)
    requires AllDrawn(g, dir, e1, Names(frontier)) && Out(g, dir, Names(frontier)) <= n1.Keys
    requires Followed(g, n0, e0, but) && but <= Names(frontier)
    requires forall n | n in but :: n in n0 && n0[n].role == RoleOf(dir)
    ensures Followed(g, n1, e1, found) && Awaiting(n1, dir, d, found)
  {
    forall n | n in n1 && n !in found ensures FollowedAt(g, n1, e1, n) {
      if n in but { PassedName(g, n1, e1, dir, frontier, n); } else { FollowedAtStays(g, n0, n1, e0, e1, n); }
    }
  }

  lemma FollowedFurther(g: Server, n0: Nodes, n1: Nodes, e0: Edges, e1: Edges,
                        dir: Direction, d: nat, frontier: seq<string>, next: seq<string>)
    requires d > 0 && Walked(n0, n1, dir, d, Names(next)) && Names(next) == n1.Keys - n0.Keys && Kept(e0, e1)
    requires AllDrawn(g, dir, e1, Names(frontier)) && Out(g, dir, Names(frontier)) <= n1.Keys
    requires Followed(g, n0, e0, Pending(d, frontier)) && Awaiting(n0, dir, d - 1, Pending(d, frontier))
    ensures Followed(g, n1, e1, Pending(d + 1, next)) && Awaiting(n1, dir, d, Pending(d + 1, next))
  {
    FollowedOn(g, n0, n1, e0, e1, dir, d, Pending(d, frontier), frontier, Names(next));
  }

  /** A reason for the mark: more nodes than a frontier may hold, no room for an edge, or a node whose
      calls the server may have cut. */
  ghost predicate Due(g: Server, nodes: Nodes, edges: Edges) {
    || |nodes| > MAX_FRONTIER || |edges| >= MAX_EDGES
    || exists dir, n | n in nodes :: !Uncut(Calls(g, dir, n))
  }

  lemma ManyAreDue(g: Server, nodes: Nodes, edges: Edges)
    ensures |nodes| > MAX_FRONTIER ==> Due(g, nodes, edges)
  {}

  lemma DueStays(g: Server, n0: Nodes, n1: Nodes, e0: Edges, e1: Edges)
    requires Kept(n0, n1) && Kept(e0, e1) && Due(g, n0, e0)
    ensures Due(g, n1, e1)
  {
    KeptSize(n0, n1);
    KeptSize(e0, e1);
  }

  lemma StillDue(g: Server, a: Nodes, b: Nodes, edges: Edges)
    requires Kept(a, b) && (Due(g, a, edges) || |a| >= MAX_NODES)
    ensures Due(g, b, edges)
  {
    KeptSize(a, b);
    DueStays(g, a, b, edges, edges);
  }

  lemma PlantingAsksNothing(g: Server, a: Nodes, b: Nodes, edges: Edges, seed: string)
    requires b == a || (seed !in a && b == a[seed := Node(seed, "", Seed, 0)])
    ensures Followed(g, a, edges, {}) ==> Followed(g, b, edges, {})
    ensures Due(g, a, edges) || |a| >= MAX_NODES ==> Due(g, b, edges)
  {
    if Followed(g, a, edges, {}) { FollowedStays(g, a, b, edges, edges); }
    if Due(g, a, edges) || |a| >= MAX_NODES { StillDue(g, a, b, edges); }
  }

  lemma AuxAsksNothing(g: Server, seed: string, n0: Nodes, n1: Nodes, e0: Edges, e1: Edges)
    requires Kept(n0, n1) && Kept(e0, e1) && NewAreBeside(g, seed, n0, n1) && Followed(g, n0, e0, {})
    ensures Followed(g, n1, e1, {})
  {
    forall n | n in n1 && n !in n0 ensures n1[n].role != Callee && n1[n].role != Caller {
      assert StructuralNode(g, seed, n, n1[n]);
    }
    FollowedStays(g, n0, n1, e0, e1);
  }

  /** A walk that ran out of names, or reached the last level, leaves nothing. */
  lemma FollowedToTheEnd(g: Server, nodes: Nodes, edges: Edges, dir: Direction, d: nat, last: set<string>)
    requires Followed(g, nodes, edges, last) && Awaiting(nodes, dir, d, last) && (last == {} || d == 5)
    ensures Followed(g, nodes, edges, {})
  {
    forall n | n in nodes ensures FollowedAt(g, nodes, edges, n) {}
  }

  ghost predicate AllHeld(nodes: Nodes, edges: Edges, answer: seq<CallEdge>, dir: Direction, r: Relation) {
    FarEnds(answer, dir) <= nodes.Keys && Drawn(edges, Some(answer), r)
  }

  /** Something of the answer is missing, and will be for good. */
  ghost predicate IsMissing(nodes: Nodes, edges: Edges, answer: seq<CallEdge>, dir: Direction, r: Relation) {
    || (|nodes| >= MAX_NODES && !(FarEnds(answer, dir) <= nodes.Keys))
    || (|edges| >= MAX_EDGES && !Drawn(edges, Some(answer), r))
  }

  /** The truncation mark was set before, or tells that something is missing. */
  ghost predicate MarkTells(before: bool, mark: bool, nodes: Nodes, edges: Edges, answer: seq<CallEdge>, dir: Direction, r: Relation) {
    if mark then before || IsMissing(nodes, edges, answer, dir, r) else !before && AllHeld(nodes, edges, answer, dir, r)
  }

  /** After an answer the mark has its reason, whether it was set before or tells what is missing. */
  lemma MarkIsDue(g: Server, n0: Nodes, n1: Nodes, e0: Edges, e1: Edges, before: bool, mark: bool,
                  answer: seq<CallEdge>, dir: Direction, r: Relation)
    requires Kept(n0, n1) && Kept(e0, e1) && (before ==> Due(g, n0, e0))
    requires MarkTells(before, mark, n1, e1, answer, dir, r)
    ensures mark ==> Due(g, n1, e1)
  {
    if before { DueStays(g, n0, n1, e0, e1); }
  }

  /** The call answer about a name leaves no room, so that its wire answer is not asked for. */
  predicate FillsUp(g: Server, nodes: Nodes, dir: Direction, name: string) {
    Calls(g, dir, name).Some? && |nodes.Keys + AnswerEnds(Calls(g, dir, name), dir)| >= MAX_NODES
  }

  /** There is no room before, and the server answers: one lookup ends the walk. */
  predicate AsksInVain(g: Server, nodes: Nodes, dir: Direction, name: string) {
    Calls(g, dir, name).Some? && |nodes| >= MAX_NODES
  }

  lemma FullFillsUp(g: Server, nodes: Nodes, dir: Direction, name: string)
    ensures AsksInVain(g, nodes, dir, name) ==> FillsUp(g, nodes, dir, name)
  {
    SubsetSize(nodes.Keys, nodes.Keys + AnswerEnds(Calls(g, dir, name), dir));
    assert |nodes| == |nodes.Keys|;
  }

  lemma FilledExactly(g: Server, n0: Nodes, n1: Nodes, dir: Direction, name: string, d: nat)
    requires var ends := AnswerEnds(Calls(g, dir, name), dir);
      Walked(n0, n1, dir, d, ends) && (|n1| < MAX_NODES ==> ends <= n1.Keys)
    ensures FillsUp(g, n0, dir, name) <==> Calls(g, dir, name).Some? && |n1| >= MAX_NODES
  {
    var all := n0.Keys + AnswerEnds(Calls(g, dir, name), dir);
    assert n1.Keys <= all;
    SubsetSize(n1.Keys, all);
    assert |n1| == |n1.Keys|;
    if |n1| < MAX_NODES { assert all == n1.Keys; }
  }

  lemma AuxGrows(n0: Nodes, n1: Nodes, n2: Nodes,
                 e0: Edges, e1: Edges, e2: Edges,
                 answer: seq<CallEdge>, i: nat, seed: string, r: Relation, targets: set<string>)
    requires i < |answer| && Kept(e0, e1) && Kept(e1, e2)
    requires Attached(n0, n1, AuxRole(r), targets) && Attached(n1, n2, AuxRole(r), targets)
    ensures Attached(n0, n2, AuxRole(r), targets) && Kept(e0, e2) && |n1| <= |n2|
    ensures AuxTaken(n1, e1, Some(answer[..i]), seed, r) && AuxTakenAt(n2, e2, answer[i], seed, r)
      ==> AuxTaken(n2, e2, Some(answer[..i + 1]), seed, r)
  {
    AttachedOn(n0, n1, n2, AuxRole(r), targets);
    KeptOn(e0, e1, e2);
    KeptSize(n1, n2);
    assert answer[..i + 1] == answer[..i] + [answer[i]];
    if AuxTaken(n1, e1, Some(answer[..i]), seed, r) { AuxStaysTaken(n1, n2, e1, e2, Some(answer[..i]), seed, r); }
  }

  lemma WithEdgeLinks(edges: Edges, e: CallEdge, r: Relation)
    requires |edges| <= MAX_EDGES
    ensures Linked(edges, WithEdge(edges, Edge(e.from, e.to, Label(r))), [e], r)
  {
    assert e in [e];
  }

  lemma OneMore(a: Nodes, b: Nodes, c: Nodes, added: bool, name: string)
    requires Kept(a, b) && Kept(b, c) && c.Keys == (if added then b.Keys + {name} else b.Keys) && (added ==> name !in b)
    ensures c.Keys - a.Keys == (b.Keys - a.Keys) + if added then {name} else {}
  {}

  /** Of an answered edge the recorded end is a node, unless blank, and the edge is there. */
  ghost predicate IsHeld(nodes: Nodes, edges: Edges, e: CallEdge, dir: Direction, r: Relation) {
    (Far(e, dir) == "" || Far(e, dir) in nodes) && IsDrawn(edges, e.from, e.to, Label(r))
  }

  /** A full snapshot takes nothing more, and only a full one refuses. */
  ghost predicate Refuses(n1: Nodes, e1: Edges, n2: Nodes, e2: Edges, e: CallEdge, dir: Direction, r: Relation) {
    && (|n1| >= MAX_NODES ==> n2 == n1) && (|e1| >= MAX_EDGES ==> e2 == e1)
    && (Far(e, dir) == "" || Far(e, dir) in n2 || |n2| >= MAX_NODES)
    && (IsDrawn(e2, e.from, e.to, Label(r)) || |e2| >= MAX_EDGES)
  }

  lemma StillMissing(edges: Edges, answer: seq<CallEdge>, i: nat, r: Relation)
    requires i < |answer|
    ensures Drawn(edges, Some(answer[..i + 1]), r) ==> Drawn(edges, Some(answer[..i]), r)
  {
    assert answer[..i + 1] == answer[..i] + [answer[i]];
  }

  lemma DrawnGrows(a: Edges, b: Edges, answer: seq<CallEdge>, i: nat, r: Relation)
    requires i < |answer| && Kept(a, b)
    requires Drawn(a, Some(answer[..i]), r) && IsDrawn(b, answer[i].from, answer[i].to, Label(r))
    ensures Drawn(b, Some(answer[..i + 1]), r)
  {
    assert answer[..i + 1] == answer[..i] + [answer[i]];
  }

  lemma FarEndsGrow(answer: seq<CallEdge>, i: nat, dir: Direction)
    requires i < |answer|
    ensures FarEnds(answer[..i + 1], dir)
      == FarEnds(answer[..i], dir) + if Far(answer[i], dir) == "" then {} else {Far(answer[i], dir)}
  {
    assert answer[..i + 1] == answer[..i] + [answer[i]];
  }

  lemma MarkGoesOn(before: bool, cut1: bool, cut2: bool, n1: Nodes, n2: Nodes, e1: Edges, e2: Edges,
                   answer: seq<CallEdge>, i: nat, dir: Direction, r: Relation)
    requires i < |answer| && Kept(n1, n2) && Kept(e1, e2) && Refuses(n1, e1, n2, e2, answer[i], dir, r)
    requires cut2 <==> cut1 || !IsHeld(n2, e2, answer[i], dir, r)
    requires MarkTells(before, cut1, n1, e1, answer[..i], dir, r)
    ensures MarkTells(before, cut2, n2, e2, answer[..i + 1], dir, r)
  {
    FarEndsGrow(answer, i, dir);
    if !cut2 {
      DrawnGrows(e1, e2, answer, i, r);
    } else if !before && cut1 {
      StillMissing(e2, answer, i, r);
    } else if !before && !IsDrawn(e2, answer[i].from, answer[i].to, Label(r)) {
      assert answer[i] in answer[..i + 1];
    }
  }

  lemma NamesOf(xs: seq<string>, x: string)
    ensures Names(xs + [x]) == Names(xs) + {x}
  {}

  lemma WalkedOn(a: Nodes, b: Nodes, c: Nodes, dir: Direction, d: nat,
                 targets: set<string>, far: string, answer: seq<CallEdge>, i: nat)
    requires Walked(a, b, dir, d, targets) && Walked(b, c, dir, d, {far})
    requires i < |answer| && far == Far(answer[i], dir) && targets == FarEnds(answer, dir)
    ensures Walked(a, c, dir, d, targets)
  {
    assert answer[i] in answer;
    forall n | n in c && n !in a
      ensures n in targets && n != "" && c[n].name == n && c[n].role == RoleOf(dir) && c[n].depth == Signed(dir, d)
    {
      if n in b { assert c[n] == b[n]; }
    }
  }

  lemma LinkedOn(a: Edges, b: Edges, c: Edges, answer: seq<CallEdge>, i: nat, r: Relation)
    requires Linked(a, b, answer, r) && i < |answer| && Linked(b, c, [answer[i]], r)
    ensures Linked(a, c, answer, r)
  {
    forall k | k in c && k !in a ensures IsLink(c[k], answer, r) {
      if k !in b {
        assert IsLink(c[k], [answer[i]], r);
        var e :| e in [answer[i]] && e.from == c[k].from && e.to == c[k].to;
        assert e in answer;
      } else {
        assert c[k] == b[k];
      }
    }
  }

  /** A server that knows one edge, and gives it to one question. */
  function OneAnswer(e: CallEdge, name: string): Option<seq<CallEdge>> { if name == "S" then Some([e]) else Some([]) }

  function Nothing(name: string): Option<seq<CallEdge>> { Some([]) }

  function OnlyCalls(e: CallEdge): Server {
    Server(name => OneAnswer(e, name), Nothing, Nothing, Nothing, Nothing, Nothing, Nothing, name => None)
  }

  lemma CalleeIsNeighbour(e: CallEdge)
    requires e.from == "S" && e.to != ""
    ensures Anchored(OnlyCalls(e)) && e.to in Neighbours(OnlyCalls(e), Down, "S")
  {
    assert e in OnlyCalls(e).callees("S").value;
  }

  class Snapshot {
    const g: Server
    var nodes: Nodes
    var edges: Edges
    var truncated: bool
    var lookups: nat
    ghost var asked: set<string>   // the starts whose surroundings were asked for

    constructor (g: Server)
      ensures this.g == g && nodes == map[] && edges == map[] && !truncated && lookups == 0 && asked == {}
    {
      this.g := g;
      nodes, edges, truncated, lookups, asked := map[], map[], false, 0, {};
    }

    method UpsertNode(name: string, file: string, role: Role, depth: int) returns (added: bool)
      modifies this`nodes, this`truncated
      ensures added <==> name != "" && name !in old(nodes) && |old(nodes)| < MAX_NODES
      ensures nodes == if added then old(nodes)[name := Node(name, file, role, depth)] else old(nodes)
      ensures truncated <==> old(truncated) || (name != "" && name !in old(nodes) && !added)
    {
      if name == "" || name in nodes {
        return false;
      }
      if |nodes| >= MAX_NODES {
        truncated := true;
        return false;
      }
      nodes := nodes[name := Node(name, file, role, depth)];
      added := true;
    }

    method AddEdge(from: string, to: string, etype: string)
      requires |edges| <= MAX_EDGES
      modifies this`edges, this`truncated
      ensures edges == WithEdge(old(edges), Edge(from, to, etype))
      ensures truncated <==> old(truncated) || !IsDrawn(edges, from, to, etype)
    {
      if from == "" || to == "" || from == to {
        return;
      }
      var key := etype + "|" + from + "|" + to;
      if key in edges {
        return;
      }
      if |edges| >= MAX_EDGES {
        truncated := true;
        return;
      }
      edges := edges[key := Edge(from, to, etype)];
    }

    /** One edge of an answer: its far end at distance d, unless known, and the edge itself. */
    method Record(e: CallEdge, dir: Direction, d: nat, r: Relation) returns (added: bool)
      requires |nodes| <= MAX_NODES && |edges| <= MAX_EDGES
      modifies this`nodes, this`edges, this`truncated
      ensures Walked(old(nodes), nodes, dir, d, {Far(e, dir)})
      ensures Linked(old(edges), edges, [e], r)
      ensures nodes.Keys == if added then old(nodes).Keys + {Far(e, dir)} else old(nodes).Keys
      ensures added ==> Far(e, dir) !in old(nodes)
      ensures added ==> nodes[Far(e, dir)].file == e.file
      ensures |nodes| == |old(nodes)| + if added then 1 else 0
      ensures edges == WithEdge(old(edges), Edge(e.from, e.to, Label(r)))
      ensures truncated <==> old(truncated) || !IsHeld(nodes, edges, e, dir, r)
      ensures |nodes| < MAX_NODES ==> Far(e, dir) == "" || Far(e, dir) in nodes
      ensures Refuses(old(nodes), old(edges), nodes, edges, e, dir, r)
    {
      added := UpsertNode(Far(e, dir), e.file, RoleOf(dir), Signed(dir, d));
      AddEdge(e.from, e.to, Label(r));
      WithEdgeLinks(old(edges), e, r);
    }

    /** Edge i of an answer whose earlier edges took the snapshot from n0 and e0 to here. */
    method RecordNext(answer: seq<CallEdge>, i: nat, dir: Direction, d: nat, r: Relation,
                      ghost n0: Nodes, ghost e0: Edges, ghost cut0: bool) returns (added: bool)
      requires i < |answer| && |nodes| <= MAX_NODES && |edges| <= MAX_EDGES
      requires MarkTells(cut0, truncated, nodes, edges, answer[..i], dir, r)
      requires Walked(n0, nodes, dir, d, FarEnds(answer, dir)) && Linked(e0, edges, answer, r)
      modifies this`nodes, this`edges, this`truncated
      ensures Walked(n0, nodes, dir, d, FarEnds(answer, dir)) && Linked(e0, edges, answer, r)
      ensures nodes.Keys - n0.Keys == (old(nodes).Keys - n0.Keys) + if added then {Far(answer[i], dir)} else {}
      ensures old(truncated) ==> truncated
      ensures |nodes| == |old(nodes)| + if added then 1 else 0
      ensures |nodes| < MAX_NODES && FarEnds(answer[..i], dir) <= old(nodes).Keys ==> FarEnds(answer[..i + 1], dir) <= nodes.Keys
      ensures MarkTells(cut0, truncated, nodes, edges, answer[..i + 1], dir, r)
    {
      ghost var cut1 := truncated;
      ghost var n1, e1 := nodes, edges;
      added := Record(answer[i], dir, d, r);
      OneMore(n0, n1, nodes, added, Far(answer[i], dir));
      WalkedOn(n0, n1, nodes, dir, d, FarEnds(answer, dir), Far(answer[i], dir), answer, i);
      LinkedOn(e0, e1, edges, answer, i, r);
      KeptSize(n1, nodes);
      FarEndsGrow(answer, i, dir);
      MarkGoesOn(cut0, cut1, truncated, n1, nodes, e1, edges, answer, i, dir, r);
    }

    /** Records one answer of the server, at distance d. */
    method Absorb(answer: seq<CallEdge>, dir: Direction, d: nat, r: Relation) returns (found: seq<string>)
      requires |nodes| <= MAX_NODES && |edges| <= MAX_EDGES
      modifies this`nodes, this`edges, this`truncated
      ensures Walked(old(nodes), nodes, dir, d, FarEnds(answer, dir))
      ensures Linked(old(edges), edges, answer, r)
      ensures Names(found) == nodes.Keys - old(nodes).Keys && |found| == |nodes| - |old(nodes)|
      ensures old(truncated) ==> truncated
      ensures |nodes| < MAX_NODES ==> FarEnds(answer, dir) <= nodes.Keys
      ensures !truncated ==> Drawn(edges, Some(answer), r)
      ensures MarkTells(old(truncated), truncated, nodes, edges, answer, dir, r)
    {
      found := [];
      for i := 0 to |answer|
        invariant Walked(old(nodes), nodes, dir, d, FarEnds(answer, dir))
        invariant Linked(old(edges), edges, answer, r)
        invariant Names(found) == nodes.Keys - old(nodes).Keys && |found| == |nodes| - |old(nodes)|
        invariant old(truncated) ==> truncated
        invariant |nodes| < MAX_NODES ==> FarEnds(answer[..i], dir) <= nodes.Keys
        invariant MarkTells(old(truncated), truncated, nodes, edges, answer[..i], dir, r)
      {
        var added := RecordNext(answer, i, dir, d, r, old(nodes), old(edges), old(truncated));
        NamesOf(found, Far(answer[i], dir));
        if added {
          found := found + [Far(answer[i], dir)];
        }
      }
      assert answer[..|answer|] == answer;
    }

    /** The snapshot as it stands is well formed, and marked for a reason only. */
    ghost predicate Snap()
      reads this`asked, this`nodes, this`edges, this`truncated
    {
      WellFormed(g, asked, nodes, edges) && (truncated ==> Due(g, nodes, edges))
    }

    /** One server answer about a frontier name. */
    method TakeAnswer(answer: seq<CallEdge>, name: string, dir: Direction, d: nat, r: Relation) returns (found: seq<string>)
      requires Snap() && (name in nodes || |nodes| >= MAX_NODES)
      requires (r == Call || r == Wire) && Some(answer) == WalkAnswer(g, r, dir, name)
      modifies this`nodes, this`edges, this`truncated
      ensures Snap()
      ensures Walked(old(nodes), nodes, dir, d, FarEnds(answer, dir))
      ensures Names(found) == nodes.Keys - old(nodes).Keys && |found| == |nodes| - |old(nodes)|
      ensures old(truncated) ==> truncated
      ensures |nodes| < MAX_NODES ==> FarEnds(answer, dir) <= nodes.Keys
      ensures Kept(old(edges), edges) && (!truncated ==> Drawn(edges, Some(answer), r))
      ensures Linked(old(edges), edges, answer, r) && MarkTells(old(truncated), truncated, nodes, edges, answer, dir, r)
    {
      ghost var n0, e0, before := nodes, edges, truncated;
      found := Absorb(answer, dir, d, r);
      KeptSize(n0, nodes);
      MarkIsDue(g, n0, nodes, e0, edges, before, truncated, answer, dir, r);
      StaysWellFormed(g, asked, n0, nodes, e0, edges, answer, name, dir, r);
    }

    /** A call answer as long as the server's limit may have been cut there. */
    method MarkIfFull(answer: seq<CallEdge>, r: Relation)
      modifies this`truncated
      ensures truncated <==> old(truncated) || (r == Call && !Uncut(Some(answer)))
    {
      if r == Call && |answer| >= ANSWER_LIMIT {
        truncated := true;
      }
    }

    /** One lookup about a frontier name; a failed request adds nothing and stops nothing. */
    method Ask(answer: Option<seq<CallEdge>>, name: string, dir: Direction, d: nat, r: Relation)
      returns (found: seq<string>, full: bool)
      requires Snap() && (name in nodes || |nodes| >= MAX_NODES)
      requires (r == Call || r == Wire) && answer == WalkAnswer(g, r, dir, name)
      modifies this`nodes, this`edges, this`truncated, this`lookups
      ensures Snap()
      ensures Walked(old(nodes), nodes, dir, d, AnswerEnds(answer, dir))
      ensures Names(found) == nodes.Keys - old(nodes).Keys && |found| == |nodes| - |old(nodes)|
      ensures old(truncated) ==> truncated
      ensures full <==> answer.Some? && |nodes| >= MAX_NODES
      ensures |nodes| < MAX_NODES ==> AnswerEnds(answer, dir) <= nodes.Keys
      ensures Kept(old(edges), edges) && (!truncated ==> Drawn(edges, answer, r))
      ensures answer.Some? ==> Linked(old(edges), edges, answer.value, r)
      ensures if answer.None? then truncated == old(truncated)
              else MarkTells(old(truncated) || (r == Call && !Uncut(answer)), truncated, nodes, edges, answer.value, dir, r)
      ensures !truncated && r == Call ==> Uncut(answer)
      ensures lookups == old(lookups) + 1
    {
      lookups := lookups + 1;
      if answer.None? {
        NothingWalked(nodes, dir, d);
        return [], false;
      }
      MarkIfFull(answer.value, r);
      found := TakeAnswer(answer.value, name, dir, d, r);
      full := |nodes| >= MAX_NODES;
    }

    /** Both lookups for one frontier name; full when the walk has to stop. */
    method Visit(name: string, dir: Direction, d: nat)
      returns (found: seq<string>, full: bool)
      requires Snap() && (name in nodes || |nodes| >= MAX_NODES)
      modifies this`nodes, this`edges, this`truncated, this`lookups
      ensures Snap()
      ensures Walked(old(nodes), nodes, dir, d, Neighbours(g, dir, name))
      ensures Names(found) == nodes.Keys - old(nodes).Keys && |found| == |nodes| - |old(nodes)|
      ensures old(truncated) ==> truncated
      ensures full ==> |nodes| >= MAX_NODES
      ensures |nodes| < MAX_NODES ==> Neighbours(g, dir, name) <= nodes.Keys
      ensures Kept(old(edges), edges) && (!truncated && |nodes| < MAX_NODES ==> CallsDrawn(g, dir, edges, name))
      ensures lookups == old(lookups) + if FillsUp(g, old(nodes), dir, name) then 1 else 2
      ensures FillsUp(g, old(nodes), dir, name) ==> full
    {
      ghost var n0 := nodes;
      found, full := Ask(Calls(g, dir, name), name, dir, d, Call);
      ghost var n1, e1 := nodes, edges;
      FilledExactly(g, n0, n1, dir, name, d);
      if full {
        WalkedToMore(n0, n1, dir, d, AnswerEnds(Calls(g, dir, name), dir), Neighbours(g, dir, name));
        return;
      }
      KeptSize(n0, n1);
      var more, stop := Ask(Wires(g, dir, name), name, dir, d, Wire);
      VisitGrows(g, n0, n1, nodes, dir, d, name, found, more);
      if !truncated { VisitDraws(g, dir, e1, edges, name); }
      found, full := found + more, stop;
    }

    /** Name i of a frontier whose earlier names took the snapshot from n0 and e0 to here and found
        the names before. */
    method VisitNext(frontier: seq<string>, i: nat, dir: Direction, d: nat, ghost n0: Nodes, ghost e0: Edges,
                     ghost before: seq<string>)
      returns (found: seq<string>, full: bool)
      requires i < |frontier| && Snap() && (Names(frontier) <= n0.Keys || |n0| >= MAX_NODES)
      requires Walked(n0, nodes, dir, d, Out(g, dir, Names(frontier))) && Kept(e0, edges)
      requires Names(before) == nodes.Keys - n0.Keys
      modifies this`nodes, this`edges, this`truncated, this`lookups
      ensures Snap()
      ensures Walked(n0, nodes, dir, d, Out(g, dir, Names(frontier))) && Kept(e0, edges)
      ensures Names(before + found) == nodes.Keys - n0.Keys && |found| == |nodes| - |old(nodes)|
      ensures old(truncated) ==> truncated
      ensures full ==> |nodes| >= MAX_NODES
      ensures |old(nodes)| <= |nodes|
      ensures |nodes| < MAX_NODES && Out(g, dir, Names(frontier[..i])) <= old(nodes).Keys ==>
        Out(g, dir, Names(frontier[..i + 1])) <= nodes.Keys
      ensures !truncated && |nodes| < MAX_NODES && AllDrawn(g, dir, old(edges), Names(frontier[..i])) ==>
        AllDrawn(g, dir, edges, Names(frontier[..i + 1]))
      ensures lookups <= old(lookups) + 2
      ensures AsksInVain(g, old(nodes), dir, frontier[i]) ==> full && lookups == old(lookups) + 1
    {
      ghost var n1, e1 := nodes, edges;
      KeptSize(n0, n1);
      assert frontier[i] in Names(frontier);
      FullFillsUp(g, n1, dir, frontier[i]);
      found, full := Visit(frontier[i], dir, d);
      LevelGrows(g, dir, d, frontier, i, n0, n1, nodes, before, found);
      KeptOn(e0, e1, edges);
      if !truncated && |nodes| < MAX_NODES && AllDrawn(g, dir, e1, Names(frontier[..i])) {
        MoreDrawn(g, dir, e1, edges, frontier, i);
      }
    }

    /** One level of a walk. */
    method Level(frontier: seq<string>, dir: Direction, d: nat)
      returns (next: seq<string>, full: bool)
      requires Snap() && (Names(frontier) <= nodes.Keys || |nodes| >= MAX_NODES)
      modifies this`nodes, this`edges, this`truncated, this`lookups
      ensures Snap()
      ensures Walked(old(nodes), nodes, dir, d, Out(g, dir, Names(frontier)))
      ensures Names(next) == nodes.Keys - old(nodes).Keys && |next| == |nodes| - |old(nodes)|
      ensures old(truncated) ==> truncated
      ensures full ==> |nodes| >= MAX_NODES
      ensures |nodes| < MAX_NODES ==> Out(g, dir, Names(frontier)) <= nodes.Keys
      ensures Kept(old(edges), edges) && (!truncated && |nodes| < MAX_NODES ==> AllDrawn(g, dir, edges, Names(frontier)))
      ensures lookups <= old(lookups) + 2 * |frontier|
      ensures frontier != [] && AsksInVain(g, old(nodes), dir, frontier[0]) ==> full && lookups == old(lookups) + 1
    {
      next, full := [], false;
      ghost var n0, e0 := nodes, edges;
      for i := 0 to |frontier|
        invariant Snap()
        invariant Walked(n0, nodes, dir, d, Out(g, dir, Names(frontier)))
        invariant Names(next) == nodes.Keys - n0.Keys && |next| == |nodes| - |n0|
        invariant old(truncated) ==> truncated
        invariant |nodes| < MAX_NODES ==> Out(g, dir, Names(frontier[..i])) <= nodes.Keys
        invariant Kept(e0, edges)
        invariant !truncated && |nodes| < MAX_NODES ==> AllDrawn(g, dir, edges, Names(frontier[..i]))
        invariant lookups <= old(lookups) + 2 * i
        invariant if i == 0 then nodes == n0 && lookups == old(lookups) else !AsksInVain(g, n0, dir, frontier[0])
      {
        var found, stop := VisitNext(frontier, i, dir, d, n0, e0, next);
        next := next + found;
        if stop {
          return next, true;
        }
      }
      assert frontier[..|frontier|] == frontier;
    }

    /** An over-long frontier is sorted and cut. */
    method Trim(next: seq<string>) returns (frontier: seq<string>)
      modifies this`truncated
      ensures frontier == if |next| > MAX_FRONTIER then Take(StableSort(next, Less), MAX_FRONTIER) else next
      ensures |frontier| <= MAX_FRONTIER && Names(frontier) <= Names(next)
      ensures truncated <==> old(truncated) || |next| > MAX_FRONTIER
    {
      frontier := next;
      if |next| > MAX_FRONTIER {
        SortKeepsMembers(next, Less);
        frontier := StableSort(next, Less)[..MAX_FRONTIER];
        truncated := true;
      }
    }

    /** What a walk needs to know of the trimmed frontier. */
    method Shorten(names: seq<string>) returns (next: seq<string>)
      modifies this`truncated
      ensures |next| <= MAX_FRONTIER && Names(next) <= Names(names)
      ensures truncated <==> old(truncated) || |names| > MAX_FRONTIER
      ensures !truncated ==> next == names
    {
      next := Trim(names);
    }

    /** A level, with what it found. */
    method Discover(frontier: seq<string>, dir: Direction, d: nat)
      returns (names: seq<string>, full: bool, ghost found: set<string>)
      requires Snap() && (Names(frontier) <= nodes.Keys || |nodes| >= MAX_NODES)
      modifies this`nodes, this`edges, this`truncated, this`lookups
      ensures Snap()
      ensures Walked(old(nodes), nodes, dir, d, found) && Names(names) == found == nodes.Keys - old(nodes).Keys
      ensures |names| == |nodes| - |old(nodes)|
      ensures found <= Out(g, dir, Names(frontier))
      ensures old(truncated) ==> truncated
      ensures full ==> |nodes| >= MAX_NODES
      ensures lookups <= old(lookups) + 2 * |frontier|
      ensures frontier != [] && AsksInVain(g, old(nodes), dir, frontier[0]) ==> full && lookups == old(lookups) + 1
      ensures !truncated && |nodes| < MAX_NODES ==> found == Out(g, dir, Names(frontier)) - old(nodes).Keys
      ensures Kept(old(edges), edges) && (!truncated && |nodes| < MAX_NODES ==> AllDrawn(g, dir, edges, Names(frontier)))
      ensures |nodes| < MAX_NODES ==> Out(g, dir, Names(frontier)) <= nodes.Keys
    {
      ghost var n0 := nodes;
      names, full := Level(frontier, dir, d);
      found := Names(names);
      LevelFound(g, n0, nodes, dir, d, frontier, found);
    }

    /** One round of the walk: a level, and the frontier of the next. found are the names the
        level added; unless something was cut they are everything one step out that was new,
        and all of them go on. */
    method Descend(frontier: seq<string>, dir: Direction, d: nat)
      returns (next: seq<string>, full: bool, ghost found: set<string>)
      requires Snap() && (Names(frontier) <= nodes.Keys || |nodes| >= MAX_NODES)
      modifies this`nodes, this`edges, this`truncated, this`lookups
      ensures Snap()
      ensures Walked(old(nodes), nodes, dir, d, found) && Names(next) <= found == nodes.Keys - old(nodes).Keys
      ensures found <= Out(g, dir, Names(frontier)) && |next| <= MAX_FRONTIER
      ensures old(truncated) ==> truncated
      ensures full ==> |nodes| >= MAX_NODES
      ensures lookups <= old(lookups) + 2 * |frontier|
      ensures frontier != [] && AsksInVain(g, old(nodes), dir, frontier[0]) ==> full && lookups == old(lookups) + 1
      ensures !truncated && |nodes| < MAX_NODES ==>
        Names(next) == found == Out(g, dir, Names(frontier)) - old(nodes).Keys
      ensures Kept(old(edges), edges) && (!truncated && |nodes| < MAX_NODES ==> AllDrawn(g, dir, edges, Names(frontier)))
      ensures |nodes| < MAX_NODES ==> Out(g, dir, Names(frontier)) <= nodes.Keys
    {
      var names;
      names, full, found := Discover(frontier, dir, d);
      ManyAreDue(g, nodes, edges);
      next := Shorten(names);
    }

    /** Where a walk stands before level |levels|, having started from the nodes n0. */
    ghost predicate OnTrail(n0: Nodes, dir: Direction, start: string, levels: seq<set<string>>, frontier: seq<string>)
      reads this
    {
      && WalkedBy(n0, nodes, dir, levels) && Chained(g, dir, start, levels)
      && (Names(frontier) <= nodes.Keys || |nodes| >= MAX_NODES)
      && Names(frontier) <= levels[|levels| - 1]
      && (n0.Keys == {start} && !truncated && |nodes| < MAX_NODES ==> Complete(g, dir, levels, nodes, Names(frontier)))
    }

    /** What a walk has shown, if nothing was cut: all about its start, and, if the start was all
        there was, all about every level but the last. */
    ghost predicate Shows(n0: Nodes, dir: Direction, start: string, levels: seq<set<string>>)
      reads this
    {
      !truncated && |nodes| < MAX_NODES && |levels| > 1 ==>
        && Neighbours(g, dir, start) <= nodes.Keys && CallsDrawn(g, dir, edges, start)
        && (n0.Keys == {start} ==> AllDrawn(g, dir, edges, Union(levels[..|levels| - 1])))
    }

    /** Unless something was cut, walks have stopped short of nothing but what is pending. */
    ghost predicate OnTheWay(dir: Direction, d: int, frontier: seq<string>)
      requires d > 0
      reads this
    {
      !truncated && |nodes| < MAX_NODES ==>
        && Followed(g, nodes, edges, Pending(d, frontier))
        && Awaiting(nodes, dir, d - 1, Pending(d, frontier))
    }

    /** Unless something was cut, no walk has stopped short. */
    ghost predicate Tidy()
      reads this
    {
      !truncated && |nodes| < MAX_NODES ==> Followed(g, nodes, edges, {})
    }

    /** A walk under way, from nodes n0 and edges e0. */
    ghost predicate Walking(n0: Nodes, e0: Edges, dir: Direction, start: string,
                            levels: seq<set<string>>, frontier: seq<string>)
      reads this
    {
      && Snap() && |levels| > 0 && OnTrail(n0, dir, start, levels, frontier) && Shows(n0, dir, start, levels)
      && Kept(e0, edges) && OnTheWay(dir, |levels|, frontier)
      && (if |levels| == 1 then frontier == [start] else |frontier| <= MAX_FRONTIER)
    }

    /** One round of a walk, with what it adds to the trail. */
    method Round(ghost n0: Nodes, ghost e0: Edges, dir: Direction, ghost start: string,
                 frontier: seq<string>, d: nat, ghost levels: seq<set<string>>)
      returns (next: seq<string>, full: bool, ghost longer: seq<set<string>>)
      requires d == |levels| && Walking(n0, e0, dir, start, levels, frontier)
      modifies this`nodes, this`edges, this`truncated, this`lookups
      ensures |longer| == |levels| + 1 && Walking(n0, e0, dir, start, longer, next)
      ensures old(truncated) ==> truncated
      ensures full ==> |nodes| >= MAX_NODES
      ensures lookups <= old(lookups) + 2 * |frontier|
      ensures frontier != [] && AsksInVain(g, old(nodes), dir, frontier[0]) ==> full && lookups == old(lookups) + 1
    {
      ghost var n1, e1 := nodes, edges;
      ghost var found;
      next, full, found := Descend(frontier, dir, d);
      longer := levels + [found];
      KeptSize(n1, nodes);
      KeptOn(e0, e1, edges);
      WalkedFurther(n0, n1, nodes, dir, levels, found);
      ChainGrows(g, dir, start, levels, Names(frontier), found);
      if n0.Keys == {start} && !truncated && |nodes| < MAX_NODES {
        CompleteGrows(g, dir, levels, n1, nodes, Names(frontier), found);
      }
      if !truncated && |nodes| < MAX_NODES {
        ShowsMore(g, dir, start, levels, found, frontier, n0, n1, nodes, e1, edges);
        FollowedFurther(g, n1, nodes, e1, edges, dir, d, frontier, next);
      }
    }

    lemma StartsWalking(dir: Direction, start: string)
      requires Snap() && Tidy() && (start in nodes || |nodes| >= MAX_NODES)
      ensures Walking(nodes, edges, dir, start, [{start}], [start])
    {
      TrailStarts(g, dir, nodes, start);
    }

    lemma EndsTidy(dir: Direction, d: int, frontier: seq<string>)
      requires d > 1 && OnTheWay(dir, d, frontier) && (frontier == [] || d == MAX_DEPTH + 1)
      ensures Tidy()
    {
      if !truncated && |nodes| < MAX_NODES { FollowedToTheEnd(g, nodes, edges, dir, d - 1, Names(frontier)); }
    }

    /** The rounds of a walk, until its frontier is empty, its depth reached or the snapshot full. */
    method Rounds(ghost n0: Nodes, ghost e0: Edges, dir: Direction, start: string)
      returns (ghost levels: seq<set<string>>, ghost last: seq<string>)
      requires Walking(n0, e0, dir, start, [{start}], [start])
      modifies this`nodes, this`edges, this`truncated, this`lookups
      ensures Walking(n0, e0, dir, start, levels, last) && 1 < |levels| <= MAX_DEPTH + 1
      ensures last == [] || |levels| == MAX_DEPTH + 1 || |nodes| >= MAX_NODES
      ensures Tidy()
      ensures old(truncated) ==> truncated
      ensures lookups <= old(lookups) + 322
      ensures AsksInVain(g, old(nodes), dir, start) ==> lookups == old(lookups) + 1
    {
      var frontier := [start];
      ghost var vain := AsksInVain(g, nodes, dir, start);
      levels, last := [{start}], frontier;
      var d := 1;
      while d <= MAX_DEPTH && |frontier| > 0
        invariant 1 <= d == |levels| <= MAX_DEPTH + 1 && last == frontier
        invariant Walking(n0, e0, dir, start, levels, frontier)
        invariant old(truncated) ==> truncated
        invariant if d == 1 then frontier == [start] && lookups == old(lookups) else !vain
        invariant d == 1 ==> vain == AsksInVain(g, nodes, dir, start)
        invariant lookups <= old(lookups) + if d == 1 then 0 else 2 + 80 * (d - 2)
      {
        var full;
        frontier, full, levels := Round(n0, e0, dir, start, frontier, d, levels);
        last := frontier;
        if full {
          return;
        }
        d := d + 1;
      }
      EndsTidy(dir, d, frontier);
    }

    /** A walk of at most MAX_DEPTH levels from a recorded start, leaving the list of levels it
        found. */
    method Walk(dir: Direction, start: string) returns (ghost levels: seq<set<string>>)
      requires Snap() && Tidy() && (start in nodes || |nodes| >= MAX_NODES)
      modifies this`nodes, this`edges, this`truncated, this`lookups
      ensures Snap() && Tidy()
      ensures WalkedBy(old(nodes), nodes, dir, levels)
      ensures Chained(g, dir, start, levels) && |levels| <= MAX_DEPTH + 1
      ensures old(truncated) ==> truncated
      ensures lookups <= old(lookups) + 322
      ensures AsksInVain(g, old(nodes), dir, start) ==> lookups == old(lookups) + 1
      ensures Kept(old(edges), edges) && |levels| > 1 && Shows(old(nodes), dir, start, levels)
      ensures old(nodes).Keys == {start} && !truncated && |nodes| < MAX_NODES ==>
        Complete(g, dir, levels, nodes, levels[|levels| - 1])
        && (levels[|levels| - 1] == {} || |levels| == MAX_DEPTH + 1)
    {
      StartsWalking(dir, start);
      ghost var last;
      levels, last := Rounds(nodes, edges, dir, start);
    }

    method AttachNode(e: CallEdge, seed: string, r: Relation)
      requires Snap() && (seed in nodes || |nodes| >= MAX_NODES)
      requires IsAuxEdge(g, e, seed, r)
      modifies this`nodes, this`truncated
      ensures Snap() && (seed in nodes || |nodes| >= MAX_NODES)
      ensures Attached(old(nodes), nodes, AuxRole(r), AuxEnds(g, r, seed))
      ensures old(truncated) ==> truncated
      ensures |nodes| < MAX_NODES ==> AuxFar(e, r) == "" || AuxFar(e, r) in nodes
      ensures forall n | n in nodes && n !in old(nodes) :: nodes[n] == Node(AuxFar(e, r), e.file, AuxRole(r), 1)
    {
      ghost var n0 := nodes;
      AuxFarIsEnd(g, e, seed, r);
      var added := UpsertNode(AuxFar(e, r), e.file, AuxRole(r), 1);
      if truncated { StillDue(g, n0, nodes, edges); }
      UpsertAttaches(n0, nodes, added, AuxFar(e, r), e.file, AuxRole(r), AuxEnds(g, r, seed), seed);
      FormOfMoreNodes(g, asked, n0, nodes, edges);
    }

    method AttachOne(e: CallEdge, seed: string, r: Relation)
      requires Snap() && seed in asked && (seed in nodes || |nodes| >= MAX_NODES)
      requires IsAuxEdge(g, e, seed, r)
      modifies this`nodes, this`edges, this`truncated
      ensures Snap() && (seed in nodes || |nodes| >= MAX_NODES)
      ensures Attached(old(nodes), nodes, AuxRole(r), AuxEnds(g, r, seed)) && Kept(old(edges), edges)
      ensures old(truncated) ==> truncated
      ensures !truncated && |nodes| < MAX_NODES ==> AuxTakenAt(nodes, edges, e, seed, r)
      ensures forall n | n in nodes && n !in old(nodes) :: nodes[n] == Node(AuxFar(e, r), e.file, AuxRole(r), 1)
    {
      ghost var e0 := edges;
      AttachNode(e, seed, r);
      AddEdge(e.from, AuxTo(e, r, seed), Label(r));
      AttachingKeepsForm(g, asked, nodes, e0, e, seed, r);
      if |edges| < MAX_EDGES && truncated { DueStays(g, nodes, nodes, e0, edges); }
    }

    /** A structural answer under way: its first i edges took the snapshot from n0 and e0 to here. */
    ghost predicate Attaching(answer: seq<CallEdge>, i: nat, seed: string, r: Relation, n0: Nodes, e0: Edges)
      requires i <= |answer|
      reads this
    {
      && Snap() && (seed in nodes || |nodes| >= MAX_NODES)
      && Attached(n0, nodes, AuxRole(r), AuxEnds(g, r, seed)) && Kept(e0, edges)
      && (!truncated && |nodes| < MAX_NODES ==> AuxTaken(nodes, edges, Some(answer[..i]), seed, r))
    }

    method AttachNext(answer: seq<CallEdge>, i: nat, seed: string, r: Relation, ghost n0: Nodes, ghost e0: Edges)
      requires i < |answer| && Attaching(answer, i, seed, r, n0, e0) && seed in asked
      requires r != Call && r != Wire && AuxAnswer(g, r, seed) == Some(answer)
      modifies this`nodes, this`edges, this`truncated
      ensures Attaching(answer, i + 1, seed, r, n0, e0)
      ensures old(truncated) ==> truncated
    {
      ghost var n1, e1 := nodes, edges;
      AttachOne(answer[i], seed, r);
      AuxGrows(n0, n1, nodes, e0, e1, edges, answer, i, seed, r, AuxEnds(g, r, seed));
    }

    /** Every edge of a structural answer. */
    method AttachAll(answer: seq<CallEdge>, seed: string, r: Relation)
      requires Snap() && seed in asked && (seed in nodes || |nodes| >= MAX_NODES)
      requires r != Call && r != Wire && AuxAnswer(g, r, seed) == Some(answer)
      modifies this`nodes, this`edges, this`truncated
      ensures Attaching(answer, |answer|, seed, r, old(nodes), old(edges))
      ensures old(truncated) ==> truncated
    {
      ghost var n0, e0 := nodes, edges;
      for i := 0 to |answer|
        invariant Attaching(answer, i, seed, r, n0, e0)
        invariant old(truncated) ==> truncated
      {
        AttachNext(answer, i, seed, r, n0, e0);
      }
    }

    /** One structural answer about a seed: each neighbour at depth 1, joined to the seed or,
        for methods, to the owner the server names. */
    method AddStructural(seed: string, r: Relation)
      requires Snap() && seed in asked && (seed in nodes || |nodes| >= MAX_NODES)
      requires r != Call && r != Wire
      modifies this`nodes, this`edges, this`truncated
      ensures Snap()
      ensures seed in nodes || |nodes| >= MAX_NODES
      ensures Attached(old(nodes), nodes, AuxRole(r), AuxEnds(g, r, seed)) && Kept(old(edges), edges)
      ensures old(truncated) ==> truncated
      ensures !truncated && |nodes| < MAX_NODES ==> TakenAbout(g, nodes, edges, seed, r)
    {
      var answer := AuxAnswer(g, r, seed);
      if answer.Some? {
        AttachAll(answer.value, seed, r);
        assert answer.value[..|answer.value|] == answer.value;
      }
    }

    /** What imports it and what extends it. */
    method AddInheritance(seed: string)
      requires Snap() && seed in asked && (seed in nodes || |nodes| >= MAX_NODES)
      modifies this`nodes, this`edges, this`truncated
      ensures Snap() && Kept(old(nodes), nodes) && Kept(old(edges), edges)
      ensures seed in nodes || |nodes| >= MAX_NODES
      ensures NewAreBeside(g, seed, old(nodes), nodes)
      ensures old(truncated) ==> truncated
      ensures !truncated && |nodes| < MAX_NODES ==> TakenAbout(g, nodes, edges, seed, Import)
      ensures !truncated && |nodes| < MAX_NODES ==> TakenAbout(g, nodes, edges, seed, Extend)
    {
      ghost var n0, e0 := nodes, edges;
      AddStructural(seed, Import);
      ghost var n1, e1, cut1 := nodes, edges, truncated;
      MoreBeside(g, seed, n0, n0, n1, Import);
      AddStructural(seed, Extend);
      MoreBeside(g, seed, n0, n1, nodes, Extend);
      BothKept(n0, n1, nodes, e0, e1, edges);
      TakenLater(g, seed, n1, nodes, e1, edges, Import, cut1, truncated);
    }

    /** The structural neighbours of a seed. */
    method AddAux(seed: string)
      requires Snap() && seed in asked && (seed in nodes || |nodes| >= MAX_NODES)
      modifies this`nodes, this`edges, this`truncated
      ensures Snap() && Kept(old(nodes), nodes) && Kept(old(edges), edges)
      ensures NewAreBeside(g, seed, old(nodes), nodes)
      ensures old(truncated) ==> truncated
      ensures !truncated && |nodes| < MAX_NODES ==> AuxAround(g, nodes, edges, seed)
    {
      ghost var n0, e0 := nodes, edges;
      AddInheritance(seed);
      ghost var n1, e1, cut1 := nodes, edges, truncated;
      AddStructural(seed, Own);
      MoreBeside(g, seed, n0, n1, nodes, Own);
      BothKept(n0, n1, nodes, e0, e1, edges);
      TakenLater(g, seed, n1, nodes, e1, edges, Import, cut1, truncated);
      TakenLater(g, seed, n1, nodes, e1, edges, Extend, cut1, truncated);
    }

    method GoDown(seed: string, ghost starts: set<string>)
      requires Snap() && Tidy() && (seed in nodes || |nodes| >= MAX_NODES)
      requires Sound(g, starts, nodes) && seed in starts
      modifies this`nodes, this`edges, this`truncated, this`lookups
      ensures Snap() && Tidy() && Kept(old(nodes), nodes) && Kept(old(edges), edges)
      ensures Sound(g, starts, nodes)
      ensures old(truncated) ==> truncated
      ensures !truncated && |nodes| < MAX_NODES ==> Neighbours(g, Down, seed) <= nodes.Keys && CallsDrawn(g, Down, edges, seed)
      ensures IsAlone(old(nodes), seed) && !truncated && |nodes| < MAX_NODES ==> Mapped(g, seed, nodes, edges)
    {
      ghost var n0 := nodes;
      ghost var down := Walk(Down, seed);
      WalkIsSound(g, starts, seed, n0, nodes, Down, down);
      if IsAlone(n0, seed) && !truncated && |nodes| < MAX_NODES {
        WalkCovers(g, seed, n0, nodes, down);
        WalkDraws(g, seed, edges, down);
      }
    }

    /** Everything about one start: down, up, and around. */
    method SnapshotSeed(seed: string, ghost starts: set<string>) returns (added: int)
      requires Snap() && Tidy() && seed in asked && (seed in nodes || |nodes| >= MAX_NODES)
      requires Sound(g, starts, nodes) && seed in starts
      modifies this`nodes, this`edges, this`truncated, this`lookups
      ensures Snap() && Tidy() && Kept(old(nodes), nodes) && Kept(old(edges), edges)
      ensures Sound(g, starts, nodes)
      ensures old(truncated) ==> truncated
      ensures added == |nodes| - |old(nodes)|
      ensures !truncated && |nodes| < MAX_NODES ==> Around(g, nodes, edges, seed)
      ensures IsAlone(old(nodes), seed) && !truncated && |nodes| < MAX_NODES ==> Mapped(g, seed, nodes, edges)
    {
      ghost var n0, e0 := nodes, edges;
      var before := |nodes|;
      GoDown(seed, starts);
      ghost var n1, e1 := nodes, edges;
      KeptSize(n0, n1);
      ghost var up := Walk(Up, seed);
      ghost var n2, e2 := nodes, edges;
      WalkIsSound(g, starts, seed, n1, n2, Up, up);
      KeptSize(n1, n2);
      AddAux(seed);
      KeptSize(n2, nodes);
      AuxIsSound(g, starts, seed, n2, nodes);
      KeptThrice(n0, n1, n2, nodes);
      KeptThrice(e0, e1, e2, edges);
      added := |nodes| - before;
      if !truncated && |nodes| < MAX_NODES {
        CallsStayDrawn(g, Down, e1, edges, seed);
        CallsStayDrawn(g, Up, e2, edges, seed);
        AuxAsksNothing(g, seed, n2, nodes, e2, edges);
        if IsAlone(n0, seed) { MappedStays(g, seed, n1, nodes, e1, edges); }
      }
    }

    /** Unless something was cut, all asked starts are nodes with all that is taken about them, and no
        walk has stopped short. */
    ghost predicate Told()
      reads this
    {
      Tidy() && (!truncated && |nodes| < MAX_NODES ==> AllAround(g, asked, nodes, edges))
    }

    /** Records a start. */
    method Plant(seed: string, ghost starts: set<string>)
      requires Snap() && Tidy() && seed != "" && Sound(g, starts, nodes)
      modifies this`nodes, this`truncated, this`asked
      ensures Snap() && Tidy() && Kept(old(nodes), nodes) && |old(nodes)| <= |nodes|
      ensures Sound(g, starts + {seed}, nodes)
      ensures seed in nodes || |nodes| >= MAX_NODES
      ensures asked == old(asked) + {seed}
      ensures old(truncated) ==> truncated
      ensures old(nodes) == map[] ==> IsAlone(nodes, seed)
      ensures nodes.Keys <= old(nodes).Keys + {seed}
      ensures StandsAsSeed(nodes, seed) <==> (seed !in old(nodes) && |old(nodes)| < MAX_NODES) || StandsAsSeed(old(nodes), seed)
    {
      ghost var n0 := nodes;
      var added := UpsertNode(seed, "", Seed, 0);
      PlantingAsksNothing(g, n0, nodes, edges, seed);
      PlantingIsSound(g, starts, asked, n0, nodes, edges, seed, added);
      asked := asked + {seed};
    }

    /** A start, recorded unless the name is known or the node cap is met, and all around it. */
    method Begin(seed: string, ghost starts: set<string>) returns (added: int)
      requires Snap() && seed != "" && Sound(g, starts, nodes) && Told()
      modifies this
      ensures Snap() && Kept(old(nodes), nodes) && Kept(old(edges), edges)
      ensures Sound(g, starts + {seed}, nodes)
      ensures Told() && asked == old(asked) + {seed}
      ensures old(truncated) ==> truncated
      ensures added > 0 && |nodes| < MAX_NODES ==> NewBeside(old(nodes), nodes, seed)
      ensures added <= 0 ==> nodes.Keys <= old(nodes).Keys + {seed}
      ensures seed in nodes || |nodes| >= MAX_NODES
      ensures StandsAsSeed(nodes, seed) <==> (seed !in old(nodes) && |old(nodes)| < MAX_NODES) || StandsAsSeed(old(nodes), seed)
      ensures old(nodes) == map[] && !truncated && |nodes| < MAX_NODES ==> Mapped(g, seed, nodes, edges)
    {
      ghost var n0, e0, known := nodes, edges, asked;
      Plant(seed, starts);
      ghost var n1 := nodes;
      added := SnapshotSeed(seed, starts + {seed});
      KeptOn(n0, n1, nodes);
      KeptSize(n1, nodes);
      SomethingNew(n0, n1, nodes, seed);
      OnlySeedIsNew(n0, n1, nodes, seed);
      StillStands(n1, nodes, seed);
      if !truncated && |nodes| < MAX_NODES { AllAroundGrows(g, known, n0, nodes, e0, edges, seed); }
    }

    method StartTail(ghost seed: string, tail: string, ghost starts: set<string>, ghost first: bool)
      requires Snap() && tail != "" && tail in starts && Sound(g, starts, nodes) && Told()
      requires first && !truncated && |nodes| < MAX_NODES ==> Mapped(g, seed, nodes, edges)
      modifies this
      ensures Snap() && Kept(old(nodes), nodes) && Kept(old(edges), edges) && Sound(g, starts, nodes)
      ensures Told() && asked == old(asked) + {tail}
      ensures old(truncated) ==> truncated
      ensures first && !truncated && |nodes| < MAX_NODES ==> Mapped(g, seed, nodes, edges)
    {
      ghost var n1, e1 := nodes, edges;
      Already(starts, tail);
      var _ := Begin(tail, starts);
      KeptSize(n1, nodes);
      if first && !truncated && |nodes| < MAX_NODES { MappedStays(g, seed, n1, nodes, e1, edges); }
    }

    /** When a seed added nothing: the name after its last dot, unless it is generic or too frequent. */
    method FallBack(seed: string, added: int, ghost starts: set<string>, ghost first: bool)
      requires Snap() && Sound(g, starts, nodes) && Told()
      requires WorthTrying(g, seed) ==> BareTail(seed) in starts
      requires first && !truncated && |nodes| < MAX_NODES ==> Mapped(g, seed, nodes, edges)
      modifies this
      ensures Snap() && Kept(old(nodes), nodes) && Kept(old(edges), edges) && Sound(g, starts, nodes)
      ensures Told() && asked == old(asked) + if added <= 0 && WorthTrying(g, seed) then {BareTail(seed)} else {}
      ensures added > 0 ==> nodes == old(nodes)
      ensures old(truncated) ==> truncated
      ensures first && !truncated && |nodes| < MAX_NODES ==> Mapped(g, seed, nodes, edges)
    {
      if added <= 0 {
        var tail := BareTail(seed);
        var rare := !(g.nameHits(tail).Some? && g.nameHits(tail).value > TAIL_RARITY);
        if tail != "" && tail != seed && !IsCommonShortSymbol(tail) && rare {
          StartTail(seed, tail, starts, first);
        }
      }
    }

    /** One seed, and when it matched nothing its name after the last dot. */
    method StartSeed(seed: string, ghost starts: set<string>) returns (ghost tried: bool)
      requires Snap() && seed != "" && Sound(g, starts, nodes) && Told()
      requires seed in starts && (WorthTrying(g, seed) ==> BareTail(seed) in starts)
      modifies this
      ensures Snap() && Kept(old(nodes), nodes) && Kept(old(edges), edges) && Sound(g, starts, nodes)
      ensures Told() && asked == old(asked) + {seed} + if tried then {BareTail(seed)} else {}
      ensures old(truncated) ==> truncated
      ensures tried ==> WorthTrying(g, seed)
      ensures !truncated && |nodes| < MAX_NODES ==>
        if tried then AllKnown(g, old(nodes), seed) else WorthTrying(g, seed) ==> NewBeside(old(nodes), nodes, seed)
      ensures old(nodes) == map[] && !truncated && |nodes| < MAX_NODES ==> Mapped(g, seed, nodes, edges)
      ensures StandsAsSeed(nodes, seed) <==> (seed !in old(nodes) && |old(nodes)| < MAX_NODES) || StandsAsSeed(old(nodes), seed)
    {
      ghost var n0, e0 := nodes, edges;
      var added := Begin(seed, starts);
      Already(starts, seed);
      ghost var n1, e1, asked1, cut1 := nodes, edges, asked, truncated;
      FallBack(seed, added, starts, n0 == map[]);
      tried := added <= 0 && WorthTrying(g, seed);
      if tried && !cut1 && |n1| < MAX_NODES { NothingCameOf(g, asked1, n0, n1, e1, seed); }
      BothKept(n0, n1, nodes, e0, e1, edges);
      KeptSize(n1, nodes);
      StillStands(n1, nodes, seed);
    }

    /** The whole snapshot. No usable seed is an error and changes nothing. Every node and every edge
        comes from an answer of the server or is a start. Unless something was cut, all is taken that
        Around names about every start asked, and from a server that anchors its answers that is
        everything but parents; downstream of the first seed everything within reach is there; and
        no walk stops short, so that every callee and caller but the farthest has all its own callees
        or callers there too. The mark is set only for a reason. */
    method Build(seeds: seq<string>) returns (cleaned: seq<string>)
      requires nodes == map[] && edges == map[] && !truncated && asked == {}
      modifies this
      ensures cleaned == FirstUsable(seeds, MAX_SEEDS)
      ensures cleaned == [] ==> nodes == map[] && edges == map[]
      ensures Names(cleaned) <= asked <= StartsOf(g, cleaned)
      ensures |nodes| <= MAX_NODES && |edges| <= MAX_EDGES && Keyed(edges)
      ensures Sound(g, StartsOf(g, cleaned), nodes) && EdgesSound(g, asked, edges)
      ensures Anchored(g) && |nodes| < MAX_NODES ==> EndsAreNodes(nodes, edges)
      ensures !truncated && |nodes| < MAX_NODES ==> AllAround(g, asked, nodes, edges)
      ensures Anchored(g) && !truncated && |nodes| < MAX_NODES ==> forall s | s in asked :: AllShown(g, nodes, edges, s)
      ensures cleaned != [] && !truncated && |nodes| < MAX_NODES ==> Mapped(g, cleaned[0], nodes, edges)
      ensures !truncated && |nodes| < MAX_NODES ==> Followed(g, nodes, edges, {})
      ensures truncated ==> Due(g, nodes, edges)
    {
      cleaned := CleanSeeds(seeds);
      UsableAreNonempty(seeds, MAX_SEEDS);
      EmptyIsWellFormed(g);
      ghost var starts := StartsOf(g, cleaned);
      for i := 0 to |cleaned|
        invariant Snap() && Sound(g, starts, nodes) && Told()
        invariant i == 0 ==> nodes == map[] && edges == map[]
        invariant Names(cleaned[..i]) <= asked <= starts
        invariant i > 0 && !truncated && |nodes| < MAX_NODES ==> Mapped(g, cleaned[0], nodes, edges)
      {
        ghost var n0, e0, known := nodes, edges, asked;
        StartsHold(g, cleaned, i);
        ghost var tried := StartSeed(cleaned[i], starts);
        AskedAreStarts(known, cleaned[i], if tried then {BareTail(cleaned[i])} else {}, starts);
        KeptSize(n0, nodes);
        if !truncated && |nodes| < MAX_NODES && i > 0 { MappedStays(g, cleaned[0], n0, nodes, e0, edges); }
      }
      assert cleaned[..|cleaned|] == cleaned;
      if Anchored(g) && !truncated && |nodes| < MAX_NODES { AllAroundShows(g, asked, nodes, edges); }
    }
  }

  // ---- where the snapshot falls short of the server ----

  function OnlyExtends(e: CallEdge): Server {
    Server(Nothing, Nothing, Nothing, Nothing, Nothing, name => OneAnswer(e, name), Nothing, name => None)
  }

  lemma NowhereToWalk(g: Server, dir: Direction, start: string, k: nat)
    requires g.callees == g.callers == g.wireCallees == g.wireCallers == Nothing && k > 0
    ensures Exactly(g, dir, start, k) == {}
  {
    assert forall name :: Neighbours(g, dir, name) == {};
  }

  lemma NothingOffered(e: CallEdge, x: Edge)
    requires e.from == "S"
    ensures !EdgeSound(OnlyExtends(e), {"S"}, x)
  {
    if EdgeSound(OnlyExtends(e), {"S"}, x) { assert false; }
  }

  lemma NoNodeForParent(e: CallEdge, x: Node)
    requires e == CallEdge("S", "P", "f") && x.name == "P"
    ensures !SoundNode(OnlyExtends(e), {"S"}, x)
  {
    var g := OnlyExtends(e);
    forall dir, k: nat | k > 0 ensures Exactly(g, dir, "S", k) == {} { NowhereToWalk(g, dir, "S", k); }
    assert AuxEnds(g, Extend, "S") == AuxFars([e], Extend) && "P" !in AuxFars([e], Extend);
    assert AuxEnds(g, Own, "S") == {} && AuxEnds(g, Import, "S") == {};
  }

  /** S extends P, the server anchors its answer and says so, and still no snapshot of S alone has P
      or any edge, cut or not. */
  lemma ParentIsLost(nodes: Nodes, edges: Edges, e: CallEdge)
    requires e == CallEdge("S", "P", "f")
    requires Sound(OnlyExtends(e), {"S"}, nodes) && EdgesSound(OnlyExtends(e), {"S"}, edges)
    ensures Anchored(OnlyExtends(e)) && OnlyExtends(e).parents("S") == Some([e])
    ensures "P" !in nodes && edges == map[]
  {
    forall k ensures k !in edges {
      if k in edges { NothingOffered(e, edges[k]); }
    }
    if "P" in nodes { NoNodeForParent(e, nodes["P"]); }
  }

  lemma OnlyY(e: CallEdge, dir: Direction, k: nat)
    requires e == CallEdge("X", "Y", "f") && k > 0
    ensures "X" !in Exactly(OnlyCalls(e), dir, "S", k)
  {
    forall name ensures "X" !in Neighbours(OnlyCalls(e), dir, name) {}
  }

  lemma NoNodeForCaller(e: CallEdge, x: Node)
    requires e == CallEdge("X", "Y", "f") && x.name == "X"
    ensures !SoundNode(OnlyCalls(e), {"S"}, x)
  {
    forall dir, k: nat | k > 0 ensures "X" !in Exactly(OnlyCalls(e), dir, "S", k) { OnlyY(e, dir, k); }
  }

  /** A server that answers a question about S with an edge from X has it drawn, though X is no node. */
  lemma ForeignEdge(nodes: Nodes, edges: Edges, e: CallEdge)
    requires e == CallEdge("X", "Y", "f") && Sound(OnlyCalls(e), {"S"}, nodes)
    requires Keyed(edges) && EdgesSound(OnlyCalls(e), {"S"}, edges) && AllAround(OnlyCalls(e), {"S"}, nodes, edges)
    ensures !Anchored(OnlyCalls(e)) && !EndsAreNodes(nodes, edges)
  {
    var g := OnlyCalls(e);
    assert !AnchoredAnswer(Calls(g, Down, "S"), Down, "S") by { assert e in Calls(g, Down, "S").value; }
    assert Around(g, nodes, edges, "S");
    var x := Edge("X", "Y", "CALLS");
    assert e in g.callees("S").value && IsDrawn(edges, "X", "Y", "CALLS");
    KeyTells(g, {"S"}, edges, x);
    if "X" in nodes { NoNodeForCaller(e, nodes["X"]); }
  }

  /** One recorded edge of an answer joins nodes exactly when its near end is one, which is the name
      asked about if the server anchors the answer. */
  lemma RecordJoinsIff(nodes: Nodes, edges: Edges, e: CallEdge, dir: Direction, r: Relation)
    requires EndsAreNodes(nodes, edges) && Far(e, dir) in nodes && |edges| < MAX_EDGES
    requires Drawable(e.from, e.to) && EdgeKey(Edge(e.from, e.to, Label(r))) !in edges
    ensures EndsAreNodes(nodes, WithEdge(edges, Edge(e.from, e.to, Label(r)))) <==> Near(e, dir) in nodes
  {
    var x := Edge(e.from, e.to, Label(r));
    var after := WithEdge(edges, x);
    assert after[EdgeKey(x)] == x;
  }

  /** A seed that the first one reaches downstream is recorded as a callee at its distance, and never as
      a seed, whatever starts there were. */
  lemma ReachedSeedIsCallee(g: Server, first: string, starts: set<string>, nodes: Nodes, edges: Edges, y: string)
    requires Mapped(g, first, nodes, edges) && Sound(g, starts, nodes)
    requires y in Within(g, Down, first, MAX_DEPTH) && y != first
    ensures y in nodes && nodes[y].role == Callee && nodes[y].depth >= 1 && AtDistance(g, Down, first, y, nodes[y].depth)
    ensures !StandsAsSeed(nodes, y)
  {
    assert CoveredAt(g, first, nodes, y);
    assert SoundNode(g, starts, nodes[y]);
  }

  lemma NeighbourIsWithin(g: Server, start: string, y: string)
    requires y in Neighbours(g, Down, start)
    ensures y in Within(g, Down, start, 1) && y in Within(g, Down, start, MAX_DEPTH)
  {
    assert y in Out(g, Down, {start}) && Within(g, Down, start, 0) == {start};
    WithinGrows(g, Down, start, 1, MAX_DEPTH);
  }

  lemma NeighbourIsAtOne(g: Server, start: string, y: string, d: int)
    requires y in Neighbours(g, Down, start) && d >= 1 && AtDistance(g, Down, start, y, d)
    ensures d == 1
  {
    NeighbourIsWithin(g, start, y);
    if d > 1 { WithinGrows(g, Down, start, 1, d - 1); }
  }

  /** S calls T, and both are seeds: T is recorded one step from S, not as the start it is. */
  lemma SecondSeedIsCallee(nodes: Nodes, edges: Edges, e: CallEdge)
    requires e == CallEdge("S", "T", "f")
    requires Mapped(OnlyCalls(e), "S", nodes, edges) && Sound(OnlyCalls(e), {"S", "T"}, nodes)
    ensures Anchored(OnlyCalls(e)) && "T" in Exactly(OnlyCalls(e), Down, "T", 0)
    ensures "T" in nodes && nodes["T"].role == Callee && nodes["T"].depth == 1
  {
    var g := OnlyCalls(e);
    CalleeIsNeighbour(e);
    NeighbourIsWithin(g, "S", "T");
    ReachedSeedIsCallee(g, "S", {"S", "T"}, nodes, edges, "T");
    NeighbourIsAtOne(g, "S", "T", nodes["T"].depth);
  }

  /** Two edges whose names hold bars, with one key. */
  lemma BarsShareKey()
    ensures EdgeKey(Edge("a|b", "c", "CALLS")) == EdgeKey(Edge("a", "b|c", "CALLS"))
    ensures WithEdge(map[EdgeKey(Edge("a|b", "c", "CALLS")) := Edge("a|b", "c", "CALLS")], Edge("a", "b|c", "CALLS")).Values
         == {Edge("a|b", "c", "CALLS")}
  {
    assert EdgeKey(Edge("a|b", "c", "CALLS")) == "CALLS|a|b|c";
    assert EdgeKey(Edge("a", "b|c", "CALLS")) == "CALLS|a|b|c";
  }

  /** S calls N and is wired to W. */
  function OneCallOneWire(): Server {
    Server(name => OneAnswer(CallEdge("S", "N", "f"), name), name => OneAnswer(CallEdge("S", "W", "f"), name),
           Nothing, Nothing, Nothing, Nothing, Nothing, name => None)
  }

  lemma LastPlaceIsTaken(a: Nodes, b: Nodes, name: string)
    requires Kept(a, b) && |a| == MAX_NODES - 1 && name !in a && |b| <= MAX_NODES
    requires forall n | n in b && n !in a :: n == name
    requires |b| < MAX_NODES ==> name in b
    ensures name in b && |b| == MAX_NODES
  {
    KeptSize(a, b);
    assert |a| == |a.Keys| && |b| == |b.Keys|;
    assert b.Keys == a.Keys || b.Keys == a.Keys + {name};
  }

  /** An answer of one edge leaves room, or the edge is there. */
  lemma NoOtherEdge(a: Edges, b: Edges, e: CallEdge, r: Relation)
    requires Linked(a, b, [e], r) && |a| < MAX_EDGES
    ensures |b| < MAX_EDGES || IsDrawn(b, e.from, e.to, Label(r))
  {
    var key := EdgeKey(Edge(e.from, e.to, Label(r)));
    forall k | k in b && k !in a ensures k == key {
      assert IsLink(b[k], [e], r) && b[k] == Edge(e.from, e.to, Label(r));
    }
    assert key in b || b == a;
  }

  /** What that answer amounts to. */
  lemma TakesLastPlace(n0: Nodes, n1: Nodes, e0: Edges, e1: Edges, mark: bool)
    requires |n0| == MAX_NODES - 1 && "N" !in n0 && "W" !in n0 && |e0| < MAX_EDGES
    requires var answer := [CallEdge("S", "N", "f")];
      && Walked(n0, n1, Down, 1, FarEnds(answer, Down)) && Linked(e0, e1, answer, Call)
      && (|n1| < MAX_NODES ==> FarEnds(answer, Down) <= n1.Keys)
      && MarkTells(false, mark, n1, e1, answer, Down, Call)
    ensures |n1| == MAX_NODES && "W" !in n1 && !mark
  {
    var e := CallEdge("S", "N", "f");
    assert e in [e];
    assert FarEnds([e], Down) == {"N"};
    LastPlaceIsTaken(n0, n1, "N");
    NoOtherEdge(e0, e1, e, Call);
  }

  /** Whatever 499 nodes a snapshot has, S among them but not N and W: the call answer about S takes the
      last place, which ends the walk with the wire answer not asked for, and sets no mark. */
  method StopsUnmarked(sn: Snapshot) returns (full: bool)
    requires sn.Snap() && sn.g == OneCallOneWire() && !sn.truncated && |sn.edges| < MAX_EDGES
    requires |sn.nodes| == MAX_NODES - 1 && "S" in sn.nodes && "N" !in sn.nodes && "W" !in sn.nodes
    modifies sn
    ensures full && |sn.nodes| == MAX_NODES && !sn.truncated
    ensures "W" in Neighbours(sn.g, Down, "S") && "W" !in sn.nodes
  {
    ghost var n0, e0 := sn.nodes, sn.edges;
    var found;
    found, full := sn.Ask(sn.g.callees("S"), "S", Down, 1, Call);
    TakesLastPlace(n0, sn.nodes, e0, sn.edges, sn.truncated);
    assert CallEdge("S", "W", "f") in sn.g.wireCallees("S").value;
  }
}
