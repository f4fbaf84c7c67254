/** The value domain of the bandit: twelve bounded integer knobs. A profile lists them in the
    order of the record's fields, which is also the order of the canonical knob names. */
module Profiles {
  import opened Wrappers

  const KNOB_NAMES := [
    "max_trace", "caller_hops",
    "max_upstream", "max_downstream", "max_importers", "max_methods",
    "max_siblings", "max_snippets", "max_impact", "max_symbols",
    "max_primary_ctx", "max_decisions"]

  const MAX_TRACE := 0
  const CALLER_HOPS := 1
  const MAX_UPSTREAM := 2
  const MAX_DOWNSTREAM := 3
  const MAX_IMPORTERS := 4
  const MAX_METHODS := 5
  const MAX_SIBLINGS := 6
  const MAX_SNIPPETS := 7
  const MAX_IMPACT := 8
  const MAX_SYMBOLS := 9

  type Knob = k: int | 0 <= k < 12
  type Profile = p: seq<int> | |p| == 12 witness [0, 0, 0, 0, 0, 0, 0, 0, 0, 0, 0, 0]

  const LOWEST := [3, 0, 3, 2, 3, 3, 3, 1, 5, 3, 3, 3]
  const HIGHEST := [8, 3, 25, 15, 20, 20, 30, 10, 30, 25, 25, 10]

  function Lo(k: Knob): int { LOWEST[k] }

  function Hi(k: Knob): int { HIGHEST[k] }

  lemma BoundsAreRanges(k: Knob)
    ensures Lo(k) < Hi(k)
  {}

  function ClipInt(v: int, lo: int, hi: int): int {
    if v < lo then lo else if v > hi then hi else v
  }

  ghost predicate InBounds(p: Profile) {
    forall k: Knob :: Lo(k) <= p[k] <= Hi(k)
  }

  function ClipKnob(p: Profile, k: Knob): int { ClipInt(p[k], Lo(k), Hi(k)) }

  function Clip(p: Profile): (q: Profile)
    ensures InBounds(q)
    ensures InBounds(p) ==> q == p
  {
    var q := seq(12, (k: int) requires 0 <= k < 12 => ClipKnob(p, k));
    assert InBounds(q) by {
      forall k: Knob ensures Lo(k) <= q[k] <= Hi(k) {
        BoundsAreRanges(k);
        assert q[k] == ClipKnob(p, k);
      }
    }
    assert InBounds(p) ==> forall k: Knob :: q[k] == ClipKnob(p, k) == p[k];
    q
  }

  /** A knob outside its bounds goes to the one it has passed. */
  lemma ClipIsNearest(p: Profile, k: Knob)
    ensures Clip(p)[k] == if p[k] < LOWEST[k] then LOWEST[k] else if p[k] > HIGHEST[k] then HIGHEST[k] else p[k]
  {
    var q := Clip(p);
    assert q[k] == ClipKnob(p, k);
  }

  /** The hand-tuned profile an intent starts from. */
  function Tuned(intent: string): Profile {
    var plain := [5, 2, 10, 5, 10, 8, 15, 10, 15, 20, 10, 5];
    if intent == "debug" then
      plain[MAX_UPSTREAM := 20][MAX_DOWNSTREAM := 10][MAX_SNIPPETS := 7][CALLER_HOPS := 2]
    else if intent == "explore" then
      plain[MAX_SIBLINGS := 25][MAX_UPSTREAM := 5][MAX_DOWNSTREAM := 3]
    else if intent == "trace" then
      plain[MAX_UPSTREAM := 20][MAX_DOWNSTREAM := 10][MAX_IMPORTERS := 15][CALLER_HOPS := 2]
    else if intent == "refactor" then
      plain[MAX_IMPACT := 25][MAX_IMPORTERS := 15][MAX_METHODS := 12]
    else plain
  }

  function Default(intent: string): (p: Profile)
    ensures InBounds(p)
  {
    Clip(Tuned(intent))
  }

  function Lookup(name: string, from: nat): (k: Option<Knob>)
    requires from <= 12
    ensures k.Some? ==> KNOB_NAMES[k.value] == name
    ensures k.None? ==> name !in KNOB_NAMES[from..]
    decreases 12 - from
  {
    if from == 12 then None
    else if KNOB_NAMES[from] == name then Some(from)
    else
      assert KNOB_NAMES[from..] == [KNOB_NAMES[from]] + KNOB_NAMES[from + 1..];
      Lookup(name, from + 1)
  }

  /** The knob an operator names in the environment; an unknown name is accepted and tunes nothing. */
  function KnobOf(name: string): (k: Option<Knob>)
    ensures k.Some? ==> KNOB_NAMES[k.value] == name
    ensures k.None? ==> name !in KNOB_NAMES
  {
    Lookup(name, 0)
  }

  /** One knob moved up or down by one, then clipped back into the bounds. */
  function Perturb(p: Profile, name: string, up: bool): (q: Profile)
    ensures InBounds(q)
  {
    var delta := if up then 1 else -1;
    match KnobOf(name)
    case None => Clip(p)
    case Some(k) => Clip(p[k := p[k] + delta])
  }

  /** q is p with exactly one knob moved by exactly one. */
  ghost predicate OneStep(p: Profile, q: Profile) {
    exists k: Knob :: (q[k] == p[k] + 1 || q[k] == p[k] - 1) && q == p[k := q[k]]
  }

  lemma MovedAndClipped(p: Profile, k: Knob, delta: int)
    requires InBounds(p) && (delta == 1 || delta == -1)
    ensures Clip(p[k := p[k] + delta]) ==
      if p[k] == (if delta == 1 then Hi(k) else Lo(k)) then p else p[k := p[k] + delta]
    ensures Clip(p[k := p[k] + delta]) == p[k := Clip(p[k := p[k] + delta])[k]]
  {
    var moved := p[k := p[k] + delta];
    var q := Clip(moved);
    BoundsAreRanges(k);
    assert forall j: Knob :: q[j] == ClipKnob(moved, j);
    assert forall j: Knob | j != k :: q[j] == p[j];
    assert q == p[k := q[k]];
  }

  /** A perturbed profile stays inside the bounds and is one unit step away exactly when the
      named knob exists and is not already at the bound it was pushed towards. */
  lemma PerturbIsOneStep(p: Profile, name: string, up: bool)
    requires InBounds(p)
    ensures OneStep(p, Perturb(p, name, up)) <==> Perturb(p, name, up) != p
    ensures Perturb(p, name, up) != p <==>
      KnobOf(name).Some? &&
      p[KnobOf(name).value] != (if up then Hi(KnobOf(name).value) else Lo(KnobOf(name).value))
    ensures Perturb(p, name, up) != p ==>
      var k := KnobOf(name).value;
      Perturb(p, name, up) == p[k := if up then p[k] + 1 else p[k] - 1]
  {
    match KnobOf(name)
    case None =>
    case Some(k) => MovedAndClipped(p, k, if up then 1 else -1);
  }

  function Capped(p: Profile, k: Knob, cap: int): Profile { if p[k] > cap then p[k := cap] else p }

  /** A profile tightened because n memories already point at files. */
  function Shrunk(p: Profile, n: int): Profile {
    var p := if n >= 3 then Capped(Capped(p, MAX_TRACE, 2), CALLER_HOPS, 1)
             else if n >= 2 then Capped(Capped(p, MAX_TRACE, 3), CALLER_HOPS, 1) else p;
    var p := if n >= 1 then Capped(Capped(Capped(p, MAX_SYMBOLS, 5), MAX_SNIPPETS, 2), MAX_SIBLINGS, 5) else p;
    if n >= 3 then Capped(Capped(Capped(p, MAX_SNIPPETS, 1), MAX_SIBLINGS, 3), MAX_SYMBOLS, 3) else p
  }

  /** The most a knob can be after tightening. */
  function Ceiling(k: Knob, n: int): int {
    if k == MAX_TRACE && n >= 2 then if n >= 3 then 2 else 3
    else if k == CALLER_HOPS && n >= 2 then 1
    else if k == MAX_SNIPPETS && n >= 1 then if n >= 3 then 1 else 2
    else if (k == MAX_SIBLINGS || k == MAX_SYMBOLS) && n >= 1 then if n >= 3 then 3 else 5
    else Hi(k)
  }

  lemma ShrunkIsCapped(p: Profile, n: int, k: Knob)
    requires p[k] <= Hi(k)
    ensures Shrunk(p, n)[k] == if p[k] > Ceiling(k, n) then Ceiling(k, n) else p[k]
  {}

  /** Tightening never raises a knob and does nothing the second time, but it leaves the bounds
      no bandit profile can leave exactly when three memories or more point at files. */
  lemma ShrinkingStaysInBoundsIff(p: Profile, n: int)
    requires InBounds(p)
    ensures InBounds(Shrunk(p, n)) <==> n < 3
    ensures forall k: Knob :: Shrunk(p, n)[k] <= p[k]
    ensures Shrunk(Shrunk(p, n), n) == Shrunk(p, n)
  {
    var q := Shrunk(p, n);
    forall k: Knob ensures q[k] <= p[k] && (n < 3 ==> Lo(k) <= q[k]) && Shrunk(q, n)[k] == q[k] {
      ShrunkIsCapped(p, n, k);
      ShrunkIsCapped(q, n, k);
    }
    if n >= 3 {
      ShrunkIsCapped(p, n, MAX_TRACE);
      assert q[MAX_TRACE] < Lo(MAX_TRACE);
    }
  }
}
