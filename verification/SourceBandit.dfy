/** The scalar twin of the profile bandit: how many documents each external source returns.
    At most one source of a bucket is explored at a time. */
module SourceBandits {
  import opened Wrappers
  import opened HeuristicsStore
  import opened Trials

  const FEWEST := 2
  const MOST := 15
  const UNCONFIGURED := 5

  datatype Cell = Cell(bucket: Bucket, source: string)
  datatype SourceSeed = SourceSeed(name: string, default: int)
  datatype Candidate = Candidate(source: string, val: int, base: int, trial: Trial)
  datatype ExploreRec = ExploreRec(source: string, val: int, base: int)

  /** Outcomes of the random draws of one SelectAll. */
  datatype Draw = Draw(explore: bool, pick: nat, up: bool)

  datatype State = State(current: map<Cell, int>, defaults: map<Cell, int>, active: map<Bucket, Candidate>)

  function ClipDocs(v: int): (c: int)
    ensures FEWEST <= c <= MOST
    ensures FEWEST <= v <= MOST ==> c == v
  {
    Profiles.ClipInt(v, FEWEST, MOST)
  }

  function SeedValue(sd: SourceSeed): int { ClipDocs(if sd.default <= 0 then UNCONFIGURED else sd.default) }

  /** First use of a cell stores its configured breadth, as current value and as default. */
  function SeedCell(s: State, c: Cell, v: int): State {
    if c in s.current then s
    else s.(current := s.current[c := v], defaults := if c in s.defaults then s.defaults else s.defaults[c := v])
  }

  function SeedAll(s: State, b: Bucket, seeds: seq<SourceSeed>): State {
    if seeds == [] then s
    else
      var sd := seeds[|seeds| - 1];
      SeedCell(SeedAll(s, b, seeds[..|seeds| - 1]), Cell(b, sd.name), SeedValue(sd))
  }

  function SourceNames(seeds: seq<SourceSeed>): set<string> { set sd | sd in seeds :: sd.name }

  /** The learned breadth of every configured source. */
  function Learned(s: State, b: Bucket, seeds: seq<SourceSeed>): map<string, int> {
    map n | n in SourceNames(seeds) && Cell(b, n) in s.current :: ClipDocs(s.current[Cell(b, n)])
  }

  function PerturbDocs(base: int, up: bool): int { ClipDocs(if up then base + 1 else base - 1) }

  /** What happens once every configured breadth has been read. */
  function ChooseSpec(s: State, enabled: bool, floor: nat, b: Bucket, seeds: seq<SourceSeed>,
                      breadths: map<string, int>, samples: nat, d: Draw)
    : (State, map<string, int>, Option<ExploreRec>)
  {
    if !enabled || seeds == [] || (!IsGlobal(b) && samples < floor) then (s, breadths, None)
    else if b in s.active then
      var c := s.active[b];
      if c.source !in breadths then (s.(active := s.active - {b}), breadths, None)
      else
        var v := if d.explore then c.val else c.base;
        (s, breadths[c.source := v], Some(ExploreRec(c.source, v, c.base)))
    else if !d.explore || d.pick >= |seeds| || seeds[d.pick].name !in breadths then (s, breadths, None)
    else
      var name := seeds[d.pick].name;
      var base := breadths[name];
      var cand := PerturbDocs(base, d.up);
      if cand == base then (s, breadths, None)
      else (s.(active := s.active[b := Candidate(name, cand, base, FRESH)]),
            breadths[name := cand], Some(ExploreRec(name, cand, base)))
  }

  function SelectSpec(s0: State, enabled: bool, floor: nat, b: Bucket, seeds: seq<SourceSeed>, samples: nat, d: Draw)
    : (State, map<string, int>, Option<ExploreRec>)
  {
    var s := SeedAll(s0, b, seeds);
    ChooseSpec(s, enabled, floor, b, seeds, Learned(s, b, seeds), samples, d)
  }

  function RollbackSpec(s: State, b: Bucket, source: string, base: int, setOk: bool): State {
    var cell := Cell(b, source);
    var def := ClipDocs(if cell in s.defaults then s.defaults[cell] else base);
    s.(current := if setOk then s.current[cell := def] else s.current, active := s.active - {b})
  }

  function PromoteSpec(s: State, b: Bucket, source: string, setOk: bool): State
    requires b in s.active
  {
    if setOk then s.(current := s.current[Cell(b, source) := ClipDocs(s.active[b].val)], active := s.active - {b}) else s
  }

  function JudgeSpec(s: State, b: Bucket, source: string, setOk: bool): State
    requires b in s.active
  {
    match WindowVerdict(s.active[b].trial)
    case Promote => PromoteSpec(s, b, source, setOk)
    case Discard => s.(active := s.active - {b})
    case _ => s
  }

  function UpdateSpec(s: State, b: Bucket, source: string, served: int, adjusted: real, weight: real, setOk: bool): State {
    if b !in s.active || s.active[b].source != source || (served != s.active[b].val && served != s.active[b].base) then s
    else
      var c := s.active[b];
      var (t, v) := Observe(c.trial, Sample(served == c.val, adjusted, weight));
      var s1 := s.(active := s.active[b := c.(trial := t)]);
      match v
      case Undecided => s1
      case Promote => PromoteSpec(s1, b, source, setOk)
      case Discard => s1.(active := s1.active - {b})
      case Rollback => RollbackSpec(s1, b, source, c.base, setOk)
  }

  // ---- seeding ----

  /** Every default is what its cell was first seeded with, or was there before. */
  ghost predicate OnlyAdds(s: State, u: State) {
    && u.active == s.active
    && (forall c | c in s.current :: c in u.current && u.current[c] == s.current[c])
    && (forall c | c in s.defaults :: c in u.defaults && u.defaults[c] == s.defaults[c])
    && (forall c | c in u.defaults && c !in s.defaults :: c in u.current && u.current[c] == u.defaults[c])
    && (forall c | c in u.current && c !in s.current :: c in u.defaults && FEWEST <= u.current[c] <= MOST)
  }

  lemma SeedCellOnlyAdds(s: State, u: State, c: Cell, v: int)
    requires OnlyAdds(s, u) && FEWEST <= v <= MOST
    ensures OnlyAdds(s, SeedCell(u, c, v))
  {}

  lemma {:induction false} SeedingOnlyAdds(s: State, b: Bucket, seeds: seq<SourceSeed>)
    ensures OnlyAdds(s, SeedAll(s, b, seeds))
    ensures forall n | n in SourceNames(seeds) :: Cell(b, n) in SeedAll(s, b, seeds).current
  {
    if seeds != [] {
      var init := seeds[..|seeds| - 1];
      var last := seeds[|seeds| - 1];
      SeedingOnlyAdds(s, b, init);
      SeedCellOnlyAdds(s, SeedAll(s, b, init), Cell(b, last.name), SeedValue(last));
      assert seeds == init + [last];
    }
  }

  lemma EverySourceIsLearned(s: State, b: Bucket, seeds: seq<SourceSeed>, name: string)
    requires name in SourceNames(seeds)
    ensures name in Learned(SeedAll(s, b, seeds), b, seeds)
  {
    SeedingOnlyAdds(s, b, seeds);
  }

  lemma LearnedGrows(s: State, b: Bucket, seeds: seq<SourceSeed>, sd: SourceSeed, v: int)
    requires forall n | n in SourceNames(seeds) :: Cell(b, n) in s.current
    ensures var u := SeedCell(s, Cell(b, sd.name), v);
      Learned(u, b, seeds + [sd]) == Learned(s, b, seeds)[sd.name := ClipDocs(u.current[Cell(b, sd.name)])]
  {
    assert SourceNames(seeds + [sd]) == SourceNames(seeds) + {sd.name};
  }

  /** Reading one more source seeds its cell and adds its breadth. */
  lemma ReadStep(s: State, b: Bucket, seeds: seq<SourceSeed>, i: nat)
    requires i < |seeds|
    ensures var before := SeedAll(s, b, seeds[..i]);
      var after := SeedAll(s, b, seeds[..i + 1]);
      var cell := Cell(b, seeds[i].name);
      && after == SeedCell(before, cell, SeedValue(seeds[i])) && cell in after.current
      && Learned(after, b, seeds[..i + 1]) == Learned(before, b, seeds[..i])[seeds[i].name := ClipDocs(after.current[cell])]
  {
    assert seeds[..i + 1][..i] == seeds[..i] && seeds[..i + 1] == seeds[..i] + [seeds[i]];
    SeedingOnlyAdds(s, b, seeds[..i]);
    LearnedGrows(SeedAll(s, b, seeds[..i]), b, seeds[..i], seeds[i], SeedValue(seeds[i]));
  }

  class SourceBandit {
    const floor: nat
    var enabled: bool
    var current: map<Cell, int>
    var defaults: map<Cell, int>
    var active: map<Bucket, Candidate>

    constructor (floor: nat)
      ensures Snapshot() == State(map[], map[], map[]) && !enabled && this.floor == floor
    {
      this.floor := floor;
      enabled, current, defaults, active := false, map[], map[], map[];
    }

    function Snapshot(): State
      reads this
    {
      State(current, defaults, active)
    }

    method CurrentSourceBreadth(c: Cell, seedDefault: int) returns (v: int)
      modifies this`current, this`defaults
      ensures Snapshot() == SeedCell(old(Snapshot()), c, ClipDocs(seedDefault))
      ensures c in current && v == ClipDocs(current[c])
    {
      if c in current {
        return ClipDocs(current[c]);
      }
      v := ClipDocs(seedDefault);
      current := current[c := v];
      if c !in defaults {
        defaults := defaults[c := v];
      }
    }

    method SelectAll(b: Bucket, seeds: seq<SourceSeed>, samples: nat, d: Draw)
      returns (breadths: map<string, int>, rec: Option<ExploreRec>)
      requires seeds != [] ==> d.pick < |seeds|
      modifies this`current, this`defaults, this`active
      ensures (Snapshot(), breadths, rec) == SelectSpec(old(Snapshot()), enabled, floor, b, seeds, samples, d)
    {
      breadths := ReadAll(b, seeds);
      rec := None;
      if !enabled || |seeds| == 0 || (!IsGlobal(b) && samples < floor) {
        return;
      }
      if b in active {
        var c := active[b];
        if c.source !in breadths {
          active := active - {b};
          return;
        }
        var v := if d.explore then c.val else c.base;
        breadths := breadths[c.source := v];
        rec := Some(ExploreRec(c.source, v, c.base));
        return;
      }
      if !d.explore {
        return;
      }
      var name := seeds[d.pick].name;
      assert name in breadths by { assert seeds[d.pick] in seeds; EverySourceIsLearned(old(Snapshot()), b, seeds, name); }
      var base := breadths[name];
      var cand := PerturbDocs(base, d.up);
      if cand == base {
        return;
      }
      active := active[b := Candidate(name, cand, base, FRESH)];
      breadths := breadths[name := cand];
      rec := Some(ExploreRec(name, cand, base));
    }

    method ReadAll(b: Bucket, seeds: seq<SourceSeed>) returns (breadths: map<string, int>)
      modifies this`current, this`defaults
      ensures Snapshot() == SeedAll(old(Snapshot()), b, seeds)
      ensures breadths == Learned(Snapshot(), b, seeds)
    {
      breadths := map[];
      for i := 0 to |seeds|
        invariant Snapshot() == SeedAll(old(Snapshot()), b, seeds[..i])
        invariant breadths == Learned(Snapshot(), b, seeds[..i])
      {
        ReadStep(old(Snapshot()), b, seeds, i);
        var def := if seeds[i].default <= 0 then UNCONFIGURED else seeds[i].default;
        var v := CurrentSourceBreadth(Cell(b, seeds[i].name), def);
        breadths := breadths[seeds[i].name := v];
      }
      assert seeds[..|seeds|] == seeds;
    }

    method Update(b: Bucket, source: string, served: int, adjusted: real, weight: real, setOk: bool)
      modifies this`current, this`active
      ensures Snapshot() == UpdateSpec(old(Snapshot()), b, source, served, adjusted, weight, setOk)
    {
      if b !in active || active[b].source != source {
        return;
      }
      var c := active[b];
      var weighted := Contribution(Sample(served == c.val, adjusted, weight));
      var t := c.trial;
      if served == c.val {
        t := t.(rewards := t.rewards + [weighted]);
        if adjusted < ROLLBACK_THRESHOLD {
          t := t.(consecBad := t.consecBad + 1);
          if t.consecBad >= ROLLBACK_STRIKES {
            RollBack(b, source, c.base, setOk);
            return;
          }
        } else {
          t := t.(consecBad := 0);
        }
      } else if served == c.base {
        t := t.(baseSamples := t.baseSamples + [weighted]);
      } else {
        return;
      }
      active := active[b := c.(trial := t)];
      JudgeWindow(b, source, setOk);
    }

    /** Three strikes: the cell's default is stored and the candidate goes. */
    method RollBack(b: Bucket, source: string, base: int, setOk: bool)
      modifies this`current, this`active
      ensures Snapshot() == RollbackSpec(old(Snapshot()), b, source, base, setOk)
    {
      var def := if Cell(b, source) in defaults then ClipDocs(defaults[Cell(b, source)]) else ClipDocs(base);
      if setOk {
        current := current[Cell(b, source) := def];
      }
      active := active - {b};
    }

    /** Once both windows are full the trial is promoted or discarded by its means. */
    method JudgeWindow(b: Bucket, source: string, setOk: bool)
      requires b in active
      modifies this`current, this`active
      ensures Snapshot() == JudgeSpec(old(Snapshot()), b, source, setOk)
    {
      var t := active[b].trial;
      if |t.rewards| >= PROMOTION_WINDOW && |t.baseSamples| >= BASE_WINDOW {
        var meanCand := ComputeMean(t.rewards);
        var meanBase := ComputeMean(t.baseSamples);
        if meanCand > meanBase + PROMOTION_LIFT {
          if setOk {
            current := current[Cell(b, source) := ClipDocs(active[b].val)];
            active := active - {b};
          }
        } else {
          active := active - {b};
        }
      }
    }
  }

  // ---- what every reachable state keeps ----

  /** The candidate was perturbed by exactly one from the breadth now stored for its cell. */
  ghost predicate CandidateOk(current: map<Cell, int>, b: Bucket, c: Candidate) {
    && Cell(b, c.source) in current && c.base == current[Cell(b, c.source)]
    && FEWEST <= c.val <= MOST && (c.val == c.base + 1 || c.val == c.base - 1)
  }

  ghost predicate CandidatesOk(current: map<Cell, int>, active: map<Bucket, Candidate>) {
    forall b | b in active :: CandidateOk(current, b, active[b])
  }

  ghost predicate CellsOk(current: map<Cell, int>, defaults: map<Cell, int>) {
    && (forall c | c in current :: FEWEST <= current[c] <= MOST && c in defaults)
    && (forall c | c in defaults :: FEWEST <= defaults[c] <= MOST)
  }

  ghost predicate Inv(s: State) {
    CandidatesOk(s.current, s.active) && CellsOk(s.current, s.defaults)
  }

  lemma SeedingKeeps(s: State, b: Bucket, seeds: seq<SourceSeed>)
    requires Inv(s)
    ensures Inv(SeedAll(s, b, seeds))
  {
    SeedingOnlyAdds(s, b, seeds);
    var u := SeedAll(s, b, seeds);
    forall x | x in u.active ensures CandidateOk(u.current, x, u.active[x]) {
      assert CandidateOk(s.current, x, s.active[x]);
    }
    assert CellsOk(u.current, u.defaults);
  }

  /** Every configured source at its stored breadth. */
  ghost predicate AllStored(current: map<Cell, int>, b: Bucket, seeds: seq<SourceSeed>, breadths: map<string, int>) {
    && breadths.Keys == SourceNames(seeds)
    && forall n | n in breadths :: Cell(b, n) in current && breadths[n] == current[Cell(b, n)]
  }

  lemma LearnedIsStored(s: State, b: Bucket, seeds: seq<SourceSeed>)
    requires Inv(s) && forall n | n in SourceNames(seeds) :: Cell(b, n) in s.current
    ensures AllStored(s.current, b, seeds, Learned(s, b, seeds))
  {}

  /** What a query is served: every source at its stored breadth except, when there is an explore
      record, the source it names, whose value it states and which is off by at most one; and
      that source and value are the live candidate's. */
  ghost predicate Serves(u: State, b: Bucket, seeds: seq<SourceSeed>, breadths: map<string, int>, rec: Option<ExploreRec>) {
    if rec.None? then AllStored(u.current, b, seeds, breadths)
    else
      var e := rec.value;
      && e.source in breadths && breadths[e.source] == e.val && FEWEST <= e.val <= MOST
      && AllStored(u.current, b, seeds, breadths[e.source := e.base])
      && (e.val == e.base || e.val == e.base + 1 || e.val == e.base - 1)
      && b in u.active && u.active[b].source == e.source && u.active[b].base == e.base
      && (e.val == u.active[b].val || e.val == e.base)
  }

  lemma ChoiceIsSound(s: State, enabled: bool, floor: nat, b: Bucket, seeds: seq<SourceSeed>,
                      breadths: map<string, int>, samples: nat, d: Draw)
    requires Inv(s) && AllStored(s.current, b, seeds, breadths)
    ensures var (u, served, rec) := ChooseSpec(s, enabled, floor, b, seeds, breadths, samples, d);
      && u.current == s.current && u.defaults == s.defaults && CandidatesOk(u.current, u.active)
      && Serves(u, b, seeds, served, rec)
  {
    if b in s.active {
      var c := s.active[b];
      assert CandidateOk(s.current, b, c);
      if c.source in breadths {
        assert breadths[c.source := c.base] == breadths;
        assert breadths[c.source := c.val][c.source := c.base] == breadths;
      }
    } else if d.pick < |seeds| && seeds[d.pick].name in breadths {
      var name := seeds[d.pick].name;
      assert FEWEST <= s.current[Cell(b, name)] <= MOST;
      assert breadths[name := PerturbDocs(breadths[name], d.up)][name := breadths[name]] == breadths;
    }
  }

  lemma ServedInBounds(u: State, b: Bucket, seeds: seq<SourceSeed>, breadths: map<string, int>, rec: Option<ExploreRec>)
    requires CellsOk(u.current, u.defaults) && Serves(u, b, seeds, breadths, rec)
    ensures forall n | n in breadths :: FEWEST <= breadths[n] <= MOST
  {
    if rec.Some? {
      forall n | n in breadths ensures FEWEST <= breadths[n] <= MOST {
        if n != rec.value.source { assert breadths[n] == breadths[rec.value.source := rec.value.base][n]; }
      }
    }
  }

  /** One selection, whatever the draws: it serves soundly, all values served are in bounds, it
      stores only seeds of cells not yet stored, and the invariant stays. */
  lemma SelectionIsSound(s0: State, enabled: bool, floor: nat, b: Bucket, seeds: seq<SourceSeed>, samples: nat, d: Draw)
    requires Inv(s0)
    ensures var (u, breadths, rec) := SelectSpec(s0, enabled, floor, b, seeds, samples, d);
      && Inv(u) && OnlyAdds(s0, u.(active := s0.active))
      && Serves(u, b, seeds, breadths, rec)
      && (forall n | n in breadths :: FEWEST <= breadths[n] <= MOST)
  {
    SeedingOnlyAdds(s0, b, seeds);
    SeedingKeeps(s0, b, seeds);
    var s := SeedAll(s0, b, seeds);
    LearnedIsStored(s, b, seeds);
    ChoiceIsSound(s, enabled, floor, b, seeds, Learned(s, b, seeds), samples, d);
    var (u, breadths, rec) := ChooseSpec(s, enabled, floor, b, seeds, Learned(s, b, seeds), samples, d);
    ServedInBounds(u, b, seeds, breadths, rec);
  }

  lemma SettlingKeeps(current: map<Cell, int>, active: map<Bucket, Candidate>, b: Bucket, source: string, v: int)
    requires CandidatesOk(current, active)
    ensures CandidatesOk(current[Cell(b, source) := v], active - {b})
  {
    forall x | x in active - {b} ensures CandidateOk(current[Cell(b, source) := v], x, active[x]) {
      assert CandidateOk(current, x, active[x]);
    }
  }

  /** One cell takes a new value, inside the bounds. */
  ghost predicate SetsCell(a: map<Cell, int>, b: map<Cell, int>, c: Cell) {
    c in b && FEWEST <= b[c] <= MOST && b == a[c := b[c]]
  }

  /** A reward that concerns a candidate is counted, or settles it and perhaps rewrites its cell. */
  lemma UpdateCountsOrSettles(s: State, b: Bucket, source: string, served: int, adjusted: real, weight: real, setOk: bool)
    requires b in s.active && s.active[b].source == source && (served == s.active[b].val || served == s.active[b].base)
    ensures var u := UpdateSpec(s, b, source, served, adjusted, weight, setOk);
      var t := Observe(s.active[b].trial, Sample(served == s.active[b].val, adjusted, weight)).0;
      && u.defaults == s.defaults
      && (u == s.(active := s.active[b := s.active[b].(trial := t)])
          || (u.active == s.active - {b} && (u.current == s.current || SetsCell(s.current, u.current, Cell(b, source)))))
  {
    var t := Observe(s.active[b].trial, Sample(served == s.active[b].val, adjusted, weight)).0;
    assert s.active[b := s.active[b].(trial := t)] - {b} == s.active - {b};
  }

  lemma CountingKeeps(current: map<Cell, int>, active: map<Bucket, Candidate>, b: Bucket, t: Trial)
    requires CandidatesOk(current, active) && b in active
    ensures CandidatesOk(current, active[b := active[b].(trial := t)])
  {
    var after := active[b := active[b].(trial := t)];
    forall x | x in after ensures CandidateOk(current, x, after[x]) { assert CandidateOk(current, x, active[x]); }
  }

  lemma SettledIsSound(s: State, u: State, b: Bucket, source: string, t: Trial)
    requires Inv(s) && b in s.active && s.active[b].source == source && u.defaults == s.defaults
    requires
      || u == s.(active := s.active[b := s.active[b].(trial := t)])
      || (u.active == s.active - {b} && (u.current == s.current || SetsCell(s.current, u.current, Cell(b, source))))
    ensures Inv(u)
  {
    assert CandidateOk(s.current, b, s.active[b]);
    CountingKeeps(s.current, s.active, b, t);
    if SetsCell(s.current, u.current, Cell(b, source)) {
      SettlingKeeps(s.current, s.active, b, source, u.current[Cell(b, source)]);
    }
  }

  /** A reward keeps the invariant and touches no default and no other cell. */
  lemma UpdateIsSound(s: State, b: Bucket, source: string, served: int, adjusted: real, weight: real, setOk: bool)
    requires Inv(s)
    ensures var u := UpdateSpec(s, b, source, served, adjusted, weight, setOk);
      && Inv(u) && u.defaults == s.defaults
      && (forall c | c in s.current && c != Cell(b, source) :: c in u.current && u.current[c] == s.current[c])
  {
    if b in s.active && s.active[b].source == source && (served == s.active[b].val || served == s.active[b].base) {
      var u := UpdateSpec(s, b, source, served, adjusted, weight, setOk);
      UpdateCountsOrSettles(s, b, source, served, adjusted, weight, setOk);
      SettledIsSound(s, u, b, source, Observe(s.active[b].trial, Sample(served == s.active[b].val, adjusted, weight)).0);
    }
  }

  /** How a trial ends: a promotion stores the candidate's value, a discard changes nothing, and
      a rollback stores the default the cell was first seeded with. */
  lemma EndOfTrial(s: State, b: Bucket, source: string, served: int, adjusted: real, weight: real)
    requires Inv(s) && b in s.active && s.active[b].source == source
    requires served == s.active[b].val || served == s.active[b].base
    ensures var u := UpdateSpec(s, b, source, served, adjusted, weight, true);
      var cell := Cell(b, source);
      && cell in u.current && cell in s.defaults
      && match Observe(s.active[b].trial, Sample(served == s.active[b].val, adjusted, weight)).1
         case Undecided =>
           var t := Observe(s.active[b].trial, Sample(served == s.active[b].val, adjusted, weight)).0;
           u == s.(active := s.active[b := s.active[b].(trial := t)])
         case Promote => b !in u.active && u.current[cell] == s.active[b].val
         case Discard => b !in u.active && u.current == s.current && u.current[cell] == s.active[b].base
         case Rollback => b !in u.active && u.current[cell] == s.defaults[cell]
  {
    assert CandidateOk(s.current, b, s.active[b]);
  }

  // ---- what a selection and a reward do, number by number ----

  /** Exploring is on, and the bucket is global or has the samples. */
  predicate Explores(enabled: bool, floor: nat, b: Bucket, seeds: seq<SourceSeed>, samples: nat) {
    && enabled && seeds != []
    && (b.topic == "" || b.topic == "*" || b.repo == "" || b.repo == "*" || samples >= floor)
  }

  function Between(v: int): int { if v < 2 then 2 else if v > 15 then 15 else v }

  lemma {:induction false} SeedingElsewhere(s: State, b: Bucket, seeds: seq<SourceSeed>, c: Cell)
    requires forall j | 0 <= j < |seeds| :: c != Cell(b, seeds[j].name)
    ensures var u := SeedAll(s, b, seeds);
      && (c in u.current <==> c in s.current) && (c in s.current ==> u.current[c] == s.current[c])
      && (c in u.defaults <==> c in s.defaults)
  {
    if seeds != [] { SeedingElsewhere(s, b, seeds[..|seeds| - 1], c); }
  }

  /** The first configuration that names a source fixes the breadth of a cell not yet stored: 5 unless
      it is positive, within 2 and 15. A stored cell stays as it is. */
  lemma {:induction false} FirstSeedCounts(s: State, b: Bucket, seeds: seq<SourceSeed>, i: nat)
    requires i < |seeds| && forall j | 0 <= j < i :: seeds[j].name != seeds[i].name
    ensures var u, cell := SeedAll(s, b, seeds), Cell(b, seeds[i].name);
      var v := Between(if seeds[i].default <= 0 then 5 else seeds[i].default);
      && cell in u.current && u.current[cell] == (if cell in s.current then s.current[cell] else v)
      && (cell !in s.current ==> cell in u.defaults)
      && (cell !in s.current && cell !in s.defaults ==> u.defaults[cell] == v)
  {
    var init := seeds[..|seeds| - 1];
    if i < |init| { FirstSeedCounts(s, b, init, i); } else { SeedingElsewhere(s, b, init, Cell(b, seeds[i].name)); }
  }

  /** With a live candidate of a configured source, an exploring draw serves it and any other draw its
      base, while trials stay as they are. The candidate of a source no longer configured goes, and
      nothing is served in its place. */
  lemma LiveCandidateIsServed(s0: State, enabled: bool, floor: nat, b: Bucket, seeds: seq<SourceSeed>, samples: nat, d: Draw)
    requires Inv(s0) && Explores(enabled, floor, b, seeds, samples) && b in s0.active
    ensures var (u, breadths, rec) := SelectSpec(s0, enabled, floor, b, seeds, samples, d);
      var c := s0.active[b];
      if c.source in SourceNames(seeds) then
        && u.active == s0.active && c.source in breadths && rec.Some?
        && breadths[c.source] == rec.value.val == (if d.explore then c.val else c.base)
        && rec.value.source == c.source && rec.value.base == c.base
      else u.active == s0.active - {b} && rec == None
  {
    SeedingOnlyAdds(s0, b, seeds);
    LearnedIsStored(SeedAll(s0, b, seeds), b, seeds) by { SeedingKeeps(s0, b, seeds); }
  }

  lemma PickIsMoved(s: State, enabled: bool, floor: nat, b: Bucket, seeds: seq<SourceSeed>,
                    breadths: map<string, int>, samples: nat, d: Draw)
    requires Explores(enabled, floor, b, seeds, samples) && b !in s.active && d.pick < |seeds|
    requires seeds[d.pick].name in breadths && FEWEST <= breadths[seeds[d.pick].name] <= MOST
    ensures var (u, served, rec) := ChooseSpec(s, enabled, floor, b, seeds, breadths, samples, d);
      var name, base := seeds[d.pick].name, breadths[seeds[d.pick].name];
      var next := base + if d.up then 1 else -1;
      if d.explore && 2 <= next <= 15 then
        && u == s.(active := s.active[b := Candidate(name, next, base, FRESH)])
        && served == breadths[name := next] && rec == Some(ExploreRec(name, next, base))
      else u == s && rec == None
  {
  }

  /** Without one, an exploring draw moves the picked source by one, unless it is at that end already;
      no other draw starts anything. */
  lemma NewCandidateIsServed(s0: State, enabled: bool, floor: nat, b: Bucket, seeds: seq<SourceSeed>, samples: nat, d: Draw)
    requires Inv(s0) && Explores(enabled, floor, b, seeds, samples) && b !in s0.active && d.pick < |seeds|
    ensures var (u, breadths, rec) := SelectSpec(s0, enabled, floor, b, seeds, samples, d);
      var name := seeds[d.pick].name;
      && Cell(b, name) in u.current
      && var base, next := u.current[Cell(b, name)], u.current[Cell(b, name)] + if d.up then 1 else -1;
      if d.explore && 2 <= next <= 15 then
        && u.active == s0.active[b := Candidate(name, next, base, FRESH)]
        && name in breadths && breadths[name] == next && rec == Some(ExploreRec(name, next, base))
      else u.active == s0.active && rec == None
  {
    SeedingOnlyAdds(s0, b, seeds);
    SeedingKeeps(s0, b, seeds);
    LearnedIsStored(SeedAll(s0, b, seeds), b, seeds);
    assert seeds[d.pick] in seeds;
    PickIsMoved(SeedAll(s0, b, seeds), enabled, floor, b, seeds, Learned(SeedAll(s0, b, seeds), b, seeds), samples, d);
  }

  /** Where nothing is explored, every source is served as stored. */
  lemma NothingIsExplored(s0: State, enabled: bool, floor: nat, b: Bucket, seeds: seq<SourceSeed>, samples: nat, d: Draw)
    requires Inv(s0) && !Explores(enabled, floor, b, seeds, samples)
    ensures var (u, breadths, rec) := SelectSpec(s0, enabled, floor, b, seeds, samples, d);
      u.active == s0.active && rec == None && AllStored(u.current, b, seeds, breadths)
  {
    SelectionIsSound(s0, enabled, floor, b, seeds, samples, d);
    SeedingOnlyAdds(s0, b, seeds);
  }

  /** A reward for another source, or for a breadth that is neither the candidate's nor its base, or
      with no candidate, does nothing. */
  lemma StaleRewardsDoNothing(s: State, b: Bucket, source: string, served: int, adjusted: real, weight: real, setOk: bool)
    requires b !in s.active || s.active[b].source != source || (served != s.active[b].val && served != s.active[b].base)
    ensures UpdateSpec(s, b, source, served, adjusted, weight, setOk) == s
  {
  }

  /** A refused write loses no trial but one that was rolled back. */
  lemma RefusedWrite(s: State, b: Bucket, source: string, served: int, adjusted: real, weight: real)
    requires Inv(s) && b in s.active && s.active[b].source == source
    requires served == s.active[b].val || served == s.active[b].base
    ensures var u := UpdateSpec(s, b, source, served, adjusted, weight, false);
      var (t, verdict) := Observe(s.active[b].trial, Sample(served == s.active[b].val, adjusted, weight));
      && u.current == s.current && u.defaults == s.defaults
      && u.active == if verdict == Undecided || verdict == Promote then s.active[b := s.active[b].(trial := t)] else s.active - {b}
  {
    var t := Observe(s.active[b].trial, Sample(served == s.active[b].val, adjusted, weight)).0;
    assert s.active[b := s.active[b].(trial := t)] - {b} == s.active - {b};
  }

  // ---- over whole runs ----

  datatype Event =
    | Select(b: Bucket, seeds: seq<SourceSeed>, samples: nat, d: Draw)
    | Update(b: Bucket, source: string, served: int, adjusted: real, weight: real, setOk: bool)
    | Restart

  function Step(s: State, enabled: bool, floor: nat, e: Event): State {
    match e
    case Select(b, seeds, samples, d) => SelectSpec(s, enabled, floor, b, seeds, samples, d).0
    case Update(b, source, served, adjusted, weight, setOk) => UpdateSpec(s, b, source, served, adjusted, weight, setOk)
    case Restart => s.(active := map[])
  }

  function Run(enabled: bool, floor: nat, events: seq<Event>): State {
    if events == [] then State(map[], map[], map[])
    else Step(Run(enabled, floor, events[..|events| - 1]), enabled, floor, events[|events| - 1])
  }

  lemma {:induction false} EveryRunKeeps(enabled: bool, floor: nat, events: seq<Event>)
    ensures Inv(Run(enabled, floor, events))
  {
    if events != [] {
      EveryRunKeeps(enabled, floor, events[..|events| - 1]);
      var s := Run(enabled, floor, events[..|events| - 1]);
      match events[|events| - 1]
      case Select(b, seeds, samples, d) => SelectionIsSound(s, enabled, floor, b, seeds, samples, d);
      case Update(b, source, served, adjusted, weight, setOk) => UpdateIsSound(s, b, source, served, adjusted, weight, setOk);
      case Restart =>
    }
  }

  /** The default of a cell is fixed by whatever event first stored it, for the rest of the run. */
  lemma {:induction false} DefaultsAreForever(enabled: bool, floor: nat, events: seq<Event>, i: nat, c: Cell)
    requires i <= |events| && c in Run(enabled, floor, events[..i]).defaults
    ensures c in Run(enabled, floor, events).defaults
    ensures Run(enabled, floor, events).defaults[c] == Run(enabled, floor, events[..i]).defaults[c]
    decreases |events|
  {
    if i < |events| {
      var init := events[..|events| - 1];
      assert init[..i] == events[..i];
      DefaultsAreForever(enabled, floor, init, i, c);
      EveryRunKeeps(enabled, floor, init);
      var s := Run(enabled, floor, init);
      match events[|events| - 1]
      case Select(b, seeds, samples, d) => SelectionIsSound(s, enabled, floor, b, seeds, samples, d);
      case Update(b, source, served, adjusted, weight, setOk) => UpdateIsSound(s, b, source, served, adjusted, weight, setOk);
      case Restart =>
    } else {
      assert events[..i] == events;
    }
  }
}
