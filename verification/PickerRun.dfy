/** The picker under concurrency. Every pick is a sequence of separate store reads and writes
    made under a shared read lock; rewards and resets hold the write lock. A state is what
    the process and Redis hold between two such actions. */
module PickerRun {
  import opened Wrappers
  import opened Profiles
  import opened HeuristicsStore
  import opened Trials
  import opened Bandits

  /** Where a pick stands. Every constructor means that the pick holds the read lock. */
  datatype Pick =
    | GetBucket(b: Bucket, samples: nat)     // about to read the bucket's profile
    | GetIntent(b: Bucket, samples: nat)     // about to read the intent's profile
    | PutIntent(b: Bucket, samples: nat)     // found none: about to store the default
    | CheckFrozen(b: Bucket, samples: nat)   // about to test for the frozen default
    | PutFrozen(b: Bucket, samples: nat)     // found none: about to store it
    | PutBucket(b: Bucket, samples: nat, seed: Profile)  // about to store the bucket's seed
    | Choose(b: Bucket, samples: nat, base: Profile)     // about to enter the bandit
    | Served(b: Bucket, base: Profile, profile: Profile) // about to return and unlock

  /** log, seeds and seen only remember the run: the untrimmed audit list (newest first) and
      the seed of each slot, and the rewards each live candidate has received. clean is false
      once a write has failed. */
  datatype Sys = Sys(
    floor: nat, isFrozen: bool,
    tunable: set<string>, tables: Tables, active: map<Bucket, Candidate>,
    picks: map<nat, Pick>,
    log: map<Slot, seq<HistoryEntry>>, seeds: map<Slot, Profile>,
    seen: map<Bucket, seq<Sample>>, clean: bool)

  datatype Event =
    | Enable(name: string)
    | Start(pid: nat, b: Bucket, samples: nat, topicsOn: bool)
    | Access(pid: nat, ok: bool)        // the next store access of a pick, and whether it works
    | Enter(pid: nat, draw: Draw)       // the pick calls Select
    | Finish(pid: nat)                  // the pick returns and unlocks
    | Reward(b: Bucket, served: Profile, adjusted: real, weight: real, io: Io)
    | Reset(intent: string, io: Io)
    | Restart                           // the process dies and comes back

  function Initial(floor: nat, isFrozen: bool): Sys {
    Sys(floor, isFrozen, {}, Tables(map[], map[], map[]), map[], map[], map[], map[], map[], true)
  }

  predicate Enabled(s: Sys, e: Event) {
    match e
    case Enable(_) => true
    case Start(pid, _, _, _) => pid !in s.picks
    case Access(pid, _) => pid in s.picks && !s.picks[pid].Choose? && !s.picks[pid].Served?
    case Enter(pid, d) =>
      pid in s.picks && s.picks[pid].Choose? && (s.tunable != {} ==> d.knob in s.tunable)
    case Finish(pid) => pid in s.picks && s.picks[pid].Served?
    // the write lock is granted only when no pick holds the read lock
    case Reward(_, _, _, _, _) => s.picks == map[]
    case Reset(_, _) => s.picks == map[]
    case Restart => true
  }

  /** The slot whose profile a pick hands to the bandit: a cold bucket is served its intent's. */
  function SourceSlot(floor: nat, b: Bucket, samples: nat): Slot {
    if Gated(b, samples, floor) then IntentSlot(b.intent) else SlotOf(b)
  }

  function StartOf(floor: nat, b: Bucket, samples: nat, topicsOn: bool): Pick {
    if !topicsOn || IsGlobal(b) then GetIntent(GlobalBucket(b.intent), 0)
    else if samples < floor then GetIntent(b, samples)
    else GetBucket(b, samples)
  }

  /** What follows once the intent's profile p is in hand. */
  function WithIntentProfile(floor: nat, b: Bucket, samples: nat, p: Profile): Pick {
    if IsGlobal(b) || Gated(b, samples, floor) then Choose(b, samples, p) else PutBucket(b, samples, p)
  }

  /** A failed access ends the pick with the built-in default, without entering the bandit. */
  function FallBack(b: Bucket): Pick { Served(b, Default(b.intent), Default(b.intent)) }

  function Remember(seeds: map<Slot, Profile>, slot: Slot, p: Profile): map<Slot, Profile> {
    if slot in seeds then seeds else seeds[slot := p]
  }

  /** Where a pick goes after its store access; t is the store before it. */
  function AccessNext(t: Tables, floor: nat, k: Pick, ok: bool): Pick
    requires !k.Choose? && !k.Served?
  {
    if !ok then
      // the existence test swallows its error and the default is written regardless
      if k.CheckFrozen? then PutFrozen(k.b, k.samples) else FallBack(k.b)
    else match k
      case GetBucket(b, n) =>
        if SlotOf(b) in t.current then Choose(b, n, Read(t, SlotOf(b))) else GetIntent(b, n)
      case GetIntent(b, n) =>
        if IntentSlot(b.intent) in t.current
        then WithIntentProfile(floor, b, n, Read(t, IntentSlot(b.intent)))
        else PutIntent(b, n)
      case PutIntent(b, n) => CheckFrozen(b, n)
      case CheckFrozen(b, n) =>
        if b.intent in t.frozen then WithIntentProfile(floor, b, n, Default(b.intent)) else PutFrozen(b, n)
      case PutFrozen(b, n) => WithIntentProfile(floor, b, n, Default(b.intent))
      case PutBucket(b, n, seed) => Choose(b, n, seed)
  }

  /** The slot a pick is about to seed, and with what. */
  function Seeding(k: Pick): Option<(Slot, Profile)> {
    if k.PutIntent? then Some((IntentSlot(k.b.intent), Default(k.b.intent)))
    else if k.PutBucket? then Some((SlotOf(k.b), k.seed))
    else None
  }

  function AccessTables(t: Tables, k: Pick, ok: bool): Tables {
    if !ok then t
    else if Seeding(k).Some? then WithCurrent(t, Seeding(k).value.0, Seeding(k).value.1, true)
    else if k.PutFrozen? then t.(frozen := t.frozen[k.b.intent := Default(k.b.intent)])
    else t
  }

  function AccessStep(s: Sys, pid: nat, ok: bool): Sys
    requires Enabled(s, Access(pid, ok))
  {
    var k := s.picks[pid];
    s.(tables := AccessTables(s.tables, k, ok),
       seeds := if ok && Seeding(k).Some? then Remember(s.seeds, Seeding(k).value.0, Seeding(k).value.1) else s.seeds,
       picks := s.picks[pid := AccessNext(s.tables, s.floor, k, ok)])
  }

  function EnterStep(s: Sys, pid: nat, d: Draw): Sys
    requires Enabled(s, Enter(pid, d))
  {
    var k := s.picks[pid];
    var (active, p) := SelectSpec(s.active, s.tunable, s.floor, k.b, k.base, k.samples, d);
    s.(active := active,
       seen := if k.b in active && k.b !in s.active then s.seen[k.b := []] else s.seen,
       picks := s.picks[pid := Served(k.b, k.base, p)])
  }

  function LogAt(log: map<Slot, seq<HistoryEntry>>, slot: Slot): seq<HistoryEntry> {
    if slot in log then log[slot] else []
  }

  /** The entry the audit list gained, put in front of the untrimmed log. */
  function Logged(log: map<Slot, seq<HistoryEntry>>, slot: Slot, e: HistoryEntry, ok: bool): map<Slot, seq<HistoryEntry>> {
    if ok then log[slot := [e] + LogAt(log, slot)] else log
  }

  /** Rewards for any global coordinate go to the intent's one global bucket. */
  function Target(raw: Bucket): (b: Bucket)
    ensures IsGlobal(b) ==> b == GlobalBucket(b.intent)
    ensures SlotOf(b) == SlotOf(raw)
  {
    if IsGlobal(raw) then GlobalBucket(raw.intent) else raw
  }

  function SeenAt(seen: map<Bucket, seq<Sample>>, b: Bucket): seq<Sample> {
    if b in seen then seen[b] else []
  }

  function RewardStep(s: Sys, raw: Bucket, served: Profile, adjusted: real, weight: real, io: Io): Sys {
    var b := Target(raw);
    var before := State(s.tables, s.active);
    if s.isFrozen || !Routed(before, b, served) then s else
      var after := UpdateSpec(before, b, served, adjusted, weight, io);
      var sample := SampleOf(s.active[b], served, adjusted, weight);
      if Counts(before, b, sample, io) then
        s.(tables := after.tables, active := after.active,
           seen := s.seen[b := SeenAt(s.seen, b) + [sample]],
           clean := s.clean && Observe(s.active[b].trial, sample).1 == Undecided)
      else
        var e := FiledEntry(before, b, sample, io);
        s.(tables := after.tables, active := after.active,
           log := Logged(s.log, SlotOf(b), e, io.logOk),
           seen := s.seen - {b},
           clean := s.clean && io.logOk && (e.kind == RollbackEntry ==> io.setOk))
  }

  function ResetStep(s: Sys, intent: string, io: Io): Sys {
    var after := ResetSpec(State(s.tables, s.active), intent, io);
    var slot := IntentSlot(intent);
    var def := FrozenDefault(s.tables, intent, io.readOk);
    if !io.setOk then s.(clean := false) else
      s.(tables := after.tables, active := after.active,
         log := Logged(s.log, slot, HistoryEntry(RollbackEntry, NO_PROFILE, def), io.logOk),
         seeds := Remember(s.seeds, slot, def),
         seen := map b | b in s.seen && b.intent != intent :: s.seen[b],
         clean := s.clean && io.logOk)
  }

  function Step(s: Sys, e: Event): Sys
    requires Enabled(s, e)
  {
    match e
    case Enable(name) => s.(tunable := s.tunable + {name})
    case Start(pid, b, n, topicsOn) => s.(picks := s.picks[pid := StartOf(s.floor, b, n, topicsOn)])
    case Access(pid, ok) => AccessStep(s, pid, ok)
    case Enter(pid, d) => EnterStep(s, pid, d)
    case Finish(pid) => s.(picks := s.picks - {pid})
    case Reward(b, served, adjusted, weight, io) => RewardStep(s, b, served, adjusted, weight, io)
    case Reset(intent, io) => ResetStep(s, intent, io)
    case Restart => s.(picks := map[], active := map[], seen := map[], tunable := {})
  }

  // ---- what every reachable state keeps ----

  /** A live candidate is addressed canonically, was perturbed from exactly the profile now
      stored for its bucket, and is one unit step away from it. */
  ghost predicate CandidateOk(t: Tables, b: Bucket, c: Candidate) {
    && (IsGlobal(b) ==> b == GlobalBucket(b.intent))
    && SlotOf(b) in t.current
    && c.base == Read(t, SlotOf(b))
    && InBounds(c.profile) && OneStep(c.base, c.profile)
  }

  /** The intent's profile, if it is already stored, is still the default. */
  predicate IntentUnseeded(t: Tables, intent: string) {
    IntentSlot(intent) in t.current ==> Read(t, IntentSlot(intent)) == Default(intent)
  }

  /** A bucket that was missing when a pick looked can only have been seeded since. */
  predicate BucketUnseeded(t: Tables, floor: nat, b: Bucket, samples: nat) {
    !Gated(b, samples, floor) && SlotOf(b) in t.current ==>
      IntentSlot(b.intent) in t.current && Read(t, SlotOf(b)) == Read(t, IntentSlot(b.intent))
  }

  predicate Canonical(b: Bucket) { IsGlobal(b) ==> b == GlobalBucket(b.intent) }

  /** What a caller is served: inside the bounds and at most one unit step from what was read. */
  ghost predicate WithinOneStep(base: Profile, p: Profile) {
    InBounds(base) && InBounds(p) && (p == base || OneStep(base, p))
  }

  ghost predicate PickOk(t: Tables, floor: nat, k: Pick) {
    match k
    case GetBucket(b, n) => !IsGlobal(b) && n >= floor
    case GetIntent(b, n) => Canonical(b) && BucketUnseeded(t, floor, b, n)
    case PutIntent(b, n) => Canonical(b) && BucketUnseeded(t, floor, b, n) && IntentUnseeded(t, b.intent)
    case CheckFrozen(b, n) =>
      && Canonical(b) && BucketUnseeded(t, floor, b, n) && IntentUnseeded(t, b.intent)
      && IntentSlot(b.intent) in t.current
    case PutFrozen(b, n) =>
      && Canonical(b) && BucketUnseeded(t, floor, b, n) && IntentUnseeded(t, b.intent)
      && IntentSlot(b.intent) in t.current
    case PutBucket(b, n, seed) =>
      && !IsGlobal(b) && n >= floor && BucketUnseeded(t, floor, b, n)
      && IntentSlot(b.intent) in t.current && Read(t, IntentSlot(b.intent)) == seed
    case Choose(b, n, base) =>
      && Canonical(b)
      && SourceSlot(floor, b, n) in t.current && base == Read(t, SourceSlot(floor, b, n))
    case Served(b, base, p) => WithinOneStep(base, p)
  }

  predicate FrozenOk(t: Tables) {
    forall i | i in t.frozen :: t.frozen[i] == Default(i)
  }

  ghost predicate CandidatesOk(t: Tables, active: map<Bucket, Candidate>) {
    forall b | b in active :: CandidateOk(t, b, active[b])
  }

  ghost predicate PicksOk(t: Tables, floor: nat, picks: map<nat, Pick>) {
    forall pid | pid in picks :: PickOk(t, floor, picks[pid])
  }

  /** Agreement between memory and store, in every state of every interleaving. */
  ghost predicate Agreement(s: Sys) {
    CandidatesOk(s.tables, s.active) && PicksOk(s.tables, s.floor, s.picks) && FrozenOk(s.tables)
  }

  lemma InitialAgrees(floor: nat, isFrozen: bool)
    ensures Agreement(Initial(floor, isFrozen))
  {}

  /** From t to u some pick stored one seed, which changes no profile already stored. */
  ghost predicate Seeded(t: Tables, u: Tables, slot: Slot) {
    && u.current.Keys == t.current.Keys + {slot}
    && (forall x | x in t.current :: Read(u, x) == Read(t, x))
    && match slot
       case IntentSlot(i) => Read(u, slot) == Default(i)
       case BucketSlot(i, _, _) => IntentSlot(i) in t.current && Read(u, slot) == Read(t, IntentSlot(i))
  }

  lemma SeedingKeepsPick(t: Tables, u: Tables, slot: Slot, floor: nat, k: Pick)
    requires PickOk(t, floor, k) && Seeded(t, u, slot)
    ensures PickOk(u, floor, k)
  {}

  lemma SeedingKeepsAgreement(s: Sys, u: Tables, slot: Slot)
    requires Agreement(s) && Seeded(s.tables, u, slot)
    ensures CandidatesOk(u, s.active) && PicksOk(u, s.floor, s.picks)
  {
    forall pid | pid in s.picks ensures PickOk(u, s.floor, s.picks[pid]) {
      SeedingKeepsPick(s.tables, u, slot, s.floor, s.picks[pid]);
    }
    forall b | b in s.active ensures CandidateOk(u, b, s.active[b]) {
      assert CandidateOk(s.tables, b, s.active[b]);
    }
  }

  /** The write of a seed stores what is already there, or what the invariant foresees. */
  lemma SeedIsForeseen(t: Tables, floor: nat, k: Pick)
    requires PickOk(t, floor, k) && Seeding(k).Some?
    ensures Seeded(t, AccessTables(t, k, true), Seeding(k).value.0)
  {}

  lemma AccessMovesOn(t: Tables, floor: nat, k: Pick, ok: bool)
    requires PickOk(t, floor, k) && FrozenOk(t) && !k.Choose? && !k.Served?
    ensures PickOk(AccessTables(t, k, ok), floor, AccessNext(t, floor, k, ok))
    ensures FrozenOk(AccessTables(t, k, ok))
  {
    var u := AccessTables(t, k, ok);
    if ok && Seeding(k).Some? {
      SeedIsForeseen(t, floor, k);
      SeedingKeepsPick(t, u, Seeding(k).value.0, floor, k);
    } else {
      assert u.current == t.current;
    }
  }

  lemma ReplacePick(t: Tables, floor: nat, picks: map<nat, Pick>, pid: nat, k: Pick)
    requires PicksOk(t, floor, picks) && PickOk(t, floor, k)
    ensures PicksOk(t, floor, picks[pid := k])
  {}

  /** Nothing here depends on the frozen defaults or the audit lists. */
  lemma SameCurrent(s: Sys, u: Tables)
    requires Agreement(s) && u.current == s.tables.current
    ensures CandidatesOk(u, s.active) && PicksOk(u, s.floor, s.picks)
  {
    forall pid | pid in s.picks ensures PickOk(u, s.floor, s.picks[pid]) {
      assert PickOk(s.tables, s.floor, s.picks[pid]);
    }
    forall b | b in s.active ensures CandidateOk(u, b, s.active[b]) {
      assert CandidateOk(s.tables, b, s.active[b]);
    }
  }

  lemma AccessKeepsAgreement(s: Sys, pid: nat, ok: bool)
    requires Agreement(s) && Enabled(s, Access(pid, ok))
    ensures Agreement(AccessStep(s, pid, ok))
  {
    var k := s.picks[pid];
    var u := AccessTables(s.tables, k, ok);
    AccessMovesOn(s.tables, s.floor, k, ok);
    if ok && Seeding(k).Some? {
      SeedIsForeseen(s.tables, s.floor, k);
      SeedingKeepsAgreement(s, u, Seeding(k).value.0);
    } else {
      SameCurrent(s, u);
    }
    ReplacePick(u, s.floor, s.picks, pid, AccessNext(s.tables, s.floor, k, ok));
  }

  lemma OpeningIsSound(t: Tables, active: map<Bucket, Candidate>, b: Bucket, base: Profile, d: Draw)
    requires CandidatesOk(t, active) && Canonical(b) && SlotOf(b) in t.current && base == Read(t, SlotOf(b))
    ensures var cand := Perturb(base, d.knob, d.up);
      WithinOneStep(base, cand) && (cand != base ==> CandidatesOk(t, active[b := Candidate(cand, base, FRESH)]))
  {
    PerturbIsOneStep(base, d.knob, d.up);
    var after := active[b := Candidate(Perturb(base, d.knob, d.up), base, FRESH)];
    forall x | x in active && x != b ensures CandidateOk(t, x, after[x]) { assert CandidateOk(t, x, active[x]); }
  }

  /** The bandit's half of a pick: whatever the draws, the served profile is at most one step
      from the profile read, and a candidate that appears is perturbed from the stored one. */
  lemma SelectIsSound(t: Tables, active: map<Bucket, Candidate>, tunable: set<string>, floor: nat,
                      b: Bucket, base: Profile, samples: nat, d: Draw)
    requires CandidatesOk(t, active) && Canonical(b)
    requires SourceSlot(floor, b, samples) in t.current && base == Read(t, SourceSlot(floor, b, samples))
    ensures var (after, p) := SelectSpec(active, tunable, floor, b, base, samples, d);
      && CandidatesOk(t, after) && WithinOneStep(base, p)
      && (p != base ==> b in after && after[b].profile == p && after[b].base == base)
  {
    if tunable != {} && !Gated(b, samples, floor) && d.explore {
      if b in active {
        assert CandidateOk(t, b, active[b]);
      } else {
        OpeningIsSound(t, active, b, base, d);
      }
    }
  }

  lemma EnterKeepsAgreement(s: Sys, pid: nat, d: Draw)
    requires Agreement(s) && Enabled(s, Enter(pid, d))
    ensures Agreement(EnterStep(s, pid, d))
  {
    var u := EnterStep(s, pid, d);
    var k := s.picks[pid];
    assert PickOk(s.tables, s.floor, k);
    SelectIsSound(s.tables, s.active, s.tunable, s.floor, k.b, k.base, k.samples, d);
  }

  /** Buckets the picker may have candidates for do not share slots. */
  lemma SlotDeterminesBucket(b: Bucket, c: Bucket)
    requires Canonical(b) && Canonical(c) && SlotOf(b) == SlotOf(c)
    ensures b == c
  {}

  /** Rewriting the slot of one bucket, whose candidate is gone, leaves the others in agreement. */
  lemma SettlingKeepsCandidates(t: Tables, active: map<Bucket, Candidate>, b: Bucket, u: Tables, p: Profile)
    requires CandidatesOk(t, active) && Canonical(b)
    requires u.current == t.current || u.current == t.current[SlotOf(b) := p]
    ensures CandidatesOk(u, active - {b})
  {
    forall c | c in active - {b} ensures CandidateOk(u, c, active[c]) {
      assert CandidateOk(t, c, active[c]);
      if SlotOf(c) == SlotOf(b) { SlotDeterminesBucket(b, c); }
    }
  }

  lemma CountingKeepsCandidates(t: Tables, active: map<Bucket, Candidate>, b: Bucket, trial: Trial)
    requires CandidatesOk(t, active) && b in active
    ensures CandidatesOk(t, active[b := active[b].(trial := trial)])
  {
    var after := active[b := active[b].(trial := trial)];
    forall c | c in after ensures CandidateOk(t, c, after[c]) {
      assert CandidateOk(t, c, active[c]);
    }
  }

  /** What one reward can do: count, or settle the bucket's candidate and perhaps rewrite its slot. */
  lemma UpdateKeepsCandidates(s: State, b: Bucket, served: Profile, adjusted: real, weight: real, io: Io)
    requires CandidatesOk(s.tables, s.active) && Canonical(b)
    ensures var u := UpdateSpec(s, b, served, adjusted, weight, io);
      CandidatesOk(u.tables, u.active) && u.tables.frozen == s.tables.frozen
  {
    if Routed(s, b, served) {
      UpdateCountsOrFiles(s, b, served, adjusted, weight, io);
      var sample := SampleOf(s.active[b], served, adjusted, weight);
      if Counts(s, b, sample, io) {
        CountingKeepsCandidates(s.tables, s.active, b, Observe(s.active[b].trial, sample).0);
      } else {
        var e := FiledEntry(s, b, sample, io);
        SettlingKeepsCandidates(s.tables, s.active, b, Filed(s.tables, b, e, io), Clip(e.to));
      }
    }
  }

  lemma RewardKeepsAgreement(s: Sys, raw: Bucket, served: Profile, adjusted: real, weight: real, io: Io)
    requires Agreement(s) && s.picks == map[]
    ensures Agreement(RewardStep(s, raw, served, adjusted, weight, io))
  {
    var b := Target(raw);
    UpdateKeepsCandidates(State(s.tables, s.active), b, served, adjusted, weight, io);
  }

  /** A new profile for an intent concerns no candidate of another intent. */
  lemma RewritingKeepsOthers(t: Tables, active: map<Bucket, Candidate>, intent: string, u: Tables, p: Profile)
    requires CandidatesOk(t, active)
    requires u.current == t.current[IntentSlot(intent) := p]
    ensures CandidatesOk(u, OtherIntents(active, intent))
  {
    var rest := OtherIntents(active, intent);
    forall c | c in rest ensures CandidateOk(u, c, rest[c]) {
      assert CandidateOk(t, c, active[c]);
      assert SlotOf(c) != IntentSlot(intent);
    }
  }

  lemma ResetKeepsCandidates(s: State, intent: string, io: Io)
    requires CandidatesOk(s.tables, s.active)
    ensures var u := ResetSpec(s, intent, io);
      CandidatesOk(u.tables, u.active) && u.tables.frozen == s.tables.frozen
  {
    if io.setOk {
      var u := ResetSpec(s, intent, io);
      RewritingKeepsOthers(s.tables, s.active, intent, u.tables, Clip(FrozenDefault(s.tables, intent, io.readOk)));
    }
  }

  lemma ResetKeepsAgreement(s: Sys, intent: string, io: Io)
    requires Agreement(s) && s.picks == map[]
    ensures Agreement(ResetStep(s, intent, io))
  {
    ResetKeepsCandidates(State(s.tables, s.active), intent, io);
  }

  lemma StepKeepsAgreement(s: Sys, e: Event)
    requires Agreement(s) && Enabled(s, e)
    ensures Agreement(Step(s, e))
  {
    match e
    case Enable(name) =>
    case Start(pid, b, n, topicsOn) =>
      assert PickOk(s.tables, s.floor, StartOf(s.floor, b, n, topicsOn));
    case Access(pid, ok) => AccessKeepsAgreement(s, pid, ok);
    case Enter(pid, d) => EnterKeepsAgreement(s, pid, d);
    case Finish(pid) =>
    case Reward(b, served, adjusted, weight, io) => RewardKeepsAgreement(s, b, served, adjusted, weight, io);
    case Reset(intent, io) => ResetKeepsAgreement(s, intent, io);
    case Restart =>
  }
}
