/** A moment from which the statistics page can go wrong is reached by an ordinary run. */
module PickerReach {
  import opened Wrappers
  import opened Profiles
  import opened HeuristicsStore
  import opened Trials
  import opened Bandits
  import opened PickerRun
  import opened AuditLog
  import opened PickerLimits

  /** The intents the statistics page visits. */
  const KNOWN_INTENTS := ["debug", "explore", "trace", "refactor", "general"]

  const KNOB := "max_trace"
  const ALL_WELL := Io(true, true, true)

  /** Some run of a process with this floor, not frozen, ends here. */
  ghost predicate Reached(s: Sys, floor: nat) {
    exists states, events :: IsRun(states, events, floor, false) && states[|events|] == s
  }

  lemma StartIsReached(floor: nat)
    ensures Reached(Initial(floor, false), floor)
  {
    var states: seq<Sys>, events: seq<Event> := [Initial(floor, false)], [];
    assert IsRun(states, events, floor, false) && states[|events|] == Initial(floor, false);
  }

  lemma NextIsReached(s: Sys, e: Event, floor: nat)
    requires Reached(s, floor) && Enabled(s, e)
    ensures Reached(Step(s, e), floor)
  {
    var states, events :| IsRun(states, events, floor, false) && states[|events|] == s;
    var longer, more := states + [Step(s, e)], events + [e];
    forall i | 0 <= i < |more| ensures Enabled(longer[i], more[i]) && longer[i + 1] == Step(longer[i], more[i]) {
      if i < |events| { assert longer[i] == states[i] && longer[i + 1] == states[i + 1] && more[i] == events[i]; }
    }
    assert IsRun(longer, more, floor, false) && longer[|more|] == Step(s, e);
  }

  /** The candidate the run explores. */
  function Tried(intent: string): Profile { Perturb(Default(intent), KNOB, true) }

  lemma TriedIsNew(intent: string)
    ensures Tried(intent) != Default(intent) && Clip(Tried(intent)) == Tried(intent)
  {
    PerturbIsOneStep(Default(intent), KNOB, true);
    assert Tuned(intent)[0] == 5 && Default(intent)[0] == 5;
    assert KnobOf(KNOB) == Some(0);
  }

  /** The trial of an intent's global bucket is under way, and its base is stored. */
  ghost predicate Trying(s: Sys, intent: string, floor: nat, t: Trial) {
    && s.picks == map[] && s.tunable == {KNOB} && s.floor == floor && !s.isFrozen
    && s.tables.current == map[IntentSlot(intent) := Default(intent)]
    && s.active == map[GlobalBucket(intent) := Candidate(Tried(intent), Default(intent), t)]
  }

  ghost predicate UnderWay(s: Sys, intent: string, floor: nat, t: Trial) {
    Reached(s, floor) && Trying(s, intent, floor, t)
  }

  /** A process with one knob enabled starts its first pick. */
  lemma FirstStart(intent: string, floor: nat) returns (s: Sys)
    ensures Reached(s, floor) && s.tunable == {KNOB} && s.floor == floor && !s.isFrozen && s.active == map[]
    ensures s.tables == Tables(map[], map[], map[]) && s.picks == map[0 := GetIntent(GlobalBucket(intent), 0)]
  {
    var b := GlobalBucket(intent);
    StartIsReached(floor);
    NextIsReached(Initial(floor, false), Enable(KNOB), floor);
    var s0 := Step(Initial(floor, false), Enable(KNOB));
    NextIsReached(s0, Start(0, b, 0, false), floor);
    s := Step(s0, Start(0, b, 0, false));
  }

  /** What the four accesses do to an empty store. */
  lemma FirstLook(b: Bucket, floor: nat)
    requires IsGlobal(b)
    ensures var t := Tables(map[], map[], map[]);
      && AccessTables(t, GetIntent(b, 0), true) == t && AccessNext(t, floor, GetIntent(b, 0), true) == PutIntent(b, 0)
      && var u := AccessTables(t, PutIntent(b, 0), true);
         u == t.(current := map[IntentSlot(b.intent) := Default(b.intent)])
         && AccessNext(t, floor, PutIntent(b, 0), true) == CheckFrozen(b, 0)
         && AccessTables(u, CheckFrozen(b, 0), true) == u
         && AccessNext(u, floor, CheckFrozen(b, 0), true) == PutFrozen(b, 0)
         && AccessTables(u, PutFrozen(b, 0), true).current == u.current
         && AccessNext(u, floor, PutFrozen(b, 0), true) == Choose(b, 0, Default(b.intent))
  {
  }

  lemma OneAccess(s: Sys, floor: nat, k: Pick) returns (u: Sys)
    requires Reached(s, floor) && s.picks == map[0 := k] && !k.Choose? && !k.Served?
    ensures Reached(u, floor) && u.tunable == s.tunable && u.floor == s.floor && u.isFrozen == s.isFrozen && u.active == s.active
    ensures u.tables == AccessTables(s.tables, k, true)
    ensures u.picks == map[0 := AccessNext(s.tables, s.floor, k, true)]
  {
    NextIsReached(s, Access(0, true), floor);
    u := Step(s, Access(0, true));
  }

  /** The first pick of an intent, alone: its store accesses one by one. */
  lemma FirstAccesses(intent: string, floor: nat) returns (s: Sys)
    ensures Reached(s, floor) && s.tunable == {KNOB} && s.floor == floor && !s.isFrozen && s.active == map[]
    ensures s.tables.current == map[IntentSlot(intent) := Default(intent)]
    ensures s.picks == map[0 := Choose(GlobalBucket(intent), 0, Default(intent))]
  {
    var b := GlobalBucket(intent);
    FirstLook(b, floor);
    s := FirstStart(intent, floor);
    s := OneAccess(s, floor, GetIntent(b, 0));
    s := OneAccess(s, floor, PutIntent(b, 0));
    s := OneAccess(s, floor, CheckFrozen(b, 0));
    s := OneAccess(s, floor, PutFrozen(b, 0));
  }

  /** It explores, and opens a candidate. */
  lemma LoneEnter(s: Sys, b: Bucket, base: Profile)
    requires s.picks == map[0 := Choose(b, 0, base)] && s.tunable == {KNOB} && s.active == map[]
    requires IsGlobal(b) && Perturb(base, KNOB, true) != base
    ensures var d := Draw(true, KNOB, true);
      && Enabled(s, Enter(0, d))
      && var u := EnterStep(s, 0, d);
         u.picks == map[0 := Served(b, base, Perturb(base, KNOB, true))]
         && u.active == map[b := Candidate(Perturb(base, KNOB, true), base, FRESH)]
         && u.tables == s.tables && u.tunable == s.tunable && u.floor == s.floor && u.isFrozen == s.isFrozen
  {
  }

  lemma LoneFinish(s: Sys, k: Pick)
    requires s.picks == map[0 := k] && k.Served?
    ensures Enabled(s, Finish(0)) && Step(s, Finish(0)) == s.(picks := map[])
  {
    assert map[0 := k] - {0} == map[];
  }

  lemma FirstPick(intent: string, floor: nat) returns (s: Sys)
    ensures UnderWay(s, intent, floor, FRESH)
  {
    var b, d := GlobalBucket(intent), Draw(true, KNOB, true);
    var s0 := FirstAccesses(intent, floor);
    TriedIsNew(intent);
    LoneEnter(s0, b, Default(intent));
    NextIsReached(s0, Enter(0, d), floor);
    var s1 := EnterStep(s0, 0, d);
    LoneFinish(s1, Served(b, Default(intent), Tried(intent)));
    NextIsReached(s1, Finish(0), floor);
    s := Step(s1, Finish(0));
  }

  // ---- the rewards ----

  /** A reward that only counts changes the trial and nothing else that matters here. */
  lemma CountedReward(s: Sys, b: Bucket, served: Profile, adjusted: real)
    requires !s.isFrozen && Target(b) == b && Routed(State(s.tables, s.active), b, served)
    requires Observe(s.active[b].trial, SampleOf(s.active[b], served, adjusted, 1.0)).1 == Undecided
    ensures var u := RewardStep(s, b, served, adjusted, 1.0, ALL_WELL);
      && u.picks == s.picks && u.tunable == s.tunable && u.floor == s.floor && !u.isFrozen && u.tables == s.tables
      && u.active == Counted(s.active, b, SampleOf(s.active[b], served, adjusted, 1.0))
  {
    UpdateCountsOrFiles(State(s.tables, s.active), b, served, adjusted, 1.0, ALL_WELL);
  }

  /** A reward that promotes stores the candidate. */
  lemma PromotingReward(s: Sys, b: Bucket, served: Profile, adjusted: real)
    requires !s.isFrozen && Target(b) == b && Routed(State(s.tables, s.active), b, served)
    requires Observe(s.active[b].trial, SampleOf(s.active[b], served, adjusted, 1.0)).1 == Promote
    ensures var u := RewardStep(s, b, served, adjusted, 1.0, ALL_WELL);
      && u.picks == s.picks && u.tunable == s.tunable && u.floor == s.floor
      && u.tables.current == s.tables.current[SlotOf(b) := Clip(s.active[b].profile)]
  {
    UpdateCountsOrFiles(State(s.tables, s.active), b, served, adjusted, 1.0, ALL_WELL);
  }

  /** The profile a reward is about: the candidate's, or the one it is tried against. */
  function Shown(intent: string, onCandidate: bool): Profile {
    if onCandidate then Tried(intent) else Default(intent)
  }

  lemma RoutedHere(s: Sys, intent: string, floor: nat, t: Trial, onCandidate: bool, adjusted: real)
    requires Trying(s, intent, floor, t)
    ensures var b, served := GlobalBucket(intent), Shown(intent, onCandidate);
      && Target(b) == b && Routed(State(s.tables, s.active), b, served)
      && SampleOf(s.active[b], served, adjusted, 1.0) == Sample(onCandidate, adjusted, 1.0)
  {
    TriedIsNew(intent);
  }

  lemma RewardIsReached(s: Sys, b: Bucket, served: Profile, adjusted: real, floor: nat)
    requires Reached(s, floor) && s.picks == map[]
    ensures Reached(RewardStep(s, b, served, adjusted, 1.0, ALL_WELL), floor)
  {
    NextIsReached(s, Reward(b, served, adjusted, 1.0, ALL_WELL), floor);
  }

  lemma RewardCounts(s: Sys, intent: string, floor: nat, t: Trial, onCandidate: bool, adjusted: real, next: Trial)
    requires Trying(s, intent, floor, t) && Observe(t, Sample(onCandidate, adjusted, 1.0)) == (next, Undecided)
    ensures Trying(RewardStep(s, GlobalBucket(intent), Shown(intent, onCandidate), adjusted, 1.0, ALL_WELL), intent, floor, next)
  {
    RoutedHere(s, intent, floor, t, onCandidate, adjusted);
    CountedReward(s, GlobalBucket(intent), Shown(intent, onCandidate), adjusted);
  }

  lemma OneReward(s: Sys, intent: string, floor: nat, t: Trial, onCandidate: bool, adjusted: real, next: Trial) returns (u: Sys)
    requires UnderWay(s, intent, floor, t) && Observe(t, Sample(onCandidate, adjusted, 1.0)) == (next, Undecided)
    ensures UnderWay(u, intent, floor, next)
  {
    var b, served := GlobalBucket(intent), Shown(intent, onCandidate);
    u := RewardStep(s, b, served, adjusted, 1.0, ALL_WELL);
    RewardIsReached(s, b, served, adjusted, floor);
    RewardCounts(s, intent, floor, t, onCandidate, adjusted, next);
  }

  /** n equal numbers. */
  function Repeat(x: real, n: nat): (xs: seq<real>)
    ensures |xs| == n
  {
    if n == 0 then [] else Repeat(x, n - 1) + [x]
  }

  lemma {:induction false} RepeatSums(x: real, n: nat)
    ensures x == 0.0 ==> Sum(Repeat(x, n)) == 0.0
    ensures x == 1.0 ==> Sum(Repeat(x, n)) == n as real
  {
    if n > 0 {
      RepeatSums(x, n - 1);
      assert Repeat(x, n)[..n - 1] == Repeat(x, n - 1);
    }
  }

  /** The trial after base rewards of nothing and candidate rewards of one. */
  function After(good: nat, base: nat): Trial { Trial(Repeat(1.0, good), Repeat(0.0, base), 0) }

  lemma BaseObserved(n: nat)
    requires n < 5
    ensures Observe(After(0, n), Sample(false, 0.0, 1.0)) == (After(0, n + 1), Undecided)
  {
  }

  lemma GoodObserved(n: nat)
    requires n < 19
    ensures Observe(After(n, 5), Sample(true, 1.0, 1.0)) == (After(n + 1, 5), Undecided)
  {
  }

  lemma FullWindowsPromote()
    ensures Observe(After(19, 5), Sample(true, 1.0, 1.0)).1 == Promote
  {
    RepeatSums(1.0, 20);
    RepeatSums(0.0, 5);
    assert Repeat(1.0, 19) + [1.0] == Repeat(1.0, 20);
    assert Mean(Repeat(1.0, 20)) == 1.0 && Mean(Repeat(0.0, 5)) == 0.0;
  }

  lemma {:induction false} BaseRewards(intent: string, floor: nat, n: nat) returns (s: Sys)
    requires n <= 5
    ensures UnderWay(s, intent, floor, After(0, n))
  {
    if n == 0 {
      s := FirstPick(intent, floor);
      assert After(0, 0) == FRESH;
    } else {
      var s0 := BaseRewards(intent, floor, n - 1);
      BaseObserved(n - 1);
      s := OneReward(s0, intent, floor, After(0, n - 1), false, 0.0, After(0, n));
    }
  }

  lemma {:induction false} GoodRewards(intent: string, floor: nat, n: nat) returns (s: Sys)
    requires n < 20
    ensures UnderWay(s, intent, floor, After(n, 5))
  {
    if n == 0 {
      s := BaseRewards(intent, floor, 5);
    } else {
      var s0 := GoodRewards(intent, floor, n - 1);
      GoodObserved(n - 1);
      s := OneReward(s0, intent, floor, After(n - 1, 5), true, 1.0, After(n, 5));
    }
  }

  lemma OnlyOneDropped(active: map<Bucket, Candidate>, b: Bucket, c: Candidate)
    requires active == map[b := c]
    ensures active - {b} == map[]
  {}

  lemma SettlingReward(s: Sys, b: Bucket, served: Profile, adjusted: real)
    requires !s.isFrozen && Target(b) == b && Routed(State(s.tables, s.active), b, served)
    requires Observe(s.active[b].trial, SampleOf(s.active[b], served, adjusted, 1.0)).1 == Promote
    ensures RewardStep(s, b, served, adjusted, 1.0, ALL_WELL).active == s.active - {b}
  {
    UpdateCountsOrFiles(State(s.tables, s.active), b, served, adjusted, 1.0, ALL_WELL);
  }

  lemma PromotionDropsIt(s: Sys, intent: string, floor: nat, t: Trial)
    requires Trying(s, intent, floor, t) && Observe(t, Sample(true, 1.0, 1.0)).1 == Promote
    ensures RewardStep(s, GlobalBucket(intent), Tried(intent), 1.0, 1.0, ALL_WELL).active == map[]
  {
    RoutedHere(s, intent, floor, t, true, 1.0);
    SettlingReward(s, GlobalBucket(intent), Tried(intent), 1.0);
    OnlyOneDropped(s.active, GlobalBucket(intent), Candidate(Tried(intent), Default(intent), t));
  }

  lemma TriedIsStored(current: map<Slot, Profile>, intent: string)
    requires current == map[IntentSlot(intent) := Default(intent)]
    ensures current[SlotOf(GlobalBucket(intent)) := Clip(Tried(intent))] == map[IntentSlot(intent) := Tried(intent)]
  {
    TriedIsNew(intent);
  }

  lemma RewardPromotes(s: Sys, intent: string, floor: nat, t: Trial)
    requires Trying(s, intent, floor, t) && Observe(t, Sample(true, 1.0, 1.0)).1 == Promote
    ensures var u := RewardStep(s, GlobalBucket(intent), Tried(intent), 1.0, 1.0, ALL_WELL);
      && u.picks == map[] && u.tunable == {KNOB} && u.floor == floor
      && u.tables.current == map[IntentSlot(intent) := Tried(intent)]
  {
    RoutedHere(s, intent, floor, t, true, 1.0);
    PromotingReward(s, GlobalBucket(intent), Tried(intent), 1.0);
    TriedIsStored(s.tables.current, intent);
  }

  lemma OnePromotion(s0: Sys, intent: string, floor: nat, t: Trial) returns (s: Sys)
    requires UnderWay(s0, intent, floor, t) && Observe(t, Sample(true, 1.0, 1.0)).1 == Promote
    ensures Reached(s, floor) && s.picks == map[] && s.tunable == {KNOB} && s.floor == floor
    ensures s.tables.current == map[IntentSlot(intent) := Tried(intent)] && s.active == map[]
  {
    s := RewardStep(s0, GlobalBucket(intent), Tried(intent), 1.0, 1.0, ALL_WELL);
    RewardIsReached(s0, GlobalBucket(intent), Tried(intent), 1.0, floor);
    RewardPromotes(s0, intent, floor, t);
    PromotionDropsIt(s0, intent, floor, t);
  }

  /** Twenty good rewards against five poor ones, and the intent's profile is no longer its default. */
  lemma PromotedState(intent: string, floor: nat) returns (s: Sys)
    ensures Reached(s, floor) && s.picks == map[] && s.tunable == {KNOB} && s.floor == floor
    ensures s.tables.current == map[IntentSlot(intent) := Tried(intent)] && s.active == map[]
  {
    var s0 := GoodRewards(intent, floor, 19);
    FullWindowsPromote();
    s := OnePromotion(s0, intent, floor, After(19, 5));
  }

  lemma ReachedAgrees(s: Sys, floor: nat)
    requires Reached(s, floor)
    ensures Agreement(s)
  {
    var states, events :| IsRun(states, events, floor, false) && states[|events|] == s;
    EveryStateKeeps(states, events, floor, false, |events|);
  }

  /** For every intent the statistics page visits, every bucket of it and every floor, some run leads
      to a moment from which its late write disagrees with the store. */
  lemma SuchAMomentIsReached(intent: string, repo: string, topic: string, floor: nat) returns (s: Sys, b: Bucket, d: Draw)
    requires intent in KNOWN_INTENTS && !IsGlobal(Bucket(intent, repo, topic))
    ensures b == Bucket(intent, repo, topic) && Reached(s, floor)
    ensures Agreement(s) && s.picks == map[] && s.floor == floor
    ensures SlotOf(b) !in s.tables.current && IntentSlot(b.intent) in s.tables.current
    ensures Read(s.tables, IntentSlot(b.intent)) == Tried(b.intent) != Default(b.intent)
    ensures d == Draw(true, KNOB, true) && d.knob in s.tunable && Perturb(Default(b.intent), d.knob, d.up) != Default(b.intent)
  {
    s := PromotedState(intent, floor);
    b, d := Bucket(intent, repo, topic), Draw(true, KNOB, true);
    TriedIsNew(intent);
    ReachedAgrees(s, floor);
  }

  /** Four more steps from such a moment are steps of a run. */
  lemma WarmingIsReached(s: Sys, b: Bucket, floor: nat) returns (u: Sys)
    requires Reached(s, floor) && Enabled(s, Start(0, b, floor, true))
    requires var s1 := Step(s, Start(0, b, floor, true));
      && Enabled(s1, Access(0, true)) && Enabled(AccessStep(s1, 0, true), Access(0, true))
      && Enabled(AccessStep(AccessStep(s1, 0, true), 0, true), Access(0, true))
    ensures Reached(u, floor)
    ensures u == AccessStep(AccessStep(AccessStep(Step(s, Start(0, b, floor, true)), 0, true), 0, true), 0, true)
  {
    NextIsReached(s, Start(0, b, floor, true), floor);
    var s1 := Step(s, Start(0, b, floor, true));
    NextIsReached(s1, Access(0, true), floor);
    var s2 := AccessStep(s1, 0, true);
    NextIsReached(s2, Access(0, true), floor);
    var s3 := AccessStep(s2, 0, true);
    NextIsReached(s3, Access(0, true), floor);
    u := AccessStep(s3, 0, true);
  }

  /** So the disagreement itself follows some run: look, reset, warm, explore, late write. */
  lemma DisagreementIsReached(intent: string, repo: string, topic: string, floor: nat) returns (s: Sys)
    requires intent in KNOWN_INTENTS && !IsGlobal(Bucket(intent, repo, topic))
    ensures Reached(s, floor) && Agreement(s)
    ensures !CandidatesOk(WithCurrent(s.tables, SlotOf(Bucket(intent, repo, topic)), Tried(intent), true), s.active)
  {
    var s0, b, d := SuchAMomentIsReached(intent, repo, topic, floor);
    UnlockedSeedingCanDisagree(s0, b, floor, 0, d, ALL_WELL);
    NextIsReached(s0, Reset(intent, ALL_WELL), floor);
    var s1 := Step(s0, Reset(intent, ALL_WELL));
    ResetOpensTheDoor(s0, b, ALL_WELL);
    var s4 := WarmingIsReached(s1, b, floor);
    NextIsReached(s4, Enter(0, d), floor);
    s := EnterStep(s4, 0, d);
    ReachedAgrees(s, floor);
  }

  // ---- a pick that has read but not yet chosen ----

  /** An unlocked write that a pick has not foreseen: all candidates still agree, and one step later
      that pick has opened one that does not. */
  ghost predicate SurprisedBy(s: Sys, slot: Slot, p: Profile, d: Draw) {
    var late := s.(tables := WithCurrent(s.tables, slot, p, true));
    && CandidatesOk(late.tables, late.active) && !Agreement(late)
    && Enabled(late, Enter(0, d)) && !CandidatesOk(EnterStep(late, 0, d).tables, EnterStep(late, 0, d).active)
  }

  lemma ChoiceIsStale(t: Tables, floor: nat, b: Bucket, n: nat, base: Profile, p: Profile)
    requires !Gated(b, n, floor) && Clip(p) != base
    ensures var u := WithCurrent(t, SlotOf(b), p, true);
      SlotOf(b) in u.current && Read(u, SlotOf(b)) != base && !PickOk(u, floor, Choose(b, n, base))
  {
    assert Read(WithCurrent(t, SlotOf(b), p, true), SlotOf(b)) == Clip(p);
  }

  lemma LoneChoiceOpens(s: Sys, b: Bucket, n: nat, base: Profile, d: Draw)
    requires s.picks == map[0 := Choose(b, n, base)] && !Gated(b, n, s.floor) && b !in s.active
    requires d.explore && d.knob in s.tunable && Perturb(base, d.knob, d.up) != base
    ensures Enabled(s, Enter(0, d))
    ensures var u := EnterStep(s, 0, d); u.tables == s.tables && b in u.active && u.active[b].base == base
  {}

  lemma StaleBase(t: Tables, active: map<Bucket, Candidate>, b: Bucket)
    requires b in active && SlotOf(b) in t.current && active[b].base != Read(t, SlotOf(b))
    ensures !CandidatesOk(t, active)
  {
    assert !CandidateOk(t, b, active[b]);
  }

  lemma LatePickIsSurprised(s: Sys, b: Bucket, n: nat, base: Profile, p: Profile, d: Draw)
    requires Agreement(s) && s.picks == map[0 := Choose(b, n, base)] && !Gated(b, n, s.floor)
    requires (forall c | c in s.active :: SlotOf(c) != SlotOf(b)) && Clip(p) != base
    requires d.explore && d.knob in s.tunable && Perturb(base, d.knob, d.up) != base
    ensures SurprisedBy(s, SlotOf(b), p, d)
  {
    var u := WithCurrent(s.tables, SlotOf(b), p, true);
    var late := s.(tables := u);
    BasesAgreeIff(s.tables, s.active, SlotOf(b), p);
    ChoiceIsStale(s.tables, s.floor, b, n, base, p);
    assert !PickOk(late.tables, late.floor, late.picks[0]);
    LoneChoiceOpens(late, b, n, base, d);
    StaleBase(u, EnterStep(late, 0, d).active, b);
  }

  lemma WarmPick(s: Sys, b: Bucket, floor: nat)
    requires s.picks == map[] && !IsGlobal(b) && floor == s.floor && b !in s.active
    requires SlotOf(b) !in s.tables.current && IntentSlot(b.intent) in s.tables.current
    requires Read(s.tables, IntentSlot(b.intent)) == Default(b.intent)
    ensures var s1 := Step(s, Start(0, b, floor, true));
      && Enabled(s1, Access(0, true)) && Enabled(AccessStep(s1, 0, true), Access(0, true))
      && Enabled(AccessStep(AccessStep(s1, 0, true), 0, true), Access(0, true))
      && var u := AccessStep(AccessStep(AccessStep(s1, 0, true), 0, true), 0, true);
      && u.picks == map[0 := Choose(b, floor, Default(b.intent))] && b !in u.active
      && u.tunable == s.tunable && u.floor == s.floor
  {
    WarmingAccesses(Step(s, Start(0, b, floor, true)), b, floor, 0);
  }

  /** The moment before the explore: the bucket has no candidate, so no base is at odds with the page's
      late seed, but a pick has chosen the profile that it overwrites. */
  lemma SurprisedPickIsReached(intent: string, repo: string, topic: string, floor: nat) returns (s: Sys, d: Draw)
    requires intent in KNOWN_INTENTS && !IsGlobal(Bucket(intent, repo, topic))
    ensures var b := Bucket(intent, repo, topic);
      && Reached(s, floor) && Agreement(s) && b !in s.active
      && SurprisedBy(s, SlotOf(b), Tried(intent), d)
  {
    var s0, b;
    s0, b, d := SuchAMomentIsReached(intent, repo, topic, floor);
    UnlockedSeedingCanDisagree(s0, b, floor, 0, d, ALL_WELL);
    NextIsReached(s0, Reset(intent, ALL_WELL), floor);
    var s1 := Step(s0, Reset(intent, ALL_WELL));
    ResetOpensTheDoor(s0, b, ALL_WELL);
    s := WarmingIsReached(s1, b, floor);
    WarmPick(s1, b, floor);
    ReachedAgrees(s, floor);
    TriedIsNew(intent);
    OneBucketPerSlot(s, b);
    LatePickIsSurprised(s, b, floor, Default(intent), Tried(intent), d);
  }

  /** A pick of an intent's own bucket, alone, up to its choice. */
  lemma GlobalPick(s: Sys, intent: string, floor: nat, p: Profile) returns (u: Sys)
    requires Reached(s, floor) && s.picks == map[]
    requires IntentSlot(intent) in s.tables.current && Read(s.tables, IntentSlot(intent)) == p
    ensures Reached(u, floor) && u.picks == map[0 := Choose(GlobalBucket(intent), 0, p)]
    ensures u.tables == s.tables && u.active == s.active && u.tunable == s.tunable && u.floor == s.floor
  {
    var b := GlobalBucket(intent);
    NextIsReached(s, Start(0, b, 0, false), floor);
    u := Step(s, Start(0, b, 0, false));
    u := OneAccess(u, floor, GetIntent(b, 0));
  }

  lemma TriedGoesBack(intent: string)
    ensures Perturb(Tried(intent), KNOB, false) != Tried(intent)
  {
    PerturbIsOneStep(Default(intent), KNOB, true);
    PerturbIsOneStep(Tried(intent), KNOB, false);
    TriedIsNew(intent);
    assert Tuned(intent)[0] == 5 && Default(intent)[0] == 5;
    assert KnobOf(KNOB) == Some(0);
  }

  /** The page finds an intent missing in the empty store; a promotion later it stores the default over
      what was promoted, while a pick stands between its read and its choice. */
  lemma LateDefaultIsReached(intent: string, floor: nat) returns (s: Sys, d: Draw)
    requires intent in KNOWN_INTENTS
    ensures IntentSlot(intent) !in Initial(floor, false).tables.current
    ensures Reached(s, floor) && Agreement(s) && GlobalBucket(intent) !in s.active
    ensures SurprisedBy(s, IntentSlot(intent), Default(intent), d)
  {
    var b := GlobalBucket(intent);
    var s0 := PromotedState(intent, floor);
    TriedIsNew(intent);
    s := GlobalPick(s0, intent, floor, Tried(intent));
    d := Draw(true, KNOB, false);
    TriedGoesBack(intent);
    ReachedAgrees(s, floor);
    LatePickIsSurprised(s, b, 0, Tried(intent), Default(intent), d);
  }

  /** What the three accesses do to a store that has the intent's profile alone. */
  lemma BucketLook(t: Tables, b: Bucket, floor: nat, p: Profile)
    requires !IsGlobal(b) && t.current == map[IntentSlot(b.intent) := p] && Clip(p) == p
    ensures AccessTables(t, GetBucket(b, floor), true) == t && AccessNext(t, floor, GetBucket(b, floor), true) == GetIntent(b, floor)
    ensures AccessTables(t, GetIntent(b, floor), true) == t
    ensures AccessNext(t, floor, GetIntent(b, floor), true) == PutBucket(b, floor, p)
    ensures var u := AccessTables(t, PutBucket(b, floor, p), true); SlotOf(b) in u.current && Read(u, SlotOf(b)) == p
    ensures AccessNext(t, floor, PutBucket(b, floor, p), true) == Choose(b, floor, p)
  {}

  lemma BucketIsSeeded(s: Sys, b: Bucket, floor: nat, p: Profile) returns (u: Sys)
    requires Reached(s, floor) && s.floor == floor && s.tunable == {KNOB} && s.picks == map[0 := GetBucket(b, floor)]
    requires !IsGlobal(b) && s.tables.current == map[IntentSlot(b.intent) := p] && Clip(p) == p
    ensures Reached(u, floor) && u.tunable == {KNOB} && u.picks == map[0 := Choose(b, floor, p)]
    ensures SlotOf(b) in u.tables.current && Read(u.tables, SlotOf(b)) == p
  {
    BucketLook(s.tables, b, floor, p);
    u := OneAccess(s, floor, GetBucket(b, floor));
    u := OneAccess(u, floor, GetIntent(b, floor));
    u := OneAccess(u, floor, PutBucket(b, floor, p));
  }

  /** A pick that does not explore changes nothing. */
  lemma ServedPlainly(s: Sys, b: Bucket, floor: nat, base: Profile) returns (u: Sys)
    requires Reached(s, floor) && s.picks == map[0 := Choose(b, floor, base)] && s.tunable == {KNOB}
    ensures Reached(u, floor) && u.picks == map[] && u.tables == s.tables
  {
    var d := Draw(false, KNOB, true);
    NextIsReached(s, Enter(0, d), floor);
    var s1 := EnterStep(s, 0, d);
    LoneFinish(s1, Served(b, base, base));
    NextIsReached(s1, Finish(0), floor);
    u := Step(s1, Finish(0));
  }

  lemma SeededState(intent: string, b: Bucket, floor: nat) returns (s: Sys)
    requires b.intent == intent && !IsGlobal(b)
    ensures Reached(s, floor) && s.picks == map[]
    ensures SlotOf(b) in s.tables.current && Read(s.tables, SlotOf(b)) == Tried(intent)
  {
    var s0 := PromotedState(intent, floor);
    TriedIsNew(intent);
    NextIsReached(s0, Start(0, b, floor, true), floor);
    s := Step(s0, Start(0, b, floor, true));
    s := BucketIsSeeded(s, b, floor, Tried(intent));
    s := ServedPlainly(s, b, floor, Tried(intent));
  }

  // ---- a reset that does not reach a bucket ----

  /** A bucket first used while its intent is promoted is given the promoted profile. The reset that
      follows restores the intent, and leaves the bucket with it. */
  lemma KeptBucketIsReached(intent: string, repo: string, topic: string, floor: nat) returns (before: Sys, s: Sys)
    requires !IsGlobal(Bucket(intent, repo, topic))
    ensures var b := Bucket(intent, repo, topic);
      && Reached(before, floor) && before.picks == map[] && s == ResetStep(before, intent, ALL_WELL) && Reached(s, floor)
      && IntentSlot(intent) in s.tables.current && Read(s.tables, IntentSlot(intent)) == Default(intent)
      && SlotOf(b) in s.tables.current && Read(SeedBucket(s.tables, b), SlotOf(b)) == Tried(intent) != Default(intent)
  {
    var b := Bucket(intent, repo, topic);
    before := SeededState(intent, b, floor);
    NextIsReached(before, Reset(intent, ALL_WELL), floor);
    s := Step(before, Reset(intent, ALL_WELL));
    TriedIsNew(intent);
    ReachedAgrees(before, floor);
    ResetLeavesBucketProfiles(before, intent, ALL_WELL, b);
  }
}
