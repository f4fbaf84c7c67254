/** What a run does, told from its events alone: what picks serve, what the windows of a live trial
    hold, how a reward decides, and what resets and seeds store. */
module PickerMeaning {
  import opened Profiles
  import opened HeuristicsStore
  import opened Trials
  import opened Bandits
  import opened PickerRun
  import opened AuditLog

  // ---- coordinates ----

  /** No real topic or no real repository. */
  predicate Everywhere(b: Bucket) { b.topic == "" || b.topic == "*" || b.repo == "" || b.repo == "*" }

  /** The coordinates address this bucket: literally, or both stand for the whole intent. */
  predicate Addresses(raw: Bucket, b: Bucket) {
    raw == b || (raw.intent == b.intent && Everywhere(raw) && Everywhere(b))
  }

  lemma RoutingMeans(raw: Bucket, b: Bucket)
    requires Canonical(b)
    ensures Target(raw) == b <==> Addresses(raw, b)
    ensures SlotOf(raw) == if Everywhere(raw) then IntentSlot(raw.intent) else BucketSlot(raw.intent, raw.repo, raw.topic)
  {}

  // ---- what picks serve ----

  lemma EnterMeans(s: Sys, pid: nat, d: Draw)
    requires Enabled(s, Enter(pid, d))
    ensures var u := EnterStep(s, pid, d);
      var b, n, base := s.picks[pid].b, s.picks[pid].samples, s.picks[pid].base;
      var moved := Perturb(base, d.knob, d.up);
      && pid in u.picks && u.picks[pid].Served?
      && var served := u.picks[pid].profile;
      if s.tunable != {} && (Everywhere(b) || n >= s.floor) && d.explore then
        && (b in s.active ==> served == s.active[b].profile && u.active == s.active)
        && (b !in s.active && moved != base ==>
              served == moved && u.active == s.active[b := Candidate(moved, base, Trial([], [], 0))])
        && (b !in s.active && moved == base ==> served == base && u.active == s.active)
      else served == base && u.active == s.active
  {}

  lemma StepKeepsSettings(s: Sys, e: Event)
    requires Enabled(s, e)
    ensures Step(s, e).floor == s.floor && Step(s, e).isFrozen == s.isFrozen
  {}

  lemma {:induction false} FloorStays(states: seq<Sys>, events: seq<Event>, floor: nat, isFrozen: bool, i: nat)
    requires IsRun(states, events, floor, isFrozen) && i < |states|
    ensures states[i].floor == floor && states[i].isFrozen == isFrozen
  {
    if i > 0 {
      FloorStays(states, events, floor, isFrozen, i - 1);
      assert states[i] == Step(states[i - 1], events[i - 1]);
      StepKeepsSettings(states[i - 1], events[i - 1]);
    }
  }

  /** The bandit's half of any pick of any run. With a knob enabled, a bucket that is global or warm
      and a draw that explores, a live candidate is served and stays; without one a candidate appears
      exactly when moving the drawn knob changes the profile read, and is served. In all other cases
      the profile read is served and no candidate changes. */
  lemma EveryPickServes(states: seq<Sys>, events: seq<Event>, floor: nat, isFrozen: bool, i: nat, pid: nat, d: Draw)
    requires IsRun(states, events, floor, isFrozen) && i < |events| && events[i] == Enter(pid, d)
    ensures pid in states[i].picks && pid in states[i + 1].picks && states[i].picks[pid].Choose?
    ensures states[i + 1].picks[pid].Served?
    ensures var s, u := states[i], states[i + 1];
      var b, n, base := s.picks[pid].b, s.picks[pid].samples, s.picks[pid].base;
      var served := u.picks[pid].profile;
      var moved := Perturb(base, d.knob, d.up);
      if s.tunable != {} && (Everywhere(b) || n >= floor) && d.explore then
        && (b in s.active ==> served == s.active[b].profile && u.active == s.active)
        && (b !in s.active && moved != base ==>
              served == moved && u.active == s.active[b := Candidate(moved, base, Trial([], [], 0))])
        && (b !in s.active && moved == base ==> served == base && u.active == s.active)
      else served == base && u.active == s.active
  {
    assert Enabled(states[i], events[i]) && states[i + 1] == Step(states[i], events[i]);
    FloorStays(states, events, floor, isFrozen, i);
    EnterMeans(states[i], pid, d);
  }

  // ---- what a live trial has heard ----

  /** A reward that concerns a live candidate: addressed to its bucket, and naming its profile or the
      one it is tried against. */
  predicate Concerns(e: Event, b: Bucket, c: Candidate) {
    e.Reward? && Addresses(e.b, b) && (e.served == c.profile || e.served == c.base)
  }

  function Now(e: Event, b: Bucket, c: Candidate): seq<Event> { if Concerns(e, b, c) then [e] else [] }

  /** The rewards that concerned the candidate of b, of the first i events, since it appeared. */
  function Heard(states: seq<Sys>, events: seq<Event>, b: Bucket, i: nat): seq<Event>
    requires |states| == |events| + 1 && i <= |events|
  {
    if i == 0 || b !in states[i].active || b !in states[i - 1].active then [] else
      Heard(states, events, b, i - 1) + Now(events[i - 1], b, states[i - 1].active[b])
  }

  /** What a reward is worth to a trial. */
  function Worth(e: Event): real
    requires e.Reward?
  {
    e.adjusted * e.weight
  }

  /** What the rewards that name profile p are worth, in order. */
  function Products(hs: seq<Event>, p: Profile): seq<real> {
    if hs == [] then [] else
      var e := hs[|hs| - 1];
      Products(hs[..|hs| - 1], p) + if e.Reward? && e.served == p then [Worth(e)] else []
  }

  /** The rewards as they came, of those that name profile p. */
  function Plain(hs: seq<Event>, p: Profile): seq<real> {
    if hs == [] then [] else
      var e := hs[|hs| - 1];
      Plain(hs[..|hs| - 1], p) + if e.Reward? && e.served == p then [e.adjusted] else []
  }

  function AsSample(e: Event, c: Candidate): Sample
    requires e.Reward?
  {
    Sample(e.served == c.profile, e.adjusted, e.weight)
  }

  ghost predicate AllConcern(hs: seq<Event>, b: Bucket, c: Candidate) { forall k | 0 <= k < |hs| :: Concerns(hs[k], b, c) }

  /** The samples recorded for a candidate are these rewards. */
  ghost predicate Records(obs: seq<Sample>, hs: seq<Event>, b: Bucket, c: Candidate) {
    && |obs| == |hs| && AllConcern(hs, b, c)
    && forall k | 0 <= k < |hs| :: obs[k] == AsSample(hs[k], c)
  }

  lemma RecordsMore(obs: seq<Sample>, hs: seq<Event>, b: Bucket, c: Candidate, e: Event)
    requires Records(obs, hs, b, c) && Concerns(e, b, c)
    ensures Records(obs + [AsSample(e, c)], hs + [e], b, c)
  {}

  lemma SameWorth(s: Sample, e: Event)
    requires e.Reward? && s.adjusted == e.adjusted && s.weight == e.weight
    ensures Contribution(s) == Worth(e)
  {
    assert s.adjusted * s.weight == e.adjusted * s.weight == e.adjusted * e.weight;
  }

  ghost predicate SideAt(s: Sample, e: Event, side: bool, p: Profile) {
    e.Reward? && s.adjusted == e.adjusted && s.weight == e.weight && (s.onCandidate == side <==> e.served == p)
  }

  /** Each sample is the reward, and is on the given side exactly when it names p. */
  ghost predicate SideIs(obs: seq<Sample>, hs: seq<Event>, side: bool, p: Profile) {
    |obs| == |hs| && forall k | 0 <= k < |hs| :: SideAt(obs[k], hs[k], side, p)
  }

  lemma {:induction false} SideNumbers(obs: seq<Sample>, hs: seq<Event>, side: bool, p: Profile)
    requires SideIs(obs, hs, side, p)
    ensures Weighted(obs, side) == Products(hs, p)
    ensures side ==> CandidateRewards(obs) == Plain(hs, p)
  {
    if hs != [] {
      var n := |hs| - 1;
      SideNumbers(obs[..n], hs[..n], side, p);
      assert SideAt(obs[n], hs[n], side, p);
      SameWorth(obs[n], hs[n]);
    }
  }

  /** What was recorded, read as numbers. */
  lemma RecordedNumbers(obs: seq<Sample>, hs: seq<Event>, b: Bucket, c: Candidate)
    requires Records(obs, hs, b, c) && c.profile != c.base
    ensures Weighted(obs, true) == Products(hs, c.profile) && Weighted(obs, false) == Products(hs, c.base)
    ensures CandidateRewards(obs) == Plain(hs, c.profile)
  {
    forall k | 0 <= k < |hs| ensures SideAt(obs[k], hs[k], true, c.profile) && SideAt(obs[k], hs[k], false, c.base) {
      assert Concerns(hs[k], b, c);
    }
    SideNumbers(obs, hs, true, c.profile);
    SideNumbers(obs, hs, false, c.base);
  }

  /** The trial of a live candidate has recorded exactly the rewards heard. */
  ghost predicate HasHeard(s: Sys, b: Bucket, hs: seq<Event>) {
    b in s.active && b in s.seen && Records(s.seen[b], hs, b, s.active[b])
  }

  lemma SameCandidate(hs: seq<Event>, obs: seq<Sample>, b: Bucket, c: Candidate, k: Candidate)
    requires Records(obs, hs, b, c) && k.profile == c.profile && k.base == c.base
    ensures Records(obs, hs, b, k)
  {
    forall j | 0 <= j < |hs| ensures Concerns(hs[j], b, k) && obs[j] == AsSample(hs[j], k) { assert Concerns(hs[j], b, c); }
  }

  /** A reward that leaves its candidate live is recorded. */
  lemma RewardCountsHere(s: Sys, raw: Bucket, served: Profile, adjusted: real, weight: real, io: Io)
    requires !s.isFrozen && Routed(State(s.tables, s.active), Target(raw), served) && Target(raw) in s.seen
    requires Target(raw) in RewardStep(s, raw, served, adjusted, weight, io).active
    ensures var b, u := Target(raw), RewardStep(s, raw, served, adjusted, weight, io);
      && b in u.seen && u.seen[b] == s.seen[b] + [Sample(served == s.active[b].profile, adjusted, weight)]
      && u.active[b].profile == s.active[b].profile && u.active[b].base == s.active[b].base
  {
    UpdateCountsOrFiles(State(s.tables, s.active), Target(raw), served, adjusted, weight, io);
  }

  /** A reward leaves all other candidates alone, and its own if it names neither of the two profiles. */
  lemma RewardElsewhere(s: Sys, raw: Bucket, served: Profile, adjusted: real, weight: real, io: Io, b: Bucket)
    requires Target(raw) != b || !Routed(State(s.tables, s.active), b, served)
    ensures var u := RewardStep(s, raw, served, adjusted, weight, io);
      && (b in u.active <==> b in s.active) && (b in s.active ==> u.active[b] == s.active[b])
      && (b in u.seen <==> b in s.seen) && (b in s.seen ==> u.seen[b] == s.seen[b])
  {
    var before := State(s.tables, s.active);
    if Routed(before, Target(raw), served) {
      UpdateCountsOrFiles(before, Target(raw), served, adjusted, weight, io);
    }
  }

  lemma RewardHears(s: Sys, e: Event, b: Bucket, hs: seq<Event>)
    requires Agreement(s) && e.Reward? && s.picks == map[] && !s.isFrozen && HasHeard(s, b, hs)
    requires b in RewardStep(s, e.b, e.served, e.adjusted, e.weight, e.io).active
    ensures HasHeard(RewardStep(s, e.b, e.served, e.adjusted, e.weight, e.io), b, hs + Now(e, b, s.active[b]))
  {
    var c, t := s.active[b], Target(e.b);
    assert CandidateOk(s.tables, b, c);
    RoutingMeans(e.b, b);
    assert hs + [] == hs;
    var u := RewardStep(s, e.b, e.served, e.adjusted, e.weight, e.io);
    if t == b && Routed(State(s.tables, s.active), t, e.served) {
      RewardCountsHere(s, e.b, e.served, e.adjusted, e.weight, e.io);
      RecordsMore(s.seen[b], hs, b, c, e);
      SameCandidate(hs + [e], s.seen[b] + [AsSample(e, c)], b, c, u.active[b]);
    } else {
      RewardElsewhere(s, e.b, e.served, e.adjusted, e.weight, e.io, b);
    }
  }

  /** Nothing but a reward touches what a candidate that stays live has recorded. */
  lemma OthersLeaveItAlone(s: Sys, e: Event, b: Bucket)
    requires Enabled(s, e) && !e.Reward? && b in s.active && b in s.seen && b in Step(s, e).active
    ensures b in Step(s, e).seen && Step(s, e).active[b] == s.active[b] && Step(s, e).seen[b] == s.seen[b]
  {}

  lemma StepHears(s: Sys, e: Event, b: Bucket, hs: seq<Event>)
    requires Agreement(s) && Enabled(s, e) && !s.isFrozen && HasHeard(s, b, hs) && b in Step(s, e).active
    ensures HasHeard(Step(s, e), b, hs + Now(e, b, s.active[b]))
  {
    if e.Reward? {
      RewardHears(s, e, b, hs);
    } else {
      OthersLeaveItAlone(s, e, b);
      assert hs + [] == hs;
    }
  }

  lemma StepOfRun(states: seq<Sys>, events: seq<Event>, floor: nat, isFrozen: bool, i: nat)
    requires IsRun(states, events, floor, isFrozen) && i < |events|
    ensures Enabled(states[i], events[i]) && states[i + 1] == Step(states[i], events[i])
    ensures Agreement(states[i]) && states[i].isFrozen == isFrozen && states[i].floor == floor
  {
    EveryStateKeeps(states, events, floor, isFrozen, i);
    FloorStays(states, events, floor, isFrozen, i);
  }

  lemma NewlyLive(s: Sys, e: Event, b: Bucket)
    requires Enabled(s, e) && b !in s.active && b in Step(s, e).active
    ensures b in Step(s, e).seen && Step(s, e).seen[b] == []
  {
  }

  lemma NothingHeardYet(s: Sys, e: Event, b: Bucket)
    requires Enabled(s, e) && b !in s.active && b in Step(s, e).active
    ensures HasHeard(Step(s, e), b, [])
  {
    NewlyLive(s, e, b);
  }

  /** One more step of a run. */
  lemma GoesOnHearing(states: seq<Sys>, events: seq<Event>, floor: nat, i: nat, b: Bucket)
    requires IsRun(states, events, floor, false) && i < |events| && b in states[i + 1].active
    requires b in states[i].active ==> HasHeard(states[i], b, Heard(states, events, b, i))
    ensures HasHeard(states[i + 1], b, Heard(states, events, b, i + 1))
  {
    StepOfRun(states, events, floor, false, i);
    var s, e := states[i], events[i];
    if b in s.active { StepHears(s, e, b, Heard(states, events, b, i)); } else { NothingHeardYet(s, e, b); }
  }

  lemma {:induction false} RunHears(states: seq<Sys>, events: seq<Event>, floor: nat, i: nat, b: Bucket)
    requires IsRun(states, events, floor, false) && i < |states| && b in states[i].active
    ensures HasHeard(states[i], b, Heard(states, events, b, i))
  {
    if i > 0 {
      if b in states[i - 1].active { RunHears(states, events, floor, i - 1, b); }
      GoesOnHearing(states, events, floor, i - 1, b);
    }
  }

  /** In every state of every run the two windows of a live trial hold, in order, reward times weight
      of exactly the rewards that concerned it since it appeared: those that name its profile in the
      one, those that name its base in the other. */
  lemma WindowsHoldWhatWasHeard(states: seq<Sys>, events: seq<Event>, floor: nat, i: nat, b: Bucket)
    requires IsRun(states, events, floor, false) && i < |states| && b in states[i].active
    ensures var c, hs := states[i].active[b], Heard(states, events, b, i);
      && c.profile != c.base
      && c.trial.rewards == Products(hs, c.profile) && c.trial.baseSamples == Products(hs, c.base)
      && c.trial.consecBad == TrailingBad(Plain(hs, c.profile))
  {
    EveryStateKeeps(states, events, floor, false, i);
    RunHears(states, events, floor, i, b);
    assert CandidateOk(states[i].tables, b, states[i].active[b]);
    RecordedNumbers(states[i].seen[b], Heard(states, events, b, i), b, states[i].active[b]);
  }

  // ---- how a reward decides ----

  /** The last three rewards are below 0.30. */
  predicate Struck(plain: seq<real>) {
    var n := |plain|;
    n >= 3 && plain[n - 1] < 0.30 && plain[n - 2] < 0.30 && plain[n - 3] < 0.30
  }

  /** Enough rewards on both sides. */
  predicate Full(tried: seq<real>, usual: seq<real>) { |tried| >= 20 && |usual| >= 5 }

  /** The candidate's average lies more than 0.05 above the other. */
  predicate Lifted(tried: seq<real>, usual: seq<real>) { Mean(tried) > Mean(usual) + 0.05 }

  lemma SuffixOfThree(plain: seq<real>)
    ensures Struck(plain) <==> |plain| >= 3 && forall i :: |plain| - 3 <= i < |plain| ==> Bad(plain[i])
  {
    var n := |plain|;
    if n >= 3 && Struck(plain) {
      forall i | n - 3 <= i < n ensures Bad(plain[i]) { assert i == n - 1 || i == n - 2 || i == n - 3; }
    }
    if n >= 3 && forall i :: n - 3 <= i < n ==> Bad(plain[i]) { assert Bad(plain[n - 1]) && Bad(plain[n - 2]) && Bad(plain[n - 3]); }
  }

  lemma StrikesAreTheLastThree(t: Trial, obs: seq<Sample>, s: Sample)
    requires Summarises(t, obs)
    ensures Observe(t, s).1 == Rollback <==> s.onCandidate && Struck(CandidateRewards(obs + [s]))
  {
    var all := obs + [s];
    assert all[..|all| - 1] == obs && all[|all| - 1] == s;
    if s.onCandidate {
      var before := CandidateRewards(obs);
      var plain := before + [s.adjusted];
      assert CandidateRewards(all) == plain && plain[..|plain| - 1] == before;
      TrailingBadMeansSuffix(plain, 3);
      SuffixOfThree(plain);
    }
  }

  lemma VerdictMeans(t: Trial, obs: seq<Sample>, s: Sample)
    requires Summarises(t, obs)
    ensures var u, v := Observe(t, s).0, Observe(t, s).1;
      var all := obs + [s];
      && u.rewards == Weighted(all, true) && u.baseSamples == Weighted(all, false)
      && (v == Rollback <==> s.onCandidate && Struck(CandidateRewards(all)))
      && (v != Rollback ==> u.consecBad == TrailingBad(CandidateRewards(all)))
      && (v == Promote <==> v != Rollback && Full(u.rewards, u.baseSamples) && Lifted(u.rewards, u.baseSamples))
      && (v == Discard <==> v != Rollback && Full(u.rewards, u.baseSamples) && !Lifted(u.rewards, u.baseSamples))
  {
    ObserveIsFaithful(t, obs, s);
    StrikesAreTheLastThree(t, obs, s);
  }

  /** What becomes of bucket b, its candidate c and its slot, when the rewards heard come to these numbers. */
  ghost predicate Decided(s: State, u: State, b: Bucket, tried: seq<real>, usual: seq<real>, plain: seq<real>, struck: bool, setOk: bool)
    requires b in s.active
  {
    var c, slot, kept := s.active[b], SlotOf(b), Trial(tried, usual, TrailingBad(plain));
    if struck then
      u.active == s.active - {b} && u.tables.current == if setOk then s.tables.current[slot := Default(b.intent)] else s.tables.current
    else if Full(tried, usual) && !Lifted(tried, usual) then
      u.active == s.active - {b} && u.tables.current == s.tables.current
    else if Full(tried, usual) && setOk then
      u.active == s.active - {b} && u.tables.current == s.tables.current[slot := c.profile]
    else
      u.active == s.active[b := Candidate(c.profile, c.base, kept)] && u.tables.current == s.tables.current
  }

  lemma SettledTables(s: State, b: Bucket, sample: Sample, io: Io)
    requires b in s.active && CandidateOk(s.tables, b, s.active[b]) && FrozenOk(s.tables) && !Counts(s, b, sample, io)
    ensures var v, after := Observe(s.active[b].trial, sample).1, Filed(s.tables, b, FiledEntry(s, b, sample, io), io).current;
      && (v == Rollback ==> after == if io.setOk then s.tables.current[SlotOf(b) := Default(b.intent)] else s.tables.current)
      && (v == Promote ==> io.setOk && after == s.tables.current[SlotOf(b) := s.active[b].profile])
      && (v == Discard ==> after == s.tables.current)
  {
    FiledEntryTells(s.tables, s.active, b, sample, io);
    FilingLeaves(s.tables, b, FiledEntry(s, b, sample, io), io);
  }

  lemma UpdateDecides(s: State, b: Bucket, served: Profile, adjusted: real, weight: real, io: Io, obs: seq<Sample>)
    requires Routed(s, b, served) && CandidateOk(s.tables, b, s.active[b]) && FrozenOk(s.tables)
    requires Summarises(s.active[b].trial, obs)
    ensures var all := obs + [SampleOf(s.active[b], served, adjusted, weight)];
      Decided(s, UpdateSpec(s, b, served, adjusted, weight, io), b, Weighted(all, true), Weighted(all, false),
              CandidateRewards(all), served == s.active[b].profile && Struck(CandidateRewards(all)), io.setOk)
  {
    var sample := SampleOf(s.active[b], served, adjusted, weight);
    VerdictMeans(s.active[b].trial, obs, sample);
    UpdateCountsOrFiles(s, b, served, adjusted, weight, io);
    if !Counts(s, b, sample, io) { SettledTables(s, b, sample, io); }
  }

  lemma RewardIsUpdate(s: Sys, raw: Bucket, served: Profile, adjusted: real, weight: real, io: Io)
    requires !s.isFrozen && Routed(State(s.tables, s.active), Target(raw), served)
    ensures var u, t := RewardStep(s, raw, served, adjusted, weight, io),
                        UpdateSpec(State(s.tables, s.active), Target(raw), served, adjusted, weight, io);
      u.tables == t.tables && u.active == t.active
  {}

  lemma RewardDecides(s: Sys, e: Event, b: Bucket, heard: seq<Event>)
    requires Agreement(s) && Remembered(s) && !s.isFrozen && e.Reward? && s.picks == map[]
    requires HasHeard(s, b, heard) && Concerns(e, b, s.active[b])
    ensures var u, c := RewardStep(s, e.b, e.served, e.adjusted, e.weight, e.io), s.active[b];
      var hs := heard + [e];
      var plain := Plain(hs, c.profile);
      Decided(State(s.tables, s.active), State(u.tables, u.active), b, Products(hs, c.profile), Products(hs, c.base),
              plain, e.served == c.profile && Struck(plain), e.io.setOk)
  {
    var c := s.active[b];
    assert CandidateOk(s.tables, b, c);
    RoutingMeans(e.b, b);
    RewardIsUpdate(s, e.b, e.served, e.adjusted, e.weight, e.io);
    UpdateDecides(State(s.tables, s.active), b, e.served, e.adjusted, e.weight, e.io, s.seen[b]);
    RecordsMore(s.seen[b], heard, b, c, e);
    RecordedNumbers(s.seen[b] + [AsSample(e, c)], heard + [e], b, c);
  }

  /** What every reward of every run does, when it concerns a live candidate: after three bad rewards in
      a row that name its profile the bucket goes back to its default; else, once twenty such rewards
      and five of its base are in, it is promoted if its average is more than 0.05 higher, and dropped
      if not; else the trial goes on. A promotion that cannot be stored is left for the next reward. No
      other bucket is touched. */
  lemma EveryRewardDecides(states: seq<Sys>, events: seq<Event>, floor: nat, i: nat, b: Bucket)
    requires IsRun(states, events, floor, false) && i < |events| && events[i].Reward?
    requires b in states[i].active && Concerns(events[i], b, states[i].active[b])
    ensures var s, u, e, c := states[i], states[i + 1], events[i], states[i].active[b];
      var hs := Heard(states, events, b, i) + [e];
      var plain := Plain(hs, c.profile);
      Decided(State(s.tables, s.active), State(u.tables, u.active), b, Products(hs, c.profile), Products(hs, c.base),
              plain, e.served == c.profile && Struck(plain), e.io.setOk)
  {
    var s, e := states[i], events[i];
    StepOfRun(states, events, floor, false, i);
    EveryStateKeeps(states, events, floor, false, i);
    RunHears(states, events, floor, i, b);
    RewardDecides(s, e, b, Heard(states, events, b, i));
  }

  /** A reward that concerns no live candidate changes nothing, and neither does any reward of a
      process that was started frozen. */
  lemma OtherRewardsDoNothing(states: seq<Sys>, events: seq<Event>, floor: nat, isFrozen: bool, i: nat)
    requires IsRun(states, events, floor, isFrozen) && i < |events| && events[i].Reward?
    requires isFrozen || forall b | b in states[i].active :: !Concerns(events[i], b, states[i].active[b])
    ensures states[i + 1] == states[i]
  {
    var s, e := states[i], events[i];
    StepOfRun(states, events, floor, isFrozen, i);
    RoutingMeans(e.b, Target(e.b));
    if Target(e.b) in s.active { assert CandidateOk(s.tables, Target(e.b), s.active[Target(e.b)]); }
  }

  /** Candidates come and go with picks that enter the bandit, rewards, resets and restarts alone. */
  lemma OtherStepsKeepCandidates(states: seq<Sys>, events: seq<Event>, floor: nat, isFrozen: bool, i: nat)
    requires IsRun(states, events, floor, isFrozen) && i < |events|
    requires !events[i].Enter? && !events[i].Reward? && !events[i].Reset? && !events[i].Restart?
    ensures states[i + 1].active == states[i].active
  {
    StepOfRun(states, events, floor, isFrozen, i);
  }

  // ---- resets and seeds ----

  /** A reset that can be stored puts the intent's own profile back to its default and drops exactly the
      intent's candidates; one that cannot changes no profile and no candidate. */
  lemma EveryResetRestores(states: seq<Sys>, events: seq<Event>, floor: nat, isFrozen: bool, i: nat, intent: string, io: Io)
    requires IsRun(states, events, floor, isFrozen) && i < |events| && events[i] == Reset(intent, io)
    ensures var s, u := states[i], states[i + 1];
      && u.tables.current == (if io.setOk then s.tables.current[IntentSlot(intent) := Default(intent)] else s.tables.current)
      && (forall b :: b in u.active <==> b in s.active && (io.setOk ==> b.intent != intent))
      && (forall b | b in u.active :: u.active[b] == s.active[b])
  {
    StepOfRun(states, events, floor, isFrozen, i);
  }

  lemma AccessOnlySeeds(s: Sys, pid: nat, ok: bool, slot: Slot)
    requires Agreement(s) && Enabled(s, Access(pid, ok)) && slot in AccessStep(s, pid, ok).tables.current
    ensures var before, after := s.tables, AccessStep(s, pid, ok).tables;
      if slot in before.current then Read(after, slot) == Read(before, slot)
      else match slot
        case IntentSlot(intent) => Read(after, slot) == Default(intent)
        case BucketSlot(intent, _, _) => IntentSlot(intent) in before.current && Read(after, slot) == Read(before, IntentSlot(intent))
  {
    var k := s.picks[pid];
    assert PickOk(s.tables, s.floor, k);
    if ok && Seeding(k).Some? { SeedIsForeseen(s.tables, s.floor, k); }
  }

  /** A store access of a pick changes no stored profile. What it adds is the default for an intent, and
      for a bucket the profile its intent then has. */
  lemma EveryAccessOnlySeeds(states: seq<Sys>, events: seq<Event>, floor: nat, isFrozen: bool, i: nat, pid: nat, ok: bool, slot: Slot)
    requires IsRun(states, events, floor, isFrozen) && i < |events| && events[i] == Access(pid, ok)
    requires slot in states[i + 1].tables.current
    ensures var before, after := states[i].tables, states[i + 1].tables;
      if slot in before.current then Read(after, slot) == Read(before, slot)
      else match slot
        case IntentSlot(intent) => Read(after, slot) == Default(intent)
        case BucketSlot(intent, _, _) => IntentSlot(intent) in before.current && Read(after, slot) == Read(before, IntentSlot(intent))
  {
    StepOfRun(states, events, floor, isFrozen, i);
    AccessOnlySeeds(states[i], pid, ok, slot);
  }

  /** A pick comes to its choice holding the profile then stored for its intent, if it is global or cold,
      and else the one stored for its bucket. */
  lemma EveryChoiceHoldsTheStored(states: seq<Sys>, events: seq<Event>, floor: nat, isFrozen: bool, i: nat, pid: nat)
    requires IsRun(states, events, floor, isFrozen) && i < |states| && pid in states[i].picks && states[i].picks[pid].Choose?
    ensures var s, k := states[i], states[i].picks[pid];
      var slot := if Everywhere(k.b) || k.samples < floor then IntentSlot(k.b.intent)
                  else BucketSlot(k.b.intent, k.b.repo, k.b.topic);
      slot in s.tables.current && k.base == Read(s.tables, slot)
  {
    EveryStateKeeps(states, events, floor, isFrozen, i);
    FloorStays(states, events, floor, isFrozen, i);
    assert PickOk(states[i].tables, states[i].floor, states[i].picks[pid]);
  }
}
