/** The in-memory profile bandit: at most one live candidate per bucket. */
module Bandits {
  import opened Profiles
  import opened HeuristicsStore
  import opened Trials

  datatype Candidate = Candidate(profile: Profile, base: Profile, trial: Trial)

  /** The outcome of the random draws one Select may make. */
  datatype Draw = Draw(explore: bool, knob: string, up: bool)

  datatype State = State(tables: Tables, active: map<Bucket, Candidate>)

  const NO_PROFILE: Profile := [0, 0, 0, 0, 0, 0, 0, 0, 0, 0, 0, 0]

  predicate Gated(b: Bucket, samples: nat, floor: nat) { !IsGlobal(b) && samples < floor }

  function SelectSpec(active: map<Bucket, Candidate>, tunable: set<string>, floor: nat,
                      b: Bucket, base: Profile, samples: nat, d: Draw): (map<Bucket, Candidate>, Profile)
  {
    if tunable == {} || Gated(b, samples, floor) || !d.explore then (active, base)
    else if b in active then (active, active[b].profile)
    else
      var cand := Perturb(base, d.knob, d.up);
      if cand == base then (active, base)
      else (active[b := Candidate(cand, base, FRESH)], cand)
  }

  function PromoteSpec(s: State, b: Bucket, io: Io): State
    requires b in s.active
  {
    var c := s.active[b];
    if !io.setOk then s else
      var t := WithCurrent(s.tables, SlotOf(b), c.profile, true);
      State(WithEntry(t, SlotOf(b), HistoryEntry(PromoteEntry, c.base, c.profile), io.logOk), s.active - {b})
  }

  function DiscardSpec(s: State, b: Bucket, io: Io): State
    requires b in s.active
  {
    var c := s.active[b];
    State(WithEntry(s.tables, SlotOf(b), HistoryEntry(DiscardEntry, c.profile, c.base), io.logOk), s.active - {b})
  }

  function RollbackSpec(s: State, b: Bucket, io: Io): State
    requires b in s.active
  {
    var c := s.active[b];
    var def := FrozenDefault(s.tables, b.intent, io.readOk);
    var t := WithCurrent(s.tables, SlotOf(b), def, io.setOk);
    State(WithEntry(t, SlotOf(b), HistoryEntry(RollbackEntry, c.profile, def), io.logOk), s.active - {b})
  }

  /** A reward names the profile that served it; any other profile is stale and ignored. */
  predicate Routed(s: State, b: Bucket, served: Profile) {
    b in s.active && (served == s.active[b].profile || served == s.active[b].base)
  }

  function JudgeSpec(s: State, b: Bucket, io: Io): State
    requires b in s.active
  {
    match WindowVerdict(s.active[b].trial)
    case Promote => PromoteSpec(s, b, io)
    case Discard => DiscardSpec(s, b, io)
    case _ => s
  }

  function UpdateSpec(s: State, b: Bucket, served: Profile, adjusted: real, weight: real, io: Io): State {
    if !Routed(s, b, served) then s else
      var c := s.active[b];
      var (t, v) := Observe(c.trial, Sample(served == c.profile, adjusted, weight));
      var s1 := s.(active := s.active[b := c.(trial := t)]);
      match v
      case Undecided => s1
      case Promote => PromoteSpec(s1, b, io)
      case Discard => DiscardSpec(s1, b, io)
      case Rollback => RollbackSpec(s1, b, io)
  }

  function SampleOf(c: Candidate, served: Profile, adjusted: real, weight: real): Sample {
    Sample(served == c.profile, adjusted, weight)
  }

  /** A routed reward that is only counted: the trial stays open, or its promotion could not
      be written and is left for the next reward. */
  predicate Counts(s: State, b: Bucket, sample: Sample, io: Io)
    requires b in s.active
  {
    var v := Observe(s.active[b].trial, sample).1;
    v == Undecided || (v == Promote && !io.setOk)
  }

  /** The entry under which any other routed reward closes the trial. */
  function FiledEntry(s: State, b: Bucket, sample: Sample, io: Io): HistoryEntry
    requires b in s.active && !Counts(s, b, sample, io)
  {
    var c := s.active[b];
    match Observe(c.trial, sample).1
    case Promote => HistoryEntry(PromoteEntry, c.base, c.profile)
    case Discard => HistoryEntry(DiscardEntry, c.profile, c.base)
    case Rollback => HistoryEntry(RollbackEntry, c.profile, FrozenDefault(s.tables, b.intent, io.readOk))
  }

  function Counted(active: map<Bucket, Candidate>, b: Bucket, sample: Sample): map<Bucket, Candidate>
    requires b in active
  {
    active[b := active[b].(trial := Observe(active[b].trial, sample).0)]
  }

  /** The profile table and audit list after a trial closes under entry e. */
  function Filed(t: Tables, b: Bucket, e: HistoryEntry, io: Io): Tables {
    var u := if e.kind == DiscardEntry then t else WithCurrent(t, SlotOf(b), e.to, io.setOk);
    WithEntry(u, SlotOf(b), e, io.logOk)
  }

  /** A routed reward either counts and changes nothing else, or closes the trial: the
      candidate goes, its slot takes the entry's outcome unless that is a discard, and the
      entry is filed. */
  lemma UpdateCountsOrFiles(s: State, b: Bucket, served: Profile, adjusted: real, weight: real, io: Io)
    requires Routed(s, b, served)
    ensures var sample := SampleOf(s.active[b], served, adjusted, weight);
      UpdateSpec(s, b, served, adjusted, weight, io) ==
        if Counts(s, b, sample, io) then State(s.tables, Counted(s.active, b, sample))
        else State(Filed(s.tables, b, FiledEntry(s, b, sample, io), io), s.active - {b})
  {
    var sample := SampleOf(s.active[b], served, adjusted, weight);
    assert Counted(s.active, b, sample) - {b} == s.active - {b};
    match Observe(s.active[b].trial, sample).1
    case Undecided =>
    case Promote =>
    case Discard =>
    case Rollback =>
  }

  function OtherIntents(active: map<Bucket, Candidate>, intent: string): map<Bucket, Candidate> {
    map b | b in active && b.intent != intent :: active[b]
  }

  function ResetSpec(s: State, intent: string, io: Io): State {
    var slot := IntentSlot(intent);
    var def := FrozenDefault(s.tables, intent, io.readOk);
    if !io.setOk then s else
      var t := WithCurrent(s.tables, slot, def, true);
      State(WithEntry(t, slot, HistoryEntry(RollbackEntry, NO_PROFILE, def), io.logOk),
            OtherIntents(s.active, intent))
  }

  class Bandit {
    const store: Store
    const floor: nat
    var tunable: set<string>
    var active: map<Bucket, Candidate>

    constructor (store: Store, floor: nat)
      ensures this.store == store && this.floor == floor && tunable == {} && active == map[]
    {
      this.store, this.floor := store, floor;
      tunable, active := {}, map[];
    }

    function Snapshot(): State
      reads this, store
    {
      State(store.Contents(), active)
    }

    method EnableKnob(name: string)
      modifies this`tunable
      ensures tunable == old(tunable) + {name}
    {
      tunable := tunable + {name};
    }

    method Select(b: Bucket, base: Profile, samples: nat, d: Draw) returns (p: Profile)
      requires tunable != {} ==> d.knob in tunable
      modifies this`active
      ensures (active, p) == SelectSpec(old(active), tunable, floor, b, base, samples, d)
    {
      if tunable == {} { return base; }
      if !IsGlobal(b) && samples < floor { return base; }
      if b in active {
        if d.explore { return active[b].profile; }
        return base;
      }
      if d.explore {
        var cand := Perturb(base, d.knob, d.up);
        if cand == base { return base; }
        active := active[b := Candidate(cand, base, FRESH)];
        return cand;
      }
      return base;
    }

    method Update(b: Bucket, served: Profile, adjusted: real, weight: real, io: Io)
      modifies this`active, store
      ensures Snapshot() == UpdateSpec(old(Snapshot()), b, served, adjusted, weight, io)
    {
      if b !in active { return; }
      var c := active[b];
      var weighted := Contribution(Sample(served == c.profile, adjusted, weight));
      if served == c.profile {
        c := c.(trial := c.trial.(rewards := c.trial.rewards + [weighted]));
      } else if served == c.base {
        c := c.(trial := c.trial.(baseSamples := c.trial.baseSamples + [weighted]));
      } else {
        return;
      }
      if served == c.profile {
        if adjusted < ROLLBACK_THRESHOLD {
          c := c.(trial := c.trial.(consecBad := c.trial.consecBad + 1));
          if c.trial.consecBad >= ROLLBACK_STRIKES {
            active := active[b := c];
            RollbackCandidate(b, io);
            return;
          }
        } else {
          c := c.(trial := c.trial.(consecBad := 0));
        }
      }
      active := active[b := c];
      JudgeWindow(b, io);
    }

    /** Once both windows are full the trial is promoted or discarded by its means. */
    method JudgeWindow(b: Bucket, io: Io)
      requires b in active
      modifies this`active, store
      ensures Snapshot() == JudgeSpec(old(Snapshot()), b, io)
    {
      var t := active[b].trial;
      if |t.rewards| >= PROMOTION_WINDOW && |t.baseSamples| >= BASE_WINDOW {
        var meanCand := ComputeMean(t.rewards);
        var meanBase := ComputeMean(t.baseSamples);
        if meanCand > meanBase + PROMOTION_LIFT {
          PromoteCandidate(b, io);
        } else {
          DiscardCandidate(b, io);
        }
      }
    }

    method PromoteCandidate(b: Bucket, io: Io)
      requires b in active
      modifies this`active, store
      ensures Snapshot() == PromoteSpec(old(Snapshot()), b, io)
    {
      var c := active[b];
      var done := store.SetCurrentFor(b, c.profile, io.setOk);
      if !done { return; }
      store.AppendHistoryFor(b, HistoryEntry(PromoteEntry, c.base, c.profile), io.logOk);
      active := active - {b};
    }

    method DiscardCandidate(b: Bucket, io: Io)
      requires b in active
      modifies this`active, store
      ensures Snapshot() == DiscardSpec(old(Snapshot()), b, io)
    {
      store.AppendHistoryFor(b, HistoryEntry(DiscardEntry, active[b].profile, active[b].base), io.logOk);
      active := active - {b};
    }

    method RollbackCandidate(b: Bucket, io: Io)
      requires b in active
      modifies this`active, store
      ensures Snapshot() == RollbackSpec(old(Snapshot()), b, io)
    {
      var def := store.LoadDefault(b.intent, io.readOk);
      var _ := store.SetCurrentFor(b, def, io.setOk);
      store.AppendHistoryFor(b, HistoryEntry(RollbackEntry, active[b].profile, def), io.logOk);
      active := active - {b};
    }

    method ResetIntent(intent: string, io: Io) returns (ok: bool)
      modifies this`active, store
      ensures ok == io.setOk
      ensures Snapshot() == ResetSpec(old(Snapshot()), intent, io)
    {
      var def := store.LoadDefault(intent, io.readOk);
      var g := GlobalBucket(intent);
      ok := store.SetCurrentFor(g, def, io.setOk);
      if !ok { return; }
      store.AppendHistoryFor(g, HistoryEntry(RollbackEntry, NO_PROFILE, def), io.logOk);
      ClearIntent(intent);
    }

    method ClearIntent(intent: string)
      modifies this`active
      ensures active == OtherIntents(old(active), intent)
    {
      var before := active;
      var keys := active.Keys;
      while keys != {}
        invariant keys <= before.Keys
        invariant active == map b | b in before && (b in keys || b.intent != intent) :: before[b]
        decreases keys
      {
        var b :| b in keys;
        if b.intent == intent {
          active := active - {b};
        }
        keys := keys - {b};
      }
    }
  }
}
