/** The audit list replays: in every reachable state it explains the stored profile, and the
    rewards of a live candidate are exactly what its trial has counted. */
module AuditLog {
  import opened Profiles
  import opened HeuristicsStore
  import opened Trials
  import opened Bandits
  import opened PickerRun

  /** The profile a list of entries (newest first) leaves behind, starting from the seed. */
  function Replay(log: seq<HistoryEntry>, seed: Profile): Profile {
    if log == [] then seed else log[0].to
  }

  /** An entry that tells the truth about the profile that was current just before it: a promotion
      starts there and is one step, a discard returns there from one step off, a rollback goes to the
      default, from a candidate one step off or, for a reset, from nowhere. */
  ghost predicate TrueEntry(e: HistoryEntry, before: Profile, intent: string) {
    match e.kind
    case PromoteEntry => e.from == before && OneStep(e.from, e.to)
    case DiscardEntry => e.to == before && OneStep(e.to, e.from)
    case RollbackEntry => e.to == Default(intent) && (e.from == NO_PROFILE || OneStep(before, e.from))
  }

  /** Every entry of a list does. */
  ghost predicate Truthful(log: seq<HistoryEntry>, seed: Profile, intent: string) {
    log != [] ==> Truthful(log[1..], seed, intent) && TrueEntry(log[0], Replay(log[1..], seed), intent)
  }

  ghost predicate SlotExplained(t: Tables, log: map<Slot, seq<HistoryEntry>>, seeds: map<Slot, Profile>, slot: Slot) {
    if slot in t.current then
      && slot in seeds
      && Truthful(LogAt(log, slot), seeds[slot], slot.intent)
      && Replay(LogAt(log, slot), seeds[slot]) == Read(t, slot)
    else slot !in seeds && LogAt(log, slot) == []
  }

  ghost predicate Explained(s: Sys) {
    forall slot :: SlotExplained(s.tables, s.log, s.seeds, slot)
  }

  /** The stored list is the newest part of the whole log. */
  ghost predicate Trimmed(s: Sys) {
    forall slot :: History(s.tables, slot) == Trim(LogAt(s.log, slot))
  }

  ghost predicate TrialsCounted(active: map<Bucket, Candidate>, seen: map<Bucket, seq<Sample>>) {
    && seen.Keys == active.Keys
    && forall b | b in active :: Summarises(active[b].trial, seen[b])
  }

  ghost predicate Undecideds(active: map<Bucket, Candidate>) {
    forall b | b in active :: !WindowFull(active[b].trial)
  }

  ghost predicate Remembered(s: Sys) {
    && Trimmed(s) && TrialsCounted(s.active, s.seen)
    && (s.clean ==> Explained(s) && Undecideds(s.active))
  }

  lemma InitialRemembers(floor: nat, isFrozen: bool)
    ensures Remembered(Initial(floor, isFrozen))
  {}

  lemma SeedingIsExplained(s: Sys, pid: nat)
    requires Agreement(s) && Explained(s) && Enabled(s, Access(pid, true)) && Seeding(s.picks[pid]).Some?
    ensures Explained(AccessStep(s, pid, true))
  {
    var u := AccessStep(s, pid, true);
    var k := s.picks[pid];
    assert PickOk(s.tables, s.floor, k);
    SeedIsForeseen(s.tables, s.floor, k);
    var (written, p) := Seeding(k).value;
    forall slot ensures SlotExplained(u.tables, u.log, u.seeds, slot) {
      assert SlotExplained(s.tables, s.log, s.seeds, slot);
    }
  }

  lemma AccessRemembers(s: Sys, pid: nat, ok: bool)
    requires Agreement(s) && Remembered(s) && Enabled(s, Access(pid, ok))
    ensures Remembered(AccessStep(s, pid, ok))
  {
    var u := AccessStep(s, pid, ok);
    assert u.tables.history == s.tables.history;
    assert Trimmed(u) by {
      forall slot ensures History(u.tables, slot) == Trim(LogAt(u.log, slot)) {
        assert History(s.tables, slot) == Trim(LogAt(s.log, slot));
      }
    }
    if s.clean {
      if ok && Seeding(s.picks[pid]).Some? {
        SeedingIsExplained(s, pid);
      } else {
        forall slot ensures SlotExplained(u.tables, u.log, u.seeds, slot) {
          assert SlotExplained(s.tables, s.log, s.seeds, slot);
        }
      }
    }
  }

  lemma SameTables(s: Sys, u: Sys)
    requires Remembered(s)
    requires u.tables == s.tables && u.log == s.log && u.seeds == s.seeds
    ensures Trimmed(u) && (s.clean ==> Explained(u))
  {}

  lemma EnteringIsFaithful(s: Sys, pid: nat, d: Draw)
    requires TrialsCounted(s.active, s.seen) && Enabled(s, Enter(pid, d))
    ensures TrialsCounted(EnterStep(s, pid, d).active, EnterStep(s, pid, d).seen)
    ensures Undecideds(s.active) ==> Undecideds(EnterStep(s, pid, d).active)
  {
    var u := EnterStep(s, pid, d);
    assert Summarises(FRESH, []);
    forall b | b in u.active ensures b in u.seen && Summarises(u.active[b].trial, u.seen[b]) {
      if b in s.active { assert u.active[b] == s.active[b] && u.seen[b] == s.seen[b]; }
    }
    assert u.seen.Keys == u.active.Keys;
  }

  lemma EnterRemembers(s: Sys, pid: nat, d: Draw)
    requires Agreement(s) && Remembered(s) && Enabled(s, Enter(pid, d))
    ensures Remembered(EnterStep(s, pid, d))
  {
    var u := EnterStep(s, pid, d);
    SameTables(s, u);
    EnteringIsFaithful(s, pid, d);
  }

  /** A new profile p for one slot, together with a truthful entry for it, stays explained. */
  lemma EntryIsExplained(t: Tables, log: map<Slot, seq<HistoryEntry>>, seeds: map<Slot, Profile>,
                         slot: Slot, e: HistoryEntry, u: Tables)
    requires forall x :: SlotExplained(t, log, seeds, x)
    requires u.current == t.current[slot := e.to] || (u.current == t.current && slot in t.current && e.to == Read(t, slot))
    requires InBounds(e.to)
    requires if slot in t.current then TrueEntry(e, Read(t, slot), slot.intent)
             else e == HistoryEntry(RollbackEntry, NO_PROFILE, Default(slot.intent))
    ensures forall x :: SlotExplained(u, Logged(log, slot, e, true), Remember(seeds, slot, e.to), x)
  {
    var after := Logged(log, slot, e, true);
    forall x ensures SlotExplained(u, after, Remember(seeds, slot, e.to), x) {
      assert SlotExplained(t, log, seeds, x);
      if x == slot {
        assert LogAt(after, slot)[1..] == LogAt(log, slot);
      } else {
        assert LogAt(after, x) == LogAt(log, x);
      }
    }
  }

  lemma EntryIsTrimmed(t: Tables, log: map<Slot, seq<HistoryEntry>>, slot: Slot, e: HistoryEntry, ok: bool, u: Tables)
    requires forall x :: History(t, x) == Trim(LogAt(log, x))
    requires u.history == WithEntry(t, slot, e, ok).history
    ensures forall x :: History(u, x) == Trim(LogAt(Logged(log, slot, e, ok), x))
  {
    var after := Logged(log, slot, e, ok);
    forall x ensures History(u, x) == Trim(LogAt(after, x)) {
      assert History(t, x) == Trim(LogAt(log, x));
      if x == slot && ok {
        var whole := [e] + LogAt(log, slot);
        assert Trim([e] + Trim(LogAt(log, slot))) == Trim(whole);
      }
    }
  }

  /** The trial part of a reward: every live candidate's count stays faithful. */
  lemma CountingIsFaithful(active: map<Bucket, Candidate>, seen: map<Bucket, seq<Sample>>, b: Bucket, sample: Sample)
    requires TrialsCounted(active, seen) && b in active
    requires Observe(active[b].trial, sample).1 != Rollback
    ensures TrialsCounted(active[b := active[b].(trial := Observe(active[b].trial, sample).0)],
                          seen[b := SeenAt(seen, b) + [sample]])
  {
    ObserveIsFaithful(active[b].trial, seen[b], sample);
  }

  lemma CountingStaysOpen(active: map<Bucket, Candidate>, b: Bucket, sample: Sample)
    requires Undecideds(active) && b in active && Observe(active[b].trial, sample).1 == Undecided
    ensures Undecideds(Counted(active, b, sample))
  {}

  lemma CountedRemembers(s: Sys, u: Sys, b: Bucket, sample: Sample)
    requires Remembered(s) && b in s.active
    requires u.tables == s.tables && u.log == s.log && u.seeds == s.seeds
    requires u.active == Counted(s.active, b, sample) && u.seen == s.seen[b := SeenAt(s.seen, b) + [sample]]
    requires u.clean ==> s.clean && Observe(s.active[b].trial, sample).1 == Undecided
    requires Observe(s.active[b].trial, sample).1 != Rollback
    ensures Remembered(u)
  {
    SameTables(s, u);
    CountingIsFaithful(s.active, s.seen, b, sample);
    if u.clean { CountingStaysOpen(s.active, b, sample); }
  }

  /** A truthful entry about a stored slot, and the profile it leaves, need no new seed. */
  lemma SettledIsExplained(t: Tables, log: map<Slot, seq<HistoryEntry>>, seeds: map<Slot, Profile>, slot: Slot, e: HistoryEntry, u: Tables)
    requires (forall x :: SlotExplained(t, log, seeds, x)) && slot in t.current
    requires u.current == t.current[slot := e.to] || (u.current == t.current && e.to == Read(t, slot))
    requires InBounds(e.to) && TrueEntry(e, Read(t, slot), slot.intent)
    ensures forall x :: SlotExplained(u, Logged(log, slot, e, true), seeds, x)
  {
    EntryIsExplained(t, log, seeds, slot, e, u);
    assert SlotExplained(t, log, seeds, slot);
    assert Remember(seeds, slot, e.to) == seeds;
  }

  /** Filing rewrites the one slot, unless the entry is a discard or the write failed. */
  predicate FiledLeaves(t: Tables, slot: Slot, e: HistoryEntry, io: Io, u: Tables) {
    u.current == if e.kind == DiscardEntry || (e.kind == RollbackEntry && !io.setOk) then t.current else t.current[slot := e.to]
  }

  /** The tables and the log after a truthful entry about a stored slot was filed. */
  lemma FiledIsRemembered(s: Sys, u: Sys, slot: Slot, e: HistoryEntry, io: Io)
    requires Trimmed(s) && (s.clean ==> Explained(s)) && slot in s.tables.current
    requires InBounds(e.to) && TrueEntry(e, Read(s.tables, slot), slot.intent)
    requires u.tables.history == WithEntry(s.tables, slot, e, io.logOk).history && FiledLeaves(s.tables, slot, e, io, u.tables)
    requires u.log == Logged(s.log, slot, e, io.logOk) && u.seeds == s.seeds
    requires u.clean ==> s.clean && io.logOk && (e.kind == RollbackEntry ==> io.setOk)
    ensures Trimmed(u) && (u.clean ==> Explained(u))
  {
    EntryIsTrimmed(s.tables, s.log, slot, e, io.logOk, u.tables);
    if u.clean { SettledIsExplained(s.tables, s.log, s.seeds, slot, e, u.tables); }
  }

  lemma DroppedIsCounted(active: map<Bucket, Candidate>, seen: map<Bucket, seq<Sample>>, b: Bucket)
    requires TrialsCounted(active, seen)
    ensures TrialsCounted(active - {b}, seen - {b})
    ensures Undecideds(active) ==> Undecideds(active - {b})
  {}

  lemma FiledEntryTells(t: Tables, active: map<Bucket, Candidate>, b: Bucket, sample: Sample, io: Io)
    requires b in active && CandidateOk(t, b, active[b]) && FrozenOk(t)
    requires !Counts(State(t, active), b, sample, io)
    ensures var e := FiledEntry(State(t, active), b, sample, io);
      && SlotOf(b) in t.current && InBounds(e.to) && TrueEntry(e, Read(t, SlotOf(b)), SlotOf(b).intent)
      && (e.kind == PromoteEntry ==> io.setOk)
  {}

  lemma FilingLeaves(t: Tables, b: Bucket, e: HistoryEntry, io: Io)
    requires InBounds(e.to) && (e.kind == PromoteEntry ==> io.setOk)
    ensures FiledLeaves(t, SlotOf(b), e, io, Filed(t, b, e, io))
  {}

  lemma FiledEntryIsTrue(s: Sys, b: Bucket, sample: Sample, io: Io)
    requires Agreement(s) && b in s.active
    requires !Counts(State(s.tables, s.active), b, sample, io)
    ensures var e := FiledEntry(State(s.tables, s.active), b, sample, io);
      && SlotOf(b) in s.tables.current && InBounds(e.to)
      && TrueEntry(e, Read(s.tables, SlotOf(b)), SlotOf(b).intent)
      && (e.kind == PromoteEntry ==> io.setOk)
      && FiledLeaves(s.tables, SlotOf(b), e, io, Filed(s.tables, b, e, io))
  {
    var e := FiledEntry(State(s.tables, s.active), b, sample, io);
    FiledEntryTells(s.tables, s.active, b, sample, io);
    FilingLeaves(s.tables, b, e, io);
  }

  lemma SettledRemembers(s: Sys, u: Sys, b: Bucket, sample: Sample, io: Io)
    requires Agreement(s) && Remembered(s) && b in s.active
    requires !Counts(State(s.tables, s.active), b, sample, io)
    requires var e := FiledEntry(State(s.tables, s.active), b, sample, io);
      && u.tables == Filed(s.tables, b, e, io)
      && u.log == Logged(s.log, SlotOf(b), e, io.logOk) && u.seeds == s.seeds
      && (u.clean ==> s.clean && io.logOk && (e.kind == RollbackEntry ==> io.setOk))
    requires u.active == s.active - {b} && u.seen == s.seen - {b}
    ensures Remembered(u)
  {
    var e := FiledEntry(State(s.tables, s.active), b, sample, io);
    DroppedIsCounted(s.active, s.seen, b);
    FiledEntryIsTrue(s, b, sample, io);
    FiledIsRemembered(s, u, SlotOf(b), e, io);
  }

  lemma RewardRemembers(s: Sys, raw: Bucket, served: Profile, adjusted: real, weight: real, io: Io)
    requires Agreement(s) && Remembered(s) && s.picks == map[]
    ensures Remembered(RewardStep(s, raw, served, adjusted, weight, io))
  {
    var b := Target(raw);
    var before := State(s.tables, s.active);
    if s.isFrozen || !Routed(before, b, served) { return; }
    UpdateCountsOrFiles(before, b, served, adjusted, weight, io);
    var sample := SampleOf(s.active[b], served, adjusted, weight);
    var u := RewardStep(s, raw, served, adjusted, weight, io);
    if Counts(before, b, sample, io) {
      CountedRemembers(s, u, b, sample);
    } else {
      SettledRemembers(s, u, b, sample, io);
    }
  }

  lemma ResetRemembers(s: Sys, intent: string, io: Io)
    requires Agreement(s) && Remembered(s)
    ensures Remembered(ResetStep(s, intent, io))
  {
    if io.setOk {
      var u := ResetStep(s, intent, io);
      var slot := IntentSlot(intent);
      var def := FrozenDefault(s.tables, intent, io.readOk);
      var e := HistoryEntry(RollbackEntry, NO_PROFILE, def);
      EntryIsTrimmed(s.tables, s.log, slot, e, io.logOk, u.tables);
      if u.clean {
        EntryIsExplained(s.tables, s.log, s.seeds, slot, e, u.tables);
      }
    }
  }

  lemma SameMemory(s: Sys, u: Sys)
    requires Remembered(s)
    requires u.tables == s.tables && u.log == s.log && u.seeds == s.seeds && u.clean == s.clean
    requires (u.active == s.active && u.seen == s.seen) || (u.active == map[] && u.seen == map[])
    ensures Remembered(u)
  {
    SameTables(s, u);
  }

  lemma StepRemembers(s: Sys, e: Event)
    requires Agreement(s) && Remembered(s) && Enabled(s, e)
    ensures Remembered(Step(s, e))
  {
    match e
    case Enable(name) => SameMemory(s, Step(s, e));
    case Start(pid, b, n, topicsOn) => SameMemory(s, Step(s, e));
    case Access(pid, ok) => AccessRemembers(s, pid, ok);
    case Enter(pid, d) => EnterRemembers(s, pid, d);
    case Finish(pid) => SameMemory(s, Step(s, e));
    case Reward(b, served, adjusted, weight, io) => RewardRemembers(s, b, served, adjusted, weight, io);
    case Reset(intent, io) => ResetRemembers(s, intent, io);
    case Restart => SameMemory(s, Step(s, e));
  }

  // ---- over whole runs ----

  ghost predicate IsRun(states: seq<Sys>, events: seq<Event>, floor: nat, isFrozen: bool) {
    && |states| == |events| + 1
    && states[0] == Initial(floor, isFrozen)
    && forall i | 0 <= i < |events| :: Enabled(states[i], events[i]) && states[i + 1] == Step(states[i], events[i])
  }

  lemma {:induction false} EveryStateKeeps(states: seq<Sys>, events: seq<Event>, floor: nat, isFrozen: bool, i: nat)
    requires IsRun(states, events, floor, isFrozen) && i < |states|
    ensures Agreement(states[i]) && Remembered(states[i])
  {
    if i == 0 {
      InitialAgrees(floor, isFrozen);
      InitialRemembers(floor, isFrozen);
    } else {
      EveryStateKeeps(states, events, floor, isFrozen, i - 1);
      StepKeepsAgreement(states[i - 1], events[i - 1]);
      StepRemembers(states[i - 1], events[i - 1]);
    }
  }

  /** In every interleaving, what a pick is served is inside the bounds and at most one unit
      step from the profile stored at that very moment in the slot it was read from. */
  lemma EveryPickIsOneStepFromTheStore(states: seq<Sys>, events: seq<Event>, floor: nat, isFrozen: bool,
                                       i: nat, pid: nat, d: Draw)
    requires IsRun(states, events, floor, isFrozen) && i < |events| && events[i] == Enter(pid, d)
    ensures var k := states[i].picks[pid];
      && pid in states[i + 1].picks && states[i + 1].picks[pid].Served?
      && var served := states[i + 1].picks[pid].profile;
         var slot := SourceSlot(states[i].floor, k.b, k.samples);
         && slot in states[i].tables.current
         && WithinOneStep(Read(states[i].tables, slot), served)
         && (served != Read(states[i].tables, slot) ==>
              k.b in states[i + 1].active && served == states[i + 1].active[k.b].profile)
  {
    EveryStateKeeps(states, events, floor, isFrozen, i);
    var s := states[i];
    var k := s.picks[pid];
    assert PickOk(s.tables, s.floor, k);
    SelectIsSound(s.tables, s.active, s.tunable, s.floor, k.b, k.base, k.samples, d);
  }

  lemma {:induction false} TruthfulAt(log: seq<HistoryEntry>, seed: Profile, intent: string, j: nat)
    requires Truthful(log, seed, intent) && j < |log|
    ensures TrueEntry(log[j], Replay(log[j + 1..], seed), intent)
  {
    if j > 0 {
      TruthfulAt(log[1..], seed, intent, j - 1);
      assert log[1..][j..] == log[j + 1..];
    }
  }

  /** While no write has failed, the stored audit list of every slot is the newest 200 entries of its
      log and ends in the stored profile, and the whole log, replayed from the slot's seed, is
      truthful and ends there too. */
  lemma AuditReplays(states: seq<Sys>, events: seq<Event>, floor: nat, isFrozen: bool, i: nat, slot: Slot)
    requires IsRun(states, events, floor, isFrozen) && i < |states| && states[i].clean
    requires slot in states[i].tables.current
    ensures var s := states[i];
      var visible := History(s.tables, slot);
      && slot in s.seeds
      && Truthful(LogAt(s.log, slot), s.seeds[slot], slot.intent)
      && Replay(LogAt(s.log, slot), s.seeds[slot]) == Read(s.tables, slot)
      && visible == (if |LogAt(s.log, slot)| <= 200 then LogAt(s.log, slot) else LogAt(s.log, slot)[..200])
      && (visible != [] ==> visible[0].to == Read(s.tables, slot))
      && (forall j | 0 <= j < |visible| - 1 && visible[j].kind == PromoteEntry :: visible[j].from == visible[j + 1].to)
  {
    EveryStateKeeps(states, events, floor, isFrozen, i);
    var s := states[i];
    assert SlotExplained(s.tables, s.log, s.seeds, slot);
    var log := LogAt(s.log, slot);
    forall j | 0 <= j < |log| - 1 && log[j].kind == PromoteEntry ensures log[j].from == log[j + 1].to {
      TruthfulAt(log, s.seeds[slot], slot.intent, j);
    }
  }

  /** With every write succeeding no live candidate is overdue for a decision, whatever the run. */
  lemma LiveTrialsAreUndecided(states: seq<Sys>, events: seq<Event>, floor: nat, isFrozen: bool, i: nat, b: Bucket)
    requires IsRun(states, events, floor, isFrozen) && i < |states| && b in states[i].active
    ensures b in states[i].seen
    ensures TrailingBad(CandidateRewards(states[i].seen[b])) < ROLLBACK_STRIKES
    ensures states[i].clean ==>
      |CandidateRewards(states[i].seen[b])| < PROMOTION_WINDOW || |Weighted(states[i].seen[b], false)| < BASE_WINDOW
  {
    EveryStateKeeps(states, events, floor, isFrozen, i);
  }

  lemma StoredChangeIsEarned(s: Sys, raw: Bucket, served: Profile, adjusted: real, weight: real, io: Io)
    requires Agreement(s) && TrialsCounted(s.active, s.seen)
    requires RewardStep(s, raw, served, adjusted, weight, io).tables.current != s.tables.current
    ensures Target(raw) in s.active && Target(raw) in s.seen
    ensures var c := s.active[Target(raw)];
      var all := s.seen[Target(raw)] + [SampleOf(c, served, adjusted, weight)];
      var after := RewardStep(s, raw, served, adjusted, weight, io).tables.current;
      || (after == s.tables.current[SlotOf(raw) := c.profile] && Earned(all))
      || (after == s.tables.current[SlotOf(raw) := Default(raw.intent)] && ThreeStrikes(CandidateRewards(all)))
  {
    var b := Target(raw);
    var before := State(s.tables, s.active);
    assert !s.isFrozen && Routed(before, b, served);
    var sample := SampleOf(s.active[b], served, adjusted, weight);
    UpdateCountsOrFiles(before, b, served, adjusted, weight, io);
    assert !Counts(before, b, sample, io);
    FiledEntryIsTrue(s, b, sample, io);
    if Observe(s.active[b].trial, sample).1 == Promote {
      PromotionIsEarned(s.active[b].trial, s.seen[b], sample);
    } else {
      ObserveIsFaithful(s.active[b].trial, s.seen[b], sample);
    }
  }

  /** Every reward that changes a stored profile, whatever became of its audit entry, either stores
      the bucket's candidate, and the rewards received up to and including this one earned that, or
      stores the default, and they end a run of three bad ones. */
  lemma EveryStoredChangeIsEarned(states: seq<Sys>, events: seq<Event>, floor: nat, isFrozen: bool, i: nat,
                                  raw: Bucket, served: Profile, adjusted: real, weight: real, io: Io)
    requires IsRun(states, events, floor, isFrozen) && i < |events|
    requires events[i] == Reward(raw, served, adjusted, weight, io)
    requires states[i + 1].tables.current != states[i].tables.current
    ensures Target(raw) in states[i].active && Target(raw) in states[i].seen
    ensures var c := states[i].active[Target(raw)];
      var all := states[i].seen[Target(raw)] + [SampleOf(c, served, adjusted, weight)];
      var before, after := states[i].tables.current, states[i + 1].tables.current;
      || (after == before[SlotOf(raw) := c.profile] && Earned(all))
      || (after == before[SlotOf(raw) := Default(raw.intent)] && ThreeStrikes(CandidateRewards(all)))
  {
    EveryStateKeeps(states, events, floor, isFrozen, i);
    StoredChangeIsEarned(states[i], raw, served, adjusted, weight, io);
  }

  /** Every promotion that any run puts on record was earned by the rewards its candidate had
      received up to and including the one that decided it. */
  lemma EveryPromotionIsEarned(states: seq<Sys>, events: seq<Event>, floor: nat, isFrozen: bool, i: nat,
                               raw: Bucket, served: Profile, adjusted: real, weight: real, io: Io, e: HistoryEntry)
    requires IsRun(states, events, floor, isFrozen) && i < |events|
    requires events[i] == Reward(raw, served, adjusted, weight, io) && e.kind == PromoteEntry
    requires LogAt(states[i + 1].log, SlotOf(raw)) == [e] + LogAt(states[i].log, SlotOf(raw))
    ensures Target(raw) in states[i].active && Target(raw) in states[i].seen
    ensures var c := states[i].active[Target(raw)];
      e == HistoryEntry(PromoteEntry, c.base, c.profile)
      && Earned(states[i].seen[Target(raw)] + [SampleOf(c, served, adjusted, weight)])
  {
    EveryStateKeeps(states, events, floor, isFrozen, i);
    var s := states[i];
    var b := Target(raw);
    var before := State(s.tables, s.active);
    assert !s.isFrozen && Routed(before, b, served);
    var sample := SampleOf(s.active[b], served, adjusted, weight);
    assert !Counts(before, b, sample, io);
    assert LogAt(states[i + 1].log, SlotOf(raw))[0] == FiledEntry(before, b, sample, io);
    PromotionIsEarned(s.active[b].trial, s.seen[b], sample);
  }
}
