/** Where the picker's guarantees stop. */
module PickerLimits {
  import opened Profiles
  import opened HeuristicsStore
  import opened Bandits
  import opened PickerRun
  import opened AuditLog

  lemma RewardKeepsFrozen(s: Sys, raw: Bucket, served: Profile, adjusted: real, weight: real, io: Io)
    requires Agreement(s)
    ensures RewardStep(s, raw, served, adjusted, weight, io).tables.frozen == s.tables.frozen
  {
    UpdateKeepsCandidates(State(s.tables, s.active), Target(raw), served, adjusted, weight, io);
  }

  lemma AccessKeepsFrozen(s: Sys, pid: nat, ok: bool)
    requires Enabled(s, Access(pid, ok))
    ensures s.tables.frozen.Keys <= AccessStep(s, pid, ok).tables.frozen.Keys
  {}

  /** Once written, a frozen default never changes again, in any step. */
  lemma FrozenDefaultIsForever(s: Sys, e: Event, intent: string)
    requires Agreement(s) && Enabled(s, e) && intent in s.tables.frozen
    ensures intent in Step(s, e).tables.frozen
    ensures Step(s, e).tables.frozen[intent] == s.tables.frozen[intent] == Default(intent)
  {
    StepKeepsAgreement(s, e);
    if e.Reward? {
      RewardKeepsFrozen(s, e.b, e.served, e.adjusted, e.weight, e.io);
    } else if e.Access? {
      AccessKeepsFrozen(s, e.pid, e.ok);
    } else if e.Reset? {
      ResetKeepsCandidates(State(s.tables, s.active), e.intent, e.io);
    }
  }

  /** A reset restores the intent's own profile and drops all its candidates, but a bucket that
      already has a profile keeps it: it does not go back to the intent's, now or lazily. */
  lemma ResetLeavesBucketProfiles(s: Sys, intent: string, io: Io, b: Bucket)
    requires Agreement(s) && s.picks == map[] && io.setOk
    requires b.intent == intent && !IsGlobal(b) && SlotOf(b) in s.tables.current
    ensures var u := ResetStep(s, intent, io);
      && IntentSlot(intent) in u.tables.current && Read(u.tables, IntentSlot(intent)) == Default(intent)
      && (forall c | c in u.active :: c.intent != intent)
      && SlotOf(b) in u.tables.current && Read(u.tables, SlotOf(b)) == Read(s.tables, SlotOf(b))
  {}

  /** When a bucket is read after a reset, it is back at the default exactly when it had no profile of
      its own or that was at the default before. */
  lemma ResetReachesBucketIff(s: Sys, intent: string, io: Io, b: Bucket)
    requires io.setOk && b.intent == intent && !IsGlobal(b) && FrozenOk(s.tables)
    ensures var u := ResetStep(s, intent, io);
      Read(SeedBucket(u.tables, b), SlotOf(b)) == Default(intent)
      <==> (SlotOf(b) in s.tables.current ==> Read(s.tables, SlotOf(b)) == Default(intent))
  {
    var u := ResetStep(s, intent, io);
    assert u.tables.current == s.tables.current[IntentSlot(intent) := Default(intent)];
  }

  predicate IntentHolds(t: Tables, intent: string, q: Profile) {
    IntentSlot(intent) in t.current && Read(t, IntentSlot(intent)) == q
  }

  // ---- the statistics page, which reads and seeds without any lock ----

  /** A bucket's slot is about to hold q. A pick of that bucket has foreseen this: what it has chosen,
      or is about to store there or to read from the intent, is q. */
  predicate ForeseesBucket(t: Tables, floor: nat, k: Pick, q: Profile) {
    match k
    case GetBucket(_, _) => true
    case GetIntent(b, n) => Gated(b, n, floor) || IntentHolds(t, b.intent, q)
    case PutIntent(b, n) => Gated(b, n, floor) || IntentHolds(t, b.intent, q)
    case CheckFrozen(b, n) => Gated(b, n, floor) || IntentHolds(t, b.intent, q)
    case PutFrozen(b, n) => Gated(b, n, floor) || IntentHolds(t, b.intent, q)
    case PutBucket(_, _, seed) => seed == q
    case Choose(b, n, base) => Gated(b, n, floor) || base == q
    case Served(_, _, _) => true
  }

  /** An intent's slot is about to hold q. A pick of that intent has foreseen this: what it has chosen
      from there, or is about to store there or to copy, is q. */
  predicate ForeseesIntent(t: Tables, floor: nat, k: Pick, q: Profile) {
    match k
    case GetBucket(_, _) => true
    case GetIntent(b, n) => IsGlobal(b) || Gated(b, n, floor) || SlotOf(b) !in t.current || Read(t, SlotOf(b)) == q
    case PutIntent(b, _) => q == Default(b.intent)
    case CheckFrozen(b, _) => q == Default(b.intent)
    case PutFrozen(b, _) => q == Default(b.intent)
    case PutBucket(_, _, seed) => seed == q
    case Choose(b, n, base) => (!IsGlobal(b) && !Gated(b, n, floor)) || base == q
    case Served(_, _, _) => true
  }

  predicate Foresees(t: Tables, floor: nat, k: Pick, slot: Slot, q: Profile) {
    match slot
    case BucketSlot(_, _, _) => SlotOf(k.b) == slot ==> ForeseesBucket(t, floor, k, q)
    case IntentSlot(i) => k.b.intent == i ==> ForeseesIntent(t, floor, k, q)
  }

  lemma PickForeseesIff(t: Tables, floor: nat, k: Pick, slot: Slot, p: Profile)
    requires PickOk(t, floor, k)
    ensures PickOk(WithCurrent(t, slot, p, true), floor, k) <==> Foresees(t, floor, k, slot, Clip(p))
  {
    var u := WithCurrent(t, slot, p, true);
    assert u.current == t.current[slot := Clip(p)];
    assert Read(u, slot) == Clip(p);
  }

  /** Every candidate of a slot was perturbed from q. */
  predicate BasesAre(active: map<Bucket, Candidate>, slot: Slot, q: Profile) {
    forall b | b in active && SlotOf(b) == slot :: active[b].base == q
  }

  lemma BasesAgreeIff(t: Tables, active: map<Bucket, Candidate>, slot: Slot, p: Profile)
    requires CandidatesOk(t, active)
    ensures CandidatesOk(WithCurrent(t, slot, p, true), active) <==> BasesAre(active, slot, Clip(p))
  {
    var u := WithCurrent(t, slot, p, true);
    assert u.current == t.current[slot := Clip(p)];
    forall b | b in active ensures CandidateOk(u, b, active[b]) <==> (SlotOf(b) == slot ==> active[b].base == Clip(p)) {
      assert CandidateOk(t, b, active[b]);
    }
  }

  /** Whatever profile is written over whatever slot without the lock, the agreement of candidates, picks
      under way and frozen defaults survives if and only if the slot's candidates were perturbed from
      that profile and every pick under way has foreseen it. */
  lemma LateWriteAgreesIff(s: Sys, slot: Slot, p: Profile)
    requires Agreement(s)
    ensures Agreement(s.(tables := WithCurrent(s.tables, slot, p, true)))
      <==> BasesAre(s.active, slot, Clip(p))
           && forall pid | pid in s.picks :: Foresees(s.tables, s.floor, s.picks[pid], slot, Clip(p))
  {
    var u := WithCurrent(s.tables, slot, p, true);
    BasesAgreeIff(s.tables, s.active, slot, p);
    forall pid | pid in s.picks
      ensures PickOk(u, s.floor, s.picks[pid]) <==> Foresees(s.tables, s.floor, s.picks[pid], slot, Clip(p))
    {
      PickForeseesIff(s.tables, s.floor, s.picks[pid], slot, p);
    }
  }

  lemma SameBucket(c: Bucket, b: Bucket)
    requires !IsGlobal(b)
    ensures SlotOf(c) == SlotOf(b) <==> c == b
  {}

  lemma OneBucketPerSlot(s: Sys, b: Bucket)
    requires CandidatesOk(s.tables, s.active) && !IsGlobal(b)
    ensures forall c | c in s.active && SlotOf(c) == SlotOf(b) :: c == b
  {
    forall c | c in s.active && SlotOf(c) == SlotOf(b) ensures c == b { SameBucket(c, b); }
  }

  /** The page's late write of a bucket's seed: the bucket's candidate, if there is one, and every pick
      of the bucket under way must come from that seed. */
  lemma UnlockedSeedingAgreesIff(s: Sys, b: Bucket, seed: Profile)
    requires Agreement(s) && !IsGlobal(b)
    ensures Agreement(s.(tables := WithCurrent(s.tables, SlotOf(b), seed, true)))
      <==> (b in s.active ==> s.active[b].base == Clip(seed))
           && forall pid | pid in s.picks && s.picks[pid].b == b :: ForeseesBucket(s.tables, s.floor, s.picks[pid], Clip(seed))
  {
    LateWriteAgreesIff(s, SlotOf(b), seed);
    assert BasesAre(s.active, SlotOf(b), Clip(seed)) <==> (b in s.active ==> s.active[b].base == Clip(seed)) by {
      OneBucketPerSlot(s, b);
    }
    forall pid | pid in s.picks
      ensures Foresees(s.tables, s.floor, s.picks[pid], SlotOf(b), Clip(seed))
        <==> (s.picks[pid].b == b ==> ForeseesBucket(s.tables, s.floor, s.picks[pid], Clip(seed)))
    {
      SameBucket(s.picks[pid].b, b);
    }
  }

  /** The page's late write of an intent's default, when it found the intent missing: the intent's
      candidate must have the default as base, and every pick of the intent must still expect it. */
  lemma UnlockedDefaultAgreesIff(s: Sys, intent: string)
    requires Agreement(s)
    ensures var b := GlobalBucket(intent);
      Agreement(s.(tables := WithCurrent(s.tables, IntentSlot(intent), Default(intent), true)))
      <==> (b in s.active ==> s.active[b].base == Default(intent))
           && forall pid | pid in s.picks && s.picks[pid].b.intent == intent ::
                ForeseesIntent(s.tables, s.floor, s.picks[pid], Default(intent))
  {
    LateWriteAgreesIff(s, IntentSlot(intent), Default(intent));
    forall c | c in s.active && SlotOf(c) == IntentSlot(intent) ensures c == GlobalBucket(intent) {
      assert CandidateOk(s.tables, c, s.active[c]);
    }
  }

  /** Its write of the frozen default, which follows, never does harm. */
  lemma UnlockedFreezeAgrees(s: Sys, intent: string)
    requires Agreement(s)
    ensures Agreement(s.(tables := s.tables.(frozen := s.tables.frozen[intent := Default(intent)])))
  {
    SameCurrent(s, s.tables.(frozen := s.tables.frozen[intent := Default(intent)]));
  }

  /** An unlocked write files no entry. The audit log still explains every stored profile if and only if
      the slot was empty, so that the write is its seed, or holds that profile already. */
  lemma LateWriteReplaysIff(s: Sys, slot: Slot, p: Profile)
    requires Explained(s)
    ensures Explained(s.(tables := WithCurrent(s.tables, slot, p, true), seeds := Remember(s.seeds, slot, Clip(p))))
      <==> (slot in s.tables.current ==> Read(s.tables, slot) == Clip(p))
  {
    var u := s.(tables := WithCurrent(s.tables, slot, p, true), seeds := Remember(s.seeds, slot, Clip(p)));
    assert SlotExplained(s.tables, s.log, s.seeds, slot);
    assert Read(u.tables, slot) == Clip(p);
    if slot in s.tables.current ==> Read(s.tables, slot) == Clip(p) {
      forall x ensures SlotExplained(u.tables, u.log, u.seeds, x) { assert SlotExplained(s.tables, s.log, s.seeds, x); }
    } else {
      assert !SlotExplained(u.tables, u.log, u.seeds, slot);
    }
  }

  /** One store access of the only pick there is. */
  lemma SoloAccess(s: Sys, pid: nat, k: Pick)
    requires s.picks == map[pid := k] && !k.Choose? && !k.Served?
    ensures var u := AccessStep(s, pid, true);
      && u.picks == map[pid := AccessNext(s.tables, s.floor, k, true)]
      && u.tables == AccessTables(s.tables, k, true)
      && u.active == s.active && u.tunable == s.tunable && u.floor == s.floor
  {}

  /** Its three store accesses: the bucket is missing, the intent is at its default, the bucket is seeded. */
  lemma WarmingAccesses(s1: Sys, b: Bucket, n: nat, pid: nat)
    requires s1.picks == map[pid := GetBucket(b, n)] && !IsGlobal(b) && n >= s1.floor
    requires SlotOf(b) !in s1.tables.current && IntentSlot(b.intent) in s1.tables.current
    requires Read(s1.tables, IntentSlot(b.intent)) == Default(b.intent)
    ensures Enabled(s1, Access(pid, true))
    ensures var s2 := AccessStep(s1, pid, true);
      && Enabled(s2, Access(pid, true))
      && var s3 := AccessStep(s2, pid, true);
      && Enabled(s3, Access(pid, true))
      && var s4 := AccessStep(s3, pid, true);
      && s4.picks == map[pid := Choose(b, n, Default(b.intent))]
      && s4.tables.current == s1.tables.current[SlotOf(b) := Default(b.intent)]
      && s4.active == s1.active && s4.tunable == s1.tunable && s4.floor == s1.floor
  {
    SoloAccess(s1, pid, GetBucket(b, n));
    var s2 := AccessStep(s1, pid, true);
    SoloAccess(s2, pid, GetIntent(b, n));
    var s3 := AccessStep(s2, pid, true);
    SoloAccess(s3, pid, PutBucket(b, n, Default(b.intent)));
  }

  /** The only pick there is opens a candidate on its base. */
  lemma SoloEnter(s: Sys, pid: nat, b: Bucket, n: nat, base: Profile, d: Draw)
    requires s.picks == map[pid := Choose(b, n, base)] && !IsGlobal(b) && n >= s.floor && b !in s.active
    requires d.explore && d.knob in s.tunable && Perturb(base, d.knob, d.up) != base
    ensures Enabled(s, Enter(pid, d))
    ensures var u := EnterStep(s, pid, d);
      Enabled(u, Finish(pid)) && b in u.active && u.active[b].base == base && u.tables == s.tables
  {}

  /** A pick that finds its bucket missing and its intent at the default, run on its own. */
  lemma WarmingRun(s: Sys, b: Bucket, n: nat, pid: nat, d: Draw)
    requires s.picks == map[] && !IsGlobal(b) && n >= s.floor && b !in s.active
    requires SlotOf(b) !in s.tables.current && IntentSlot(b.intent) in s.tables.current
    requires Read(s.tables, IntentSlot(b.intent)) == Default(b.intent)
    requires d.explore && d.knob in s.tunable && Perturb(Default(b.intent), d.knob, d.up) != Default(b.intent)
    ensures var s1 := Step(s, Start(pid, b, n, true));
      && Enabled(s1, Access(pid, true))
      && var s2 := AccessStep(s1, pid, true);
      && Enabled(s2, Access(pid, true))
      && var s3 := AccessStep(s2, pid, true);
      && Enabled(s3, Access(pid, true))
      && var s4 := AccessStep(s3, pid, true);
      && Enabled(s4, Enter(pid, d))
      && var s5 := EnterStep(s4, pid, d);
      && Enabled(s5, Finish(pid))
      && b in s5.active && s5.active[b].base == Default(b.intent)
      && s5.tables.current == s.tables.current[SlotOf(b) := Default(b.intent)]
  {
    var s1 := Step(s, Start(pid, b, n, true));
    WarmingAccesses(s1, b, n, pid);
    var s4 := AccessStep(AccessStep(AccessStep(s1, pid, true), pid, true), pid, true);
    SoloEnter(s4, pid, b, n, Default(b.intent), d);
  }

  lemma ResetOpensTheDoor(s: Sys, b: Bucket, io: Io)
    requires Agreement(s) && s.picks == map[] && io.setOk && !IsGlobal(b)
    requires SlotOf(b) !in s.tables.current
    ensures var u := Step(s, Reset(b.intent, io));
      && u.picks == map[] && u.floor == s.floor && u.tunable == s.tunable
      && b !in u.active && SlotOf(b) !in u.tables.current && IntentSlot(b.intent) in u.tables.current
      && Read(u.tables, IntentSlot(b.intent)) == Default(b.intent)
  {}

  /** That late write is possible. The page looks while the intent holds some profile other than
      its default and the bucket none; then the intent is reset, one pick warms the bucket and
      opens a candidate on it; and when the page's seed lands the candidate's base is no longer
      what is stored. */
  lemma UnlockedSeedingCanDisagree(s: Sys, b: Bucket, n: nat, pid: nat, d: Draw, io: Io)
    requires Agreement(s) && s.picks == map[] && io.setOk && !IsGlobal(b) && n >= s.floor
    requires SlotOf(b) !in s.tables.current && IntentSlot(b.intent) in s.tables.current
    requires Read(s.tables, IntentSlot(b.intent)) != Default(b.intent)
    requires d.explore && d.knob in s.tunable && Perturb(Default(b.intent), d.knob, d.up) != Default(b.intent)
    ensures var look := AccessNext(s.tables, s.floor, AccessNext(s.tables, s.floor, GetBucket(b, n), true), true);
      look == PutBucket(b, n, Read(s.tables, IntentSlot(b.intent)))
    ensures var s0 := Step(s, Reset(b.intent, io));
      var s1 := Step(s0, Start(pid, b, n, true));
      && Enabled(s1, Access(pid, true)) && Enabled(AccessStep(s1, pid, true), Access(pid, true))
      && Enabled(AccessStep(AccessStep(s1, pid, true), pid, true), Access(pid, true))
      && var s4 := AccessStep(AccessStep(AccessStep(s1, pid, true), pid, true), pid, true);
      && Enabled(s4, Enter(pid, d))
      && var s5 := EnterStep(s4, pid, d);
         !CandidatesOk(WithCurrent(s5.tables, SlotOf(b), Read(s.tables, IntentSlot(b.intent)), true), s5.active)
  {
    var s0 := Step(s, Reset(b.intent, io));
    ResetOpensTheDoor(s, b, io);
    WarmingRun(s0, b, n, pid, d);
    var s1 := Step(s0, Start(pid, b, n, true));
    var s4 := AccessStep(AccessStep(AccessStep(s1, pid, true), pid, true), pid, true);
    var s5 := EnterStep(s4, pid, d);
    var late := WithCurrent(s5.tables, SlotOf(b), Read(s.tables, IntentSlot(b.intent)), true);
    assert Read(late, SlotOf(b)) == Read(s.tables, IntentSlot(b.intent));
    assert !CandidateOk(late, b, s5.active[b]);
  }
}
