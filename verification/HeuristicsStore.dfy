/** The persisted side of the heuristics: live profiles, frozen defaults and audit lists,
    and how (intent, repo, topic) coordinates are routed to them. */
module HeuristicsStore {
  import opened Profiles

  const GLOBAL_TOPIC := "*"
  const GLOBAL_REPO := "*"
  const HISTORY_CAP := 200

  datatype Bucket = Bucket(intent: string, repo: string, topic: string)

  /** The stored cell behind a bucket: every global coordinate of an intent shares one. */
  datatype Slot = IntentSlot(intent: string) | BucketSlot(intent: string, repo: string, topic: string)

  datatype EntryKind = PromoteEntry | DiscardEntry | RollbackEntry
  datatype HistoryEntry = HistoryEntry(kind: EntryKind, from: Profile, to: Profile)

  /** Whether the read of a default, the write of a profile and the append to a list reach Redis. */
  datatype Io = Io(readOk: bool, setOk: bool, logOk: bool)

  predicate IsGlobal(b: Bucket) {
    b.topic == "" || b.topic == GLOBAL_TOPIC || b.repo == "" || b.repo == GLOBAL_REPO
  }

  function SlotOf(b: Bucket): Slot {
    if IsGlobal(b) then IntentSlot(b.intent) else BucketSlot(b.intent, b.repo, b.topic)
  }

  function GlobalBucket(intent: string): Bucket { Bucket(intent, "", GLOBAL_TOPIC) }

  datatype Tables = Tables(
    current: map<Slot, Profile>,
    frozen: map<string, Profile>,
    history: map<Slot, seq<HistoryEntry>>)

  function Read(t: Tables, slot: Slot): Profile
    requires slot in t.current
  {
    Clip(t.current[slot])
  }

  function History(t: Tables, slot: Slot): seq<HistoryEntry> {
    if slot in t.history then t.history[slot] else []
  }

  function Trim<T>(xs: seq<T>): seq<T> { if |xs| <= HISTORY_CAP then xs else xs[..HISTORY_CAP] }

  function WithCurrent(t: Tables, slot: Slot, p: Profile, ok: bool): Tables {
    if ok then t.(current := t.current[slot := Clip(p)]) else t
  }

  function WithEntry(t: Tables, slot: Slot, e: HistoryEntry, ok: bool): Tables {
    if ok then t.(history := t.history[slot := Trim([e] + History(t, slot))]) else t
  }

  function FrozenDefault(t: Tables, intent: string, readOk: bool): Profile {
    if readOk && intent in t.frozen then Clip(t.frozen[intent]) else Default(intent)
  }

  function SeedProfile(intent: string): (p: Profile)
    ensures InBounds(p) && Clip(p) == p
  {
    Default(intent)
  }

  /** First use of an intent stores its default, both as live profile and as frozen default. */
  function SeedIntent(t: Tables, intent: string): (u: Tables)
    ensures IntentSlot(intent) in u.current
    ensures IntentSlot(intent) in t.current ==> u == t
  {
    if IntentSlot(intent) in t.current then t else
      var d := SeedProfile(intent);
      t.(current := t.current[IntentSlot(intent) := d],
         frozen := if intent in t.frozen then t.frozen else t.frozen[intent := d])
  }

  /** First use of a bucket copies the live profile of its intent. */
  function SeedBucket(t: Tables, b: Bucket): (u: Tables)
    ensures SlotOf(b) in u.current
    ensures SlotOf(b) in t.current ==> u == t
    ensures SlotOf(b) !in t.current ==>
      IntentSlot(b.intent) in u.current && Read(u, SlotOf(b)) == Read(u, IntentSlot(b.intent))
  {
    if SlotOf(b) in t.current then t else
      var u := SeedIntent(t, b.intent);
      if IsGlobal(b) then u
      else u.(current := u.current[SlotOf(b) := Read(u, IntentSlot(b.intent))])
  }

  class Store {
    var current: map<Slot, Profile>
    var frozen: map<string, Profile>
    var history: map<Slot, seq<HistoryEntry>>

    constructor ()
      ensures Contents() == Tables(map[], map[], map[])
    {
      current, frozen, history := map[], map[], map[];
    }

    function Contents(): Tables
      reads this
    {
      Tables(current, frozen, history)
    }

    method SetCurrentFor(b: Bucket, p: Profile, ok: bool) returns (done: bool)
      modifies this`current
      ensures done == ok
      ensures Contents() == WithCurrent(old(Contents()), SlotOf(b), p, ok)
    {
      if ok {
        current := current[SlotOf(b) := Clip(p)];
      }
      done := ok;
    }

    method AppendHistoryFor(b: Bucket, e: HistoryEntry, ok: bool)
      modifies this`history
      ensures Contents() == WithEntry(old(Contents()), SlotOf(b), e, ok)
      ensures ok ==>
        var all := [e] + History(old(Contents()), SlotOf(b));
        History(Contents(), SlotOf(b)) == (if |all| <= 200 then all else all[..200]) && |History(Contents(), SlotOf(b))| <= 200
    {
      if ok {
        var pushed := [e] + (if SlotOf(b) in history then history[SlotOf(b)] else []);
        history := history[SlotOf(b) := if |pushed| <= HISTORY_CAP then pushed else pushed[..HISTORY_CAP]];
      }
    }

    /** Written once, never again: the rollback target. */
    method EnsureDefault(intent: string, p: Profile)
      modifies this`frozen
      ensures intent in frozen
      ensures frozen == if intent in old(frozen) then old(frozen) else old(frozen)[intent := Clip(p)]
    {
      if intent !in frozen {
        frozen := frozen[intent := Clip(p)];
      }
    }

    method LoadDefault(intent: string, readOk: bool) returns (p: Profile)
      ensures p == FrozenDefault(Contents(), intent, readOk)
    {
      if readOk && intent in frozen {
        p := Clip(frozen[intent]);
      } else {
        p := Default(intent);
      }
    }

    /** The live profile of an intent when nothing interferes, seeded from its default. */
    method CurrentProfile(intent: string) returns (p: Profile)
      modifies this`current, this`frozen
      ensures Contents() == SeedIntent(old(Contents()), intent)
      ensures p == Read(Contents(), IntentSlot(intent))
    {
      if IntentSlot(intent) in current {
        return Clip(current[IntentSlot(intent)]);
      }
      p := SeedProfile(intent);
      current := current[IntentSlot(intent) := p];
      EnsureDefault(intent, p);
      assert Clip(p) == p;
    }

    /** The live profile of a bucket when nothing interferes, seeded from its intent. */
    method CurrentProfileFor(b: Bucket) returns (p: Profile)
      modifies this`current, this`frozen
      ensures Contents() == SeedBucket(old(Contents()), b)
      ensures p == Read(Contents(), SlotOf(b))
    {
      if IsGlobal(b) {
        p := CurrentProfile(b.intent);
        return;
      }
      if SlotOf(b) in current {
        return Clip(current[SlotOf(b)]);
      }
      p := CurrentProfile(b.intent);
      current := current[SlotOf(b) := Clip(p)];
    }
  }
}
