/** The registry of topics: absorb a query into the nearest topic, reuse the slot of the one least
    recently seen, or open the next one. */
module TopicRegistry {
  import opened Wrappers
  import opened Text
  import TopicLabels

  const GLOBAL_TOPIC := "*"
  const GLOBAL_REPO := "*"
  const EMBED_DIM := 768

  type Vector = seq<real>

  datatype Topic = Topic(id: string, tag: string, centroid: Vector, samples: int, createdAt: int, lastSeen: int)

  /** Vector arithmetic is not modelled: similarity, merging and scaling are given. */
  datatype Metric = Metric(dot: (Vector, Vector) -> real, merge: (Vector, Vector, int) -> Vector, normalise: Vector -> Vector)

  /** The hash of one bucket, from field to entry. */
  type Hash = map<string, Topic>

  // ---- ids ----

  function TopicId(i: nat): string { "t-" + Itoa(i) }

  function ParseTopicId(id: string): Option<int> { if "t-" <= id then Atoi(id[2..]) else None }

  lemma TopicIdRoundTrip(i: nat)
    requires i <= MAX_INT
    ensures ParseTopicId(TopicId(i)) == Some(i)
  {
    AtoiOfItoa(i);
    assert TopicId(i)[2..] == Itoa(i);
  }

  lemma TopicIdsDiffer(i: nat, j: nat)
    requires i != j
    ensures TopicId(i) != TopicId(j)
  {
    ItoaRoundTrip(i);
    ItoaRoundTrip(j);
    assert TopicId(i)[2..] == Itoa(i) && TopicId(j)[2..] == Itoa(j);
  }

  /** Some listed id reads as the number n. */
  ghost predicate Uses(existing: seq<Topic>, n: int) {
    exists e :: e in existing && ParseTopicId(e.id) == Some(n)
  }

  function Below(n: nat): (s: set<int>)
    ensures |s| == n && forall i :: i in s <==> 0 <= i < n
  {
    if n == 0 then {} else Below(n - 1) + {n - 1}
  }

  lemma UsesGrows(existing: seq<Topic>, e: Topic)
    ensures forall i :: Uses(existing + [e], i) <==> Uses(existing, i) || ParseTopicId(e.id) == Some(i)
  {
    forall i ensures Uses(existing + [e], i) <==> Uses(existing, i) || ParseTopicId(e.id) == Some(i) {
      assert e in existing + [e];
    }
  }

  /** The lowest number no listed id reads as. It is at most the length of the list, which bounds
      the search, and the id made of it is on no list, however malformed the ids there are. */
  method NextTopicId(existing: seq<Topic>) returns (id: string, ghost n: nat)
    requires |existing| <= MAX_INT
    ensures id == TopicId(n) && n <= |existing|
    ensures forall i | 0 <= i < n :: Uses(existing, i)
    ensures !Uses(existing, n)
    ensures forall e | e in existing :: e.id != id
  {
    var used: set<int> := {};
    for j := 0 to |existing|
      invariant |used| <= j
      invariant forall i :: i in used <==> Uses(existing[..j], i)
    {
      ghost var was := used;
      var parsed := ParseTopicId(existing[j].id);
      if parsed.Some? {
        used := used + {parsed.value};
      }
      assert existing[..j + 1] == existing[..j] + [existing[j]];
      UsesGrows(existing[..j], existing[j]);
    }
    assert existing[..|existing|] == existing;
    var i := 0;
    while i in used
      invariant 0 <= i <= |used| && forall k | 0 <= k < i :: k in used
      decreases |used| - i
    {
      SubsetSize(Below(i + 1), used);
      i := i + 1;
    }
    n := i;
    TopicIdRoundTrip(n);
    return TopicId(i), n;
  }

  // ---- loading ----

  /** An entry read back: without id it takes its field's, and its centroid is scaled. */
  function Loaded(field: string, e: Topic, m: Metric): Topic {
    e.(id := if e.id == "" then field else e.id, centroid := m.normalise(e.centroid))
  }

  ghost predicate FieldsMatch(h: Hash) { forall k | k in h :: h[k].id == k || h[k].id == "" }

  ghost predicate Has(entries: seq<Topic>, id: string) { exists i :: 0 <= i < |entries| && entries[i].id == id }

  /** The entries of a bucket, each once, in whatever order the hash yields them. */
  ghost predicate Lists(entries: seq<Topic>, h: Hash, m: Metric) {
    && |entries| == |h|
    && (forall i | 0 <= i < |entries| :: entries[i].id in h && entries[i] == Loaded(entries[i].id, h[entries[i].id], m))
    && (forall k | k in h :: Has(entries, k))
  }

  lemma HasGrows(entries: seq<Topic>, e: Topic)
    ensures Has(entries + [e], e.id) && forall id :: Has(entries, id) ==> Has(entries + [e], id)
  {
    assert (entries + [e])[|entries|] == e;
    forall id | Has(entries, id) ensures Has(entries + [e], id) {
      var i :| 0 <= i < |entries| && entries[i].id == id;
      assert (entries + [e])[i].id == id;
    }
  }

  method LoadBucket(h: Hash, m: Metric) returns (entries: seq<Topic>)
    requires FieldsMatch(h)
    ensures Lists(entries, h, m)
  {
    entries := [];
    var rest := h.Keys;
    while rest != {}
      invariant rest <= h.Keys && |entries| + |rest| == |h|
      invariant forall i | 0 <= i < |entries| ::
        entries[i].id in h && entries[i] == Loaded(entries[i].id, h[entries[i].id], m)
      invariant forall k | k in h && k !in rest :: Has(entries, k)
    {
      var k :| k in rest;
      var e := Loaded(k, h[k], m);
      HasGrows(entries, e);
      entries := entries + [e];
      rest := rest - {k};
    }
  }

  function Similarity(h: Hash, k: string, q: Vector, m: Metric): real
    requires k in h
  {
    m.dot(q, m.normalise(h[k].centroid))
  }

  /** The first entry of greatest similarity above -1, if any. */
  method Nearest(entries: seq<Topic>, q: Vector, m: Metric) returns (best: int, sim: real)
    ensures -1 <= best < |entries| && sim >= -1.0
    ensures best >= 0 ==> sim == m.dot(q, entries[best].centroid) > -1.0
    ensures best < 0 ==> sim == -1.0
    ensures forall e | e in entries :: m.dot(q, e.centroid) <= sim
  {
    best, sim := -1, -1.0;
    for i := 0 to |entries|
      invariant -1 <= best < i && sim >= -1.0
      invariant best >= 0 ==> sim == m.dot(q, entries[best].centroid) > -1.0
      invariant best < 0 ==> sim == -1.0
      invariant forall j | 0 <= j < i :: m.dot(q, entries[j].centroid) <= sim
    {
      var d := m.dot(q, entries[i].centroid);
      if d > sim {
        sim, best := d, i;
      }
    }
  }

  /** What sorting by last sight puts first: any entry that none was seen before. */
  method LeastRecent(entries: seq<Topic>) returns (victim: Topic)
    requires entries != []
    ensures victim in entries && forall e | e in entries :: victim.lastSeen <= e.lastSeen
  {
    victim := entries[0];
    for i := 1 to |entries|
      invariant victim in entries && forall j | 0 <= j < i :: victim.lastSeen <= entries[j].lastSeen
    {
      if entries[i].lastSeen < victim.lastSeen {
        victim := entries[i];
      }
    }
  }

  // ---- one resolve ----

  /** What a resolve does to its bucket. */
  datatype Fate = Absorbed(k: string) | Evicted(k: string) | Created(n: nat)

  function Key(fate: Fate): string { if fate.Created? then TopicId(fate.n) else fate.k }

  ghost predicate UsesField(h: Hash, n: int) { exists k :: k in h && ParseTopicId(k) == Some(n) }

  /** A close topic absorbs, and it is a closest one; else a full bucket gives up a topic least
      recently seen; else the lowest free id opens. */
  ghost predicate Explains(fate: Fate, h: Hash, q: Vector, m: Metric, threshold: real, cap: nat) {
    match fate
    case Absorbed(k) =>
      k in h && Similarity(h, k, q, m) >= threshold &&
      forall j | j in h :: Similarity(h, j, q, m) <= Similarity(h, k, q, m)
    case Evicted(k) =>
      (forall j | j in h :: Similarity(h, j, q, m) < threshold) && |h| >= cap &&
      k in h && forall j | j in h :: h[k].lastSeen <= h[j].lastSeen
    case Created(n) =>
      (forall j | j in h :: Similarity(h, j, q, m) < threshold) && |h| < cap &&
      n <= |h| && !UsesField(h, n) && TopicId(n) !in h && forall i | 0 <= i < n :: UsesField(h, i)
  }

  function Opened(id: string, q: Vector, text: string, now: int): Topic {
    Topic(id, TopicLabels.Label(text, TopicLabels.IsStopword), q, 1, now, now)
  }

  function Merged(e: Topic, q: Vector, text: string, now: int, m: Metric): Topic {
    e.(centroid := m.merge(e.centroid, q, e.samples), samples := e.samples + 1, lastSeen := now,
       tag := if e.tag == "" then TopicLabels.Label(text, TopicLabels.IsStopword) else e.tag)
  }

  /** The entry a resolve saves. */
  function Saved(fate: Fate, h: Hash, q: Vector, text: string, now: int, m: Metric): Topic
    requires fate.Absorbed? ==> fate.k in h
  {
    if fate.Absorbed? then Merged(Loaded(fate.k, h[fate.k], m), q, text, now, m)
    else Opened(Key(fate), q, text, now)
  }

  lemma SeenAt(entries: seq<Topic>, h: Hash, m: Metric, k: string) returns (e: Topic)
    requires Lists(entries, h, m) && k in h
    ensures e in entries && e.id == k && e == Loaded(k, h[k], m)
  {
    var i :| 0 <= i < |entries| && entries[i].id == k;
    e := entries[i];
  }

  lemma NoneIsNearer(entries: seq<Topic>, h: Hash, q: Vector, m: Metric, sim: real)
    requires Lists(entries, h, m) && forall e | e in entries :: m.dot(q, e.centroid) <= sim
    ensures forall j | j in h :: Similarity(h, j, q, m) <= sim
  {
    forall j | j in h ensures Similarity(h, j, q, m) <= sim {
      var e := SeenAt(entries, h, m, j);
    }
  }

  lemma NoneIsOlder(entries: seq<Topic>, h: Hash, m: Metric, victim: Topic)
    requires Lists(entries, h, m) && forall e | e in entries :: victim.lastSeen <= e.lastSeen
    ensures forall j | j in h :: victim.lastSeen <= h[j].lastSeen
  {
    forall j | j in h ensures victim.lastSeen <= h[j].lastSeen {
      var e := SeenAt(entries, h, m, j);
    }
  }

  lemma FieldsUsed(entries: seq<Topic>, h: Hash, m: Metric)
    requires Lists(entries, h, m)
    ensures forall n :: UsesField(h, n) <==> Uses(entries, n)
  {
    forall n ensures UsesField(h, n) <==> Uses(entries, n) {
      if UsesField(h, n) {
        var k :| k in h && ParseTopicId(k) == Some(n);
        var e := SeenAt(entries, h, m, k);
      }
    }
  }

  method ResolveIn(h: Hash, q: Vector, text: string, now: int, m: Metric, threshold: real, cap: nat)
    returns (saved: Topic, ghost fate: Fate)
    requires FieldsMatch(h) && 0.0 <= threshold && 0 < cap <= MAX_INT
    ensures Explains(fate, h, q, m, threshold, cap)
    ensures saved == Saved(fate, h, q, text, now, m) && saved.id == Key(fate)
    ensures saved.lastSeen == now && (saved.id in h || |h| < cap)
    ensures fate.Absorbed? ==>
      var e := h[fate.k];
      && saved.samples == e.samples + 1 && saved.createdAt == e.createdAt
      && saved.centroid == m.merge(m.normalise(e.centroid), q, e.samples)
      && saved.tag == if e.tag != "" then e.tag else TopicLabels.Label(text, TopicLabels.IsStopword)
    ensures !fate.Absorbed? ==>
      && saved.samples == 1 && saved.createdAt == now && saved.centroid == q
      && saved.tag == TopicLabels.Label(text, TopicLabels.IsStopword)
  {
    var entries := LoadBucket(h, m);
    var best, sim := Nearest(entries, q, m);
    NoneIsNearer(entries, h, q, m, sim);
    if best >= 0 && sim >= threshold {
      var e := entries[best];
      e := e.(centroid := m.merge(e.centroid, q, e.samples), samples := e.samples + 1, lastSeen := now);
      if e.tag == "" {
        var tag := TopicLabels.ExtractTopicLabel(text);
        if tag != "" {
          e := e.(tag := tag);
        }
      }
      return e, Absorbed(e.id);
    }
    if |entries| >= cap {
      var victim := LeastRecent(entries);
      NoneIsOlder(entries, h, m, victim);
      var tag := TopicLabels.ExtractTopicLabel(text);
      return Topic(victim.id, tag, q, 1, now, now), Evicted(victim.id);
    }
    var id, n := NextTopicId(entries);
    FieldsUsed(entries, h, m);
    if id in h {
      var e := SeenAt(entries, h, m, id);
      assert false;
    }
    var tag := TopicLabels.ExtractTopicLabel(text);
    return Topic(id, tag, q, 1, now, now), Created(n);
  }

  // ---- a registry grown from empty ----

  /** The ids are exactly t-0 up to t-(n-1), each entry stands under its own id, n is within the cap. */
  ghost predicate Grown(h: Hash, cap: nat) {
    && |h| <= cap
    && (forall i | 0 <= i < |h| :: TopicId(i) in h)
    && (forall k | k in h :: h[k].id == k && h[k].samples >= 1 && exists i :: 0 <= i < |h| && k == TopicId(i))
  }

  function Samples(h: Hash, k: string): int { if k in h then h[k].samples else 0 }

  /** The samples of the topics t-0 up to t-(n-1). */
  function Total(h: Hash, n: nat): int { if n == 0 then 0 else Total(h, n - 1) + Samples(h, TopicId(n - 1)) }

  lemma {:induction false} TotalElsewhere(h: Hash, i: nat, e: Topic, n: nat)
    requires n <= i
    ensures Total(h[TopicId(i) := e], n) == Total(h, n)
  {
    if n > 0 {
      TotalElsewhere(h, i, e, n - 1);
      TopicIdsDiffer(n - 1, i);
    }
  }

  lemma {:induction false} TotalAt(h: Hash, i: nat, e: Topic, n: nat)
    requires i < n
    ensures Total(h[TopicId(i) := e], n) == Total(h, n) - Samples(h, TopicId(i)) + e.samples
  {
    if i == n - 1 {
      TotalElsewhere(h, i, e, n - 1);
    } else {
      TotalAt(h, i, e, n - 1);
      TopicIdsDiffer(n - 1, i);
    }
  }

  /** The samples an eviction forgets. */
  function Forgotten(fate: Fate, h: Hash): int { if fate.Evicted? then Samples(h, fate.k) else 0 }

  lemma FreeIsNext(h: Hash, cap: nat, n: nat)
    requires Grown(h, cap) && cap <= MAX_INT && n <= |h| && !UsesField(h, n)
    ensures n == |h|
  {
    TopicIdRoundTrip(n);
    assert n < |h| ==> TopicId(n) in h;
  }

  lemma GrownAfter(h: Hash, cap: nat, i: nat, e: Topic)
    requires Grown(h, cap) && i <= |h| && i < cap && e.id == TopicId(i) && e.samples >= 1
    ensures Grown(h[TopicId(i) := e], cap)
    ensures |h[TopicId(i) := e]| == if i == |h| then |h| + 1 else |h|
  {
    if i == |h| && TopicId(i) in h {
      var j :| 0 <= j < |h| && TopicId(i) == TopicId(j);
      TopicIdsDiffer(i, j);
      assert false;
    }
  }

  /** Every resolve keeps the shape, and samples are conserved: what is live afterwards and what
      an eviction forgot is one more than was live before. */
  lemma ResolveConserves(fate: Fate, h: Hash, q: Vector, text: string, now: int, m: Metric, threshold: real, cap: nat)
    requires Grown(h, cap) && 0 < cap <= MAX_INT && Explains(fate, h, q, m, threshold, cap)
    ensures var h' := h[Key(fate) := Saved(fate, h, q, text, now, m)];
      && Grown(h', cap)
      && Total(h', |h'|) + Forgotten(fate, h) == Total(h, |h|) + 1
  {
    var e := Saved(fate, h, q, text, now, m);
    if fate.Created? {
      FreeIsNext(h, cap, fate.n);
      GrownAfter(h, cap, fate.n, e);
      TotalElsewhere(h, fate.n, e, fate.n);
    } else {
      var i :| 0 <= i < |h| && fate.k == TopicId(i);
      GrownAfter(h, cap, i, e);
      TotalAt(h, i, e, |h|);
    }
  }

  /** A reused slot starts over: a bucket at or past the sample floor turns cold under the same id. */
  lemma EvictionCoolsTheBucket(h: Hash, k: string, q: Vector, text: string, now: int, m: Metric, floor: int)
    requires k in h && Samples(h, k) >= floor > 1
    ensures Samples(h[k := Saved(Evicted(k), h, q, text, now, m)], k) == 1 < floor
  {
  }

  // ---- a bucket that could not be read ----

  /** How a read of the hash ends. An error without any field is taken for an empty hash; only an
      error that comes with some fields is noticed. */
  datatype Fetch = Whole | Nothing | Part

  /** The entries a resolve works on. */
  function SeenBy(h: Hash, fetch: Fetch): Hash { if fetch.Whole? then h else map[] }

  /** To a resolve that sees nothing every query opens the first topic. */
  lemma BlindResolveOpensFirst(fate: Fate, q: Vector, m: Metric, threshold: real, cap: nat)
    requires cap > 0 && Explains(fate, map[], q, m, threshold, cap)
    ensures fate == Created(0)
  {
  }

  /** The samples of an entry that was there but not seen, and is written over. */
  function Overwritten(fate: Fate, h: Hash, fetch: Fetch): int {
    if fetch.Whole? then 0 else Samples(h, Key(fate))
  }

  /** Whatever was seen, the shape is kept, and live, forgotten and overwritten samples together are
      one more than were live before. */
  lemma EveryResolveConserves(fate: Fate, h: Hash, fetch: Fetch, q: Vector, text: string, now: int, m: Metric,
                              threshold: real, cap: nat)
    requires Grown(h, cap) && 0 < cap <= MAX_INT && Explains(fate, SeenBy(h, fetch), q, m, threshold, cap)
    ensures var seen := SeenBy(h, fetch); var h' := h[Key(fate) := Saved(fate, seen, q, text, now, m)];
      && Grown(h', cap)
      && Total(h', |h'|) + Forgotten(fate, seen) + Overwritten(fate, h, fetch) == Total(h, |h|) + 1
  {
    if fetch.Whole? {
      ResolveConserves(fate, h, q, text, now, m, threshold, cap);
    } else {
      BlindResolveOpensFirst(fate, q, m, threshold, cap);
      var e := Opened(TopicId(0), q, text, now);
      GrownAfter(h, cap, 0, e);
      if |h| == 0 { TotalElsewhere(h, 0, e, 0); } else { TotalAt(h, 0, e, |h|); }
    }
  }

  /** A blind resolve keeps the balance of live and forgotten samples if and only if its write
      fails or the bucket has no first topic. */
  lemma BlindResolveBalancesIff(h: Hash, q: Vector, text: string, now: int, cap: nat, writeOk: bool,
                                resolved: int, forgotten: int)
    requires Grown(h, cap) && 0 < cap <= MAX_INT && Total(h, |h|) + forgotten == resolved
    ensures var h' := if writeOk then h[TopicId(0) := Opened(TopicId(0), q, text, now)] else h;
      Total(h', |h'|) + forgotten == resolved + (if writeOk then 1 else 0) <==> !writeOk || TopicId(0) !in h
  {
    if writeOk {
      var e := Opened(TopicId(0), q, text, now);
      GrownAfter(h, cap, 0, e);
      if |h| == 0 { TotalElsewhere(h, 0, e, 0); } else { TotalAt(h, 0, e, |h|); }
    }
  }

  /** So a first topic with two samples or more shrinks to one, under the same id. */
  lemma BlindResolveLosesSamples(h: Hash, q: Vector, text: string, now: int, cap: nat)
    requires Grown(h, cap) && 0 < cap <= MAX_INT && Samples(h, TopicId(0)) >= 2
    ensures var h' := h[TopicId(0) := Opened(TopicId(0), q, text, now)];
      |h'| == |h| && Samples(h', TopicId(0)) == 1 && Total(h', |h'|) < Total(h, |h|)
  {
    var e := Opened(TopicId(0), q, text, now);
    GrownAfter(h, cap, 0, e);
    TotalAt(h, 0, e, |h|);
  }

  // ---- the store ----

  function NormaliseRepo(repo: string): string {
    var r := TrimSpace(repo);
    if r == "" then GLOBAL_REPO else r
  }

  function TopicsKey(intent: string, repo: string): string { "heuristics:topics:" + intent + ":" + repo }

  /** How often a bucket was resolved, and how many samples its evictions forgot and its blind
      resolves wrote over. */
  datatype Book = Book(resolved: int, forgotten: int, overwritten: int)

  ghost predicate Balanced(h: Hash, book: Book, cap: nat) {
    Grown(h, cap) && Total(h, |h|) + book.forgotten + book.overwritten == book.resolved
  }

  function Booked(book: Book, fate: Fate, h: Hash, fetch: Fetch): Book {
    Book(book.resolved + 1, book.forgotten + Forgotten(fate, SeenBy(h, fetch)), book.overwritten + Overwritten(fate, h, fetch))
  }

  method SamplesIn(h: Hash, topic: string, m: Metric) returns (n: int)
    requires FieldsMatch(h)
    ensures n == Samples(h, topic)
  {
    var entries := LoadBucket(h, m);
    for i := 0 to |entries|
      invariant forall j | 0 <= j < i :: entries[j].id != topic
    {
      if entries[i].id == topic {
        return entries[i].samples;
      }
    }
    assert topic in h ==> Has(entries, topic);
    return 0;
  }

  class TopicStore {
    const enabled: bool
    const cap: nat
    const threshold: real
    const metric: Metric
    var hashes: map<string, Hash>
    ghost var books: map<string, Book>

    function Bucket(key: string): Hash
      reads this
    {
      if key in hashes then hashes[key] else map[]
    }

    ghost function BookOf(key: string): Book
      reads this
    {
      if key in books then books[key] else Book(0, 0, 0)
    }

    /** In every bucket: the grown shape, and live, forgotten and overwritten samples are together
        the resolves. */
    ghost predicate Valid()
      reads this
    {
      && 0 < cap <= 256 && 0.0 <= threshold <= 1.0
      && books.Keys == hashes.Keys
      && forall key | key in hashes :: Balanced(hashes[key], books[key], cap)
    }

    constructor (enabled: bool, cap: nat, threshold: real, metric: Metric)
      requires 0 < cap <= 256 && 0.0 <= threshold <= 1.0
      ensures Valid() && hashes == map[]
      ensures this.enabled == enabled && this.cap == cap && this.threshold == threshold && this.metric == metric
    {
      this.enabled, this.cap, this.threshold, this.metric := enabled, cap, threshold, metric;
      hashes, books := map[], map[];
    }

    lemma BucketIsBalanced(key: string)
      requires Valid()
      ensures Balanced(Bucket(key), BookOf(key), cap) && FieldsMatch(Bucket(key))
    {
    }

    /** Writes one entry of a bucket. */
    method Persist(key: string, e: Topic, ghost book: Book)
      requires Valid() && Balanced(Bucket(key)[e.id := e], book, cap)
      modifies this
      ensures Valid()
      ensures hashes == old(hashes)[key := old(Bucket(key))[e.id := e]] && books == old(books)[key := book]
    {
      books := books[key := book];
      hashes := hashes[key := Bucket(key)[e.id := e]];
    }

    /** The topic of a query: the global one, and nothing changes, when disabled, when the vector is
        not of the expected length, or when the read broke off half way. A read that failed
        altogether is taken for an empty bucket. A failed write leaves the answer but not the entry. */
    method Resolve(intent: string, repo: string, embed: Vector, text: string, now: int, fetch: Fetch, writeOk: bool)
      returns (id: string, tag: string, ghost fate: Option<Fate>)
      requires Valid()
      modifies this
      ensures Valid()
      ensures fate.None? <==> !enabled || |embed| != EMBED_DIM || fetch.Part?
      ensures fate.None? ==> id == GLOBAL_TOPIC && tag == ""
      ensures var key := TopicsKey(intent, NormaliseRepo(repo));
        fate.Some? ==> Answers(fate.value, SeenBy(old(Bucket(key)), fetch), metric.normalise(embed), text, now, id, tag)
      ensures fate.Some? && fetch.Nothing? ==> id == TopicId(0)
      ensures var key := TopicsKey(intent, NormaliseRepo(repo)); var h := old(Bucket(key));
        fate.Some? && writeOk ==>
          hashes == old(hashes)[key := h[id := Saved(fate.value, SeenBy(h, fetch), metric.normalise(embed), text, now, metric)]]
      ensures fate.None? || !writeOk ==> hashes == old(hashes) && books == old(books)
      ensures var key := TopicsKey(intent, NormaliseRepo(repo));
        fate.Some? && writeOk ==> books == old(books)[key := Booked(old(BookOf(key)), fate.value, old(Bucket(key)), fetch)]
    {
      if !enabled || |embed| == 0 {
        return GLOBAL_TOPIC, "", None;
      }
      if |embed| != EMBED_DIM {
        return GLOBAL_TOPIC, "", None;
      }
      var key := TopicsKey(intent, NormaliseRepo(repo));
      var q := metric.normalise(embed);
      if fetch.Part? {
        return GLOBAL_TOPIC, "", None;
      }
      BucketIsBalanced(key);
      var h := SeenBy(Bucket(key), fetch);
      var saved: Topic;
      ghost var why: Fate;
      saved, why := ResolveIn(h, q, text, now, metric, threshold, cap);
      EveryResolveConserves(why, Bucket(key), fetch, q, text, now, metric, threshold, cap);
      if fetch.Nothing? { BlindResolveOpensFirst(why, q, metric, threshold, cap); }
      if writeOk {
        Persist(key, saved, Booked(BookOf(key), why, Bucket(key), fetch));
      }
      return saved.id, saved.tag, Some(why);
    }

    ghost predicate Answers(fate: Fate, h: Hash, q: Vector, text: string, now: int, id: string, tag: string) {
      && Explains(fate, h, q, metric, threshold, cap)
      && id == Key(fate) && tag == Saved(fate, h, q, text, now, metric).tag
    }

    /** The samples of a topic; none for the global one. */
    method SamplesOf(intent: string, repo: string, topic: string, fetch: Fetch) returns (n: int)
      requires Valid()
      ensures n == if !enabled || topic == "" || topic == GLOBAL_TOPIC || !fetch.Whole? then 0
                   else Samples(Bucket(TopicsKey(intent, NormaliseRepo(repo))), topic)
    {
      if !enabled || topic == "" || topic == GLOBAL_TOPIC || fetch.Part? {
        return 0;
      }
      var key := TopicsKey(intent, NormaliseRepo(repo));
      BucketIsBalanced(key);
      n := SamplesIn(SeenBy(Bucket(key), fetch), topic, metric);
    }
  }
}
