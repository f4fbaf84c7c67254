/** The last-call list of one connection: the newest entry per query id, newest first, bounded. */
module LastCallLru {
  import opened Sorting
  import opened Wrappers

  datatype Entry = Entry(queryId: string, timestamp: int, payload: string)

  /** A cell of the linked list: the index points at cells, not at entries. */
  class Element {
    const entry: Entry

    constructor (entry: Entry)
      ensures this.entry == entry
    {
      this.entry := entry;
    }
  }

  // ---- the offline reading of a push history, oldest first ----

  ghost predicate Absent(xs: seq<Entry>, id: string) {
    forall x | x in xs :: x.queryId != id
  }

  function Without(xs: seq<Entry>, id: string): seq<Entry> {
    if xs == [] then []
    else if xs[0].queryId == id then Without(xs[1..], id)
    else [xs[0]] + Without(xs[1..], id)
  }

  lemma {:induction false} WithoutMembers(xs: seq<Entry>, id: string)
    ensures forall x :: x in Without(xs, id) <==> x in xs && x.queryId != id
  {
    if xs != [] { WithoutMembers(xs[1..], id); }
  }

  /** The history reversed, keeping only the latest push of each id. */
  function Latest(history: seq<Entry>): seq<Entry> {
    if history == [] then []
    else
      var e := history[|history| - 1];
      [e] + Without(Latest(history[..|history| - 1]), e.queryId)
  }

  ghost predicate DistinctIds(xs: seq<Entry>) {
    xs == [] || (Absent(xs[1..], xs[0].queryId) && DistinctIds(xs[1..]))
  }

  lemma {:induction false} WithoutAbsent(xs: seq<Entry>, id: string)
    requires Absent(xs, id)
    ensures Without(xs, id) == xs
  {
    if xs != [] { WithoutAbsent(xs[1..], id); }
  }

  lemma {:induction false} WithoutKeepsDistinct(xs: seq<Entry>, id: string)
    requires DistinctIds(xs)
    ensures DistinctIds(Without(xs, id))
  {
    if xs != [] {
      WithoutKeepsDistinct(xs[1..], id);
      WithoutMembers(xs[1..], id);
      assert xs[0].queryId != id ==> Without(xs, id)[1..] == Without(xs[1..], id);
    }
  }

  lemma {:induction false} LatestIsDistinct(history: seq<Entry>)
    ensures DistinctIds(Latest(history))
  {
    if history != [] {
      var init, e := history[..|history| - 1], history[|history| - 1];
      LatestIsDistinct(init);
      WithoutKeepsDistinct(Latest(init), e.queryId);
      WithoutMembers(Latest(init), e.queryId);
      assert Latest(history)[1..] == Without(Latest(init), e.queryId);
    }
  }

  lemma {:induction false} PrefixIsDistinct(xs: seq<Entry>, n: nat)
    requires DistinctIds(xs) && n <= |xs|
    ensures DistinctIds(xs[..n])
  {
    if n > 0 {
      PrefixIsDistinct(xs[1..], n - 1);
      assert xs[..n][1..] == xs[1..][..n - 1];
    }
  }

  lemma {:induction false} DistinctAt(xs: seq<Entry>, i: nat, j: nat)
    requires DistinctIds(xs) && i < j < |xs|
    ensures xs[i].queryId != xs[j].queryId
  {
    if i == 0 {
      assert xs[1..][j - 1] == xs[j];
    } else {
      DistinctAt(xs[1..], i - 1, j - 1);
    }
  }

  lemma {:induction false} WithoutConcat(a: seq<Entry>, b: seq<Entry>, id: string)
    ensures Without(a + b, id) == Without(a, id) + Without(b, id)
  {
    if a == [] {
      assert a + b == b;
    } else {
      WithoutConcat(a[1..], b, id);
      assert (a + b)[1..] == a[1..] + b && (a + b)[0] == a[0];
    }
  }

  lemma TakeIgnoresTail<T>(a: seq<T>, b: seq<T>, n: nat)
    requires n <= |a|
    ensures Take(a + b, n) == Take(a, n)
  {
    assert (a + b)[..n] == a[..n];
  }

  /** Among distinct ids only the one entry goes. */
  lemma WithoutOne(xs: seq<Entry>, id: string, k: nat)
    requires DistinctIds(xs) && k < |xs| && xs[k].queryId == id
    ensures Without(xs, id) == xs[..k] + xs[k + 1..]
  {
    var a, b := xs[..k], xs[k + 1..];
    assert xs == a + ([xs[k]] + b);
    forall x | x in a ensures x.queryId != id {
      var i :| 0 <= i < k && a[i] == x;
      DistinctAt(xs, i, k);
    }
    forall x | x in b ensures x.queryId != id {
      var i :| 0 <= i < |b| && b[i] == x;
      DistinctAt(xs, k, k + 1 + i);
    }
    WithoutConcat(a, [xs[k]] + b, id);
    assert ([xs[k]] + b)[1..] == b;
    WithoutAbsent(a, id);
    WithoutAbsent(b, id);
  }

  lemma {:induction false} WithoutDropsAtMostOne(xs: seq<Entry>, id: string)
    requires DistinctIds(xs)
    ensures |Without(xs, id)| >= |xs| - 1
  {
    if xs != [] {
      if xs[0].queryId == id {
        WithoutAbsent(xs[1..], id);
      } else {
        WithoutDropsAtMostOne(xs[1..], id);
      }
    }
  }

  /** Dropping the overflow before or after a push makes no difference. */
  lemma EvictionCommutes(xs: seq<Entry>, e: Entry, n: nat)
    requires DistinctIds(xs) && n > 0
    ensures Take([e] + Without(Take(xs, n), e.queryId), n) == Take([e] + Without(xs, e.queryId), n)
  {
    if |xs| > n {
      var a, b := xs[..n], xs[n..];
      assert xs == a + b;
      WithoutConcat(a, b, e.queryId);
      PrefixIsDistinct(xs, n);
      WithoutDropsAtMostOne(a, e.queryId);
      var front := [e] + Without(a, e.queryId);
      assert [e] + Without(xs, e.queryId) == front + Without(b, e.queryId);
      TakeIgnoresTail(front, Without(b, e.queryId), n);
    }
  }

  // ---- what Latest means ----

  /** The place of the last push of an id. */
  function LastPush(history: seq<Entry>, id: string): (k: int)
    ensures -1 <= k < |history|
    ensures k >= 0 ==> history[k].queryId == id
    ensures k < 0 ==> Absent(history, id)
  {
    if history == [] then -1
    else if history[|history| - 1].queryId == id then |history| - 1
    else LastPush(history[..|history| - 1], id)
  }

  lemma {:induction false} LastPushIsLast(history: seq<Entry>, id: string, j: nat)
    requires LastPush(history, id) < j < |history|
    ensures history[j].queryId != id
  {
    if j < |history| - 1 { LastPushIsLast(history[..|history| - 1], id, j); }
  }

  /** Every listed entry is the last push of its id. */
  ghost predicate AreLastPushes(history: seq<Entry>, xs: seq<Entry>) {
    forall x | x in xs :: LastPush(history, x.queryId) >= 0 && history[LastPush(history, x.queryId)] == x
  }

  /** More recent last pushes come first. */
  ghost predicate Recent(history: seq<Entry>, xs: seq<Entry>) {
    xs == [] ||
    ((forall x | x in xs[1..] :: LastPush(history, x.queryId) < LastPush(history, xs[0].queryId)) &&
     Recent(history, xs[1..]))
  }

  lemma {:induction false} RecentAt(history: seq<Entry>, xs: seq<Entry>, i: nat, j: nat)
    requires Recent(history, xs) && i < j < |xs|
    ensures LastPush(history, xs[i].queryId) > LastPush(history, xs[j].queryId)
  {
    if i == 0 {
      assert xs[1..][j - 1] == xs[j];
    } else {
      RecentAt(history, xs[1..], i - 1, j - 1);
    }
  }

  lemma LastPushSurvives(init: seq<Entry>, e: Entry, id: string)
    requires id != e.queryId
    ensures LastPush(init + [e], id) == LastPush(init, id)
  {
    assert (init + [e])[..|init|] == init;
  }

  /** Another id's push leaves the places of the remaining ids alone. */
  lemma {:induction false} RecentSurvives(init: seq<Entry>, e: Entry, xs: seq<Entry>)
    requires Recent(init, xs)
    ensures Recent(init + [e], Without(xs, e.queryId))
  {
    if xs != [] {
      var rest := Without(xs[1..], e.queryId);
      RecentSurvives(init, e, xs[1..]);
      WithoutMembers(xs[1..], e.queryId);
      if xs[0].queryId != e.queryId {
        assert Without(xs, e.queryId)[1..] == rest;
        LastPushSurvives(init, e, xs[0].queryId);
        forall x | x in rest ensures LastPush(init + [e], x.queryId) < LastPush(init + [e], xs[0].queryId) {
          LastPushSurvives(init, e, x.queryId);
        }
      }
    }
  }

  lemma {:induction false} LatestIsRecent(history: seq<Entry>)
    ensures Recent(history, Latest(history)) && AreLastPushes(history, Latest(history))
  {
    if history != [] {
      var init, e := history[..|history| - 1], history[|history| - 1];
      LatestIsRecent(init);
      RecentSurvives(init, e, Latest(init));
      WithoutMembers(Latest(init), e.queryId);
      assert history == init + [e];
      assert Latest(history)[1..] == Without(Latest(init), e.queryId);
    }
  }

  lemma {:induction false} LatestMissesNothing(history: seq<Entry>, id: string)
    requires LastPush(history, id) >= 0
    ensures history[LastPush(history, id)] in Latest(history)
  {
    var init, e := history[..|history| - 1], history[|history| - 1];
    if e.queryId != id {
      LatestMissesNothing(init, id);
      WithoutMembers(Latest(init), e.queryId);
    }
  }

  /** The listing is exactly: of every id ever pushed its last push, once, most recent first. */
  lemma LatestMeaning(history: seq<Entry>, x: Entry, i: nat, j: nat)
    ensures x in Latest(history) <==> LastPush(history, x.queryId) >= 0 && history[LastPush(history, x.queryId)] == x
    ensures i < j < |Latest(history)| ==>
      LastPush(history, Latest(history)[i].queryId) > LastPush(history, Latest(history)[j].queryId)
  {
    LatestIsRecent(history);
    if LastPush(history, x.queryId) >= 0 { LatestMissesNothing(history, x.queryId); }
    if i < j < |Latest(history)| { RecentAt(history, Latest(history), i, j); }
  }

  // ---- the linked list and its index ----

  function EntriesOf(order: seq<Element>): seq<Entry> {
    seq(|order|, i requires 0 <= i < |order| => order[i].entry)
  }

  lemma EntriesOfPrefix(order: seq<Element>, n: nat)
    requires n <= |order|
    ensures EntriesOf(order[..n]) == EntriesOf(order)[..n]
  {
  }

  lemma EntriesOfConcat(a: seq<Element>, b: seq<Element>)
    ensures EntriesOf(a + b) == EntriesOf(a) + EntriesOf(b)
  {
  }

  /** The index points, for exactly the listed ids, at exactly their cells. */
  ghost predicate Agree(order: seq<Element>, index: map<string, Element>) {
    && (forall i | 0 <= i < |order| :: order[i].entry.queryId in index && index[order[i].entry.queryId] == order[i])
    && (forall id | id in index :: index[id] in order && index[id].entry.queryId == id)
  }

  function Cut(order: seq<Element>, k: nat): seq<Element>
    requires k < |order|
  {
    order[..k] + order[k + 1..]
  }

  lemma CutIsWithout(order: seq<Element>, k: nat)
    requires k < |order| && DistinctIds(EntriesOf(order))
    ensures EntriesOf(Cut(order, k)) == Without(EntriesOf(order), order[k].entry.queryId)
  {
    EntriesOfConcat(order[..k], order[k + 1..]);
    WithoutOne(EntriesOf(order), order[k].entry.queryId, k);
    assert EntriesOf(order[..k]) == EntriesOf(order)[..k];
    assert EntriesOf(order[k + 1..]) == EntriesOf(order)[k + 1..];
  }

  lemma CutKeeps(order: seq<Element>, k: nat, e: Element)
    requires k < |order| && e in order && e.entry.queryId != order[k].entry.queryId
    ensures e in Cut(order, k)
  {
    var j :| 0 <= j < |order| && order[j] == e;
    assert e in order[..k] || e in order[k + 1..] by {
      if j < k {
        assert order[..k][j] == e;
      } else {
        assert order[k + 1..][j - k - 1] == e;
      }
    }
  }

  lemma CutDrops(order: seq<Element>, k: nat, e: Element)
    requires k < |order| && DistinctIds(EntriesOf(order)) && e in Cut(order, k)
    ensures e in order && e.entry.queryId != order[k].entry.queryId
  {
    if e in order[..k] {
      var i :| 0 <= i < k && order[..k][i] == e;
      DistinctAt(EntriesOf(order), i, k);
    } else {
      var i :| 0 <= i < |order[k + 1..]| && order[k + 1..][i] == e;
      assert order[k + 1 + i] == e;
      DistinctAt(EntriesOf(order), k, k + 1 + i);
    }
  }

  lemma CutAgrees(order: seq<Element>, index: map<string, Element>, k: nat)
    requires Agree(order, index) && k < |order| && DistinctIds(EntriesOf(order))
    ensures Agree(Cut(order, k), index - {order[k].entry.queryId})
  {
    forall e | e in Cut(order, k) ensures e in order && e.entry.queryId != order[k].entry.queryId {
      CutDrops(order, k, e);
    }
    forall id | id in index && id != order[k].entry.queryId ensures index[id] in Cut(order, k) {
      CutKeeps(order, k, index[id]);
    }
  }

  lemma PushAgrees(order: seq<Element>, index: map<string, Element>, elem: Element)
    requires Agree(order, index) && Absent(EntriesOf(order), elem.entry.queryId)
    ensures Agree([elem] + order, index[elem.entry.queryId := elem])
    ensures EntriesOf([elem] + order) == [elem.entry] + EntriesOf(order)
  {
    assert ([elem] + order)[1..] == order;
    forall i | 0 <= i < |order| ensures order[i].entry.queryId != elem.entry.queryId {
      assert EntriesOf(order)[i] in EntriesOf(order);
    }
  }

  lemma DropLast(order: seq<Element>, index: map<string, Element>)
    requires Agree(order, index) && order != [] && DistinctIds(EntriesOf(order))
    ensures Agree(order[..|order| - 1], index - {order[|order| - 1].entry.queryId})
    ensures DistinctIds(EntriesOf(order[..|order| - 1]))
  {
    var n := |order| - 1;
    CutAgrees(order, index, n);
    assert Cut(order, n) == order[..n];
    PrefixIsDistinct(EntriesOf(order), n);
    EntriesOfPrefix(order, n);
  }

  lemma FittingPrefix(order: seq<Element>, was: seq<Element>, n: nat)
    requires order <= was && |order| <= n && (|order| == n || order == was)
    ensures EntriesOf(order) == Take(EntriesOf(was), n)
  {
    EntriesOfPrefix(was, |order|);
    assert was[..|order|] == order;
  }

  function Freshest(xs: seq<Entry>, now: int, ttl: int): Option<Entry> {
    if xs != [] && now - xs[0].timestamp <= ttl then Some(xs[0]) else None
  }

  class LastCallLRU {
    const capacity: nat
    const ttl: int
    var order: seq<Element>
    var index: map<string, Element>
    ghost var history: seq<Entry>

    /** The list is the bounded offline reading of everything pushed. */
    ghost predicate Valid()
      reads this
    {
      && capacity > 0
      && EntriesOf(order) == Take(Latest(history), capacity)
      && Agree(order, index)
    }

    constructor (capacity: int, ttl: int)
      ensures Valid() && history == []
      ensures this.capacity == if capacity <= 0 then 16 else capacity
      ensures this.ttl == if ttl <= 0 then 600000 else ttl
    {
      this.capacity := if capacity <= 0 then 16 else capacity;
      this.ttl := if ttl <= 0 then 600000 else ttl;
      order, index, history := [], map[], [];
    }

    lemma ValidIsDistinct()
      requires Valid()
      ensures DistinctIds(EntriesOf(order)) && DistinctIds(Latest(history))
    {
      LatestIsDistinct(history);
      if |Latest(history)| > capacity { PrefixIsDistinct(Latest(history), capacity); }
    }

    /** Takes the cell of an id, if there is one, out of the list and the index. */
    method Unlink(id: string)
      requires Agree(order, index) && DistinctIds(EntriesOf(order))
      modifies this`order, this`index
      ensures Agree(order, index) && EntriesOf(order) == Without(old(EntriesOf(order)), id)
    {
      if id in index {
        var k: nat :| k < |order| && order[k] == index[id];
        CutAgrees(order, index, k);
        CutIsWithout(order, k);
        order, index := Cut(order, k), index - {id};
      } else {
        forall x | x in EntriesOf(order) ensures x.queryId != id {
          var i :| 0 <= i < |order| && EntriesOf(order)[i] == x;
        }
        WithoutAbsent(EntriesOf(order), id);
      }
    }

    /** Takes the last cell out of the list and the index. */
    method Pop()
      requires order != [] && Agree(order, index) && DistinctIds(EntriesOf(order))
      modifies this`order, this`index
      ensures order == old(order)[..|old(order)| - 1]
      ensures Agree(order, index) && DistinctIds(EntriesOf(order))
    {
      DropLast(order, index);
      var back := order[|order| - 1];
      order, index := order[..|order| - 1], index - {back.entry.queryId};
    }

    /** Drops from the back until the list fits. */
    method Evict()
      requires capacity > 0 && Agree(order, index) && DistinctIds(EntriesOf(order))
      modifies this`order, this`index
      ensures Agree(order, index) && EntriesOf(order) == Take(old(EntriesOf(order)), capacity)
    {
      while |order| > capacity
        invariant Agree(order, index) && DistinctIds(EntriesOf(order))
        invariant order <= old(order)
        invariant |order| >= capacity || order == old(order)
        decreases |order|
      {
        Pop();
      }
      FittingPrefix(order, old(order), capacity);
    }

    /** Records an entry; an entry without id is ignored, one without time gets the present. */
    method Push(e: Entry, now: int)
      requires Valid()
      modifies this
      ensures Valid()
      ensures history == if e.queryId == "" then old(history)
                         else old(history) + [if e.timestamp == 0 then e.(timestamp := now) else e]
    {
      if e.queryId == "" {
        return;
      }
      var stamped := if e.timestamp == 0 then e.(timestamp := now) else e;
      ValidIsDistinct();
      EvictionCommutes(Latest(history), stamped, capacity);
      WithoutKeepsDistinct(EntriesOf(order), e.queryId);
      WithoutMembers(EntriesOf(order), e.queryId);
      Unlink(e.queryId);
      var elem := new Element(stamped);
      PushAgrees(order, index, elem);
      assert ([stamped] + EntriesOf(order))[1..] == EntriesOf(order);
      order, index := [elem] + order, index[e.queryId := elem];
      history := history + [stamped];
      assert history[..|history| - 1] == old(history);
      Evict();
    }

    /** The front entry unless it is older than the TTL. */
    method MostRecent(now: int) returns (e: Option<Entry>)
      requires Valid()
      ensures e == Freshest(Take(Latest(history), capacity), now, ttl)
      ensures history == [] ==> e == None
      ensures history != [] ==>
        var last := history[|history| - 1];
        e == if now - last.timestamp > ttl then None else Some(last)
    {
      if |order| == 0 {
        return None;
      }
      var front := order[0].entry;
      if now - front.timestamp > ttl {
        return None;
      }
      return Some(front);
    }
  }

  ghost predicate NonDecreasing(history: seq<Entry>) {
    forall i, j | 0 <= i < j < |history| :: history[i].timestamp <= history[j].timestamp
  }

  /** When pushes carry non-decreasing times the front is the newest entry retained, so nothing is
      reported exactly when nothing retained is young enough. */
  lemma FrontIsFreshest(history: seq<Entry>, capacity: nat, now: int, ttl: int)
    requires NonDecreasing(history)
    ensures var xs := Take(Latest(history), capacity);
      Freshest(xs, now, ttl) == None <==> forall k | 0 <= k < |xs| :: now - xs[k].timestamp > ttl
  {
    var all := Latest(history);
    var xs := Take(all, capacity);
    LatestIsRecent(history);
    forall k | 0 <= k < |xs| ensures xs[k].timestamp <= xs[0].timestamp {
      assert xs[k] == all[k] && xs[0] == all[0];
      assert all[k] in all && all[0] in all;
      if k > 0 { RecentAt(history, all, 0, k); }
    }
  }

  /** Asking at this time, nothing is reported exactly when nothing listed is young enough. */
  ghost predicate TellsTruth(xs: seq<Entry>, now: int, ttl: int) {
    Freshest(xs, now, ttl) == None <==> forall k | 0 <= k < |xs| :: now - xs[k].timestamp > ttl
  }

  /** That is so at every time if and only if the front carries the greatest time listed. */
  lemma FrontTellsTruthIff(xs: seq<Entry>, ttl: int)
    ensures (forall now :: TellsTruth(xs, now, ttl)) <==> forall k | 0 <= k < |xs| :: xs[k].timestamp <= xs[0].timestamp
  {
    if forall now :: TellsTruth(xs, now, ttl) {
      forall k | 0 <= k < |xs| ensures xs[k].timestamp <= xs[0].timestamp {
        assert TellsTruth(xs, xs[0].timestamp + ttl + 1, ttl);
      }
    }
  }

  /** With times out of order the front can be stale while an entry behind it is not. */
  lemma StaleFrontHidesFreshEntry()
    ensures var history := [Entry("a", 100, ""), Entry("b", 1, "")];
      && Latest(history) == [Entry("b", 1, ""), Entry("a", 100, "")]
      && Freshest(Latest(history), 105, 10) == None && 105 - 100 <= 10
  {
    var history := [Entry("a", 100, ""), Entry("b", 1, "")];
    assert history[..1] == [Entry("a", 100, "")] && history[..1][..0] == [];
    assert Latest(history[..1]) == [Entry("a", 100, "")];
    WithoutAbsent([Entry("a", 100, "")], "b");
  }
}
