/** The capped index of recent traces, a Redis sorted set. */
module TraceIndex {
  import opened Sorting
  import opened Text
  import opened Wrappers

  const CAP := 500

  datatype Row = Row(score: int, id: string)

  /** The order of a sorted set: by score, then by member. */
  predicate Lower(a: Row, b: Row) {
    a.score < b.score || (a.score == b.score && Less(a.id, b.id))
  }

  lemma LowerIsTransitive(a: Row, b: Row, c: Row)
    requires Lower(a, b) && Lower(b, c)
    ensures Lower(a, c)
  {
    if a.score == b.score == c.score { LessIsTransitive(a.id, b.id, c.id); }
  }

  lemma LowerIsTotal(a: Row, b: Row)
    requires a.id != b.id
    ensures Lower(a, b) <==> !Lower(b, a)
  {
    LessIsTotal(a.id, b.id);
    if Less(a.id, b.id) && Less(b.id, a.id) {
      LessIsTransitive(a.id, b.id, a.id);
      LessIsIrreflexive(a.id);
    }
  }

  // ---- the sorted set, highest row first ----

  function Remove(xs: seq<Row>, id: string): seq<Row> {
    if xs == [] then [] else if xs[0].id == id then Remove(xs[1..], id) else [xs[0]] + Remove(xs[1..], id)
  }

  function Insert(xs: seq<Row>, r: Row): seq<Row> {
    if xs == [] || Lower(xs[0], r) then [r] + xs else [xs[0]] + Insert(xs[1..], r)
  }

  /** A member stands once; adding it again moves it. */
  function ZAdd(xs: seq<Row>, r: Row): seq<Row> { Insert(Remove(xs, r.id), r) }

  ghost predicate Absent(xs: seq<Row>, id: string) { forall x | x in xs :: x.id != id }

  ghost predicate AllBelow(xs: seq<Row>, r: Row) { forall x | x in xs :: Lower(x, r) && x.id != r.id }

  /** Strictly descending, every member once. */
  ghost predicate Descending(xs: seq<Row>) { xs == [] || (AllBelow(xs[1..], xs[0]) && Descending(xs[1..])) }

  lemma {:induction false} DescendingAt(xs: seq<Row>, i: nat, j: nat)
    requires Descending(xs) && i < j < |xs|
    ensures Lower(xs[j], xs[i]) && xs[i].id != xs[j].id
  {
    if i == 0 { assert xs[1..][j - 1] == xs[j]; } else { DescendingAt(xs[1..], i - 1, j - 1); }
  }

  lemma {:induction false} RemoveMembers(xs: seq<Row>, id: string)
    ensures forall x :: x in Remove(xs, id) <==> x in xs && x.id != id
  {
    if xs != [] { RemoveMembers(xs[1..], id); }
  }

  lemma {:induction false} InsertMembers(xs: seq<Row>, r: Row)
    ensures forall x :: x in Insert(xs, r) <==> x in xs || x == r
  {
    if xs != [] && !Lower(xs[0], r) { InsertMembers(xs[1..], r); }
  }

  lemma {:induction false} RemoveKeepsDescending(xs: seq<Row>, id: string)
    requires Descending(xs)
    ensures Descending(Remove(xs, id))
  {
    if xs != [] {
      RemoveKeepsDescending(xs[1..], id);
      RemoveMembers(xs[1..], id);
      assert xs[0].id != id ==> Remove(xs, id)[1..] == Remove(xs[1..], id);
    }
  }

  lemma {:induction false} InsertKeepsDescending(xs: seq<Row>, r: Row)
    requires Descending(xs) && Absent(xs, r.id)
    ensures Descending(Insert(xs, r))
  {
    if xs == [] || Lower(xs[0], r) {
      assert ([r] + xs)[1..] == xs;
      forall x | x in xs ensures Lower(x, r) {
        if x != xs[0] {
          assert x in xs[1..];
          LowerIsTransitive(x, xs[0], r);
        }
      }
    } else {
      InsertKeepsDescending(xs[1..], r);
      InsertMembers(xs[1..], r);
      LowerIsTotal(xs[0], r);
      assert Insert(xs, r)[1..] == Insert(xs[1..], r);
    }
  }

  /** Every put, none ever dropped. */
  function Rank(history: seq<Row>): seq<Row> {
    if history == [] then [] else ZAdd(Rank(history[..|history| - 1]), history[|history| - 1])
  }

  lemma {:induction false} RankIsDescending(history: seq<Row>)
    ensures Descending(Rank(history))
  {
    if history != [] {
      var init, r := history[..|history| - 1], history[|history| - 1];
      RankIsDescending(init);
      RemoveKeepsDescending(Rank(init), r.id);
      RemoveMembers(Rank(init), r.id);
      InsertKeepsDescending(Remove(Rank(init), r.id), r);
    }
  }

  /** In plain terms: higher scores first, and of equal scores the later id. */
  lemma RankIsByScore(history: seq<Row>, i: nat, j: nat)
    requires i < j < |Rank(history)|
    ensures var a, b := Rank(history)[i], Rank(history)[j];
      a.id != b.id && (a.score > b.score || (a.score == b.score && Less(b.id, a.id)))
  {
    RankIsDescending(history);
    DescendingAt(Rank(history), i, j);
  }

  /** The last put of an id. */
  predicate IsLastPut(history: seq<Row>, x: Row) {
    history != [] && (history[|history| - 1] == x ||
                      (history[|history| - 1].id != x.id && IsLastPut(history[..|history| - 1], x)))
  }

  /** The full ranking holds exactly the last put of every id. */
  lemma {:induction false} RankMeaning(history: seq<Row>, x: Row)
    ensures x in Rank(history) <==> IsLastPut(history, x)
  {
    if history != [] {
      var init, r := history[..|history| - 1], history[|history| - 1];
      RankMeaning(init, x);
      RemoveMembers(Rank(init), r.id);
      InsertMembers(Remove(Rank(init), r.id), r);
    }
  }

  // ---- trimming after every put ----

  /** What a put leaves: the row added, the lowest rows beyond the cap removed. */
  function Trimmed(xs: seq<Row>, r: Row, cap: nat): seq<Row> { Take(ZAdd(xs, r), cap) }

  function Run(history: seq<Row>, cap: nat): seq<Row> {
    if history == [] then [] else Trimmed(Run(history[..|history| - 1], cap), history[|history| - 1], cap)
  }

  /** The row is new to the ranking or does not move down in it. */
  ghost predicate Rises(xs: seq<Row>, r: Row) { forall x | x in xs && x.id == r.id :: x.score <= r.score }

  /** Every put is of a fresh id, or of a known one with no lower score. */
  ghost predicate Rising(history: seq<Row>) {
    history == [] || (Rising(history[..|history| - 1]) && Rises(Rank(history[..|history| - 1]), history[|history| - 1]))
  }

  lemma {:induction false} RemoveAbsent(xs: seq<Row>, id: string)
    requires Absent(xs, id)
    ensures Remove(xs, id) == xs
  {
    if xs != [] { RemoveAbsent(xs[1..], id); }
  }

  lemma TakeOfUncons<T>(xs: seq<T>, n: nat)
    requires n > 0 && xs != []
    ensures Take(xs, n) != [] && Take(xs, n)[0] == xs[0] && Take(xs, n)[1..] == Take(xs[1..], n - 1)
  {
  }

  lemma TakeIsPart<T>(xs: seq<T>, n: nat)
    ensures forall x | x in Take(xs, n) :: x in xs
  {
  }

  lemma TakeOfRemovedTop(xs: seq<Row>, id: string, n: nat)
    requires Descending(xs) && xs != [] && xs[0].id == id
    ensures Take(Remove(Take(xs, n + 1), id), n) == Take(Remove(xs, id), n)
  {
    TakeOfUncons(xs, n + 1);
    RemoveAbsent(xs[1..], id);
    TakeIsPart(xs[1..], n);
    RemoveAbsent(Take(xs[1..], n), id);
  }

  lemma TakeOfCons<T>(x: T, xs: seq<T>, n: nat)
    requires n > 0
    ensures Take([x] + xs, n) == [x] + Take(xs, n - 1)
  {
  }

  lemma {:induction false} TakeOfRemove(xs: seq<Row>, id: string, n: nat)
    requires Descending(xs)
    ensures Take(Remove(Take(xs, n + 1), id), n) == Take(Remove(xs, id), n)
  {
    if n > 0 && xs != [] {
      TakeOfUncons(xs, n + 1);
      if xs[0].id == id {
        TakeOfRemovedTop(xs, id, n);
      } else {
        TakeOfRemove(xs[1..], id, n - 1);
        TakeOfCons(xs[0], Remove(Take(xs[1..], n), id), n);
        TakeOfCons(xs[0], Remove(xs[1..], id), n);
      }
    }
  }

  ghost predicate Listed(xs: seq<Row>, id: string) { exists x :: x in xs && x.id == id }

  /** A put that takes a row out of the kept part and puts it back below the first row dropped. */
  ghost predicate FallsOut(xs: seq<Row>, r: Row, n: nat) {
    |xs| > n && Listed(xs[..n], r.id) && Lower(r, xs[n])
  }

  lemma InsertIntoNothing(ys: seq<Row>, r: Row)
    requires ys != [] && Absent(ys, r.id)
    ensures Take(Insert(Take(ys, 0), r), 1) == Take(Insert(ys, r), 1) <==> !Lower(r, ys[0])
  {
    LowerIsTotal(r, ys[0]);
    assert Take(ys, 0) == [] && Take([r], 1) == [r];
    if Lower(ys[0], r) {
      assert Take([r] + ys, 1) == [r];
    } else {
      assert Take([ys[0]] + Insert(ys[1..], r), 1) == [ys[0]];
      assert ys[0].id != r.id && [r][0] != [ys[0]][0];
    }
  }

  lemma TakeTwice<T>(xs: seq<T>, n: nat)
    ensures Take(Take(xs, n), n) == Take(xs, n)
  {
  }

  lemma ConsIsInjective<T>(x: T, a: seq<T>, b: seq<T>)
    ensures [x] + a == [x] + b <==> a == b
  {
    assert ([x] + a)[1..] == a && ([x] + b)[1..] == b;
  }

  /** Without the row itself, trimming to m first costs the place behind them. */
  lemma {:induction false} InsertAfterTrim(ys: seq<Row>, r: Row, m: nat)
    requires Descending(ys) && Absent(ys, r.id)
    ensures Take(Insert(Take(ys, m), r), m + 1) == Take(Insert(ys, r), m + 1) <==> !(|ys| > m && Lower(r, ys[m]))
  {
    if ys == [] {
    } else if m == 0 {
      InsertIntoNothing(ys, r);
    } else {
      TakeOfUncons(ys, m);
      LowerIsTotal(r, ys[0]);
      if Lower(ys[0], r) {
        TakeOfCons(r, Take(ys, m), m + 1);
        TakeOfCons(r, ys, m + 1);
        TakeTwice(ys, m);
        if |ys| > m {
          DescendingAt(ys, 0, m);
          LowerIsTransitive(ys[m], ys[0], r);
          LowerIsTotal(r, ys[m]);
        }
      } else {
        InsertAfterTrim(ys[1..], r, m - 1);
        TakeOfCons(ys[0], Insert(Take(ys[1..], m - 1), r), m + 1);
        TakeOfCons(ys[0], Insert(ys[1..], r), m + 1);
        ConsIsInjective(ys[0], Take(Insert(Take(ys[1..], m - 1), r), m), Take(Insert(ys[1..], r), m));
      }
    }
  }

  lemma ListedLater(xs: seq<Row>, id: string, n: nat)
    requires xs != [] && 0 < n <= |xs| && xs[0].id != id
    ensures Listed(xs[..n], id) <==> Listed(xs[1..][..n - 1], id)
  {
    assert xs[..n] == [xs[0]] + xs[1..][..n - 1];
  }

  lemma FallsOutLater(xs: seq<Row>, r: Row, n: nat)
    requires xs != [] && n > 0 && xs[0].id != r.id
    ensures FallsOut(xs, r, n) <==> FallsOut(xs[1..], r, n - 1)
  {
    if n <= |xs| { ListedLater(xs, r.id, n); }
  }

  /** The highest row of a set is put again. */
  lemma TopMovesIff(xs: seq<Row>, r: Row, n: nat)
    requires Descending(xs) && xs != [] && xs[0].id == r.id && n > 0
    ensures Take(ZAdd(Take(xs, n), r), n) == Take(ZAdd(xs, r), n) <==> !FallsOut(xs, r, n)
  {
    TakeOfUncons(xs, n);
    RemoveAbsent(xs[1..], r.id);
    TakeIsPart(xs[1..], n - 1);
    RemoveAbsent(Take(xs[1..], n - 1), r.id);
    InsertAfterTrim(xs[1..], r, n - 1);
    if |xs| > n { assert xs[..n][0] == xs[0] && xs[..n][0] in xs[..n]; }
  }

  lemma LowerIsIrreflexive(a: Row, b: Row)
    ensures !(Lower(a, b) && Lower(b, a))
  {
    if Lower(a, b) && Lower(b, a) {
      LowerIsTransitive(a, b, a);
      LessIsIrreflexive(a.id);
    }
  }

  /** A row above the highest is put. */
  lemma NewTop(xs: seq<Row>, r: Row, n: nat)
    requires Descending(xs) && xs != [] && xs[0].id != r.id && Lower(xs[0], r) && n > 0
    ensures Take(ZAdd(Take(xs, n), r), n) == Take(ZAdd(xs, r), n) && !FallsOut(xs, r, n)
  {
    TakeOfUncons(xs, n);
    TakeOfRemove(xs, r.id, n - 1);
    TakeOfCons(r, Remove(Take(xs, n), r.id), n);
    TakeOfCons(r, Remove(xs, r.id), n);
    if |xs| > n {
      DescendingAt(xs, 0, n);
      LowerIsTransitive(xs[n], xs[0], r);
      LowerIsIrreflexive(xs[n], r);
    }
  }

  /** Trimming before or after a put makes no difference if and only if the row does not fall out. */
  lemma {:induction false} TrimmingCommutesIff(xs: seq<Row>, r: Row, n: nat)
    requires Descending(xs)
    ensures Take(ZAdd(Take(xs, n), r), n) == Take(ZAdd(xs, r), n) <==> !FallsOut(xs, r, n)
  {
    if n > 0 && xs != [] {
      TakeOfUncons(xs, n);
      if xs[0].id == r.id {
        TopMovesIff(xs, r, n);
      } else {
        FallsOutLater(xs, r, n);
        if Lower(xs[0], r) {
          NewTop(xs, r, n);
        } else {
          TrimmingCommutesIff(xs[1..], r, n - 1);
          TakeOfCons(xs[0], ZAdd(Take(xs[1..], n - 1), r), n);
          TakeOfCons(xs[0], ZAdd(xs[1..], r), n);
          ConsIsInjective(xs[0], Take(ZAdd(Take(xs[1..], n - 1), r), n - 1), Take(ZAdd(xs[1..], r), n - 1));
        }
      }
    }
  }

  /** A put that rises never falls out. */
  lemma TrimmingCommutes(xs: seq<Row>, r: Row, n: nat)
    requires Descending(xs) && Rises(xs, r)
    ensures Take(ZAdd(Take(xs, n), r), n) == Take(ZAdd(xs, r), n)
  {
    TrimmingCommutesIff(xs, r, n);
    if FallsOut(xs, r, n) {
      var i :| 0 <= i < n && xs[i].id == r.id;
      DescendingAt(xs, i, n);
      LowerIsIrreflexive(r, xs[n]);
    }
  }

  /** After any rising run the index is the cap highest of everything ever put. */
  lemma {:induction false} IndexIsTopOfAll(history: seq<Row>, cap: nat)
    requires Rising(history)
    ensures Run(history, cap) == Take(Rank(history), cap)
  {
    if history != [] {
      var init, r := history[..|history| - 1], history[|history| - 1];
      IndexIsTopOfAll(init, cap);
      RankIsDescending(init);
      TrimmingCommutes(Rank(init), r, cap);
    }
  }

  lemma {:induction false} LastPutIsPut(history: seq<Row>, x: Row)
    requires IsLastPut(history, x)
    ensures x in history
  {
    if history[|history| - 1] != x { LastPutIsPut(history[..|history| - 1], x); }
  }

  /** Fresh ids always rise. */
  lemma {:induction false} FreshIdsRise(history: seq<Row>)
    requires forall i, j | 0 <= i < j < |history| :: history[i].id != history[j].id
    ensures Rising(history)
  {
    if history != [] {
      var init, r := history[..|history| - 1], history[|history| - 1];
      FreshIdsRise(init);
      forall x | x in Rank(init) ensures x.id != r.id {
        RankMeaning(init, x);
        LastPutIsPut(init, x);
      }
    }
  }

  /** A lowered score makes the index forget: the dropped trace does not come back. */
  lemma LoweredScoreForgets(a: string, b: string)
    requires a != b
    ensures var history := [Row(5, a), Row(6, b), Row(1, b)];
      !Rising(history) && Run(history, 1) == [Row(1, b)] && Take(Rank(history), 1) == [Row(5, a)]
  {
    var h1, h2, h3 := [Row(5, a)], [Row(5, a), Row(6, b)], [Row(5, a), Row(6, b), Row(1, b)];
    assert h1[..0] == [] && h2[..1] == h1 && h3[..2] == h2;
    assert Rank(h1) == [Row(5, a)] && Run(h1, 1) == [Row(5, a)];
    assert Remove([Row(5, a)], b) == [Row(5, a)];
    assert Rank(h2) == [Row(6, b), Row(5, a)] && Run(h2, 1) == [Row(6, b)];
    assert Remove([Row(6, b), Row(5, a)], b) == [Row(5, a)] by { assert [Row(6, b), Row(5, a)][1..] == [Row(5, a)]; }
    assert Insert([Row(5, a)], Row(1, b)) == [Row(5, a), Row(1, b)];
    assert Rank(h3) == [Row(5, a), Row(1, b)];
    assert Remove([Row(6, b)], b) == [];
    assert Run(h3, 1) == [Row(1, b)];
    assert Row(6, b) in Rank(h2);
  }

  class TraceStore {
    var rows: seq<Row>
    ghost var history: seq<Row>

    ghost predicate Valid()
      reads this
    {
      rows == Run(history, CAP)
    }

    constructor ()
      ensures Valid() && history == []
    {
      rows, history := [], [];
    }

    /** Indexes a trace under its time, or the present when it carries none. */
    method PutTrace(queryId: string, fields: nat, timestamp: Option<int>, now: int)
      requires Valid()
      modifies this
      ensures Valid()
      ensures history == if queryId == "" || fields == 0 then old(history)
                         else old(history) + [Row(if timestamp.Some? then timestamp.value else now, queryId)]
    {
      if queryId == "" || fields == 0 {
        return;
      }
      var score := match timestamp case Some(t) => t case None => now;
      var r := Row(score, queryId);
      assert (history + [r])[..|history|] == history;
      rows := ZAdd(rows, r);
      rows := Take(rows, CAP);
      history := history + [r];
    }

    /** The newest ids first: 50 when no limit is given, never more than the cap. After a run that
        only rose these lead the ranking of everything put. */
    method RecentTraceIds(limit: int) returns (ids: seq<string>)
      requires Valid()
      ensures var n := if limit <= 0 then 50 else if limit > CAP then CAP else limit;
        && |ids| == |Take(Run(history, CAP), n)|
        && (forall i | 0 <= i < |ids| :: ids[i] == Run(history, CAP)[i].id)
        && (Rising(history) ==> |ids| == |Take(Rank(history), n)| && forall i | 0 <= i < |ids| :: ids[i] == Rank(history)[i].id)
    {
      var n := if limit <= 0 then 50 else limit;
      if n > CAP {
        n := CAP;
      }
      var found := Take(rows, n);
      ids := seq(|found|, i requires 0 <= i < |found| => found[i].id);
      if Rising(history) { IndexIsTopOfAll(history, CAP); }
    }
  }
}
