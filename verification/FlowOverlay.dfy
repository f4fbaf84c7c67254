/** Feedback counters of one flow, kept as text fields of a hash. */
module FlowOverlay {
  import opened Wrappers
  import opened Text

  datatype Update = Update(readFiles: seq<string>, missingFiles: seq<string>, additionalFiles: int, success: bool, queryId: string)

  datatype Stat = Stat(useful: int, dead: int)

  datatype Overlay = Overlay(files: map<string, Stat>, missing: map<string, int>, total: int, lastAt: int, lastQuery: string)

  /** The fields of the hash. */
  type Hash = map<string, string>

  const LAST_AT := "last_feedback_at"
  const LAST_QUERY := "last_query_id"

  datatype Counter = Useful(path: string) | Dead(path: string) | Missing(path: string) | Total

  /** The field a counter stands under. */
  function Render(c: Counter): string {
    match c
    case Useful(path) => "file_useful:" + path
    case Dead(path) => "file_dead:" + path
    case Missing(path) => "missing:" + path
    case Total => "total_feedback"
  }

  /** The counter a field is read as; the stamps are none. */
  function ParseField(k: string): Option<Counter> {
    if "file_useful:" <= k then Some(Useful(k[12..]))
    else if "file_dead:" <= k then Some(Dead(k[10..]))
    else if "missing:" <= k then Some(Missing(k[8..]))
    else if k == "total_feedback" then Some(Total)
    else None
  }

  /** Fields and counters match one to one, whatever characters the paths hold. */
  lemma FieldsAreUnambiguous(c: Counter, k: string)
    ensures Render(c) == k <==> ParseField(k) == Some(c)
  {
    assert "file_useful:"[5] == 'u' && "file_dead:"[5] == 'd';
    match c
    case Useful(path) => assert Render(c)[12..] == path;
    case Dead(path) => assert Render(c)[5] == 'd' && Render(c)[10..] == path;
    case Missing(path) => assert Render(c)[0] == 'm' && Render(c)[8..] == path;
    case Total => assert Render(c)[0] == 't';
  }

  lemma StampsAreNoCounters()
    ensures ParseField(LAST_AT) == ParseField(LAST_QUERY) == None && LAST_AT != LAST_QUERY
  {
    assert LAST_AT[0] == LAST_QUERY[0] == 'l' && LAST_AT[5] == 'f' && LAST_QUERY[5] == 'q';
  }

  // ---- counting ----

  function Count<T(==)>(xs: seq<T>, x: T): nat {
    if xs == [] then 0 else Count(xs[..|xs| - 1], x) + if xs[|xs| - 1] == x then 1 else 0
  }

  lemma CountLast<T>(xs: seq<T>, y: T, x: T)
    ensures Count(xs + [y], x) == Count(xs, x) + if y == x then 1 else 0
  {
    assert (xs + [y])[..|xs|] == xs;
  }

  lemma {:induction false} CountConcat<T>(a: seq<T>, b: seq<T>, x: T)
    ensures Count(a + b, x) == Count(a, x) + Count(b, x)
  {
    if b == [] {
      assert a + b == a;
    } else {
      CountConcat(a, b[..|b| - 1], x);
      assert (a + b)[..|a + b| - 1] == a + b[..|b| - 1];
    }
  }

  // ---- paths ----

  function IndexOf(s: string, c: char): (i: int)
    ensures -1 <= i < |s|
    ensures i >= 0 ==> s[i] == c && c !in s[..i]
    ensures i < 0 ==> c !in s
  {
    if s == [] then -1
    else if s[0] == c then 0
    else
      var i := IndexOf(s[1..], c);
      assert s == [s[0]] + s[1..];
      assert i >= 0 ==> s[..i + 1] == [s[0]] + s[1..][..i];
      if i < 0 then -1 else i + 1
  }

  /** Trimmed, without one leading slash, cut at the first colon unless it stands first, lower case. */
  function NormalisePath(p: string): string {
    var p := TrimSpace(p);
    var p := if p != [] && p[0] == '/' then p[1..] else p;
    var i := IndexOf(p, ':');
    ToLower(if i > 0 then p[..i] else p)
  }

  lemma IndexIs(s: string, c: char, i: nat)
    requires i < |s| && s[i] == c && c !in s[..i]
    ensures IndexOf(s, c) == i
  {
    var j := IndexOf(s, c);
    assert forall k | 0 <= k < i :: s[..i][k] == s[k];
    assert forall k | 0 <= k < j :: s[..j][k] == s[k];
  }

  /** White space around a path, one leading slash, and all from its first colon on do not matter,
      and neither do capitals. A path that opens with a colon is kept. */
  lemma NormalisedMeans(pre: string, slash: bool, path: string, rest: string, post: string)
    requires Blank(pre) && Blank(post)
    requires var t := (if slash then "/" else "") + path + rest;
      t != "" && t[0] !in " \t\n\r" && t[|t| - 1] !in " \t\n\r" && (!slash ==> t[0] != '/')
    requires rest == "" || (rest[0] == ':' && ':' !in path)
    requires if path == "" then rest == "" else path[0] == ':' ==> rest == ""
    requires rest == "" ==> ':' !in path || path[0] == ':'
    ensures NormalisePath(pre + ((if slash then "/" else "") + path + rest) + post) == ToLower(path)
  {
    var t := (if slash then "/" else "") + path + rest;
    TrimMeans(pre, t, post);
    var u := path + rest;
    assert u == if slash then t[1..] else t;
    if rest == "" {
      assert u == path;
      if ':' in path { IndexIs(u, ':', 0); }
    } else {
      assert u[..|path|] == path;
      IndexIs(u, ':', |path|);
    }
  }

  function NormalisedSet(paths: seq<string>): (s: set<string>) {
    set p | p in paths && NormalisePath(p) != "" :: NormalisePath(p)
  }

  method NormaliseFileSet(paths: seq<string>) returns (s: set<string>)
    ensures s == NormalisedSet(paths)
  {
    s := {};
    for i := 0 to |paths|
      invariant s == NormalisedSet(paths[..i])
    {
      var n := NormalisePath(paths[i]);
      assert paths[..i + 1] == paths[..i] + [paths[i]];
      assert paths[i] in paths[..i + 1];
      if n != "" {
        s := s + {n};
      }
    }
    assert paths[..|paths|] == paths;
  }

  function Piece(cur: string): seq<string> { if TrimSpace(cur) == "" then [] else [TrimSpace(cur)] }

  /** The trimmed non-empty pieces between commas; cur was read already. */
  function Pieces(s: string, cur: string): seq<string> {
    if s == [] then Piece(cur)
    else if s[0] == ',' then Piece(cur) + Pieces(s[1..], [])
    else Pieces(s[1..], cur + [s[0]])
  }

  lemma {:induction false} PiecesOfRun(s: string, cur: string)
    requires ',' !in s
    ensures Pieces(s, cur) == Piece(cur + s)
  {
    if s == "" {
      assert cur + s == cur;
    } else {
      PiecesOfRun(s[1..], cur + [s[0]]);
      assert cur + [s[0]] + s[1..] == cur + s;
    }
  }

  lemma {:induction false} PiecesAtComma(a: string, b: string, cur: string)
    ensures Pieces(a + "," + b, cur) == Pieces(a, cur) + Pieces(b, "")
  {
    var s := a + "," + b;
    if a == "" {
      assert s[1..] == b;
    } else {
      assert s[0] == a[0] && s[1..] == a[1..] + "," + b;
      PiecesAtComma(a[1..], b, if a[0] == ',' then [] else cur + [a[0]]);
    }
  }

  /** A comma separates; what holds none is one piece, trimmed, or none when blank. */
  lemma CommasSeparate(a: string, b: string)
    ensures Pieces(a + "," + b, "") == Pieces(a, "") + Pieces(b, "")
    ensures ',' !in a ==> Pieces(a, "") == if TrimSpace(a) == "" then [] else [TrimSpace(a)]
  {
    PiecesAtComma(a, b, "");
    if ',' !in a {
      PiecesOfRun(a, "");
      assert "" + a == a;
    }
  }

  // ---- what one update counts ----

  predicate Overlap(r: string, norm: string) { r == norm || Contains(r, norm) || Contains(norm, r) }

  predicate Matches(f: string, readSet: set<string>) { exists r | r in readSet :: Overlap(r, NormalisePath(f)) }

  /** One path holds the other. */
  lemma OverlapMeans(r: string, norm: string)
    ensures Overlap(r, norm) <==> (exists pre, post :: r == pre + norm + post) || (exists pre, post :: norm == pre + r + post)
  {
    ContainsMeans(r, norm);
    ContainsMeans(norm, r);
    if r == norm { assert r == "" + norm + ""; }
  }

  /** The counter a file of the flow moves, if any. */
  function Mark(f: string, readSet: set<string>, canMarkDead: bool): seq<Counter> {
    if NormalisePath(f) == "" then []
    else if Matches(f, readSet) then [Useful(f)]
    else if canMarkDead then [Dead(f)]
    else []
  }

  function Marks(files: seq<string>, readSet: set<string>, canMarkDead: bool): seq<Counter> {
    if files == [] then []
    else Marks(files[..|files| - 1], readSet, canMarkDead) + Mark(files[|files| - 1], readSet, canMarkDead)
  }

  function MissingMark(f: string): seq<Counter> { if TrimSpace(f) == "" then [] else [Missing(TrimSpace(f))] }

  function MissingMarks(files: seq<string>): seq<Counter> {
    if files == [] then [] else MissingMarks(files[..|files| - 1]) + MissingMark(files[|files| - 1])
  }

  predicate CanMarkDead(u: Update) { u.success && u.additionalFiles == 0 }

  /** One feedback event: the files the flow listed then, and the update. */
  datatype Event = Event(files: seq<string>, update: Update)

  /** Every counter an event moves, in the order of the pipeline. */
  function Increments(e: Event): seq<Counter> {
    Marks(e.files, NormalisedSet(e.update.readFiles), CanMarkDead(e.update)) + MissingMarks(e.update.missingFiles) + [Total]
  }

  /** Everything a run of events counts. */
  function Log(history: seq<Event>): seq<Counter> {
    if history == [] then [] else Log(history[..|history| - 1]) + Increments(history[|history| - 1])
  }

  // ---- the hash ----

  function HIncrBy(h: Hash, field: string): Hash {
    var was := if field in h && AllDigits(h[field]) then Value(h[field]) else 0;
    h[field := Itoa(was + 1)]
  }

  /** The hash holds in decimal exactly the counters that ever moved, beside the stamps. */
  ghost predicate Holds(h: Hash, log: seq<Counter>) {
    && (forall c | Count(log, c) > 0 :: Render(c) in h && h[Render(c)] == Itoa(Count(log, c)))
    && (forall k | k in h :: ParseField(k).Some? ==> Count(log, ParseField(k).value) > 0)
  }

  lemma UncountedIsAbsent(h: Hash, log: seq<Counter>, c: Counter)
    requires Holds(h, log) && Count(log, c) == 0
    ensures Render(c) !in h
  {
    FieldsAreUnambiguous(c, Render(c));
  }

  lemma IncrementedField(h: Hash, log: seq<Counter>, c: Counter)
    requires Holds(h, log)
    ensures HIncrBy(h, Render(c)) == h[Render(c) := Itoa(Count(log, c) + 1)]
  {
    if Count(log, c) > 0 { ItoaRoundTrip(Count(log, c)); } else { UncountedIsAbsent(h, log, c); }
  }

  lemma IncrementHolds(h: Hash, log: seq<Counter>, c: Counter)
    requires Holds(h, log)
    ensures Holds(HIncrBy(h, Render(c)), log + [c])
  {
    var k := Render(c);
    IncrementedField(h, log, c);
    forall d ensures Count(log + [c], d) == Count(log, d) + if d == c then 1 else 0 {
      CountLast(log, c, d);
    }
    forall d ensures Render(d) == k <==> d == c {
      FieldsAreUnambiguous(d, k);
      FieldsAreUnambiguous(c, k);
    }
    FieldsAreUnambiguous(c, k);
  }

  /** Runs the queued increments. */
  method Exec(h: Hash, pipe: seq<Counter>, ghost log: seq<Counter>) returns (h': Hash)
    requires Holds(h, log)
    ensures Holds(h', log + pipe)
  {
    h' := h;
    assert log + pipe[..0] == log;
    for i := 0 to |pipe|
      invariant Holds(h', log + pipe[..i])
    {
      assert log + pipe[..i + 1] == log + pipe[..i] + [pipe[i]];
      IncrementHolds(h', log + pipe[..i], pipe[i]);
      h' := HIncrBy(h', Render(pipe[i]));
    }
    assert pipe[..|pipe|] == pipe;
  }

  method SplitOverlayCsv(s: string) returns (out: seq<string>)
    ensures out == Pieces(s, "")
  {
    out := [];
    var cur := "";
    for i := 0 to |s|
      invariant out + Pieces(s[i..], cur) == Pieces(s, "")
    {
      assert s[i..][1..] == s[i + 1..];
      if s[i] == ',' {
        assert out + Pieces(s[i..], cur) == out + Piece(cur) + Pieces(s[i + 1..], "");
        out, cur := out + Piece(cur), "";
      } else {
        cur := cur + [s[i]];
      }
    }
    assert s[|s|..] == [];
    out := out + Piece(cur);
  }

  /** Either way round: paths may be quoted with more or fewer leading directories. */
  method MatchesAny(norm: string, readSet: set<string>) returns (matched: bool)
    ensures matched <==> exists r | r in readSet :: Overlap(r, norm)
  {
    var rest := readSet;
    while rest != {}
      invariant rest <= readSet && forall r | r in readSet && r !in rest :: !Overlap(r, norm)
      decreases rest
    {
      var r :| r in rest;
      if Overlap(r, norm) {
        return true;
      }
      rest := rest - {r};
    }
    return false;
  }

  method QueueMarks(files: seq<string>, readSet: set<string>, canMarkDead: bool) returns (pipe: seq<Counter>)
    ensures pipe == Marks(files, readSet, canMarkDead)
  {
    pipe := [];
    for i := 0 to |files|
      invariant pipe == Marks(files[..i], readSet, canMarkDead)
    {
      assert files[..i + 1][..i] == files[..i];
      var norm := NormalisePath(files[i]);
      if norm == "" {
        continue;
      }
      var matched := MatchesAny(norm, readSet);
      if matched {
        pipe := pipe + [Useful(files[i])];
      } else if canMarkDead {
        pipe := pipe + [Dead(files[i])];
      }
    }
    assert files[..|files|] == files;
  }

  method QueueMissing(files: seq<string>) returns (pipe: seq<Counter>)
    ensures pipe == MissingMarks(files)
  {
    pipe := [];
    for i := 0 to |files|
      invariant pipe == MissingMarks(files[..i])
    {
      assert files[..i + 1][..i] == files[..i];
      var f := TrimSpace(files[i]);
      if f == "" {
        continue;
      }
      pipe := pipe + [Missing(f)];
    }
    assert files[..|files|] == files;
  }

  // ---- reading the hash back ----

  function IntOf(s: string): int { match Atoi(s) case Some(n) => n case None => 0 }

  function Field(h: Hash, k: string): int { if k in h then IntOf(h[k]) else 0 }

  /** The counters in done have been taken in, and no others. */
  ghost predicate ReadFrom(ov: Overlay, h: Hash, done: set<Counter>) {
    && (forall p :: p in ov.files <==> Useful(p) in done || Dead(p) in done)
    && (forall p | p in ov.files :: ov.files[p] ==
          Stat(if Useful(p) in done then Field(h, Render(Useful(p))) else 0,
               if Dead(p) in done then Field(h, Render(Dead(p))) else 0))
    && (forall p :: p in ov.missing <==> Missing(p) in done)
    && (forall p | p in ov.missing :: ov.missing[p] == Field(h, Render(Missing(p))))
    && ov.total == if Total in done then Field(h, Render(Total)) else 0
  }

  function StatOf(files: map<string, Stat>, p: string): Stat { if p in files then files[p] else Stat(0, 0) }

  /** Takes in one counter's value. */
  function Take(ov: Overlay, c: Counter, n: int): Overlay {
    match c
    case Useful(p) => ov.(files := ov.files[p := StatOf(ov.files, p).(useful := n)])
    case Dead(p) => ov.(files := ov.files[p := StatOf(ov.files, p).(dead := n)])
    case Missing(p) => ov.(missing := ov.missing[p := n])
    case Total => ov.(total := n)
  }

  lemma TakeReads(ov: Overlay, h: Hash, done: set<Counter>, c: Counter)
    requires ReadFrom(ov, h, done)
    ensures ReadFrom(Take(ov, c, Field(h, Render(c))), h, done + {c})
  {
  }

  lemma TakeKeepsStamps(ov: Overlay, c: Counter, n: int)
    ensures Take(ov, c, n).lastAt == ov.lastAt && Take(ov, c, n).lastQuery == ov.lastQuery
  {
  }

  function Stamped(ov: Overlay, h: Hash, k: string): Overlay
    requires k in h
  {
    if k == LAST_AT then ov.(lastAt := Field(h, k)) else if k == LAST_QUERY then ov.(lastQuery := h[k]) else ov
  }

  lemma StampedReads(ov: Overlay, h: Hash, done: set<Counter>, k: string)
    requires ReadFrom(ov, h, done) && k in h
    ensures ReadFrom(Stamped(ov, h, k), h, done)
  {
  }

  /** The counters among some fields. */
  function CountersIn(fields: set<string>): set<Counter> {
    set k | k in fields && ParseField(k).Some? :: ParseField(k).value
  }

  lemma OneMoreCounter(fields: set<string>, k: string)
    ensures CountersIn(fields + {k}) ==
      CountersIn(fields) + if ParseField(k).Some? then {ParseField(k).value} else {}
  {
    if ParseField(k).Some? {
      assert k in fields + {k} && ParseField(k).value in CountersIn(fields + {k});
    }
  }

  method ReadField(ov: Overlay, h: Hash, k: string, ghost done: set<Counter>) returns (ov': Overlay)
    requires ReadFrom(ov, h, done) && k in h
    ensures ReadFrom(ov', h, done + if ParseField(k).Some? then {ParseField(k).value} else {})
    ensures ov'.lastAt == if k == LAST_AT then Field(h, k) else ov.lastAt
    ensures ov'.lastQuery == if k == LAST_QUERY then h[k] else ov.lastQuery
  {
    StampsAreNoCounters();
    match ParseField(k)
    case Some(c) =>
      FieldsAreUnambiguous(c, k);
      TakeReads(ov, h, done, c);
      TakeKeepsStamps(ov, c, Field(h, k));
      ov' := Take(ov, c, Field(h, k));
    case None =>
      StampedReads(ov, h, done, k);
      assert done + {} == done;
      ov' := Stamped(ov, h, k);
  }

  /** Reads the fields in whatever order they come. */
  method ParseFlowOverlay(h: Hash) returns (ov: Overlay)
    ensures ReadFrom(ov, h, CountersIn(h.Keys))
    ensures ov.lastAt == Field(h, LAST_AT) && ov.lastQuery == if LAST_QUERY in h then h[LAST_QUERY] else ""
  {
    ov := Overlay(map[], map[], 0, 0, "");
    var rest := h.Keys;
    assert h.Keys - rest == {};
    StampsAreNoCounters();
    while rest != {}
      invariant rest <= h.Keys && ReadFrom(ov, h, CountersIn(h.Keys - rest))
      invariant ov.lastAt == if LAST_AT in rest then 0 else Field(h, LAST_AT)
      invariant ov.lastQuery == if LAST_QUERY in h && LAST_QUERY !in rest then h[LAST_QUERY] else ""
    {
      var k :| k in rest;
      ov := ReadField(ov, h, k, CountersIn(h.Keys - rest));
      OneMoreCounter(h.Keys - rest, k);
      assert h.Keys - (rest - {k}) == h.Keys - rest + {k};
      rest := rest - {k};
    }
    assert h.Keys - rest == h.Keys;
  }

  // ---- what the counters mean ----

  /** How often a path is reported missing. */
  function MissingIn(files: seq<string>, p: string): nat {
    if files == [] then 0
    else MissingIn(files[..|files| - 1], p) + if p != "" && TrimSpace(files[|files| - 1]) == p then 1 else 0
  }

  lemma {:induction false} MissingMarksCount(files: seq<string>, c: Counter)
    ensures Count(MissingMarks(files), c) == if c.Missing? then MissingIn(files, c.path) else 0
  {
    if files != [] {
      var init, f := files[..|files| - 1], TrimSpace(files[|files| - 1]);
      MissingMarksCount(init, c);
      if f == "" {
        assert MissingMarks(files) == MissingMarks(init);
      } else {
        CountLast(MissingMarks(init), Missing(f), c);
      }
    }
  }

  lemma MarkPath(f: string, readSet: set<string>, canMarkDead: bool)
    ensures var m := Mark(f, readSet, canMarkDead); m == [] || m == [Useful(f)] || m == [Dead(f)]
  {
  }

  lemma CountUpToOne<T>(xs: seq<T>, m: seq<T>, x: T)
    requires |m| <= 1
    ensures Count(xs + m, x) == Count(xs, x) + if m == [x] then 1 else 0
  {
    if m == [] { assert xs + m == xs; } else { CountLast(xs, m[0], x); }
  }

  /** The counter is the one its own path marks. */
  predicate Marked(c: Counter, readSet: set<string>, canMarkDead: bool) {
    (c.Useful? || c.Dead?) && Mark(c.path, readSet, canMarkDead) == [c]
  }

  lemma MarkIs(f: string, readSet: set<string>, canMarkDead: bool, c: Counter)
    ensures Mark(f, readSet, canMarkDead) == [c] <==> Marked(c, readSet, canMarkDead) && c.path == f
  {
    MarkPath(f, readSet, canMarkDead);
  }

  lemma MarksStep(files: seq<string>, readSet: set<string>, canMarkDead: bool, c: Counter)
    requires files != []
    ensures Count(Marks(files, readSet, canMarkDead), c) ==
      Count(Marks(files[..|files| - 1], readSet, canMarkDead), c) +
      if Marked(c, readSet, canMarkDead) && c.path == files[|files| - 1] then 1 else 0
  {
    var f := files[|files| - 1];
    MarkPath(f, readSet, canMarkDead);
    MarkIs(f, readSet, canMarkDead, c);
    CountUpToOne(Marks(files[..|files| - 1], readSet, canMarkDead), Mark(f, readSet, canMarkDead), c);
  }

  function CountIf<T(==)>(yes: bool, xs: seq<T>, x: T): nat { if yes then Count(xs, x) else 0 }

  lemma {:induction false} MarksCount(files: seq<string>, readSet: set<string>, canMarkDead: bool, c: Counter, p: string)
    requires !c.Total? ==> p == c.path
    ensures Count(Marks(files, readSet, canMarkDead), c) == CountIf(Marked(c, readSet, canMarkDead), files, p)
  {
    if files != [] {
      MarksCount(files[..|files| - 1], readSet, canMarkDead, c, p);
      MarksStep(files, readSet, canMarkDead, c);
    }
  }

  /** The update names a file as read whose path overlaps this one. */
  predicate ReadIn(u: Update, p: string) {
    exists f | f in u.readFiles :: NormalisePath(f) != "" && Overlap(NormalisePath(f), NormalisePath(p))
  }

  lemma MatchesIsRead(u: Update, p: string)
    ensures Matches(p, NormalisedSet(u.readFiles)) <==> ReadIn(u, p)
  {
    var read := NormalisedSet(u.readFiles);
    if ReadIn(u, p) {
      var f :| f in u.readFiles && NormalisePath(f) != "" && Overlap(NormalisePath(f), NormalisePath(p));
      assert NormalisePath(f) in read;
    }
  }

  /** How often one event moves a counter: for a file as often as the flow lists it, read or, after
      a success that needed no further file, not read; for the total once. */
  function Moves(e: Event, c: Counter): nat {
    match c
    case Useful(p) => if NormalisePath(p) != "" && ReadIn(e.update, p) then Count(e.files, p) else 0
    case Dead(p) =>
      if NormalisePath(p) != "" && !ReadIn(e.update, p) && e.update.success && e.update.additionalFiles == 0
      then Count(e.files, p) else 0
    case Missing(p) => MissingIn(e.update.missingFiles, p)
    case Total => 1
  }

  lemma BothAndTotal(xs: seq<Counter>, ys: seq<Counter>, c: Counter)
    ensures Count(xs + ys + [Total], c) == Count(xs, c) + Count(ys, c) + if c == Total then 1 else 0
  {
    CountConcat(xs, ys, c);
    CountLast(xs + ys, Total, c);
  }

  lemma IncrementsCount(e: Event, c: Counter)
    ensures Count(Increments(e), c) == Moves(e, c)
  {
    var read := NormalisedSet(e.update.readFiles);
    var marks := Marks(e.files, read, CanMarkDead(e.update));
    MarksCount(e.files, read, CanMarkDead(e.update), c, if c.Total? then "" else c.path);
    MissingMarksCount(e.update.missingFiles, c);
    if c.Useful? || c.Dead? { MatchesIsRead(e.update, c.path); }
    BothAndTotal(marks, MissingMarks(e.update.missingFiles), c);
  }

  function Tally(history: seq<Event>, c: Counter): nat {
    if history == [] then 0 else Tally(history[..|history| - 1], c) + Moves(history[|history| - 1], c)
  }

  /** A run's counters are the sums of what its events move; the total is the number of events. */
  lemma {:induction false} LogCounts(history: seq<Event>, c: Counter)
    ensures Count(Log(history), c) == Tally(history, c)
    ensures c == Total ==> Tally(history, c) == |history|
  {
    if history != [] {
      LogCounts(history[..|history| - 1], c);
      IncrementsCount(history[|history| - 1], c);
      CountConcat(Log(history[..|history| - 1]), Increments(history[|history| - 1]), c);
    }
  }

  /** No file is judged more often than it was listed; listed once each time, never more often
      than there was feedback. */
  lemma {:induction false} JudgedAtMostOnce(history: seq<Event>, p: string)
    requires forall e | e in history :: Count(e.files, p) <= 1
    ensures Tally(history, Useful(p)) + Tally(history, Dead(p)) <= Tally(history, Total) == |history|
  {
    if history != [] {
      var init, e := history[..|history| - 1], history[|history| - 1];
      assert forall e | e in init :: e in history;
      JudgedAtMostOnce(init, p);
      assert e in history;
    }
  }

  /** Reading the hash of a run gives back its counters. */
  ghost predicate Recovers(ov: Overlay, log: seq<Counter>) {
    && (forall p :: p in ov.files <==> Count(log, Useful(p)) > 0 || Count(log, Dead(p)) > 0)
    && (forall p | p in ov.files :: ov.files[p] == Stat(Count(log, Useful(p)), Count(log, Dead(p))))
    && (forall p :: p in ov.missing <==> Count(log, Missing(p)) > 0)
    && (forall p | p in ov.missing :: ov.missing[p] == Count(log, Missing(p)))
    && ov.total == Count(log, Total)
  }

  lemma FieldIsCount(h: Hash, log: seq<Counter>, c: Counter)
    requires Holds(h, log) && Count(log, c) <= MAX_INT
    ensures c in CountersIn(h.Keys) <==> Count(log, c) > 0
    ensures Field(h, Render(c)) == Count(log, c)
  {
    var k := Render(c);
    FieldsAreUnambiguous(c, k);
    if Count(log, c) > 0 {
      AtoiOfItoa(Count(log, c));
      assert k in h.Keys && ParseField(k).Some?;
    }
  }

  lemma ReadRecovers(ov: Overlay, h: Hash, done: set<Counter>, log: seq<Counter>)
    requires ReadFrom(ov, h, done)
    requires forall c :: (c in done <==> Count(log, c) > 0) && Field(h, Render(c)) == Count(log, c)
    ensures Recovers(ov, log)
  {
  }

  lemma ParseRecovers(ov: Overlay, h: Hash, log: seq<Counter>)
    requires Holds(h, log) && ReadFrom(ov, h, CountersIn(h.Keys)) && forall c :: Count(log, c) <= MAX_INT
    ensures Recovers(ov, log)
  {
    var done := CountersIn(h.Keys);
    forall c ensures (c in done <==> Count(log, c) > 0) && Field(h, Render(c)) == Count(log, c) {
      FieldIsCount(h, log, c);
    }
    ReadRecovers(ov, h, done, log);
  }

  lemma StampsHold(h: Hash, log: seq<Counter>, at: string, query: string)
    requires Holds(h, log)
    ensures Holds(h[LAST_AT := at][LAST_QUERY := query], log)
    ensures h[LAST_AT := at][LAST_QUERY := query][LAST_AT] == at
  {
    StampsAreNoCounters();
    forall c ensures Render(c) != LAST_AT && Render(c) != LAST_QUERY {
      FieldsAreUnambiguous(c, LAST_AT);
      FieldsAreUnambiguous(c, LAST_QUERY);
    }
  }

  /** Sends the increments of one event, then the stamps. */
  method Send(h: Hash, pipe: seq<Counter>, now: nat, queryId: string, ghost log: seq<Counter>) returns (h': Hash)
    requires Holds(h, log)
    ensures Holds(h', log + pipe)
    ensures LAST_AT in h' && h'[LAST_AT] == Itoa(now) && LAST_QUERY in h' && h'[LAST_QUERY] == queryId
  {
    h' := Exec(h, pipe, log);
    StampsHold(h', log + pipe, Itoa(now), queryId);
    h' := h'[LAST_AT := Itoa(now)][LAST_QUERY := queryId];
  }

  /** The overlay of one flow. */
  class FlowOverlayStore {
    var hash: Hash
    ghost var history: seq<Event>

    ghost predicate Valid()
      reads this
    {
      Holds(hash, Log(history))
    }

    constructor ()
      ensures Valid() && history == []
    {
      hash, history := map[], [];
    }

    /** Applies one feedback event. Nothing happens without repo and name, without a flow (its
        file list is given when there is one), or when the pipeline fails. */
    method UpdateFlowOverlay(repo: string, name: string, flow: Option<string>, u: Update, now: nat, execOk: bool)
      returns (ok: bool)
      requires Valid()
      modifies this
      ensures Valid()
      ensures ok <==> repo != "" && name != "" && flow.Some? && execOk
      ensures !ok ==> hash == old(hash) && history == old(history)
      ensures ok ==> history == old(history) + [Event(Pieces(flow.value, ""), u)]
      ensures ok ==> LAST_AT in hash && hash[LAST_AT] == Itoa(now) && LAST_QUERY in hash && hash[LAST_QUERY] == u.queryId
    {
      if repo == "" || name == "" {
        return false;
      }
      if flow.None? {
        return false;
      }
      var known := SplitOverlayCsv(flow.value);
      var readSet := NormaliseFileSet(u.readFiles);
      var marks := QueueMarks(known, readSet, CanMarkDead(u));
      var missing := QueueMissing(u.missingFiles);
      if !execOk {
        return false;
      }
      ghost var e := Event(known, u);
      hash := Send(hash, marks + missing + [Total], now, u.queryId, Log(history));
      assert (history + [e])[..|history|] == history;
      history := history + [e];
      return true;
    }

    method LoadFlowOverlay(repo: string, name: string, readOk: bool) returns (ov: Overlay)
      requires Valid() && forall c :: Count(Log(history), c) <= MAX_INT
      ensures if repo == "" || name == "" || !readOk then ov == Overlay(map[], map[], 0, 0, "")
              else Recovers(ov, Log(history))
    {
      if repo == "" || name == "" || !readOk {
        return Overlay(map[], map[], 0, 0, "");
      }
      ov := ParseFlowOverlay(hash);
      ParseRecovers(ov, hash, Log(history));
    }
  }
}
