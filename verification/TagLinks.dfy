/** Linking a provider tag to the repositories it may name. */
module TagLinks {
  import opened Sorting
  import opened Text
  import opened Wrappers

  datatype RepoLink = RepoLink(sourceRepo: string, tag: string, targetRepo: string, confidence: real, reason: string)

  datatype Scored = Scored(link: RepoLink, nameLen: int)

  // ---- identifier tokens ----

  predicate IsUpper(c: char) { 'A' <= c <= 'Z' }
  predicate IsLetterOrDigit(c: char) { IsUpper(c) || 'a' <= c <= 'z' || IsDigit(c) }

  function Chunk(cur: string): seq<string> { if cur == [] then [] else [cur] }

  /** The runs of letters and digits of s; cur was read already. */
  function Fields(s: string, cur: string): seq<string> {
    if s == [] then Chunk(cur)
    else if IsLetterOrDigit(s[0]) then Fields(s[1..], cur + [s[0]])
    else Chunk(cur) + Fields(s[1..], [])
  }

  /** The pieces of a run, lower case, each capital opening one; cur was read already. */
  function Camel(p: string, cur: string): seq<string> {
    if p == [] then Chunk(ToLower(cur))
    else if IsUpper(p[0]) then Chunk(ToLower(cur)) + Camel(p[1..], [p[0]])
    else Camel(p[1..], cur + [p[0]])
  }

  function CamelAll(parts: seq<string>): seq<string> {
    if parts == [] then [] else CamelAll(parts[..|parts| - 1]) + Camel(parts[|parts| - 1], [])
  }

  function IdentifierTokens(s: string): seq<string> { CamelAll(Fields(s, [])) }

  method FieldsFunc(s: string) returns (parts: seq<string>)
    ensures parts == Fields(s, [])
  {
    parts := [];
    var cur := "";
    for i := 0 to |s|
      invariant parts + Fields(s[i..], cur) == Fields(s, [])
    {
      assert s[i..][1..] == s[i + 1..];
      if IsLetterOrDigit(s[i]) {
        cur := cur + [s[i]];
      } else {
        assert parts + Fields(s[i..], cur) == parts + Chunk(cur) + Fields(s[i + 1..], []);
        parts, cur := parts + Chunk(cur), "";
      }
    }
    assert s[|s|..] == [];
    parts := parts + Chunk(cur);
  }

  lemma CamelStep(p: string, cur: string)
    requires p != []
    ensures Camel(p, cur) == if IsUpper(p[0]) && cur != [] then [ToLower(cur)] + Camel(p[1..], [p[0]])
                             else Camel(p[1..], cur + [p[0]])
  {
    if IsUpper(p[0]) && cur == [] { assert cur + [p[0]] == [p[0]]; }
  }

  method SplitCamel(p: string) returns (out: seq<string>)
    ensures out == Camel(p, [])
  {
    out := [];
    var buf := "";
    for i := 0 to |p|
      invariant out + Camel(p[i..], buf) == Camel(p, [])
      invariant i > 0 <==> buf != ""
    {
      assert p[i..][1..] == p[i + 1..];
      CamelStep(p[i..], buf);
      if i > 0 && IsUpper(p[i]) {
        assert out + Camel(p[i..], buf) == out + [ToLower(buf)] + Camel(p[i + 1..], [p[i]]);
        out, buf := out + [ToLower(buf)], "";
      }
      assert "" + [p[i]] == [p[i]];
      buf := buf + [p[i]];
    }
    assert p[|p|..] == [];
    out := out + Chunk(ToLower(buf));
  }

  method SplitIdentifierTokens(s: string) returns (out: seq<string>)
    ensures out == IdentifierTokens(s)
  {
    var parts := FieldsFunc(s);
    out := [];
    for i := 0 to |parts|
      invariant out == CamelAll(parts[..i])
    {
      assert parts[..i + 1][..i] == parts[..i];
      var pieces := SplitCamel(parts[i]);
      out := out + pieces;
    }
    assert parts[..|parts|] == parts;
  }

  /** The characters of all tokens, one after the other. */
  function Spelling(ts: seq<string>): string {
    if ts == [] then [] else Spelling(ts[..|ts| - 1]) + ts[|ts| - 1]
  }

  /** The letters and digits of s, lower case. */
  function Squeezed(s: string): string {
    if s == [] then []
    else Squeezed(s[..|s| - 1]) + if IsLetterOrDigit(s[|s| - 1]) then [LowerChar(s[|s| - 1])] else []
  }

  lemma {:induction false} SpellingConcat(a: seq<string>, b: seq<string>)
    ensures Spelling(a + b) == Spelling(a) + Spelling(b)
  {
    if b == [] {
      assert a + b == a;
    } else {
      SpellingConcat(a, b[..|b| - 1]);
      assert (a + b)[..|a + b| - 1] == a + b[..|b| - 1] && (a + b)[|a + b| - 1] == b[|b| - 1];
      Associate(Spelling(a), Spelling(b[..|b| - 1]), b[|b| - 1]);
    }
  }

  lemma {:induction false} SqueezedConcat(a: string, b: string)
    ensures Squeezed(a + b) == Squeezed(a) + Squeezed(b)
  {
    if b == [] {
      assert a + b == a;
    } else {
      SqueezedConcat(a, b[..|b| - 1]);
      assert (a + b)[..|a + b| - 1] == a + b[..|b| - 1];
    }
  }

  lemma ToLowerConcat(a: string, b: string)
    ensures ToLower(a + b) == ToLower(a) + ToLower(b)
  {
  }

  lemma SpellingOfChunk(cur: string)
    ensures Spelling(Chunk(cur)) == cur
  {
    if cur != [] { assert [cur][..0] == []; }
  }

  lemma {:induction false} CamelSpells(p: string, cur: string)
    ensures Spelling(Camel(p, cur)) == ToLower(cur + p)
  {
    SpellingOfChunk(ToLower(cur));
    if p == [] {
      assert cur + p == cur;
    } else if IsUpper(p[0]) {
      CamelSpells(p[1..], [p[0]]);
      SpellingConcat(Chunk(ToLower(cur)), Camel(p[1..], [p[0]]));
      ToLowerConcat(cur, p);
      assert [p[0]] + p[1..] == p;
    } else {
      CamelSpells(p[1..], cur + [p[0]]);
      assert cur + [p[0]] + p[1..] == cur + p;
    }
  }

  lemma {:induction false} CamelAllSpells(parts: seq<string>)
    ensures Spelling(CamelAll(parts)) == ToLower(Spelling(parts))
  {
    if parts != [] {
      var init, p := parts[..|parts| - 1], parts[|parts| - 1];
      CamelAllSpells(init);
      CamelSpells(p, []);
      SpellingConcat(CamelAll(init), Camel(p, []));
      ToLowerConcat(Spelling(init), p);
      assert [] + p == p;
    }
  }

  lemma SqueezedFirst(s: string)
    requires s != []
    ensures Squeezed(s) == (if IsLetterOrDigit(s[0]) then [LowerChar(s[0])] else []) + Squeezed(s[1..])
  {
    var first := [s[0]];
    SqueezedConcat(first, s[1..]);
    assert first + s[1..] == s && first[..|first| - 1] == [];
    assert Squeezed(first) == if IsLetterOrDigit(s[0]) then [LowerChar(s[0])] else [];
  }

  lemma {:induction false} FieldsSpell(s: string, cur: string)
    ensures ToLower(Spelling(Fields(s, cur))) == ToLower(cur) + Squeezed(s)
  {
    SpellingOfChunk(cur);
    if s == [] {
      assert Squeezed(s) == [];
    } else {
      SqueezedFirst(s);
      if IsLetterOrDigit(s[0]) {
        FieldsSpell(s[1..], cur + [s[0]]);
        ToLowerConcat(cur, [s[0]]);
        Associate(ToLower(cur), [LowerChar(s[0])], Squeezed(s[1..]));
      } else {
        FieldsSpell(s[1..], []);
        SpellingConcat(Chunk(cur), Fields(s[1..], []));
        ToLowerConcat(cur, Spelling(Fields(s[1..], [])));
      }
    }
  }

  /** Splitting loses nothing but separators and case: the tokens spell the letters and digits. */
  lemma TokensSpell(s: string)
    ensures Spelling(IdentifierTokens(s)) == Squeezed(s)
  {
    CamelAllSpells(Fields(s, []));
    FieldsSpell(s, []);
  }

  lemma {:induction false} FieldsOfRun(p: string, cur: string)
    requires forall c | c in p :: IsLetterOrDigit(c)
    ensures Fields(p, cur) == Chunk(cur + p)
  {
    if p == [] {
      assert cur + p == cur;
    } else {
      FieldsOfRun(p[1..], cur + [p[0]]);
      assert cur + [p[0]] + p[1..] == cur + p;
    }
  }

  lemma {:induction false} CamelOfCapitals(p: string, cur: string)
    requires cur != [] && forall c | c in p :: IsUpper(c)
    ensures |Camel(p, cur)| == |p| + 1
  {
    if p != [] {
      CamelStep(p, cur);
      CamelOfCapitals(p[1..], [p[0]]);
    }
  }

  /** Every capital opens a token, so an acronym falls apart into its letters. */
  lemma AcronymsFallApart(p: string)
    requires forall c | c in p :: IsUpper(c)
    ensures |IdentifierTokens(p)| == |p|
  {
    FieldsOfRun(p, []);
    assert [] + p == p;
    if p != [] {
      CamelStep(p, []);
      assert [] + [p[0]] == [p[0]];
      CamelOfCapitals(p[1..], [p[0]]);
      var parts := [p];
      assert parts[..|parts| - 1] == [];
      assert CamelAll(parts) == Camel(p, []);
    }
  }

  lemma {:induction false} CamelAllConcat(a: seq<string>, b: seq<string>)
    ensures CamelAll(a + b) == CamelAll(a) + CamelAll(b)
  {
    if b == [] {
      assert a + b == a;
    } else {
      CamelAllConcat(a, b[..|b| - 1]);
      assert (a + b)[..|a + b| - 1] == a + b[..|b| - 1] && (a + b)[|a + b| - 1] == b[|b| - 1];
      Associate(CamelAll(a), CamelAll(b[..|b| - 1]), Camel(b[|b| - 1], []));
    }
  }

  lemma {:induction false} FieldsAtSeparator(a: string, c: char, b: string, cur: string)
    requires !IsLetterOrDigit(c)
    ensures Fields(a + [c] + b, cur) == Fields(a, cur) + Fields(b, [])
  {
    var s := a + [c] + b;
    if a == [] {
      assert s[0] == c && s[1..] == b;
    } else {
      assert s[0] == a[0] && s[1..] == a[1..] + [c] + b;
      if IsLetterOrDigit(a[0]) {
        FieldsAtSeparator(a[1..], c, b, cur + [a[0]]);
      } else {
        FieldsAtSeparator(a[1..], c, b, []);
        Associate(Chunk(cur), Fields(a[1..], []), Fields(b, []));
      }
    }
  }

  /** Whatever is no letter or digit separates: it is in no token, and what stands before it and after
      it is split on its own. */
  lemma SeparatorsSeparate(a: string, c: char, b: string)
    requires !('A' <= c <= 'Z' || 'a' <= c <= 'z' || '0' <= c <= '9')
    ensures IdentifierTokens(a + [c] + b) == IdentifierTokens(a) + IdentifierTokens(b)
  {
    FieldsAtSeparator(a, c, b, []);
    CamelAllConcat(Fields(a, []), Fields(b, []));
  }

  /** The run a string opens with, and the rest of its fields, whatever was read before. */
  lemma {:induction false} OpeningRun(s: string) returns (r: string, rest: seq<string>)
    ensures forall cur :: Fields(s, cur) == Chunk(cur + r) + rest
    ensures s != [] && IsLetterOrDigit(s[0]) ==> r != [] && r[0] == s[0]
  {
    if s == [] {
      r, rest := [], [];
      assert forall cur: string :: cur + r == cur;
    } else if IsLetterOrDigit(s[0]) {
      var r1, rest1 := OpeningRun(s[1..]);
      r, rest := [s[0]] + r1, rest1;
      forall cur: string ensures Fields(s, cur) == Chunk(cur + r) + rest {
        assert cur + [s[0]] + r1 == cur + r;
      }
    } else {
      r, rest := [], Fields(s[1..], []);
      assert forall cur: string :: cur + r == cur;
    }
  }

  lemma {:induction false} CamelAtCapital(p: string, q: string, cur: string)
    requires q != [] && IsUpper(q[0]) && (p == [] ==> cur != [])
    ensures Camel(p + q, cur) == Camel(p, cur) + Camel(q, [])
  {
    if p == [] {
      assert p + q == q;
    } else {
      assert (p + q)[0] == p[0] && (p + q)[1..] == p[1..] + q;
      if IsUpper(p[0]) {
        CamelAtCapital(p[1..], q, [p[0]]);
        Associate(Chunk(ToLower(cur)), Camel(p[1..], [p[0]]), Camel(q, []));
      } else {
        CamelAtCapital(p[1..], q, cur + [p[0]]);
      }
    }
  }

  lemma CamelAllOfFirst(p: string, rest: seq<string>)
    ensures CamelAll([p] + rest) == Camel(p, []) + CamelAll(rest)
  {
    CamelAllConcat([p], rest);
    assert [p][..0] == [];
  }

  lemma SameRest(b: string, cur: string) returns (r: string, rest: seq<string>)
    requires b != [] && IsLetterOrDigit(b[0])
    ensures r != [] && r[0] == b[0] && Fields(b, cur) == [cur + r] + rest && Fields(b, []) == [r] + rest
  {
    r, rest := OpeningRun(b);
    assert [] + r == r && cur + r != [];
  }

  lemma OneChunk(cur: string)
    requires cur != []
    ensures CamelAll(Chunk(cur)) == Camel(cur, [])
  {
    CamelAllOfFirst(cur, []);
    assert [cur] + [] == [cur];
  }

  lemma CapitalOpens(b: string, cur: string)
    requires b != [] && IsUpper(b[0]) && cur != []
    ensures CamelAll(Fields(b, cur)) == CamelAll(Chunk(cur)) + CamelAll(Fields(b, []))
  {
    var r, rest := SameRest(b, cur);
    CamelAllOfFirst(cur + r, rest);
    CamelAllOfFirst(r, rest);
    OneChunk(cur);
    CamelAtCapital(cur, r, []);
    Associate(Camel(cur, []), Camel(r, []), CamelAll(rest));
  }

  lemma {:induction false} FieldsAtCapital(a: string, b: string, cur: string)
    requires b != [] && IsUpper(b[0])
    requires if a == [] then cur != [] else IsLetterOrDigit(a[|a| - 1])
    ensures CamelAll(Fields(a + b, cur)) == CamelAll(Fields(a, cur)) + CamelAll(Fields(b, []))
  {
    if a == [] {
      assert a + b == b;
      CapitalOpens(b, cur);
    } else {
      assert (a + b)[0] == a[0] && (a + b)[1..] == a[1..] + b;
      if IsLetterOrDigit(a[0]) {
        FieldsAtCapital(a[1..], b, cur + [a[0]]);
      } else {
        FieldsAtCapital(a[1..], b, []);
        CamelAllConcat(Chunk(cur), Fields(a[1..] + b, []));
        CamelAllConcat(Chunk(cur), Fields(a[1..], []));
        Associate(CamelAll(Chunk(cur)), CamelAll(Fields(a[1..], [])), CamelAll(Fields(b, [])));
      }
    }
  }

  /** A capital separates too, but belongs to the token it opens. */
  lemma CapitalsSeparate(a: string, b: string)
    requires a != [] && b != [] && 'A' <= b[0] <= 'Z'
    requires var c := a[|a| - 1]; 'A' <= c <= 'Z' || 'a' <= c <= 'z' || '0' <= c <= '9'
    ensures IdentifierTokens(a + b) == IdentifierTokens(a) + IdentifierTokens(b)
  {
    FieldsAtCapital(a, b, []);
  }

  lemma {:induction false} CamelWithoutCapitals(p: string, cur: string)
    requires forall c | c in p :: !IsUpper(c)
    ensures Camel(p, cur) == Chunk(ToLower(cur + p))
  {
    if p == [] {
      assert cur + p == cur;
    } else {
      CamelWithoutCapitals(p[1..], cur + [p[0]]);
      assert cur + [p[0]] + p[1..] == cur + p;
    }
  }

  /** Nothing else does: letters and digits without a capital after the first are one token. */
  lemma NothingElseSeparates(p: string)
    requires p != [] && forall c | c in p :: 'A' <= c <= 'Z' || 'a' <= c <= 'z' || '0' <= c <= '9'
    requires forall c | c in p[1..] :: !('A' <= c <= 'Z')
    ensures IdentifierTokens(p) == [ToLower(p)]
  {
    FieldsOfRun(p, []);
    assert [] + p == p && [p[0]] + p[1..] == p;
    CamelAllOfFirst(p, []);
    assert [p] + [] == [p];
    CamelStep(p, []);
    assert [] + [p[0]] == [p[0]];
    CamelWithoutCapitals(p[1..], [p[0]]);
  }

  // ---- scoring ----

  /** The first token of at least four characters of a that b also has, or none. */
  function SharedToken(a: seq<string>, b: seq<string>): string {
    if a == [] then "" else if |a[0]| >= 4 && a[0] in b then a[0] else SharedToken(a[1..], b)
  }

  lemma {:induction false} NothingShared(a: seq<string>, b: seq<string>)
    requires a == [] || b == []
    ensures SharedToken(a, b) == ""
  {
    if a != [] { NothingShared(a[1..], b); }
  }

  method OverlapLongTokens(a: seq<string>, b: seq<string>) returns (shared: string)
    ensures shared == SharedToken(a, b)
  {
    if |a| == 0 || |b| == 0 {
      NothingShared(a, b);
      return "";
    }
    var long: set<string> := set t | t in b && |t| >= 4;
    for i := 0 to |a|
      invariant SharedToken(a, b) == SharedToken(a[i..], b)
    {
      assert a[i..][0] == a[i] && a[i..][1..] == a[i + 1..];
      if |a[i]| < 4 {
        continue;
      }
      if a[i] in long {
        return a[i];
      }
    }
    assert a[|a|..] == [];
    return "";
  }

  function Score(tagLower: string, tagTokens: seq<string>, repoName: string): (real, string) {
    var nameLower := ToLower(repoName);
    if tagLower == nameLower then
      if tagLower == repoName then (1.0, "name:exact") else (0.9, "name:exact-ci")
    else if |tagLower| >= 4 && Contains(nameLower, tagLower) then (0.8, "name:contains-tag")
    else if |nameLower| >= 4 && Contains(tagLower, nameLower) then (0.7, "tag:contains-name")
    else
      var shared := SharedToken(tagTokens, IdentifierTokens(repoName));
      if shared != "" then (0.6, "tokens:" + shared) else (0.0, "")
  }

  method ScoreTagAgainstRepo(tagLower: string, tagTokens: seq<string>, repoName: string) returns (confidence: real, reason: string)
    ensures (confidence, reason) == Score(tagLower, tagTokens, repoName)
  {
    var nameLower := ToLower(repoName);
    if tagLower == nameLower {
      if tagLower == repoName {
        return 1.0, "name:exact";
      }
      return 0.9, "name:exact-ci";
    }
    if |tagLower| >= 4 && Contains(nameLower, tagLower) {
      return 0.8, "name:contains-tag";
    }
    if |nameLower| >= 4 && Contains(tagLower, nameLower) {
      return 0.7, "tag:contains-name";
    }
    var nameTokens := SplitIdentifierTokens(repoName);
    var shared := OverlapLongTokens(tagTokens, nameTokens);
    if shared != "" {
      return 0.6, "tokens:" + shared;
    }
    return 0.0, "";
  }

  // ---- the order of links ----

  predicate LessLink(a: Scored, b: Scored) {
    if a.link.confidence != b.link.confidence then a.link.confidence > b.link.confidence
    else if a.nameLen != b.nameLen then a.nameLen > b.nameLen
    else Less(a.link.targetRepo, b.link.targetRepo)
  }

  lemma LessLinkIsTransitive(x: Scored, y: Scored, z: Scored)
    ensures LessLink(x, y) && LessLink(y, z) ==> LessLink(x, z)
  {
    if Less(x.link.targetRepo, y.link.targetRepo) && Less(y.link.targetRepo, z.link.targetRepo) {
      LessIsTransitive(x.link.targetRepo, y.link.targetRepo, z.link.targetRepo);
    }
  }

  lemma NotLessLinkIsTransitive(x: Scored, y: Scored, z: Scored)
    requires !LessLink(x, y) && !LessLink(y, z)
    ensures !LessLink(x, z)
  {
    var a, b, c := x.link.targetRepo, y.link.targetRepo, z.link.targetRepo;
    LessIsTotal(a, b);
    LessIsTotal(b, c);
    if Less(b, a) && Less(c, b) { LessIsTransitive(c, b, a); }
    if Less(a, c) && Less(c, a) { LessIsTransitive(a, c, a); }
    LessIsIrreflexive(a);
  }

  lemma LessLinkIsAnOrder()
    ensures StrictWeak(LessLink)
  {
    forall x ensures !LessLink(x, x) { LessIsIrreflexive(x.link.targetRepo); }
    forall x, y, z | LessLink(x, y) && LessLink(y, z) ensures LessLink(x, z) { LessLinkIsTransitive(x, y, z); }
    forall x, y, z | !LessLink(x, y) && !LessLink(y, z) ensures !LessLink(x, z) { NotLessLinkIsTransitive(x, y, z); }
  }

  lemma StableSortOfOne(x: Scored)
    ensures StableSort([x], LessLink) == [x]
  {
    assert [x][1..] == [];
  }

  /** Swaps element i down past everything above it. */
  method SinkInto(s: array<Scored>, i: nat)
    requires 0 < i < s.Length && Sorted(s[..i], LessLink) && StrictWeak(LessLink)
    modifies s
    ensures forall xs :: old(s[..i]) == StableSort(xs, LessLink) ==> s[..i + 1] == StableSort(xs + [old(s[i])], LessLink)
    ensures s[i + 1..] == old(s[i + 1..])
  {
    ghost var ys, x := s[..i], s[i];
    var j := i;
    while j > 0 && LessLink(s[j], s[j - 1])
      invariant 0 <= j <= i
      invariant s[..j] == ys[..j] && s[j] == x && s[j + 1..i + 1] == ys[j..]
      invariant s[i + 1..] == old(s[i + 1..])
      invariant forall k | j <= k < i :: LessLink(x, ys[k])
    {
      assert s[j - 1] == ys[j - 1];
      s[j], s[j - 1] := s[j - 1], s[j];
      j := j - 1;
    }
    assert s[..i + 1] == ys[..j] + [x] + ys[j..];
    forall xs | ys == StableSort(xs, LessLink) ensures s[..i + 1] == StableSort(xs + [x], LessLink) {
      FittedIsStable(ys, xs, x, j, LessLink);
    }
  }

  /** Insertion sort in place: what was in front of i is sorted, element i sinks to its place. */
  method SortLinksScored(s: array<Scored>)
    modifies s
    ensures s[..] == StableSort(old(s[..]), LessLink)
  {
    LessLinkIsAnOrder();
    ghost var was := s[..];
    if s.Length == 0 {
      return;
    }
    var i := 1;
    StableSortOfOne(s[0]);
    assert s[..1] == was[..1] == [s[0]];
    while i < s.Length
      invariant 1 <= i <= s.Length
      invariant s[..i] == StableSort(was[..i], LessLink)
      invariant s[i..] == was[i..]
    {
      StableSortIsStable(was[..i], LessLink);
      SinkInto(s, i);
      assert was[..i + 1] == was[..i] + [was[i]];
      i := i + 1;
    }
    assert s[..] == s[..i] && was[..i] == was;
  }

  lemma ContainedIsShorter(s: string, sub: string)
    requires Contains(s, sub)
    ensures |sub| <= |s| && (|sub| == |s| ==> sub == s)
  {
    var i :| 0 <= i <= |s| - |sub| && StandsAt(s, i, sub);
    if |sub| == |s| { assert s[0..|s|] == s; }
  }

  /** Both identifiers have the token t, and it is long enough to count. */
  predicate Share(a: seq<string>, b: seq<string>, t: string) { t in a && t in b && |t| >= 4 }

  ghost predicate NoneShared(a: seq<string>, b: seq<string>) { forall x | x in a :: !(|x| >= 4 && x in b) }

  ghost predicate IsFirstShared(a: seq<string>, b: seq<string>, k: nat) {
    k < |a| && Share(a, b, a[k]) && NoneShared(a[..k], b)
  }

  lemma NoneSharedGrows(a: seq<string>, b: seq<string>)
    requires a != [] && !(|a[0]| >= 4 && a[0] in b)
    ensures NoneShared(a, b) <==> NoneShared(a[1..], b)
  {
    assert a == [a[0]] + a[1..];
  }

  /** The shared token is one both have, the first of them, and none is found only if there is none. */
  lemma {:induction false} SharedTokenIsFirst(a: seq<string>, b: seq<string>) returns (k: nat)
    ensures if SharedToken(a, b) == "" then NoneShared(a, b) else IsFirstShared(a, b, k) && a[k] == SharedToken(a, b)
  {
    if a == [] || (|a[0]| >= 4 && a[0] in b) {
      k := 0;
    } else {
      k := SharedTokenIsFirst(a[1..], b);
      NoneSharedGrows(a, b);
      if SharedToken(a, b) != "" {
        assert a[k + 1] == a[1..][k] && a[..k + 1][1..] == a[1..][..k];
        NoneSharedGrows(a[..k + 1], b);
        k := k + 1;
      }
    }
  }

  function ScoreOf(tag: string, name: string): (real, string) { Score(ToLower(tag), IdentifierTokens(tag), name) }

  /** What each confidence means, of a tag and a name as written: 1.0, the lower-cased tag is the
      name; 0.9, they agree but for case and the name has capitals; 0.8, the name is longer and
      contains a tag of four or more; 0.7, the tag is longer and contains a name of four or more;
      0.6, neither contains the other so, but they share a token of four or more; 0.0, none of these.
      No two of the containment rules can apply at once, so their order does not matter. */
  lemma ConfidenceMeans(tag: string, name: string)
    ensures var c := ScoreOf(tag, name).0; var t, n := ToLower(tag), ToLower(name);
      var inName, inTag := t != n && |t| >= 4 && Contains(n, t), t != n && |n| >= 4 && Contains(t, n);
      var shared := exists x :: x in IdentifierTokens(tag) && x in IdentifierTokens(name) && |x| >= 4;
      var reason := ScoreOf(tag, name).1;
      && !(inName && inTag)
      && (c == 1.0 <==> t == name == n) && (c == 1.0 ==> reason == "name:exact")
      && (c == 0.9 <==> t == n != name) && (c == 0.9 ==> reason == "name:exact-ci")
      && (c == 0.8 <==> inName) && (c == 0.8 ==> reason == "name:contains-tag")
      && (c == 0.7 <==> inTag) && (c == 0.7 ==> reason == "tag:contains-name")
      && (c == 0.6 <==> t != n && !inName && !inTag && shared)
      && (c == 0.0 <==> t != n && !inName && !inTag && !shared)
  {
    var t, n := ToLower(tag), ToLower(name);
    if Contains(n, t) { ContainedIsShorter(n, t); }
    if Contains(t, n) { ContainedIsShorter(t, n); }
    var a, b := IdentifierTokens(tag), IdentifierTokens(name);
    var k := SharedTokenIsFirst(a, b);
    if SharedToken(a, b) != "" { assert a[k] in a && a[k] in b; }
  }

  /** The reason of the last rule names the first token of the tag that the name shares. */
  lemma ReasonNamesFirstShared(tag: string, name: string)
    requires ScoreOf(tag, name).0 == 0.6
    ensures var a, b := IdentifierTokens(tag), IdentifierTokens(name);
      exists k :: 0 <= k < |a| && a[k] in b && |a[k]| >= 4 && (forall j | 0 <= j < k :: a[j] !in b || |a[j]| < 4)
               && ScoreOf(tag, name).1 == "tokens:" + a[k]
  {
    var a, b := IdentifierTokens(tag), IdentifierTokens(name);
    var k := SharedTokenIsFirst(a, b);
    assert ScoreOf(tag, name).1 == "tokens:" + a[k];
    forall j | 0 <= j < k ensures a[j] !in b || |a[j]| < 4 { assert a[..k][j] == a[j] && a[j] in a[..k]; }
  }

  /** A tag equal to the name gets the full score only if the name has no capitals. */
  lemma EqualNamesScoreFullIffLower(name: string)
    ensures Score(ToLower(name), IdentifierTokens(name), name).0 == 1.0 <==> ToLower(name) == name
    ensures ToLower(name) != name ==> Score(ToLower(name), IdentifierTokens(name), name) == (0.9, "name:exact-ci")
  {
  }

  // ---- linking ----

  predicate EqualFold(a: string, b: string) { ToLower(a) == ToLower(b) }

  predicate Eligible(source: string, tag: string, name: string) {
    name != "" && !EqualFold(name, source) && ScoreOf(tag, name).0 != 0.0
  }

  function LinkFor(source: string, tag: string, name: string): Scored {
    Scored(RepoLink(source, tag, name, ScoreOf(tag, name).0, ScoreOf(tag, name).1), |name|)
  }

  /** One link for every eligible name, at its first row. */
  function Collect(names: seq<string>, source: string, tag: string): seq<Scored> {
    if names == [] then []
    else
      var init, name := names[..|names| - 1], names[|names| - 1];
      Collect(init, source, tag) +
      if name !in init && Eligible(source, tag, name) then [LinkFor(source, tag, name)] else []
  }

  function LinksOf(scored: seq<Scored>): (links: seq<RepoLink>)
    ensures |links| == |scored| && forall i | 0 <= i < |scored| :: links[i] == scored[i].link
  {
    seq(|scored|, i requires 0 <= i < |scored| => scored[i].link)
  }

  /** The links of a tag, given the names in the registry. */
  function Links(names: seq<string>, source: string, tag: string): seq<RepoLink> {
    LinksOf(StableSort(Collect(names, source, tag), LessLink))
  }

  lemma CollectStep(names: seq<string>, i: nat, source: string, tag: string)
    requires i < |names|
    ensures Collect(names[..i + 1], source, tag) == Collect(names[..i], source, tag) +
      if names[i] !in names[..i] && Eligible(source, tag, names[i]) then [LinkFor(source, tag, names[i])] else []
  {
    assert names[..i + 1][..i] == names[..i];
  }

  /** The candidate names among those passed. */
  ghost predicate SeenIs(seen: set<string>, names: seq<string>, source: string) {
    forall n :: n in seen <==> n in names && n != "" && !EqualFold(n, source)
  }

  predicate Passed(name: string, seen: set<string>, source: string) {
    name == "" || EqualFold(name, source) || name in seen
  }

  /** A row either brings nothing new, or brings its name and perhaps a link. */
  lemma RowStep(seen: set<string>, names: seq<string>, i: nat, source: string, tag: string)
    requires i < |names| && SeenIs(seen, names[..i], source)
    ensures SeenIs(if Passed(names[i], seen, source) then seen else seen + {names[i]}, names[..i + 1], source)
    ensures Collect(names[..i + 1], source, tag) == Collect(names[..i], source, tag) +
      if Passed(names[i], seen, source) || ScoreOf(tag, names[i]).0 == 0.0 then [] else [LinkFor(source, tag, names[i])]
  {
    assert names[..i + 1] == names[..i] + [names[i]];
    CollectStep(names, i, source, tag);
  }

  /** The link to one name, if it scores at all. */
  method Candidate(source: string, tag: string, tagLower: string, tagTokens: seq<string>, name: string) returns (found: seq<Scored>)
    requires tagLower == ToLower(tag) && tagTokens == IdentifierTokens(tag)
    ensures found == if ScoreOf(tag, name).0 != 0.0 then [LinkFor(source, tag, name)] else []
  {
    var confidence, reason := ScoreTagAgainstRepo(tagLower, tagTokens, name);
    if confidence == 0.0 {
      return [];
    }
    found := [Scored(RepoLink(source, tag, name, confidence, reason), |name|)];
  }

  method CollectLinks(names: seq<string>, source: string, tag: string) returns (out: seq<Scored>)
    ensures out == Collect(names, source, tag)
  {
    var tagLower := ToLower(tag);
    var tagTokens := SplitIdentifierTokens(tag);
    var seen: set<string> := {};
    out := [];
    for i := 0 to |names|
      invariant out == Collect(names[..i], source, tag)
      invariant SeenIs(seen, names[..i], source)
    {
      var name := names[i];
      RowStep(seen, names, i, source, tag);
      if name == "" || EqualFold(name, source) {
        continue;
      }
      if name in seen {
        continue;
      }
      seen := seen + {name};
      var found := Candidate(source, tag, tagLower, tagTokens, name);
      out := out + found;
    }
    assert names[..|names|] == names;
  }

  /** The ranked links of a tag; the registry is its names in row order, or could not be read. */
  method LinkTag(source: string, tag: string, registry: Option<seq<string>>) returns (links: seq<RepoLink>)
    ensures links == if TrimSpace(tag) == "" || registry.None? then [] else Links(registry.value, source, TrimSpace(tag))
  {
    var tag := TrimSpace(tag);
    if tag == "" {
      return [];
    }
    if registry.None? || |registry.value| == 0 {
      return [];
    }
    var found := CollectLinks(registry.value, source, tag);
    var out := new Scored[|found|](i requires 0 <= i < |found| => found[i]);
    assert out[..] == found;
    SortLinksScored(out);
    links := LinksOf(out[..]);
  }

  lemma TiedLinksShareName(source: string, tag: string, a: Scored, v: Scored)
    requires Tied(a, v, LessLink)
    ensures a.link.targetRepo == v.link.targetRepo
  {
    LessIsTotal(a.link.targetRepo, v.link.targetRepo);
  }

  lemma TiesOfFew(xs: seq<Scored>, v: Scored)
    requires |xs| <= 1
    ensures Ties(xs, v, LessLink) == if xs != [] && Tied(xs[0], v, LessLink) then xs else []
  {
    if xs != [] { TiesOfCons(xs[0], xs[1..], v, LessLink); }
  }

  /** The link to a name if it is listed, eligible and ties with v. */
  function TieOf(listed: bool, source: string, tag: string, v: Scored): seq<Scored> {
    var name := v.link.targetRepo;
    if listed && Eligible(source, tag, name) && Tied(LinkFor(source, tag, name), v, LessLink)
    then [LinkFor(source, tag, name)] else []
  }

  lemma TiesOfOne(source: string, tag: string, name: string, v: Scored)
    ensures Ties([LinkFor(source, tag, name)], v, LessLink) ==
      if name == v.link.targetRepo && Tied(LinkFor(source, tag, name), v, LessLink) then [LinkFor(source, tag, name)] else []
  {
    TiesOfFew([LinkFor(source, tag, name)], v);
    if Tied(LinkFor(source, tag, name), v, LessLink) { TiedLinksShareName(source, tag, LinkFor(source, tag, name), v); }
  }

  /** Which collected links tie with a given one: at most one, and which depends on the set of names. */
  lemma {:induction false} TiesOfCollect(names: seq<string>, source: string, tag: string, v: Scored)
    ensures Ties(Collect(names, source, tag), v, LessLink) == TieOf(v.link.targetRepo in names, source, tag, v)
  {
    if names != [] {
      var init, name := names[..|names| - 1], names[|names| - 1];
      assert names == init + [name];
      TiesOfCollect(init, source, tag, v);
      if name !in init && Eligible(source, tag, name) {
        TiesConcat(Collect(init, source, tag), [LinkFor(source, tag, name)], v, LessLink);
        TiesOfOne(source, tag, name, v);
      } else {
        assert Collect(names, source, tag) == Collect(init, source, tag);
      }
    }
  }

  /** The links depend on the set of registered names alone: not on row order, not on duplicates. */
  lemma OnlyTheSetMatters(names: seq<string>, others: seq<string>, source: string, tag: string)
    requires forall n :: n in names <==> n in others
    ensures Links(names, source, tag) == Links(others, source, tag)
  {
    LessLinkIsAnOrder();
    forall v ensures Ties(Collect(names, source, tag), v, LessLink) == Ties(Collect(others, source, tag), v, LessLink) {
      TiesOfCollect(names, source, tag, v);
      TiesOfCollect(others, source, tag, v);
    }
    SameTiesSameSort(Collect(names, source, tag), Collect(others, source, tag), LessLink);
  }

  lemma {:induction false} CollectMembers(names: seq<string>, source: string, tag: string)
    ensures forall x :: x in Collect(names, source, tag) <==>
      x.link.targetRepo in names && Eligible(source, tag, x.link.targetRepo) && x == LinkFor(source, tag, x.link.targetRepo)
  {
    if names != [] {
      CollectMembers(names[..|names| - 1], source, tag);
      assert names == names[..|names| - 1] + [names[|names| - 1]];
    }
  }

  lemma {:induction false} CollectIsDistinct(names: seq<string>, source: string, tag: string, i: nat, j: nat)
    requires i < j < |Collect(names, source, tag)|
    ensures Collect(names, source, tag)[i].link.targetRepo != Collect(names, source, tag)[j].link.targetRepo
  {
    var init := names[..|names| - 1];
    CollectMembers(init, source, tag);
    if j < |Collect(init, source, tag)| {
      CollectIsDistinct(init, source, tag, i, j);
    } else {
      assert Collect(init, source, tag)[i] in Collect(init, source, tag);
    }
  }

  /** The links are those of exactly the eligible names. */
  lemma LinksAreTheEligible(names: seq<string>, source: string, tag: string, l: RepoLink)
    ensures l in Links(names, source, tag) <==>
      && l.targetRepo in names && l.targetRepo != "" && ToLower(l.targetRepo) != ToLower(source)
      && l.sourceRepo == source && l.tag == tag && (l.confidence, l.reason) == ScoreOf(tag, l.targetRepo)
      && l.confidence != 0.0
  {
    var xs := Collect(names, source, tag);
    var ys := StableSort(xs, LessLink);
    SortKeepsMembers(xs, LessLink);
    CollectMembers(names, source, tag);
    if l in Links(names, source, tag) {
      var i :| 0 <= i < |ys| && LinksOf(ys)[i] == l;
      assert ys[i] in ys;
    }
    if l.targetRepo in names && Eligible(source, tag, l.targetRepo) && l == LinkFor(source, tag, l.targetRepo).link {
      var i :| 0 <= i < |ys| && ys[i] == LinkFor(source, tag, l.targetRepo);
      assert LinksOf(ys)[i] == l;
    }
  }

  lemma CollectHasNoRepeats(names: seq<string>, source: string, tag: string)
    ensures NoRepeats(Collect(names, source, tag))
  {
    forall i, j | 0 <= i < j < |Collect(names, source, tag)|
      ensures Collect(names, source, tag)[i] != Collect(names, source, tag)[j]
    {
      CollectIsDistinct(names, source, tag, i, j);
    }
  }

  ghost predicate Ranked(a: RepoLink, b: RepoLink) {
    a.confidence > b.confidence ||
    (a.confidence == b.confidence &&
     (|a.targetRepo| > |b.targetRepo| || (|a.targetRepo| == |b.targetRepo| && Less(a.targetRepo, b.targetRepo))))
  }

  /** They stand by confidence, then longer names first, then by name, each target once. */
  lemma LinksAreRanked(names: seq<string>, source: string, tag: string, i: nat, j: nat)
    requires i < j < |Links(names, source, tag)|
    ensures Ranked(Links(names, source, tag)[i], Links(names, source, tag)[j])
  {
    var xs := Collect(names, source, tag);
    var ys := StableSort(xs, LessLink);
    LessLinkIsAnOrder();
    StableSortIsStable(xs, LessLink);
    SortKeepsMembers(xs, LessLink);
    CollectMembers(names, source, tag);
    CollectHasNoRepeats(names, source, tag);
    SortKeepsNoRepeats(xs, LessLink);
    assert ys[i] in xs && ys[j] in xs && ys[i] != ys[j];
    if Tied(ys[i], ys[j], LessLink) { TiedLinksShareName(source, tag, ys[i], ys[j]); }
    assert !LessLink(ys[j], ys[i]);
  }
}
