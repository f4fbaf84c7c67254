/** The short hyphenated label of a query. */
module TopicLabels {
  import opened Text

  const MAX_TOKENS := 3
  const MAX_LEN := 40

  predicate Alnum(c: char) { 'a' <= c <= 'z' || '0' <= c <= '9' }

  predicate AllAlnum(s: string) { forall c | c in s :: Alnum(c) }

  /** Tokens are dropped when short, a stop word or a number. */
  predicate Keep(token: string, stop: string -> bool) {
    |token| >= 3 && !stop(token) && !AllDigits(token)
  }

  predicate Good(token: string, stop: string -> bool) { AllAlnum(token) && Keep(token, stop) }

  function Flush(cur: string, stop: string -> bool): seq<string> { if Keep(cur, stop) then [cur] else [] }

  /** The kept runs of letters and digits of s, of which cur was read already. */
  function Words(s: string, cur: string, stop: string -> bool): seq<string> {
    if s == [] then Flush(cur, stop)
    else if Alnum(s[0]) then Words(s[1..], cur + [s[0]], stop)
    else Flush(cur, stop) + Words(s[1..], [], stop)
  }

  function Tokens(query: string, stop: string -> bool): seq<string> { Words(ToLower(query), [], stop) }

  method Tokenize(query: string, stop: string -> bool) returns (out: seq<string>)
    ensures out == Tokens(query, stop)
  {
    var s := ToLower(query);
    var cur := "";
    out := [];
    for i := 0 to |s|
      invariant out + Words(s[i..], cur, stop) == Tokens(query, stop)
    {
      assert s[i..][1..] == s[i + 1..];
      if Alnum(s[i]) {
        cur := cur + [s[i]];
      } else {
        assert out + Words(s[i..], cur, stop) == (out + Flush(cur, stop)) + Words(s[i + 1..], [], stop);
        out := out + Flush(cur, stop);
        cur := "";
      }
    }
    assert s[|s|..] == [];
    out := out + Flush(cur, stop);
  }

  /** First occurrences, in order. */
  function Dedup(ts: seq<string>): seq<string> {
    if ts == [] then []
    else
      var last := ts[|ts| - 1];
      var kept := Dedup(ts[..|ts| - 1]);
      if last in kept then kept else kept + [last]
  }

  function FirstFew(ts: seq<string>): seq<string> { if |ts| <= MAX_TOKENS then ts else ts[..MAX_TOKENS] }

  function Join(ts: seq<string>): string {
    if ts == [] then "" else if |ts| == 1 then ts[0] else ts[0] + "-" + Join(ts[1..])
  }

  lemma {:induction false} WordsAtSeparator(a: string, c: char, b: string, cur: string, stop: string -> bool)
    requires !Alnum(c)
    ensures Words(a + [c] + b, cur, stop) == Words(a, cur, stop) + Words(b, [], stop)
  {
    var s := a + [c] + b;
    if a == "" {
      assert s[1..] == b;
    } else {
      assert s[0] == a[0] && s[1..] == a[1..] + [c] + b;
      WordsAtSeparator(a[1..], c, b, if Alnum(a[0]) then cur + [a[0]] else [], stop);
    }
  }

  lemma LowerOfConcat(a: string, b: string)
    ensures ToLower(a + b) == ToLower(a) + ToLower(b)
  {
  }

  /** Anything but a letter from A to Z or a digit separates tokens. */
  lemma SeparatorsSeparate(a: string, c: char, b: string, stop: string -> bool)
    requires !('a' <= c <= 'z' || 'A' <= c <= 'Z' || '0' <= c <= '9')
    ensures Tokens(a + [c] + b, stop) == Tokens(a, stop) + Tokens(b, stop)
  {
    LowerOfConcat(a + [c], b);
    LowerOfConcat(a, [c]);
    assert ToLower([c]) == [c];
    WordsAtSeparator(ToLower(a), c, ToLower(b), [], stop);
  }

  lemma LowerAlnum(t: string)
    requires forall i | 0 <= i < |t| :: 'a' <= t[i] <= 'z' || 'A' <= t[i] <= 'Z' || '0' <= t[i] <= '9'
    ensures AllAlnum(ToLower(t))
  {
  }

  lemma LowerDigits(t: string)
    ensures AllDigits(ToLower(t)) <==> forall i | 0 <= i < |t| :: '0' <= t[i] <= '9'
  {
    var low := ToLower(t);
    forall i | 0 <= i < |t| ensures '0' <= low[i] <= '9' <==> '0' <= t[i] <= '9' {}
    if AllDigits(low) {
      forall i | 0 <= i < |t| ensures '0' <= t[i] <= '9' { assert low[i] in low; }
    }
  }

  lemma {:induction false} ReadToken(t: string, rest: string, cur: string, stop: string -> bool)
    requires AllAlnum(t)
    ensures Words(t + rest, cur, stop) == Words(rest, cur + t, stop)
  {
    if t == [] {
      assert t + rest == rest && cur + t == cur;
    } else {
      ReadToken(t[1..], rest, cur + [t[0]], stop);
      assert (t + rest)[0] == t[0] && (t + rest)[1..] == t[1..] + rest;
      assert cur + [t[0]] + t[1..] == cur + t;
    }
  }

  /** A run of letters and digits is one token, its lower case, unless it is shorter than three, a
      stop word or a number. */
  lemma RunIsOneToken(t: string, stop: string -> bool)
    requires forall i | 0 <= i < |t| :: 'a' <= t[i] <= 'z' || 'A' <= t[i] <= 'Z' || '0' <= t[i] <= '9'
    ensures Tokens(t, stop) ==
      if |t| >= 3 && !stop(ToLower(t)) && exists i | 0 <= i < |t| :: !('0' <= t[i] <= '9') then [ToLower(t)] else []
  {
    var low := ToLower(t);
    LowerAlnum(t);
    ReadToken(low, [], [], stop);
    assert low + [] == low && [] + low == low;
    LowerDigits(t);
  }

  /** Within the limit, at a hyphen if there is one to cut at. */
  function Trimmed(joined: string): string {
    if |joined| <= MAX_LEN then joined
    else
      var cut := LastIndex(joined[..MAX_LEN], '-');
      if cut > 0 then joined[..cut] else joined[..MAX_LEN]
  }

  /** The distinct kept tokens of a query. */
  function Kept(query: string, stop: string -> bool): seq<string> { Dedup(Tokens(query, stop)) }

  function Label(query: string, stop: string -> bool): string { Trimmed(Join(FirstFew(Kept(query, stop)))) }

  lemma {:induction false} DedupMembers(ts: seq<string>)
    ensures forall t :: t in Dedup(ts) <==> t in ts
  {
    if ts != [] {
      DedupMembers(ts[..|ts| - 1]);
      assert ts == ts[..|ts| - 1] + [ts[|ts| - 1]];
    }
  }

  lemma {:induction false} DedupGrows(ts: seq<string>, n: nat)
    requires n <= |ts|
    ensures Dedup(ts[..n]) <= Dedup(ts)
  {
    if n < |ts| {
      DedupGrows(ts[..|ts| - 1], n);
      assert ts[..|ts| - 1][..n] == ts[..n];
    } else {
      assert ts[..n] == ts;
    }
  }

  method PickTokens(tokens: seq<string>) returns (picked: seq<string>)
    ensures picked == FirstFew(Dedup(tokens))
  {
    picked := [];
    var seen: set<string> := {};
    var i := 0;
    while i < |tokens|
      invariant 0 <= i <= |tokens| && |picked| < MAX_TOKENS
      invariant picked == Dedup(tokens[..i])
      invariant forall t :: t in seen <==> t in picked
    {
      assert tokens[..i + 1][..i] == tokens[..i];
      if tokens[i] !in seen {
        seen := seen + {tokens[i]};
        picked := picked + [tokens[i]];
        if |picked| >= MAX_TOKENS {
          DedupGrows(tokens, i + 1);
          return;
        }
      }
      i := i + 1;
    }
    assert tokens[..i] == tokens;
  }

  predicate IsArticle(t: string) {
    t in {
      "a", "an", "the", "this", "that", "these", "those", "my", "our", "your", "their", "its",
      "it", "they", "some", "any", "all", "no", "none", "each", "every"
    }
  }

  predicate IsLinker(t: string) {
    t in {
      "and", "or", "but", "if", "so", "than", "then", "of", "to", "in", "on", "at", "by", "for",
      "with", "from", "into", "onto", "as", "via", "about"
    }
  }

  predicate IsAuxiliary(t: string) {
    t in {
      "is", "are", "was", "were", "be", "been", "being", "do", "does", "did", "doing", "done",
      "have", "has", "had", "having", "will", "would", "can", "could", "should", "may", "might",
      "must", "shall"
    }
  }

  predicate IsQuestionOrVerb(t: string) {
    t in {
      "how", "what", "why", "when", "where", "which", "who", "whom", "whose", "explain", "show",
      "tell", "list", "find", "give", "get", "set", "make", "see", "look", "help", "need", "want",
      "use", "used", "uses", "using", "work", "works", "working", "worked"
    }
  }

  predicate IsActionOrFiller(t: string) {
    t in {
      "fix", "fixes", "fixed", "fixing", "add", "adds", "added", "adding", "remove", "removes",
      "removed", "removing", "modify", "modifies", "modified", "modifying", "update", "updates",
      "updated", "updating", "please", "just", "also", "only", "very", "more", "most", "less",
      "least", "such", "like", "even", "here", "there", "now", "yet", "still"
    }
  }

  predicate IsCodeNoise(t: string) {
    t in {
      "code", "codebase", "repo", "project"
    }
  }

  predicate IsStopword(t: string) {
    IsArticle(t) || IsLinker(t) || IsAuxiliary(t) || IsQuestionOrVerb(t) || IsActionOrFiller(t) || IsCodeNoise(t)
  }

  method ExtractTopicLabel(query: string) returns (tag: string)
    ensures tag == Label(query, IsStopword)
  {
    if query == "" {
      return "";
    }
    var tokens := Tokenize(query, IsStopword);
    if |tokens| == 0 {
      return "";
    }
    var picked := PickTokens(tokens);
    tag := Join(picked);
    if |tag| > MAX_LEN {
      var cut := LastIndex(tag[..MAX_LEN], '-');
      if cut > 0 {
        tag := tag[..cut];
      } else {
        tag := tag[..MAX_LEN];
      }
    }
  }

  // ---- what tokens are ----

  ghost predicate AllGood(ts: seq<string>, stop: string -> bool) { forall t | t in ts :: Good(t, stop) }

  lemma {:induction false} WordsAreGood(s: string, cur: string, stop: string -> bool)
    requires AllAlnum(cur)
    ensures AllGood(Words(s, cur, stop), stop)
  {
    if s != [] {
      if Alnum(s[0]) {
        WordsAreGood(s[1..], cur + [s[0]], stop);
      } else {
        WordsAreGood(s[1..], [], stop);
      }
    }
  }

  ghost predicate Distinct(ts: seq<string>) { forall i, j | 0 <= i < j < |ts| :: ts[i] != ts[j] }

  lemma {:induction false} DedupIsDistinct(ts: seq<string>)
    ensures Distinct(Dedup(ts))
  {
    if ts != [] { DedupIsDistinct(ts[..|ts| - 1]); }
  }

  lemma {:induction false} DedupOfDistinct(ts: seq<string>)
    requires Distinct(ts)
    ensures Dedup(ts) == ts
  {
    if ts != [] {
      var init := ts[..|ts| - 1];
      DedupOfDistinct(init);
      assert ts == init + [ts[|ts| - 1]];
    }
  }

  lemma KeptIsGood(query: string, stop: string -> bool)
    ensures AllGood(Kept(query, stop), stop) && Distinct(Kept(query, stop))
  {
    WordsAreGood(ToLower(query), [], stop);
    DedupMembers(Tokens(query, stop));
    DedupIsDistinct(Tokens(query, stop));
  }

  // ---- reading a label back ----

  lemma {:induction false} ReadJoined(ts: seq<string>, stop: string -> bool)
    requires AllGood(ts, stop)
    ensures Words(Join(ts), [], stop) == ts
  {
    if ts != [] {
      assert Good(ts[0], stop);
      if |ts| == 1 {
        ReadToken(ts[0], [], [], stop);
        assert ts[0] + [] == ts[0] && [] + ts[0] == ts[0];
      } else {
        var rest := "-" + Join(ts[1..]);
        ReadJoined(ts[1..], stop);
        ReadToken(ts[0], rest, [], stop);
        assert ts[0] + "-" + Join(ts[1..]) == ts[0] + rest;
        assert [] + ts[0] == ts[0];
        assert rest[1..] == Join(ts[1..]) && rest[0] == '-';
      }
    }
  }

  predicate Plain(s: string) { forall c | c in s :: Alnum(c) || c == '-' }

  lemma {:induction false} JoinedIsPlain(ts: seq<string>)
    requires forall t | t in ts :: AllAlnum(t)
    ensures Plain(Join(ts))
  {
    if ts != [] {
      assert AllAlnum(ts[0]);
      if |ts| > 1 {
        JoinedIsPlain(ts[1..]);
        forall c | c in Join(ts) ensures Alnum(c) || c == '-' {
          assert c in ts[0] || c in "-" || c in Join(ts[1..]);
        }
      }
    }
  }

  lemma PlainIsLower(s: string)
    requires Plain(s)
    ensures ToLower(s) == s
  {
    forall i | 0 <= i < |s| ensures ToLower(s)[i] == s[i] {
      assert s[i] in s;
    }
  }

  /** Extracting from a joined list of at most three distinct good tokens gives the list back. */
  lemma JoinedIsStable(ts: seq<string>, stop: string -> bool)
    requires AllGood(ts, stop) && Distinct(ts) && |ts| <= MAX_TOKENS
    ensures Label(Join(ts), stop) == Trimmed(Join(ts))
  {
    JoinedIsPlain(ts);
    PlainIsLower(Join(ts));
    ReadJoined(ts, stop);
    DedupOfDistinct(ts);
  }

  // ---- where the label is cut ----

  /** How many leading tokens end in a hyphen before place m of the joined list. */
  function Fit(ts: seq<string>, m: nat): (n: nat)
    ensures n <= |ts| && (ts != [] ==> n < |ts|)
  {
    if |ts| <= 1 || m <= |ts[0]| then 0 else 1 + Fit(ts[1..], m - |ts[0]| - 1)
  }

  lemma {:induction false} JoinPrefix(ts: seq<string>, n: nat)
    requires 0 < n < |ts|
    ensures Join(ts[..n]) + "-" <= Join(ts)
  {
    if n == 1 {
      assert ts[..1] == [ts[0]];
    } else {
      JoinPrefix(ts[1..], n - 1);
      assert ts[1..][..n - 1] == ts[..n][1..];
      assert Join(ts[..n]) == ts[0] + "-" + Join(ts[1..][..n - 1]);
    }
  }

  lemma LastIndexPast(a: string, tail: string)
    ensures LastIndex(a + "-" + tail, '-') ==
      if LastIndex(tail, '-') >= 0 then |a| + 1 + LastIndex(tail, '-') else |a|
  {
    var i := LastIndex(tail, '-');
    var s := a + "-" + tail;
    assert s[|a| + 1..] == tail;
    if i >= 0 {
      assert s[|a| + 1 + i + 1..] == tail[i + 1..];
      LastIndexIs(s, '-', |a| + 1 + i);
    } else {
      LastIndexIs(s, '-', |a|);
    }
  }

  /** Lengths of joins from the first token on and from the second on. */
  lemma FitLength(ts: seq<string>, n: nat)
    requires 0 < n < |ts|
    ensures |Join(ts[..n])| == if n == 1 then |ts[0]| else |ts[0]| + 1 + |Join(ts[1..][..n - 1])|
    ensures |Join(ts[..n + 1])| == |ts[0]| + 1 + |Join(ts[1..][..n])|
  {
    assert ts[1..][..n - 1] == ts[..n][1..];
    assert ts[1..][..n] == ts[..n + 1][1..];
    assert ts[..n][0] == ts[..n + 1][0] == ts[0];
  }

  lemma NoHyphen(t: string, m: nat)
    requires AllAlnum(t) && m <= |t|
    ensures LastIndex(t[..m], '-') == -1
  {
    forall k | 0 <= k < m ensures t[..m][k] != '-' {
      assert t[k] in t;
      assert Alnum(t[k]);
    }
  }

  /** The last hyphen before place m closes the Fit leading tokens, and the next would reach m. */
  lemma {:induction false} LastHyphen(ts: seq<string>, m: nat)
    requires ts != [] && m <= |Join(ts)| && forall t | t in ts :: AllAlnum(t)
    ensures LastIndex(Join(ts)[..m], '-') == if Fit(ts, m) == 0 then -1 else |Join(ts[..Fit(ts, m)])|
    ensures m <= |Join(ts[..Fit(ts, m) + 1])|
  {
    var n := Fit(ts, m);
    if n == 0 {
      assert ts[..1] == [ts[0]];
      assert Join(ts)[..m] == ts[0][..m];
      NoHyphen(ts[0], m);
    } else {
      var rest := m - |ts[0]| - 1;
      LastHyphen(ts[1..], rest);
      var tail := Join(ts[1..])[..rest];
      assert Join(ts)[..m] == ts[0] + "-" + tail;
      LastIndexPast(ts[0], tail);
      FitLength(ts, n);
    }
  }

  lemma ShorterJoin(ts: seq<string>, n: nat)
    requires 0 < n < |ts|
    ensures |Join(ts[..n])| <= |Join(ts[..n + 1])|
  {
    assert ts[..n + 1][..n] == ts[..n];
    JoinPrefix(ts[..n + 1], n);
  }

  /** How many tokens a label of picked tokens keeps. */
  function Count(picked: seq<string>): (n: nat)
    ensures n <= |picked|
  {
    if |Join(picked)| <= MAX_LEN then |picked| else if Fit(picked, MAX_LEN) == 0 && picked != [] then 1 else Fit(picked, MAX_LEN)
  }

  /** A first token of just the limit stands alone. */
  lemma CutAtFirst(picked: seq<string>)
    requires picked != [] && |picked[0]| <= MAX_LEN < |Join(picked)| && forall t | t in picked :: AllAlnum(t)
    requires Fit(picked, MAX_LEN) == 0
    ensures Trimmed(Join(picked)) == picked[0] == Join(picked[..1]) && |picked[0]| == MAX_LEN
    ensures 1 < |picked| && |Join(picked[..2])| >= MAX_LEN
  {
    LastHyphen(picked, MAX_LEN);
    assert picked[..1] == [picked[0]];
    assert Join(picked)[..MAX_LEN] == picked[0];
    ShorterJoin(picked, 1);
  }

  lemma CutPrefix(a: string, b: string)
    requires a + "-" <= b && |b| > MAX_LEN && LastIndex(b[..MAX_LEN], '-') == |a| > 0
    ensures Trimmed(b) == a && |a| < MAX_LEN
  {
    assert b[..|a|] == (a + "-")[..|a|] == a;
  }

  lemma JoinIsNotEmpty(ts: seq<string>)
    requires ts != [] && ts[0] != ""
    ensures Join(ts) != ""
  {
  }

  lemma CutAtHyphen(picked: seq<string>, n: nat)
    requires picked != [] && MAX_LEN < |Join(picked)| && forall t | t in picked :: AllAlnum(t)
    requires picked[0] != "" && n == Fit(picked, MAX_LEN) > 0
    ensures Trimmed(Join(picked)) == Join(picked[..n]) && |Join(picked[..n])| < MAX_LEN
    ensures |Join(picked[..n + 1])| >= MAX_LEN
  {
    LastHyphen(picked, MAX_LEN);
    JoinPrefix(picked, n);
    JoinIsNotEmpty(picked[..n]);
    var a, b := Join(picked[..n]), Join(picked);
    assert LastIndex(b[..MAX_LEN], '-') == |a|;
    CutPrefix(a, b);
  }

  /** With a first token that fits, trimming keeps whole leading tokens, as many as leave room. */
  lemma TrimmedIsPrefix(picked: seq<string>, n: nat)
    requires picked != [] && 0 < |picked[0]| <= MAX_LEN && forall t | t in picked :: AllAlnum(t)
    requires n == Count(picked)
    ensures 0 < n && Trimmed(Join(picked)) == Join(picked[..n])
    ensures |Join(picked[..n])| <= MAX_LEN
    ensures n < |picked| ==> |Join(picked[..n + 1])| >= MAX_LEN
  {
    if |Join(picked)| <= MAX_LEN {
      assert picked[..n] == picked;
    } else if Fit(picked, MAX_LEN) == 0 {
      CutAtFirst(picked);
    } else {
      CutAtHyphen(picked, n);
    }
  }

  // ---- the label of a query ----

  lemma FirstFewIsGood(ts: seq<string>, stop: string -> bool)
    requires AllGood(ts, stop) && Distinct(ts)
    ensures AllGood(FirstFew(ts), stop) && Distinct(FirstFew(ts)) && |FirstFew(ts)| <= MAX_TOKENS
  {
  }

  lemma PrefixIsGood(ts: seq<string>, n: nat, stop: string -> bool)
    requires AllGood(ts, stop) && Distinct(ts) && n <= |ts|
    ensures AllGood(ts[..n], stop) && Distinct(ts[..n])
  {
  }

  lemma KeptTrims(kept: seq<string>, stop: string -> bool, n: nat)
    requires AllGood(kept, stop) && Distinct(kept)
    requires kept != [] && |kept[0]| <= MAX_LEN && n == Count(FirstFew(kept))
    ensures 0 < n <= |FirstFew(kept)| && Trimmed(Join(FirstFew(kept))) == Join(kept[..n])
    ensures |Join(kept[..n])| <= MAX_LEN
    ensures n < |FirstFew(kept)| ==> |Join(kept[..n + 1])| >= MAX_LEN
  {
    var picked := FirstFew(kept);
    assert picked[..n] == kept[..n];
    assert n < |picked| ==> picked[..n + 1] == kept[..n + 1];
    assert Good(kept[0], stop);
    forall t | t in picked ensures AllAlnum(t) {
      assert Good(t, stop);
    }
    TrimmedIsPrefix(picked, n);
  }

  /** When the first kept token fits, the label joins leading distinct kept tokens, and extracting
      from it gives it back. */
  lemma LabelIsStable(query: string, stop: string -> bool, n: nat)
    requires var kept := Kept(query, stop); kept != [] && |kept[0]| <= MAX_LEN && n == Count(FirstFew(kept))
    ensures 0 < n <= |FirstFew(Kept(query, stop))|
    ensures Label(query, stop) == Join(Kept(query, stop)[..n])
    ensures |Label(query, stop)| <= MAX_LEN
    ensures n < |FirstFew(Kept(query, stop))| ==> |Join(Kept(query, stop)[..n + 1])| >= MAX_LEN
    ensures n == |Kept(query, stop)| || n == 3 || |Join(Kept(query, stop)[..n + 1])| >= 40
    ensures Label(Label(query, stop), stop) == Label(query, stop)
  {
    var kept := Kept(query, stop);
    KeptIsGood(query, stop);
    KeptTrims(kept, stop, n);
    PrefixIsGood(kept, n, stop);
    JoinedIsStable(kept[..n], stop);
    assert Trimmed(Join(kept[..n])) == Join(kept[..n]);
  }

  lemma SingleToken(t: string, stop: string -> bool)
    requires AllAlnum(t) && |t| <= MAX_LEN
    ensures Label(t, stop) == if Keep(t, stop) then t else ""
  {
    assert Plain(t);
    PlainIsLower(t);
    ReadToken(t, [], [], stop);
    assert t + [] == t && [] + t == t;
    DedupOfDistinct(Flush(t, stop));
  }

  /** A first token too long to fit is cut short, and read back unless a number or a stop word is left. */
  lemma LongTokenIsCut(query: string, stop: string -> bool)
    requires var kept := Kept(query, stop); kept != [] && |kept[0]| > MAX_LEN
    ensures var cut := Kept(query, stop)[0][..MAX_LEN];
      && Label(query, stop) == cut
      && Label(cut, stop) == if stop(cut) || AllDigits(cut) then "" else cut
  {
    var kept := Kept(query, stop);
    var picked := FirstFew(kept);
    var cut := kept[0][..MAX_LEN];
    KeptIsGood(query, stop);
    FirstFewIsGood(kept, stop);
    if |picked| > 1 { JoinPrefix(picked, 1); }
    assert picked[..1] == [picked[0]];
    LastHyphen(picked, MAX_LEN);
    assert Join(picked)[..MAX_LEN] == cut;
    assert Good(kept[0], stop);
    assert AllAlnum(cut);
    SingleToken(cut, stop);
  }

  lemma StopwordsAreShort(t: string)
    requires IsStopword(t)
    ensures |t| < MAX_LEN
  {
  }

  /** Extracting twice is extracting once, except exactly when the first kept token is longer than
      the limit and opens with a number that long. */
  lemma ReextractionAgreesIff(query: string)
    ensures var kept := Kept(query, IsStopword); var tag := Label(query, IsStopword);
      Label(tag, IsStopword) == tag <==>
        !(kept != [] && |kept[0]| > MAX_LEN && AllDigits(kept[0][..MAX_LEN]))
  {
    var kept := Kept(query, IsStopword);
    if kept == [] {
      assert Label(query, IsStopword) == "";
      assert ToLower("") == "";
    } else if |kept[0]| <= MAX_LEN {
      LabelIsStable(query, IsStopword, Count(FirstFew(kept)));
    } else {
      LongTokenIsCut(query, IsStopword);
      if IsStopword(kept[0][..MAX_LEN]) { StopwordsAreShort(kept[0][..MAX_LEN]); }
    }
  }
}
