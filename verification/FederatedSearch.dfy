/** Federated search: results of several repositories, merged in whatever order they arrive,
    ranked and cut. */
module FederatedSearch {
  import opened Text
  import opened Sorting
  import FanOut

  datatype SearchResult = SearchResult(score: real, filePath: string, name: string, body: string)
  datatype Hit = Hit(repo: string, result: SearchResult)
  datatype Answer = Found(results: seq<SearchResult>) | Failed(error: string)
  datatype Arrival = Arrival(repo: string, answer: Answer)
  datatype Response = Response(hits: seq<Hit>, perRepo: map<string, nat>, errors: map<string, string>)

  // ---- which repositories are asked ----

  ghost predicate Distinct(xs: seq<string>) {
    forall i, j | 0 <= i < j < |xs| :: xs[i] != xs[j]
  }

  /** The first occurrence of every name that passes, in order. */
  function Kept(names: seq<string>, known: set<string>): seq<string> {
    if names == [] then [] else
      var init := names[..|names| - 1];
      var last := names[|names| - 1];
      if last in known && last !in init then Kept(init, known) + [last] else Kept(init, known)
  }

  lemma {:induction false} KeptIsDistinct(names: seq<string>, known: set<string>)
    ensures Distinct(Kept(names, known))
    ensures forall x :: x in Kept(names, known) <==> x in names && x in known
  {
    if names != [] {
      var init := names[..|names| - 1];
      KeptIsDistinct(init, known);
      assert names == init + [names[|names| - 1]];
    }
  }

  /** Where a name first stands. */
  function FirstPlace(names: seq<string>, x: string): (i: nat)
    requires x in names
    ensures i < |names| && names[i] == x && x !in names[..i]
  {
    if names[|names| - 1] == x && x !in names[..|names| - 1] then |names| - 1 else
      assert x in names[..|names| - 1];
      FirstPlace(names[..|names| - 1], x)
  }

  lemma FirstPlaceStays(init: seq<string>, last: string, x: string)
    requires x in init
    ensures x in init + [last] && FirstPlace(init + [last], x) == FirstPlace(init, x)
  {
    var names := init + [last];
    var i, j := FirstPlace(names, x), FirstPlace(init, x);
    assert names[j] == x && names[..j] == init[..j];
    assert forall k | 0 <= k < j :: init[..j][k] == names[k] && names[k] in init[..j];
    assert forall k | 0 <= k < i :: names[..i][k] == names[k] && names[k] in names[..i];
  }

  /** Names stand in the order of their first occurrence. */
  lemma {:induction false} KeptIsInOrder(names: seq<string>, known: set<string>, i: nat, j: nat)
    requires i < j < |Kept(names, known)|
    ensures Kept(names, known)[i] in names && Kept(names, known)[j] in names
    ensures FirstPlace(names, Kept(names, known)[i]) < FirstPlace(names, Kept(names, known)[j])
  {
    var init, last := names[..|names| - 1], names[|names| - 1];
    var kept := Kept(init, known);
    assert names == init + [last];
    KeptIsDistinct(names, known);
    KeptIsDistinct(init, known);
    FirstPlaceStays(init, last, kept[i]);
    if j < |kept| {
      KeptIsInOrder(init, known, i, j);
      FirstPlaceStays(init, last, kept[j]);
    }
  }

  lemma KeptAreInOrder(names: seq<string>, known: set<string>)
    ensures var kept := Kept(names, known);
      forall i, j | 0 <= i < j < |kept| ::
        kept[i] in names && kept[j] in names && FirstPlace(names, kept[i]) < FirstPlace(names, kept[j])
  {
    forall i, j | 0 <= i < j < |Kept(names, known)|
      ensures Kept(names, known)[i] in names && Kept(names, known)[j] in names
      ensures FirstPlace(names, Kept(names, known)[i]) < FirstPlace(names, Kept(names, known)[j])
    {
      KeptIsInOrder(names, known, i, j);
    }
  }

  function AtMost<T>(xs: seq<T>, n: nat): seq<T> { if |xs| > n then xs[..n] else xs }

  /** Registry order without repetition, cut; or the caller's order without repetition and
      without names the registry does not have. */
  method ResolveRepos(registry: seq<string>, asked: seq<string>, maxRepos: nat) returns (repos: seq<string>)
    ensures asked == [] ==> repos == AtMost(Kept(registry, set x | x in registry), maxRepos)
    ensures asked != [] ==> repos == Kept(asked, set x | x in registry)
    ensures Distinct(repos) && forall x | x in repos :: x in registry
    ensures forall i, j | 0 <= i < j < |repos| ::
      var names := if asked == [] then registry else asked;
      repos[i] in names && repos[j] in names && FirstPlace(names, repos[i]) < FirstPlace(names, repos[j])
    ensures forall x | x in registry && (asked == [] || x in asked) :: x in repos || (asked == [] && |repos| == maxRepos)
  {
    var known := set x | x in registry;
    var names := if asked == [] then registry else asked;
    var seen: set<string> := {};
    repos := [];
    for i := 0 to |names|
      invariant repos == Kept(names[..i], known)
      invariant seen == set x | x in names[..i] && x in known
    {
      assert names[..i + 1][..i] == names[..i];
      if names[i] !in seen && names[i] in known {
        seen := seen + {names[i]};
        repos := repos + [names[i]];
      }
    }
    assert names[..|names|] == names;
    KeptIsDistinct(names, known);
    KeptAreInOrder(names, known);
    if asked == [] && |repos| > maxRepos {
      repos := repos[..maxRepos];
    }
  }

  // ---- merging ----

  function Tag(repo: string, results: seq<SearchResult>): seq<Hit> {
    seq(|results|, k requires 0 <= k < |results| => Hit(repo, results[k]))
  }

  function HitsOf(a: Arrival): seq<Hit> {
    if a.answer.Found? then Tag(a.repo, a.answer.results) else []
  }

  function Merge(arrivals: seq<Arrival>): seq<Hit> {
    if arrivals == [] then [] else Merge(arrivals[..|arrivals| - 1]) + HitsOf(arrivals[|arrivals| - 1])
  }

  /** Score descending, then repository, file and name ascending. */
  predicate Before(a: Hit, b: Hit) {
    if a.result.score != b.result.score then a.result.score > b.result.score
    else if a.repo != b.repo then Less(a.repo, b.repo)
    else if a.result.filePath != b.result.filePath then Less(a.result.filePath, b.result.filePath)
    else Less(a.result.name, b.result.name)
  }

  lemma NoCycle(a: string, b: string)
    requires Less(a, b)
    ensures !Less(b, a)
  {
    LessIsIrreflexive(a);
    if Less(b, a) { LessIsTransitive(a, b, a); }
  }

  lemma BeforeIsTransitive(a: Hit, b: Hit, c: Hit)
    ensures Before(a, b) && Before(b, c) ==> Before(a, c)
  {
    if Less(a.repo, b.repo) && Less(b.repo, c.repo) { LessIsTransitive(a.repo, b.repo, c.repo); }
    if Less(a.result.filePath, b.result.filePath) && Less(b.result.filePath, c.result.filePath) {
      LessIsTransitive(a.result.filePath, b.result.filePath, c.result.filePath);
    }
    if Less(a.result.name, b.result.name) && Less(b.result.name, c.result.name) {
      LessIsTransitive(a.result.name, b.result.name, c.result.name);
    }
    if a.repo == c.repo && Less(a.repo, b.repo) { NoCycle(a.repo, b.repo); }
    if a.result.filePath == c.result.filePath && Less(a.result.filePath, b.result.filePath) {
      NoCycle(a.result.filePath, b.result.filePath);
    }
  }

  predicate SameRank(a: Hit, b: Hit) {
    a.result.score == b.result.score && a.repo == b.repo
      && a.result.filePath == b.result.filePath && a.result.name == b.result.name
  }

  /** Two hits tie only when they agree on all four keys, so in particular on the repository. */
  lemma TiesShareRepo(a: Hit, b: Hit)
    ensures Tied(a, b, Before) <==> SameRank(a, b)
  {
    LessIsTotal(a.repo, b.repo);
    LessIsTotal(a.result.filePath, b.result.filePath);
    LessIsTotal(a.result.name, b.result.name);
    LessIsIrreflexive(a.result.name);
  }

  lemma BeforeIsAnOrder()
    ensures StrictWeak(Before)
  {
    forall x ensures !Before(x, x) { LessIsIrreflexive(x.result.name); }
    forall x, y, z ensures Before(x, y) && Before(y, z) ==> Before(x, z) { BeforeIsTransitive(x, y, z); }
    forall x, y, z | !Before(x, y) && !Before(y, z) ensures !Before(x, z) {
      TiesShareRepo(x, y);
      TiesShareRepo(y, z);
      if Before(x, z) {
        if Before(y, x) { BeforeIsTransitive(y, x, z); }
        if Before(z, y) { BeforeIsTransitive(x, z, y); }
      }
    }
  }

  function Cut<T>(xs: seq<T>, limit: int): seq<T> {
    if limit > 0 && |xs| > limit then xs[..limit] else xs
  }

  /** A hit may stand in front of another: its score is greater, or they are equal and repository, then
      file, then name do not descend. */
  predicate MayPrecede(a: Hit, b: Hit) {
    || a.result.score > b.result.score
    || (a.result.score == b.result.score
        && (Less(a.repo, b.repo)
            || (a.repo == b.repo
                && (Less(a.result.filePath, b.result.filePath)
                    || (a.result.filePath == b.result.filePath
                        && (a.result.name == b.result.name || Less(a.result.name, b.result.name)))))))
  }

  /** The best of the hits, best first: none is lost but those the limit leaves out, and none of those
      should have stood before one that is kept. */
  ghost predicate AreTheBest(out: seq<Hit>, rest: seq<Hit>, hits: seq<Hit>, limit: int) {
    && |out| == (if 0 < limit < |hits| then limit else |hits|) && |out| + |rest| == |hits|
    && (forall h :: Occurrences(out, h) + Occurrences(rest, h) == Occurrences(hits, h))
    && (forall i, j | 0 <= i < j < |out| :: MayPrecede(out[i], out[j]))
    && (forall i, j | 0 <= i < |out| && 0 <= j < |rest| :: MayPrecede(out[i], rest[j]))
  }

  lemma OneWayOnly(a: string, b: string)
    ensures Less(a, b) <==> a != b && !Less(b, a)
  {
    LessIsTotal(a, b);
    LessIsIrreflexive(a);
    if Less(a, b) { NoCycle(a, b); }
  }

  lemma PrecedenceMeans(a: Hit, b: Hit)
    ensures !Before(b, a) <==> MayPrecede(a, b)
  {
    OneWayOnly(a.repo, b.repo);
    OneWayOnly(a.result.filePath, b.result.filePath);
    OneWayOnly(a.result.name, b.result.name);
  }

  lemma RankingIsTheBest(hits: seq<Hit>, limit: int) returns (rest: seq<Hit>)
    ensures AreTheBest(Cut(StableSort(hits, Before), limit), rest, hits, limit)
  {
    var ranked := StableSort(hits, Before);
    var out := Cut(ranked, limit);
    BeforeIsAnOrder();
    StableSortIsStable(hits, Before);
    rest := ranked[|out|..];
    assert ranked == out + rest;
    forall h ensures Occurrences(out, h) + Occurrences(rest, h) == Occurrences(hits, h) {
      OccurrencesConcat(out, rest, h);
      SortKeepsOccurrences(hits, Before, h);
    }
    forall i, j | 0 <= i < j < |ranked| ensures MayPrecede(ranked[i], ranked[j]) { PrecedenceMeans(ranked[i], ranked[j]); }
    forall i, j | 0 <= i < |out| && 0 <= j < |rest| ensures MayPrecede(out[i], rest[j]) {
      assert out[i] == ranked[i] && rest[j] == ranked[|out| + j];
    }
  }

  method RankAndTrim(hits: seq<Hit>, limit: int) returns (out: seq<Hit>)
    ensures exists ranked :: IsStableSort(ranked, hits, Before) && out == Cut(ranked, limit)
    ensures out == Cut(StableSort(hits, Before), limit)
    ensures exists rest :: AreTheBest(out, rest, hits, limit)
  {
    ghost var rest := RankingIsTheBest(hits, limit);
    BeforeIsAnOrder();
    StableSortIsStable(hits, Before);
    out := StableSort(hits, Before);
    if limit > 0 && |out| > limit {
      out := out[..limit];
    }
  }

  /** The results of one repository among the hits, in order. */
  function OfRepo(hits: seq<Hit>, repo: string): seq<SearchResult> {
    if hits == [] then [] else
      OfRepo(hits[..|hits| - 1], repo) + if hits[|hits| - 1].repo == repo then [hits[|hits| - 1].result] else []
  }

  lemma {:induction false} OfRepoConcat(a: seq<Hit>, b: seq<Hit>, repo: string)
    ensures OfRepo(a + b, repo) == OfRepo(a, repo) + OfRepo(b, repo)
  {
    if b == [] {
      assert a + b == a;
    } else {
      OfRepoConcat(a, b[..|b| - 1], repo);
      assert (a + b)[..|a + b| - 1] == a + b[..|b| - 1];
    }
  }

  lemma {:induction false} OfRepoOfTag(owner: string, results: seq<SearchResult>, repo: string)
    ensures OfRepo(Tag(owner, results), repo) == if owner == repo then results else []
  {
    if results != [] {
      var n := |results| - 1;
      OfRepoOfTag(owner, results[..n], repo);
      assert Tag(owner, results)[..n] == Tag(owner, results[..n]);
      assert results == results[..n] + [results[n]];
    }
  }

  lemma {:induction false} MergeHoldsNoOther(arrivals: seq<Arrival>, repo: string)
    requires forall a | a in arrivals && a.answer.Found? :: a.repo != repo
    ensures OfRepo(Merge(arrivals), repo) == []
  {
    if arrivals != [] {
      var init, last := arrivals[..|arrivals| - 1], arrivals[|arrivals| - 1];
      MergeHoldsNoOther(init, repo);
      OfRepoConcat(Merge(init), HitsOf(last), repo);
      if last.answer.Found? { OfRepoOfTag(last.repo, last.answer.results, repo); }
    }
  }

  ghost predicate DistinctRepos(arrivals: seq<Arrival>) {
    forall i, j | 0 <= i < j < |arrivals| :: arrivals[i].repo != arrivals[j].repo
  }

  /** The merge holds, of every repository that answered, exactly its results in its order, and of no
      other anything. */
  lemma {:induction false} MergeHoldsTheAnswers(arrivals: seq<Arrival>, k: nat)
    requires DistinctRepos(arrivals) && k < |arrivals| && arrivals[k].answer.Found?
    ensures OfRepo(Merge(arrivals), arrivals[k].repo) == arrivals[k].answer.results
  {
    var init, last := arrivals[..|arrivals| - 1], arrivals[|arrivals| - 1];
    var repo := arrivals[k].repo;
    OfRepoConcat(Merge(init), HitsOf(last), repo);
    if k < |init| { MergeHoldsTheAnswers(init, k); } else { MergeHoldsNoOther(init, repo); }
    if last.answer.Found? { OfRepoOfTag(last.repo, last.answer.results, repo); }
  }

  /** Some arrival brought n results from repo. */
  ghost predicate Reported(arrivals: seq<Arrival>, repo: string, n: nat) {
    exists a :: a in arrivals && a.repo == repo && a.answer.Found? && |a.answer.results| == n
  }

  /** The map holds the number of results of every repository that answered, and no other. */
  ghost predicate CountsAre(m: map<string, nat>, arrivals: seq<Arrival>) {
    && (forall repo | repo in m :: Reported(arrivals, repo, m[repo]))
    && (forall a | a in arrivals && a.answer.Found? :: a.repo in m && m[a.repo] == |a.answer.results|)
  }

  lemma CountsGrow(m: map<string, nat>, arrivals: seq<Arrival>, a: Arrival)
    requires CountsAre(m, arrivals) && forall b | b in arrivals :: b.repo != a.repo
    ensures CountsAre(if a.answer.Found? then m[a.repo := |a.answer.results|] else m, arrivals + [a])
  {
    var m' := if a.answer.Found? then m[a.repo := |a.answer.results|] else m;
    assert (arrivals + [a])[|arrivals|] == a;
    forall repo | repo in m' ensures Reported(arrivals + [a], repo, m'[repo]) {
      if repo in m {
        var b :| b in arrivals && b.repo == repo && b.answer.Found? && |b.answer.results| == m[repo];
        assert b in arrivals + [a];
      } else {
        assert a in arrivals + [a];
      }
    }
  }

  /** The map holds the error of every repository that failed, and no other. */
  ghost predicate ErrorsAre(m: map<string, string>, arrivals: seq<Arrival>) {
    && (forall repo | repo in m :: Arrival(repo, Failed(m[repo])) in arrivals)
    && (forall a | a in arrivals && a.answer.Failed? :: a.repo in m && m[a.repo] == a.answer.error)
  }

  lemma ErrorsGrow(m: map<string, string>, arrivals: seq<Arrival>, a: Arrival)
    requires ErrorsAre(m, arrivals) && forall b | b in arrivals :: b.repo != a.repo
    ensures ErrorsAre(if a.answer.Failed? then m[a.repo := a.answer.error] else m, arrivals + [a])
  {
    assert (arrivals + [a])[|arrivals|] == a;
  }

  lemma RepoIsNew(arrivals: seq<Arrival>, i: nat)
    requires DistinctRepos(arrivals) && i < |arrivals|
    ensures forall b | b in arrivals[..i] :: b.repo != arrivals[i].repo
  {}

  lemma MergeGrows(arrivals: seq<Arrival>, a: Arrival)
    ensures Merge(arrivals + [a]) == Merge(arrivals) + HitsOf(a)
  {
    assert (arrivals + [a])[..|arrivals|] == arrivals;
  }

  /** What has been taken of the answers heard. */
  ghost predicate Collected(hits: seq<Hit>, perRepo: map<string, nat>, errors: map<string, string>, heard: seq<Arrival>) {
    hits == Merge(heard) && CountsAre(perRepo, heard) && ErrorsAre(errors, heard)
  }

  lemma CollectsOne(hits: seq<Hit>, perRepo: map<string, nat>, errors: map<string, string>, arrivals: seq<Arrival>, i: nat)
    requires i < |arrivals| && DistinctRepos(arrivals) && Collected(hits, perRepo, errors, arrivals[..i])
    ensures var a := arrivals[i];
      match a.answer
      case Failed(e) => Collected(hits, perRepo, errors[a.repo := e], arrivals[..i + 1])
      case Found(results) => Collected(hits + Tag(a.repo, results), perRepo[a.repo := |results|], errors, arrivals[..i + 1])
  {
    var a := arrivals[i];
    assert arrivals[..i + 1] == arrivals[..i] + [a];
    RepoIsNew(arrivals, i);
    MergeGrows(arrivals[..i], a);
    CountsGrow(perRepo, arrivals[..i], a);
    ErrorsGrow(errors, arrivals[..i], a);
  }

  method Collect(arrivals: seq<Arrival>) returns (hits: seq<Hit>, perRepo: map<string, nat>, errors: map<string, string>)
    requires DistinctRepos(arrivals)
    ensures hits == Merge(arrivals) && CountsAre(perRepo, arrivals) && ErrorsAre(errors, arrivals)
  {
    hits, perRepo, errors := [], map[], map[];
    for i := 0 to |arrivals|
      invariant Collected(hits, perRepo, errors, arrivals[..i])
    {
      var a := arrivals[i];
      CollectsOne(hits, perRepo, errors, arrivals, i);
      match a.answer {
        case Failed(e) =>
          errors := errors[a.repo := e];
        case Found(results) =>
          perRepo := perRepo[a.repo := |results|];
          hits := hits + Tag(a.repo, results);
      }
    }
    assert arrivals[..|arrivals|] == arrivals;
  }

  /** Everything Search reports once the results are in. */
  method MergeResults(arrivals: seq<Arrival>, limit: int) returns (r: Response)
    requires DistinctRepos(arrivals)
    ensures r.hits == Cut(StableSort(Merge(arrivals), Before), limit)
    ensures CountsAre(r.perRepo, arrivals) && ErrorsAre(r.errors, arrivals)
    ensures exists rest :: AreTheBest(r.hits, rest, Merge(arrivals), limit)
  {
    ghost var rest := RankingIsTheBest(Merge(arrivals), limit);
    var hits, perRepo, errors := Collect(arrivals);
    var ranked := RankAndTrim(hits, limit);
    r := Response(ranked, perRepo, errors);
  }

  // ---- independence of the order of arrival ----

  lemma NoTiesElsewhere(hits: seq<Hit>, v: Hit)
    requires forall k | 0 <= k < |hits| :: hits[k].repo != v.repo
    ensures Ties(hits, v, Before) == []
  {
    forall x | x in hits ensures !Tied(x, v, Before) {
      if Tied(x, v, Before) { TiesShareRepo(x, v); }
    }
    NoTies(hits, v, Before);
  }

  /** Hits that tie with v all come from the one repository v comes from. */
  lemma {:induction false} TiesComeFromOneRepo(arrivals: seq<Arrival>, v: Hit, k: int)
    requires DistinctRepos(arrivals)
    requires 0 <= k < |arrivals| ==> arrivals[k].repo == v.repo
    requires !(0 <= k < |arrivals|) ==> forall j | 0 <= j < |arrivals| :: arrivals[j].repo != v.repo
    ensures Ties(Merge(arrivals), v, Before)
      == if 0 <= k < |arrivals| then Ties(HitsOf(arrivals[k]), v, Before) else []
  {
    if arrivals != [] {
      var init := arrivals[..|arrivals| - 1];
      var last := arrivals[|arrivals| - 1];
      TiesConcat(Merge(init), HitsOf(last), v, Before);
      if k == |arrivals| - 1 {
        TiesComeFromOneRepo(init, v, -1);
      } else {
        TiesComeFromOneRepo(init, v, k);
        assert last.repo != v.repo;
        NoTiesElsewhere(HitsOf(last), v);
      }
    }
  }

  /** Worker j finished order[i]-th: the arrivals a fan-out with this completion order produces. */
  function Arrive(repos: seq<string>, answers: seq<Answer>, order: seq<nat>): seq<Arrival>
    requires |answers| == |repos| && forall i | 0 <= i < |order| :: order[i] < |repos|
  {
    seq(|order|, i requires 0 <= i < |order| => Arrival(repos[order[i]], answers[order[i]]))
  }

  /** A completion order as the fan-out delivers it: every index exactly once. */
  ghost predicate IsOrder(order: seq<nat>, n: nat) {
    && |order| == n
    && (forall i | 0 <= i < n :: order[i] < n)
    && (forall j: nat | j < n :: j in order)
    && (forall i, j | 0 <= i < j < n :: order[i] != order[j])
  }

  lemma OrderKeepsReposDistinct(repos: seq<string>, answers: seq<Answer>, order: seq<nat>)
    requires |answers| == |repos| && Distinct(repos) && IsOrder(order, |repos|)
    ensures DistinctRepos(Arrive(repos, answers, order))
  {
    var arrivals := Arrive(repos, answers, order);
    forall i, j | 0 <= i < j < |arrivals| ensures arrivals[i].repo != arrivals[j].repo {
      assert order[i] != order[j];
    }
  }

  /** The place of a repository, or -1. */
  function PlaceOf(repos: seq<string>, repo: string): (j: int)
    ensures -1 <= j < |repos|
    ensures j >= 0 ==> repos[j] == repo
    ensures j < 0 ==> repo !in repos
  {
    if repos == [] then -1
    else if repos[|repos| - 1] == repo then |repos| - 1
    else PlaceOf(repos[..|repos| - 1], repo)
  }

  /** In any completion order the hits that tie with v are those of v's repository. */
  lemma TiesIgnoreOrder(repos: seq<string>, answers: seq<Answer>, order: seq<nat>, v: Hit, j: int)
    requires |answers| == |repos| && Distinct(repos) && IsOrder(order, |repos|) && j == PlaceOf(repos, v.repo)
    ensures Ties(Merge(Arrive(repos, answers, order)), v, Before)
      == if j >= 0 then Ties(HitsOf(Arrival(repos[j], answers[j])), v, Before) else []
  {
    var arrivals := Arrive(repos, answers, order);
    OrderKeepsReposDistinct(repos, answers, order);
    if j >= 0 {
      var n: nat := j;
      assert n in order;
      var i :| 0 <= i < |order| && order[i] == n;
      assert arrivals[i] == Arrival(repos[j], answers[j]);
      TiesComeFromOneRepo(arrivals, v, i);
    } else {
      forall i | 0 <= i < |arrivals| ensures arrivals[i].repo != v.repo {
        assert arrivals[i].repo in repos;
      }
      TiesComeFromOneRepo(arrivals, v, -1);
    }
  }

  lemma ArriveCoversAll(repos: seq<string>, answers: seq<Answer>, order: seq<nat>)
    requires |answers| == |repos| && IsOrder(order, |repos|)
    ensures forall a :: a in Arrive(repos, answers, order) <==> (exists j :: 0 <= j < |repos| && a == Arrival(repos[j], answers[j]))
  {
    var arrivals := Arrive(repos, answers, order);
    forall j: nat | j < |repos| ensures Arrival(repos[j], answers[j]) in arrivals {
      assert j in order;
      var i :| 0 <= i < |order| && order[i] == j;
      assert arrivals[i] == Arrival(repos[j], answers[j]);
    }
  }

  /** The final list of hits does not depend on which repository answered first: any two
      completion orders of the same answers give the same ranked and cut list, element for
      element, ties included. */
  lemma SearchIgnoresCompletionOrder(repos: seq<string>, answers: seq<Answer>, p: seq<nat>, q: seq<nat>, limit: int)
    requires |answers| == |repos| && Distinct(repos) && IsOrder(p, |repos|) && IsOrder(q, |repos|)
    ensures Cut(StableSort(Merge(Arrive(repos, answers, p)), Before), limit)
      == Cut(StableSort(Merge(Arrive(repos, answers, q)), Before), limit)
    ensures forall a :: a in Arrive(repos, answers, p) <==> a in Arrive(repos, answers, q)
  {
    var x := Arrive(repos, answers, p);
    var y := Arrive(repos, answers, q);
    BeforeIsAnOrder();
    forall v ensures Ties(Merge(x), v, Before) == Ties(Merge(y), v, Before) {
      TiesIgnoreOrder(repos, answers, p, v, PlaceOf(repos, v.repo));
      TiesIgnoreOrder(repos, answers, q, v, PlaceOf(repos, v.repo));
    }
    SameTiesSameSort(Merge(x), Merge(y), Before);
    ArriveCoversAll(repos, answers, p);
    ArriveCoversAll(repos, answers, q);
  }

  lemma ScheduleGivesOrder(states: seq<FanOut.State>, turns: seq<FanOut.Turn>, concurrency: nat, n: nat)
    requires FanOut.IsSchedule(states, turns, FanOut.WorkerAcquires, concurrency, n) && states[|turns|].caller.Gone?
    ensures IsOrder(states[|turns|].results, n)
  {
    FanOut.FanOutIsBoundedAndComplete(states, turns, FanOut.WorkerAcquires, concurrency, n);
    FanOut.ScheduleKeeps(states, turns, FanOut.WorkerAcquires, concurrency, n, |turns|);
  }

  /** Put together with the fan-out: any two schedules of the workers, once both calls have
      returned, report the same hits in the same order. */
  lemma SearchIsDeterministic(repos: seq<string>, answers: seq<Answer>, limit: int, concurrency: nat,
                              xs: seq<FanOut.State>, xt: seq<FanOut.Turn>, ys: seq<FanOut.State>, yt: seq<FanOut.Turn>)
    requires |answers| == |repos| && Distinct(repos)
    requires FanOut.IsSchedule(xs, xt, FanOut.WorkerAcquires, concurrency, |repos|) && xs[|xt|].caller.Gone?
    requires FanOut.IsSchedule(ys, yt, FanOut.WorkerAcquires, concurrency, |repos|) && ys[|yt|].caller.Gone?
    ensures IsOrder(xs[|xt|].results, |repos|) && IsOrder(ys[|yt|].results, |repos|)
    ensures Cut(StableSort(Merge(Arrive(repos, answers, xs[|xt|].results)), Before), limit)
      == Cut(StableSort(Merge(Arrive(repos, answers, ys[|yt|].results)), Before), limit)
  {
    ScheduleGivesOrder(xs, xt, concurrency, |repos|);
    ScheduleGivesOrder(ys, yt, concurrency, |repos|);
    SearchIgnoresCompletionOrder(repos, answers, xs[|xt|].results, ys[|yt|].results, limit);
  }

  /** Without distinct repositories the order of arrival shows: two answers filed under one
      name tie, and the stable sort keeps them as they came. */
  lemma RepeatedRepoShowsOrder(r: string, a: SearchResult, b: SearchResult)
    requires a != b && a.score == b.score && a.filePath == b.filePath && a.name == b.name
    ensures StableSort([Hit(r, a), Hit(r, b)], Before) != StableSort([Hit(r, b), Hit(r, a)], Before)
  {
    LessIsIrreflexive(a.name);
    assert !Before(Hit(r, a), Hit(r, b)) && !Before(Hit(r, b), Hit(r, a));
    assert [Hit(r, a), Hit(r, b)][1..] == [Hit(r, b)] && [Hit(r, b), Hit(r, a)][1..] == [Hit(r, a)];
    assert StableSort([Hit(r, b)], Before) == [Hit(r, b)];
    assert StableSort([Hit(r, a)], Before) == [Hit(r, a)];
    assert StableSort([Hit(r, a), Hit(r, b)], Before)[0] == Hit(r, a);
    assert StableSort([Hit(r, b), Hit(r, a)], Before)[0] == Hit(r, b);
  }
}
