/** One trial of a candidate against its base: what a stream of rewards does to it.
    The profile bandit and the per-source bandit run the same trial. */
module Trials {

  const PROMOTION_WINDOW := 20
  const BASE_WINDOW := 5
  const PROMOTION_LIFT: real := 0.05
  const ROLLBACK_THRESHOLD: real := 0.30
  const ROLLBACK_STRIKES := 3

  datatype Trial = Trial(rewards: seq<real>, baseSamples: seq<real>, consecBad: nat)
  datatype Sample = Sample(onCandidate: bool, adjusted: real, weight: real)
  datatype Verdict = Undecided | Promote | Discard | Rollback

  const FRESH := Trial([], [], 0)

  function Sum(xs: seq<real>): real {
    if xs == [] then 0.0 else Sum(xs[..|xs| - 1]) + xs[|xs| - 1]
  }

  function Mean(xs: seq<real>): real {
    if xs == [] then 0.0 else Sum(xs) / (|xs| as real)
  }

  lemma SumOverCount(sum: real, n: nat)
    requires n > 0
    ensures n as real * (sum / n as real) == sum
  {}

  /** What the mean is, one number at a time: the plain average. */
  lemma MeanIsAverage(xs: seq<real>, x: real)
    ensures Mean([]) == 0.0 && Mean([x]) == x
    ensures (|xs| + 1) as real * Mean(xs + [x]) == |xs| as real * Mean(xs) + x
  {
    assert (xs + [x])[..|xs|] == xs;
    SumOverCount(Sum(xs + [x]), |xs| + 1);
    if xs != [] { SumOverCount(Sum(xs), |xs|); }
    assert [x][..0] == [] && Sum([x]) == x;
  }

  method ComputeMean(xs: seq<real>) returns (m: real)
    ensures m == Mean(xs)
  {
    if |xs| == 0 { return 0.0; }
    var sum := 0.0;
    for i := 0 to |xs|
      invariant sum == Sum(xs[..i])
    {
      assert xs[..i + 1][..i] == xs[..i];
      sum := sum + xs[i];
    }
    assert xs[..|xs|] == xs;
    m := sum / (|xs| as real);
  }

  /** The window is full on both sides, so the trial has to be decided. */
  predicate WindowFull(t: Trial) {
    |t.rewards| >= PROMOTION_WINDOW && |t.baseSamples| >= BASE_WINDOW
  }

  function WindowVerdict(t: Trial): Verdict {
    if !WindowFull(t) then Undecided
    else if Mean(t.rewards) > Mean(t.baseSamples) + PROMOTION_LIFT then Promote
    else Discard
  }

  /** What a reward adds to the window it belongs to. */
  function Contribution(s: Sample): real { s.adjusted * s.weight }

  /** The trial after one reward, and what is to be done about it. Strikes count the
      unweighted adjusted reward of candidate samples; the window compares weighted ones. */
  function Observe(t: Trial, s: Sample): (Trial, Verdict) {
    var weighted := Contribution(s);
    if !s.onCandidate then
      var u := t.(baseSamples := t.baseSamples + [weighted]);
      (u, WindowVerdict(u))
    else if s.adjusted < ROLLBACK_THRESHOLD then
      var u := t.(rewards := t.rewards + [weighted], consecBad := t.consecBad + 1);
      if u.consecBad >= ROLLBACK_STRIKES then (u, Rollback) else (u, WindowVerdict(u))
    else
      var u := t.(rewards := t.rewards + [weighted], consecBad := 0);
      (u, WindowVerdict(u))
  }

  // ---- reference reading of a reward stream, oldest first ----

  function CandidateRewards(obs: seq<Sample>): seq<real> {
    if obs == [] then [] else
      var s := obs[|obs| - 1];
      CandidateRewards(obs[..|obs| - 1]) + if s.onCandidate then [s.adjusted] else []
  }

  function Weighted(obs: seq<Sample>, onCandidate: bool): seq<real> {
    if obs == [] then [] else
      var s := obs[|obs| - 1];
      Weighted(obs[..|obs| - 1], onCandidate)
        + if s.onCandidate == onCandidate then [Contribution(s)] else []
  }

  predicate Bad(x: real) { x < ROLLBACK_THRESHOLD }

  /** How many of the last rewards are below the threshold, without a break. */
  function TrailingBad(xs: seq<real>): nat {
    if xs == [] || !Bad(xs[|xs| - 1]) then 0 else 1 + TrailingBad(xs[..|xs| - 1])
  }

  function GoodCount(xs: seq<real>): nat {
    if xs == [] then 0 else GoodCount(xs[..|xs| - 1]) + if Bad(xs[|xs| - 1]) then 0 else 1
  }

  ghost predicate StrikeAt(xs: seq<real>, i: int) {
    0 <= i < |xs| - 2 && Bad(xs[i]) && Bad(xs[i + 1]) && Bad(xs[i + 2])
  }

  /** Three bad rewards in a row somewhere in xs. */
  ghost predicate ThreeStrikes(xs: seq<real>) {
    exists i :: StrikeAt(xs, i)
  }

  /** t is what the stream obs leaves behind while the candidate is still live. */
  ghost predicate Summarises(t: Trial, obs: seq<Sample>) {
    && t.rewards == Weighted(obs, true)
    && t.baseSamples == Weighted(obs, false)
    && |t.rewards| == |CandidateRewards(obs)|
    && t.consecBad == TrailingBad(CandidateRewards(obs)) < ROLLBACK_STRIKES
    && !ThreeStrikes(CandidateRewards(obs))
  }

  lemma {:induction false} TrailingBadMeansSuffix(xs: seq<real>, n: nat)
    ensures TrailingBad(xs) >= n <==>
      n <= |xs| && forall i :: |xs| - n <= i < |xs| ==> Bad(xs[i])
    decreases |xs|
  {
    if xs != [] && n > 0 {
      var init := xs[..|xs| - 1];
      TrailingBadMeansSuffix(init, n - 1);
      if TrailingBad(xs) >= n {
        forall i | |xs| - n <= i < |xs| ensures Bad(xs[i]) {
          if i < |xs| - 1 { assert xs[i] == init[i]; }
        }
      }
      if n <= |xs| && forall i :: |xs| - n <= i < |xs| ==> Bad(xs[i]) {
        forall i | |init| - (n - 1) <= i < |init| ensures Bad(init[i]) { assert init[i] == xs[i]; }
        assert Bad(xs[|xs| - 1]);
      }
    }
  }

  /** One more reward adds a triple of strikes exactly when it completes one at the end. */
  lemma StrikesGrow(xs: seq<real>, x: real)
    ensures ThreeStrikes(xs + [x]) <==> ThreeStrikes(xs) || TrailingBad(xs + [x]) >= 3
  {
    var ys := xs + [x];
    TrailingBadMeansSuffix(ys, 3);
    if ThreeStrikes(xs) {
      var i :| StrikeAt(xs, i);
      assert StrikeAt(ys, i);
    }
    if TrailingBad(ys) >= 3 {
      assert StrikeAt(ys, |ys| - 3);
    }
    if ThreeStrikes(ys) {
      var i :| StrikeAt(ys, i);
      if i == |ys| - 3 {
        assert forall j :: |ys| - 3 <= j < |ys| ==> Bad(ys[j]) by {
          forall j | |ys| - 3 <= j < |ys| ensures Bad(ys[j]) { assert j == i || j == i + 1 || j == i + 2; }
        }
      } else {
        assert StrikeAt(xs, i);
      }
    }
  }

  /** While a trial is live it says exactly what its reward stream says, one more reward
      rolls it back exactly when the stream then holds three bad candidate rewards in a row,
      and any other reward leaves a faithful summary of the longer stream. */
  lemma ObserveIsFaithful(t: Trial, obs: seq<Sample>, s: Sample)
    requires Summarises(t, obs)
    ensures var (u, v) := Observe(t, s);
      && (v == Rollback <==> ThreeStrikes(CandidateRewards(obs + [s])))
      && (v != Rollback ==> Summarises(u, obs + [s]))
      && u.rewards == Weighted(obs + [s], true) && u.baseSamples == Weighted(obs + [s], false)
  {
    var next := obs + [s];
    assert next[..|next| - 1] == obs && next[|next| - 1] == s;
    var before := CandidateRewards(obs);
    if s.onCandidate {
      var after := before + [s.adjusted];
      assert CandidateRewards(next) == after && after[..|after| - 1] == before;
      assert Weighted(next, true) == Weighted(obs, true) + [Contribution(s)];
      assert Weighted(next, false) == Weighted(obs, false) + [];
      StrikesGrow(before, s.adjusted);
      assert TrailingBad(after) == if Bad(s.adjusted) then 1 + TrailingBad(before) else 0;
    } else {
      assert CandidateRewards(next) == before + [] == before;
      assert Weighted(next, true) == Weighted(obs, true) + [];
      assert Weighted(next, false) == Weighted(obs, false) + [Contribution(s)];
    }
  }

  /** Where no three bad rewards stand in a row, at least a third of them (rounded down) is good. */
  lemma {:induction false} AThirdIsGood(xs: seq<real>)
    requires !ThreeStrikes(xs)
    ensures 3 * GoodCount(xs) + TrailingBad(xs) >= |xs| && TrailingBad(xs) <= 2
  {
    if xs != [] {
      var init := xs[..|xs| - 1];
      assert xs == init + [xs[|xs| - 1]];
      StrikesGrow(init, xs[|xs| - 1]);
      AThirdIsGood(init);
    }
  }

  /** The rewards of a trial merit a promotion: both windows full, the mean lifted above the bar, and
      at least a third of the candidate's unweighted rewards good. */
  ghost predicate Earned(all: seq<Sample>) {
    && |CandidateRewards(all)| >= PROMOTION_WINDOW
    && |Weighted(all, false)| >= BASE_WINDOW
    && Mean(Weighted(all, true)) > Mean(Weighted(all, false)) + PROMOTION_LIFT
    && GoodCount(CandidateRewards(all)) >= |CandidateRewards(all)| / 3
  }

  /** A promotion happens only with both windows full, a mean lift above the bar, and at least
      a third of the candidate's unweighted rewards at or above the rollback threshold. */
  lemma PromotionIsEarned(t: Trial, obs: seq<Sample>, s: Sample)
    requires Summarises(t, obs)
    requires Observe(t, s).1 == Promote
    ensures Earned(obs + [s])
  {
    ObserveIsFaithful(t, obs, s);
    AThirdIsGood(CandidateRewards(obs + [s]));
  }
}
