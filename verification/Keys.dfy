/** The string keys behind the model's buckets and slots, and when they keep them apart. */
module Keys {
  import opened HeuristicsStore
  import opened Text

  function BanditKey(b: Bucket): string { b.intent + "|" + b.repo + "|" + b.topic }

  function ResetPrefix(intent: string): string { intent + "|" }

  function CurrentKey(slot: Slot): string {
    match slot
    case IntentSlot(intent) => "heuristics:current:" + intent + ":*"
    case BucketSlot(intent, repo, topic) => "heuristics:bucket:" + (intent + ":" + (repo + ":" + topic)) + ":current"
  }

  /** Candidate keys of buckets whose intent and topic hold no bar collide only for the same
      bucket, whatever the repository is called; without that proviso they do collide. */
  lemma BanditKeysAreUnique(b: Bucket, c: Bucket)
    ensures '|' !in b.intent && '|' !in c.intent && '|' !in b.topic && '|' !in c.topic ==>
      (BanditKey(b) == BanditKey(c) <==> b == c)
    ensures BanditKey(Bucket("x", "r", "s|t")) == BanditKey(Bucket("x", "r|s", "t"))
  {
    if '|' !in b.intent && '|' !in c.intent && '|' !in b.topic && '|' !in c.topic && BanditKey(b) == BanditKey(c) {
      assert BanditKey(b) == b.intent + ['|'] + (b.repo + ['|'] + b.topic);
      assert BanditKey(c) == c.intent + ['|'] + (c.repo + ['|'] + c.topic);
      SplitAtFirst('|', b.intent, b.repo + ['|'] + b.topic, c.intent, c.repo + ['|'] + c.topic);
      SplitAtLast('|', b.repo, b.topic, c.repo, c.topic);
    }
  }

  /** The prefix a reset deletes by picks out exactly the candidates of that intent. */
  lemma ResetPrefixIsExact(b: Bucket, intent: string)
    requires '|' !in b.intent && '|' !in intent
    ensures ResetPrefix(intent) <= BanditKey(b) <==> b.intent == intent
  {
    var key := BanditKey(b);
    assert key == b.intent + ['|'] + (b.repo + ['|'] + b.topic);
    if ResetPrefix(intent) <= key {
      assert key == intent + ['|'] + key[|intent| + 1..];
      SplitAtFirst('|', b.intent, b.repo + ['|'] + b.topic, intent, key[|intent| + 1..]);
    }
    if b.intent == intent {
      assert ResetPrefix(intent) + (b.repo + ['|'] + b.topic) == key;
    }
  }

  lemma SandwichedTextIsUnique(pre: string, a: string, b: string, post: string)
    requires pre + a + post == pre + b + post
    ensures a == b
  {
    var s := pre + a + post;
    var t := pre + b + post;
    assert |a| == |b|;
    assert a == s[|pre|..|pre| + |a|] && b == t[|pre|..|pre| + |b|];
  }

  lemma KindShows(p: Slot)
    ensures |CurrentKey(p)| > 11 && CurrentKey(p)[11] == if p.IntentSlot? then 'c' else 'b'
  {}

  /** Redis keys of live profiles are as distinct as the slots they stand for. */
  lemma CurrentKeysAreUnique(p: Slot, q: Slot)
    requires p.BucketSlot? ==> ':' !in p.intent && ':' !in p.topic
    requires q.BucketSlot? ==> ':' !in q.intent && ':' !in q.topic
    ensures CurrentKey(p) == CurrentKey(q) <==> p == q
  {
    KindShows(p);
    KindShows(q);
    if CurrentKey(p) == CurrentKey(q) {
      if p.IntentSlot? && q.IntentSlot? {
        SandwichedTextIsUnique("heuristics:current:", p.intent, q.intent, ":*");
      } else if p.BucketSlot? && q.BucketSlot? {
        var x := p.repo + ":" + p.topic;
        var y := q.repo + ":" + q.topic;
        SandwichedTextIsUnique("heuristics:bucket:", p.intent + ":" + x, q.intent + ":" + y, ":current");
        SplitAtFirst(':', p.intent, x, q.intent, y);
        SplitAtLast(':', p.repo, p.topic, q.repo, q.topic);
      } else {
        assert false;
      }
    }
  }
}
