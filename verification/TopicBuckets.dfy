/** Sharing the topics among several instances: each takes the bucket its argument names. */
module TopicBuckets {
  import opened Wrappers
  import opened Strings
  import opened Decimal
  import Int64

  // ---------------------------------------------------------------- the pattern (\d+)/(\d+)

  datatype Fraction = Fraction(left: string, right: string) {
    predicate Proper() {
      IsNumeral(left) && IsNumeral(right)
    }

    function Text(): string {
      left + "/" + right
    }
  }

  function MatchAtStart(s: string): Option<Fraction> {
    var k := Run(s, IsDigit);
    if 0 < k < |s| && s[k] == '/' && Run(s[k + 1..], IsDigit) > 0
    then Some(Fraction(s[..k], s[k + 1..][..Run(s[k + 1..], IsDigit)]))
    else None
  }

  function FindSubmatch(s: string): Option<Fraction> {
    FindFirst(s, MatchAtStart)
  }

  ghost predicate Starts(s: string, m: Fraction) {
    m.Proper() && HasPrefix(s, m.Text())
  }

  ghost predicate LongestStart(s: string, m: Fraction) {
    Starts(s, m) && forall m' :: Starts(s, m') ==> |m'.left| <= |m.left| && |m'.right| <= |m.right|
  }

  /** No match starts further left and none that starts here is longer. */
  ghost predicate LeftmostLongest(s: string, i: nat, m: Fraction) {
    i <= |s| && LongestStart(s[i..], m) && forall j, m' :: 0 <= j < i ==> !Starts(s[j..], m')
  }

  lemma OccurrenceParts(s: string, m: Fraction)
    requires m.Proper() && HasPrefix(s, m.Text())
    ensures Run(s, IsDigit) == |m.left| < |s| && s[..|m.left|] == m.left && s[|m.left|] == '/'
    ensures HasPrefix(s[|m.left| + 1..], m.right) && 0 < |m.right| <= Run(s[|m.left| + 1..], IsDigit)
  {
    var rest := s[|m.Text()|..];
    assert s == m.Text() + rest;
    Regroup(m.left, "/", m.right, rest);
    PartsOf(s, m, rest);
  }

  lemma PartsOf(s: string, m: Fraction, rest: string)
    requires m.Proper() && s == m.left + ("/" + (m.right + rest))
    ensures Run(s, IsDigit) == |m.left| < |s| && s[..|m.left|] == m.left && s[|m.left|] == '/'
    ensures HasPrefix(s[|m.left| + 1..], m.right) && 0 < |m.right| <= Run(s[|m.left| + 1..], IsDigit)
  {
    hide HasPrefix, Run;
    var t := m.right + rest;
    Separated(s, m.left, '/', t);
    RunEnds(m.left, "/" + t, IsDigit);
    StartsWith(m.right, rest);
    RunCovers(t, m.right, IsDigit);
  }

  lemma MatchIff(s: string)
    ensures forall m :: MatchAtStart(s) == Some(m) <==> LongestStart(s, m)
    ensures MatchAtStart(s).None? <==> forall m :: !Starts(s, m)
  {
    forall m | Starts(s, m)
      ensures MatchAtStart(s).Some? && m.left == MatchAtStart(s).value.left
           && HasPrefix(MatchAtStart(s).value.right, m.right)
    {
      OccurrenceParts(s, m);
      var t := s[|m.left| + 1..];
      assert t[..Run(t, IsDigit)][..|m.right|] == m.right;
    }
    if MatchAtStart(s).Some? {
      MatchOccurs(s);
      assert Starts(s, MatchAtStart(s).value);
    }
  }

  lemma MatchOccurs(s: string)
    requires MatchAtStart(s).Some?
    ensures MatchAtStart(s).value.Proper() && HasPrefix(s, MatchAtStart(s).value.Text())
  {
    var k := Run(s, IsDigit);
    RunInClass(s, IsDigit);
    RunInClass(s[k + 1..], IsDigit);
    TextAround(s, k, Run(s[k + 1..], IsDigit));
  }

  lemma TextAround(s: string, k: nat, l: nat)
    requires k < |s| && s[k] == '/' && l <= |s| - k - 1
    ensures HasPrefix(s, s[..k] + "/" + s[k + 1..][..l])
  {
    var t := s[k + 1..];
    assert s == s[..k] + (['/'] + (t[..l] + t[l..]));
    Regroup(s[..k], "/", t[..l], t[l..]);
    StartsWith(s[..k] + "/" + t[..l], t[l..]);
  }

  /** The search returns a match if and only if it is the leftmost one, at its longest. */
  lemma FindIff(s: string, m: Fraction)
    ensures FindSubmatch(s) == Some(m) <==> exists i :: LeftmostLongest(s, i, m)
  {
    FindFirstIff(s, MatchAtStart, m);
    forall i: nat ensures FirstAt(s, MatchAtStart, i, m) <==> LeftmostLongest(s, i, m) {
      forall j | 0 <= j <= i && j <= |s|
        ensures (MatchAtStart(s[j..]) == Some(m) <==> LongestStart(s[j..], m))
        ensures MatchAtStart(s[j..]).None? <==> forall m' :: !Starts(s[j..], m')
      {
        MatchIff(s[j..]);
      }
    }
  }

  /** The search fails if and only if no part of the text fits the pattern. */
  lemma NoMatchIff(s: string)
    ensures FindSubmatch(s).None? <==> forall i, m: Fraction :: 0 <= i <= |s| ==> !Starts(s[i..], m)
  {
    FindFirstNone(s, MatchAtStart);
    hide Starts, FindFirst;
    forall i | 0 <= i <= |s| ensures MatchAtStart(s[i..]).None? <==> forall m :: !Starts(s[i..], m) {
      MatchIff(s[i..]);
    }
  }

  // ---------------------------------------------------------------- parsing and validation

  datatype Parsed = TopicBucket(bucketNumber: int, numBuckets: int) | InvalidFormat | InvalidBucket

  function ParseTopicBucket(s: string): Parsed {
    var m := FindSubmatch(s);
    if m.None? then InvalidFormat
    else
      FindProper(s);
      var bucketID, numBuckets := Atoi(m.value.left), Atoi(m.value.right);
      if bucketID.None? || numBuckets.None? then InvalidBucket
      else if bucketID.value < 1 || bucketID.value > numBuckets.value then InvalidBucket
      else TopicBucket(bucketID.value, numBuckets.value)
  }

  lemma FindProper(s: string)
    requires FindSubmatch(s).Some?
    ensures FindSubmatch(s).value.Proper()
  {
    FindIff(s, FindSubmatch(s).value);
  }

  /** Exactly what is accepted; the modulus of every accepted argument is positive. */
  lemma AcceptedIff(s: string, b: int, n: int)
    ensures ParseTopicBucket(s) == TopicBucket(b, n) <==>
            (1 <= b <= n <= Int64.MAX_INT64
             && exists i, m :: LeftmostLongest(s, i, m) && Value(m.left) == b && Value(m.right) == n)
  {
    if i, m :| LeftmostLongest(s, i, m) && Value(m.left) == b && Value(m.right) == n {
      FindIff(s, m);
    }
    if ParseTopicBucket(s) == TopicBucket(b, n) {
      FindIff(s, FindSubmatch(s).value);
      FindProper(s);
    }
  }

  /** A text without any fraction in it is a format error; any other text that is not accepted is a bad bucket. */
  lemma InvalidFormatIff(s: string)
    ensures ParseTopicBucket(s) == InvalidFormat <==> forall i, m: Fraction :: 0 <= i <= |s| ==> !Starts(s[i..], m)
  {
    NoMatchIff(s);
  }

  predicate NoDigit(s: string) {
    forall c :: c in s ==> !IsDigit(c)
  }

  lemma MatchText(m: Fraction, after: string)
    requires m.Proper() && (after == "" || !IsDigit(after[0]))
    ensures MatchAtStart(m.Text() + after) == Some(m)
  {
    var t := m.right + after;
    Regroup(m.left, "/", m.right, after);
    Separated(m.Text() + after, m.left, '/', t);
    RunEnds(m.left, "/" + t, IsDigit);
    RunEnds(m.right, after, IsDigit);
  }

  lemma {:induction false} FindFraction(before: string, m: Fraction, after: string)
    requires NoDigit(before) && m.Proper() && (after == "" || !IsDigit(after[0]))
    ensures FindSubmatch(before + (m.Text() + after)) == Some(m)
  {
    if before == "" {
      assert before + (m.Text() + after) == m.Text() + after;
      MatchText(m, after);
    } else {
      var s := before + (m.Text() + after);
      assert s[0] == before[0] && before[0] in before;
      assert s[1..] == before[1..] + (m.Text() + after);
      FindFraction(before[1..], m, after);
    }
  }

  function Argument(b: nat, n: nat): string {
    Numeral(b) + "/" + Numeral(n)
  }

  /** Printing and parsing: what stands around the fraction is ignored, even a minus sign in front of it. */
  lemma ParsePrinted(before: string, b: nat, n: nat, after: string)
    requires NoDigit(before) && (after == "" || !IsDigit(after[0]))
    requires b <= Int64.MAX_INT64 && n <= Int64.MAX_INT64
    ensures ParseTopicBucket(before + (Argument(b, n) + after))
         == if 1 <= b <= n then TopicBucket(b, n) else InvalidBucket
  {
    var m := Fraction(Numeral(b), Numeral(n));
    FindFraction(before, m, after);
    AtoiOfNumeral(b);
    AtoiOfNumeral(n);
  }

  lemma ArgumentRoundTrip(b: nat, n: nat)
    requires 1 <= b <= n <= Int64.MAX_INT64
    ensures ParseTopicBucket(Argument(b, n)) == TopicBucket(b, n)
  {
    ParsePrinted("", b, n, "");
    assert "" + (Argument(b, n) + "") == Argument(b, n);
  }

  lemma SignIsIgnored()
    ensures ParseTopicBucket("-1/3") == TopicBucket(1, 3)
  {
    ParsePrinted("-", 1, 3, "");
    assert "-" + (Argument(1, 3) + "") == "-1/3";
  }

  // ---------------------------------------------------------------- the buckets of a topic list

  /** A 32-bit hash. */
  type Hash = h: string -> nat | forall s :: h(s) < 0x1_0000_0000 witness (s: string) => 0

  function BucketOf(topic: string, numBuckets: nat, hash: Hash): (b: nat)
    requires numBuckets > 0
    ensures 1 <= b <= numBuckets
  {
    var remainder := hash(topic) % numBuckets;
    assert 0 <= remainder < numBuckets;
    remainder + 1
  }

  function InBucket(topics: seq<string>, b: int, numBuckets: nat, hash: Hash): seq<string>
    requires numBuckets > 0
  {
    if topics == [] then []
    else
      var last := topics[|topics| - 1];
      InBucket(topics[..|topics| - 1], b, numBuckets, hash)
      + if BucketOf(last, numBuckets, hash) == b then [last] else []
  }

  method FilterTopicsByBucket(topicList: seq<string>, bucketNumber: int, numBuckets: nat, hash: Hash)
    returns (filteredTopics: seq<string>)
    requires numBuckets > 0
    ensures filteredTopics == InBucket(topicList, bucketNumber, numBuckets, hash)
    ensures forall topic :: topic in filteredTopics <==>
                            topic in topicList && hash(topic) % numBuckets + 1 == bucketNumber
  {
    filteredTopics := [];
    for i := 0 to |topicList|
      invariant filteredTopics == InBucket(topicList[..i], bucketNumber, numBuckets, hash)
      invariant forall topic :: topic in filteredTopics <==>
                                topic in topicList[..i] && hash(topic) % numBuckets + 1 == bucketNumber
    {
      assert topicList[..i + 1][..i] == topicList[..i];
      var hashedTopic := hash(topicList[i]);
      if hashedTopic % numBuckets + 1 == bucketNumber {
        filteredTopics := filteredTopics + [topicList[i]];
      }
    }
    assert topicList[..|topicList|] == topicList;
  }

  /** The positions of the topics of a bucket. */
  ghost function Positions(topics: seq<string>, b: int, n: nat, hash: Hash): seq<nat>
    requires n > 0
  {
    if topics == [] then []
    else
      var last := |topics| - 1;
      Positions(topics[..last], b, n, hash) + if BucketOf(topics[last], n, hash) == b then [last] else []
  }

  lemma {:induction false} PositionsIff(topics: seq<string>, b: int, n: nat, hash: Hash, i: nat)
    requires n > 0
    ensures i in Positions(topics, b, n, hash) <==> i < |topics| && hash(topics[i]) % n + 1 == b
  {
    if topics != [] {
      var last := |topics| - 1;
      PositionsIff(topics[..last], b, n, hash, i);
      assert i < last ==> topics[..last][i] == topics[i];
    }
  }

  lemma {:induction false} PositionsIncrease(topics: seq<string>, b: int, n: nat, hash: Hash)
    requires n > 0
    ensures var at := Positions(topics, b, n, hash); forall k, l :: 0 <= k < l < |at| ==> at[k] < at[l]
  {
    if topics != [] {
      var init := topics[..|topics| - 1];
      PositionsIncrease(init, b, n, hash);
      var at := Positions(init, b, n, hash);
      forall k | 0 <= k < |at| ensures at[k] < |init| {
        PositionsIff(init, b, n, hash, at[k]);
      }
      assert Positions(topics, b, n, hash) == at || Positions(topics, b, n, hash) == at + [|init|];
    }
  }

  /** The filtered list holds the topics at the positions of the bucket, which increase: the order is kept. */
  lemma {:induction false} FilterKeepsOrder(topics: seq<string>, b: int, n: nat, hash: Hash)
    requires n > 0
    ensures var at, kept := Positions(topics, b, n, hash), InBucket(topics, b, n, hash);
            |at| == |kept| && forall k :: 0 <= k < |at| ==> at[k] < |topics| && kept[k] == topics[at[k]]
  {
    if topics != [] {
      FilterKeepsOrder(topics[..|topics| - 1], b, n, hash);
    }
  }

  lemma {:induction false} FilterCount(topics: seq<string>, b: int, n: nat, hash: Hash, topic: string)
    requires n > 0
    ensures multiset(InBucket(topics, b, n, hash))[topic]
         == if BucketOf(topic, n, hash) == b then multiset(topics)[topic] else 0
  {
    if topics != [] {
      var init, last := topics[..|topics| - 1], topics[|topics| - 1];
      assert topics == init + [last];
      FilterCount(init, b, n, hash, topic);
    }
  }

  /** What the instances 1 to k get together. */
  ghost function Shared(topics: seq<string>, k: nat, n: nat, hash: Hash): multiset<string>
    requires n > 0
  {
    if k == 0 then multiset{} else Shared(topics, k - 1, n, hash) + multiset(InBucket(topics, k, n, hash))
  }

  lemma {:induction false} SharedCount(topics: seq<string>, k: nat, n: nat, hash: Hash, topic: string)
    requires n > 0
    ensures Shared(topics, k, n, hash)[topic] == if BucketOf(topic, n, hash) <= k then multiset(topics)[topic] else 0
  {
    if k > 0 {
      SharedCount(topics, k - 1, n, hash, topic);
      FilterCount(topics, k, n, hash, topic);
      MoreCount(topics, k, n, hash, topic);
    }
  }

  lemma MoreCount(topics: seq<string>, k: nat, n: nat, hash: Hash, topic: string)
    requires k > 0 && n > 0
    ensures Shared(topics, k, n, hash)[topic]
         == Shared(topics, k - 1, n, hash)[topic] + multiset(InBucket(topics, k, n, hash))[topic]
  {
  }

  /** Every occurrence of every topic lands in exactly one of the buckets 1 to n. */
  lemma BucketsPartition(topics: seq<string>, n: nat, hash: Hash)
    requires n > 0
    ensures Shared(topics, n, n, hash) == multiset(topics)
  {
    forall topic ensures Shared(topics, n, n, hash)[topic] == multiset(topics)[topic] {
      SharedCount(topics, n, n, hash, topic);
    }
  }

  /** What the instances with the arguments "1/n" to "k/n" get together. */
  ghost function Collected(topics: seq<string>, k: nat, n: nat, hash: Hash): multiset<string>
    requires k <= n <= Int64.MAX_INT64
  {
    if k == 0 then multiset{}
    else
      ArgumentRoundTrip(k, n);
      var bucket := ParseTopicBucket(Argument(k, n));
      Collected(topics, k - 1, n, hash) + multiset(InBucket(topics, bucket.bucketNumber, bucket.numBuckets, hash))
  }

  /** Configured "1/n" to "n/n", the instances share the topics out: none is lost and none is collected twice. */
  lemma InstancesShareTopics(topics: seq<string>, n: nat, hash: Hash)
    requires 1 <= n <= Int64.MAX_INT64
    ensures Collected(topics, n, n, hash) == multiset(topics)
  {
    CollectedIsShared(topics, n, n, hash);
    BucketsPartition(topics, n, hash);
  }

  lemma {:induction false} CollectedIsShared(topics: seq<string>, k: nat, n: nat, hash: Hash)
    requires k <= n <= Int64.MAX_INT64 && n > 0
    ensures Collected(topics, k, n, hash) == Shared(topics, k, n, hash)
  {
    hide InBucket, ParseTopicBucket, Argument;
    if k > 0 {
      CollectedIsShared(topics, k - 1, n, hash);
      ArgumentRoundTrip(k, n);
      assert ParseTopicBucket(Argument(k, n)) == TopicBucket(k, n);
    }
  }
}
