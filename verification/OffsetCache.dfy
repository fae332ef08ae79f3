/** The offset cache and the topic-list memo under the lag collection; a mutex makes each call one atomic step. */
module OffsetCache {
  import opened Wrappers

  datatype Kind = Newest | Oldest

  /** What the client answers when asked: a value, and whether the query failed. */
  datatype Answer = Answer(value: int, failed: bool)

  datatype Key = Key(kind: Kind, topic: string, partition: int)

  /** One call, with the answer the client would give at that moment. */
  datatype Call = Call(key: Key, answer: Answer)

  datatype Reply = Reply(value: int, failed: bool, asked: bool)

  // ---------------------------------------------------------------- the memo on flat keys

  function Store(known: map<Key, int>, call: Call): map<Key, int> {
    if call.key in known then known else known[call.key := call.answer.value]
  }

  function ReplyTo(known: map<Key, int>, call: Call): Reply {
    if call.key in known then Reply(known[call.key], false, false)
    else Reply(call.answer.value, call.answer.failed, true)
  }

  function Known(calls: seq<Call>): map<Key, int> {
    if calls == [] then map[] else Store(Known(calls[..|calls| - 1]), calls[|calls| - 1])
  }

  /** The replies to a sequence of calls on a new cache. */
  function Replies(calls: seq<Call>): (replies: seq<Reply>)
    ensures |replies| == |calls|
  {
    if calls == [] then []
    else
      var init := calls[..|calls| - 1];
      Replies(init) + [ReplyTo(Known(init), calls[|calls| - 1])]
  }

  // ---------------------------------------------------------------- the nested maps of the source

  type Cache = map<string, map<int, int>>

  function Keys(kind: Kind, cache: Cache): set<Key> {
    set t, p | t in cache && p in cache[t] :: Key(kind, t, p)
  }

  function Entries(kind: Kind, cache: Cache): map<Key, int> {
    map k | k in Keys(kind, cache) :: cache[k.topic][k.partition]
  }

  lemma EntryAt(kind: Kind, cache: Cache, k: Key)
    ensures k in Entries(kind, cache) <==> k.kind == kind && k.topic in cache && k.partition in cache[k.topic]
    ensures k in Entries(kind, cache) ==> Entries(kind, cache)[k] == cache[k.topic][k.partition]
  {
  }

  lemma NewTopic(kind: Kind, cache: Cache, topic: string)
    requires topic !in cache
    ensures Entries(kind, cache[topic := map[]]) == Entries(kind, cache)
  {
    hide Entries;
    var before, after := Entries(kind, cache), Entries(kind, cache[topic := map[]]);
    forall k ensures (k in after <==> k in before) && (k in before ==> after[k] == before[k]) {
      EntryAt(kind, cache[topic := map[]], k);
      EntryAt(kind, cache, k);
    }
  }

  lemma NewPartition(kind: Kind, cache: Cache, topic: string, partition: int, value: int)
    requires topic in cache
    ensures Entries(kind, cache[topic := cache[topic][partition := value]])
         == Entries(kind, cache)[Key(kind, topic, partition) := value]
  {
    hide Entries;
    var wider := cache[topic := cache[topic][partition := value]];
    var before, after := Entries(kind, cache)[Key(kind, topic, partition) := value], Entries(kind, wider);
    forall k ensures (k in after <==> k in before) && (k in before ==> after[k] == before[k]) {
      EntryAt(kind, wider, k);
      EntryAt(kind, cache, k);
    }
  }

  /** The lookup under the mutex: a missing inner map is created, a missing entry is filled from the client. */
  method CachedOffset(cache0: Cache, kind: Kind, topic: string, partition: int, answer: Answer)
    returns (cache: Cache, reply: Reply)
    ensures Entries(kind, cache) == Store(Entries(kind, cache0), Call(Key(kind, topic, partition), answer))
    ensures reply == ReplyTo(Entries(kind, cache0), Call(Key(kind, topic, partition), answer))
  {
    cache := cache0;
    var failed, asked := false, false;
    if topic !in cache {
      NewTopic(kind, cache, topic);
      cache := cache[topic := map[]];
    }
    if partition !in cache[topic] {
      NewPartition(kind, cache, topic, partition, answer.value);
      cache := cache[topic := cache[topic][partition := answer.value]];
      failed, asked := answer.failed, true;
    }
    reply := Reply(cache[topic][partition], failed, asked);
  }

  class SaramaTopicOffsetGetter {
    var topicPartitionOffset: Cache
    var topicPartitionEarliestOffset: Cache
    ghost var calls: seq<Call>
    ghost var replies: seq<Reply>

    ghost predicate Valid()
      reads this
    {
      && Entries(Newest, topicPartitionOffset) == OfKind(Newest, Known(calls))
      && Entries(Oldest, topicPartitionEarliestOffset) == OfKind(Oldest, Known(calls))
      && replies == Replies(calls)
    }

    constructor ()
      ensures Valid() && calls == []
    {
      topicPartitionOffset, topicPartitionEarliestOffset := map[], map[];
      calls, replies := [], [];
    }

    method GetFromTopicPartition(topic: string, partition: int, answer: Answer) returns (reply: Reply)
      requires Valid()
      modifies this
      ensures Valid() && calls == old(calls) + [Call(Key(Newest, topic, partition), answer)]
      ensures replies == old(replies) + [reply]
      ensures replies == Replies(calls) && reply == Replies(calls)[|calls| - 1]
    {
      hide Entries, OfKind, Known, Replies, Store, ReplyTo;
      var call := Call(Key(Newest, topic, partition), answer);
      topicPartitionOffset, reply := CachedOffset(topicPartitionOffset, Newest, topic, partition, answer);
      OneMoreCall(calls, call);
      calls, replies := calls + [call], replies + [reply];
    }

    method GetEarliestFromTopicPartition(topic: string, partition: int, answer: Answer) returns (reply: Reply)
      requires Valid()
      modifies this
      ensures Valid() && calls == old(calls) + [Call(Key(Oldest, topic, partition), answer)]
      ensures replies == old(replies) + [reply]
      ensures replies == Replies(calls) && reply == Replies(calls)[|calls| - 1]
    {
      hide Entries, OfKind, Known, Replies, Store, ReplyTo;
      var call := Call(Key(Oldest, topic, partition), answer);
      var cache := topicPartitionEarliestOffset;
      topicPartitionEarliestOffset, reply := CachedOffset(cache, Oldest, topic, partition, answer);
      OneMoreCall(calls, call);
      calls, replies := calls + [call], replies + [reply];
    }
  }

  function OfKind(kind: Kind, known: map<Key, int>): map<Key, int> {
    map k | k in known && k.kind == kind :: known[k]
  }

  lemma OneMoreCall(calls: seq<Call>, call: Call)
    ensures Known(calls + [call]) == Store(Known(calls), call)
    ensures Replies(calls + [call]) == Replies(calls) + [ReplyTo(Known(calls), call)]
    ensures ReplyTo(Known(calls), call) == ReplyTo(OfKind(call.key.kind, Known(calls)), call)
    ensures forall kind :: OfKind(kind, Known(calls + [call]))
                        == if kind == call.key.kind then Store(OfKind(kind, Known(calls)), call)
                          else OfKind(kind, Known(calls))
  {
    assert (calls + [call])[..|calls|] == calls;
  }

  // ---------------------------------------------------------------- what any sequence of calls gets

  /** No earlier call has the same kind, topic and partition. */
  predicate IsFirst(calls: seq<Call>, i: nat)
    requires i < |calls|
  {
    forall j :: 0 <= j < i ==> calls[j].key != calls[i].key
  }

  lemma {:induction false} KnownAreCalled(calls: seq<Call>)
    ensures forall k :: k in Known(calls) ==> exists i :: 0 <= i < |calls| && calls[i].key == k
  {
    if calls != [] {
      var init := calls[..|calls| - 1];
      KnownAreCalled(init);
      forall k | k in Known(init) ensures exists i :: 0 <= i < |calls| && calls[i].key == k {
        var i :| 0 <= i < |init| && init[i].key == k;
        assert calls[i].key == k;
      }
    }
  }

  lemma {:induction false} KnownIsFirstAnswer(calls: seq<Call>, i: nat)
    requires i < |calls| && IsFirst(calls, i)
    ensures calls[i].key in Known(calls) && Known(calls)[calls[i].key] == calls[i].answer.value
  {
    var init := calls[..|calls| - 1];
    if i < |init| {
      assert IsFirst(init, i);
      KnownIsFirstAnswer(init, i);
    } else {
      KnownAreCalled(init);
    }
  }

  lemma {:induction false} ReplyAt(calls: seq<Call>, i: nat)
    requires i < |calls|
    ensures Replies(calls)[i] == ReplyTo(Known(calls[..i]), calls[i])
  {
    if i < |calls| - 1 {
      ReplyAt(calls[..|calls| - 1], i);
      assert calls[..|calls| - 1][..i] == calls[..i];
    }
  }

  /** A first call asks the client and passes the answer on, error included. */
  lemma FirstCallAsks(calls: seq<Call>, i: nat)
    requires i < |calls| && IsFirst(calls, i)
    ensures Replies(calls)[i] == Reply(calls[i].answer.value, calls[i].answer.failed, true)
  {
    ReplyAt(calls, i);
    KnownAreCalled(calls[..i]);
  }

  /** A later call gets the first answer's value without error and without asking, even if the first query failed. */
  lemma LaterCallIsServed(calls: seq<Call>, first: nat, i: nat)
    requires first < i < |calls| && IsFirst(calls, first) && calls[first].key == calls[i].key
    ensures Replies(calls)[i] == Reply(calls[first].answer.value, false, false)
  {
    ReplyAt(calls, i);
    assert IsFirst(calls[..i], first);
    KnownIsFirstAnswer(calls[..i], first);
  }

  lemma {:induction false} FirstOf(calls: seq<Call>, i: nat) returns (first: nat)
    requires i < |calls|
    ensures first <= i && IsFirst(calls, first) && calls[first].key == calls[i].key
    decreases i
  {
    if IsFirst(calls, i) {
      first := i;
    } else {
      var j :| 0 <= j < i && calls[j].key == calls[i].key;
      first := FirstOf(calls, j);
    }
  }

  /** The client is asked exactly at the first call of each (kind, topic, partition). */
  lemma AskedExactlyOnce(calls: seq<Call>, i: nat)
    requires i < |calls|
    ensures Replies(calls)[i].asked <==> IsFirst(calls, i)
  {
    if IsFirst(calls, i) {
      FirstCallAsks(calls, i);
    } else {
      var first := FirstOf(calls, i);
      LaterCallIsServed(calls, first, i);
    }
  }

  /** Later calls repeat the reply of the first query for exactly the keys whose first query succeeded. */
  lemma CacheTransparentIff(calls: seq<Call>, first: nat, i: nat)
    requires first < i < |calls| && IsFirst(calls, first) && calls[first].key == calls[i].key
    ensures var a, b := Replies(calls)[first], Replies(calls)[i];
            (a.value == b.value && a.failed == b.failed) <==> !calls[first].answer.failed
  {
    FirstCallAsks(calls, first);
    LaterCallIsServed(calls, first, i);
  }

  /** When no key is asked for twice, as in one group's newest lookups, every reply is the client's own answer. */
  lemma DistinctCallsAreTransparent(calls: seq<Call>, i: nat)
    requires forall j, k :: 0 <= j < k < |calls| ==> calls[j].key != calls[k].key
    requires i < |calls|
    ensures Replies(calls)[i] == Reply(calls[i].answer.value, calls[i].answer.failed, true)
  {
    FirstCallAsks(calls, i);
  }

  /** A failed query is remembered as a good one: the second call returns the failed value without an error. */
  lemma FailureIsCached()
    ensures var key := Key(Newest, "t", 0);
            Replies([Call(key, Answer(0, true)), Call(key, Answer(42, false))])
                == [Reply(0, true, true), Reply(0, false, false)]
  {
    var key := Key(Newest, "t", 0);
    var calls := [Call(key, Answer(0, true)), Call(key, Answer(42, false))];
    FirstCallAsks(calls, 0);
    LaterCallIsServed(calls, 0, 1);
  }

  function CallsOfKind(kind: Kind, calls: seq<Call>): seq<Call> {
    if calls == [] then []
    else
      var last := calls[|calls| - 1];
      CallsOfKind(kind, calls[..|calls| - 1]) + if last.key.kind == kind then [last] else []
  }

  function RepliesOfKind(kind: Kind, calls: seq<Call>, replies: seq<Reply>): seq<Reply>
    requires |calls| == |replies|
  {
    if calls == [] then []
    else
      var n := |calls| - 1;
      RepliesOfKind(kind, calls[..n], replies[..n]) + if calls[n].key.kind == kind then [replies[n]] else []
  }

  /** Newest and oldest lookups never affect each other: leaving one kind out does not change the other's replies. */
  lemma {:induction false} KindsIndependent(kind: Kind, calls: seq<Call>)
    ensures RepliesOfKind(kind, calls, Replies(calls)) == Replies(CallsOfKind(kind, calls))
    ensures OfKind(kind, Known(calls)) == Known(CallsOfKind(kind, calls))
  {
    if calls != [] {
      var init, last := calls[..|calls| - 1], calls[|calls| - 1];
      KindsIndependent(kind, init);
      assert calls == init + [last];
      OneMoreCall(init, last);
      assert Replies(calls)[..|init|] == Replies(init);
      if last.key.kind == kind {
        OneMoreCall(CallsOfKind(kind, init), last);
      } else {
        assert CallsOfKind(kind, calls) == CallsOfKind(kind, init);
      }
    }
  }

  // ---------------------------------------------------------------- the topic-list memo

  /** An answer of the cluster admin: a topic map (None: nil) and whether the call failed. */
  datatype ListAnswer = ListAnswer(topics: Option<map<string, int>>, failed: bool)

  datatype ListReply = ListReply(topics: Option<map<string, int>>, failed: bool, asked: bool)

  class CAdminConsumerGroupTopicLister {
    var topicCache: Option<map<string, int>>

    constructor ()
      ensures topicCache == None
    {
      topicCache := None;
    }

    method ListTopics(answer: ListAnswer) returns (reply: ListReply)
      modifies this
      ensures topicCache == Remember(old(topicCache), answer)
      ensures reply == ListReplyTo(old(topicCache), answer)
    {
      if topicCache.Some? {
        return ListReply(topicCache, false, false);
      }
      topicCache := answer.topics;
      if answer.failed {
        return ListReply(None, true, true);
      }
      return ListReply(topicCache, false, true);
    }
  }

  function Remember(cache: Option<map<string, int>>, answer: ListAnswer): Option<map<string, int>> {
    if cache.Some? then cache else answer.topics
  }

  function ListReplyTo(cache: Option<map<string, int>>, answer: ListAnswer): ListReply {
    if cache.Some? then ListReply(cache, false, false)
    else ListReply(if answer.failed then None else answer.topics, answer.failed, true)
  }

  function Remembered(answers: seq<ListAnswer>): Option<map<string, int>> {
    if answers == [] then None else Remember(Remembered(answers[..|answers| - 1]), answers[|answers| - 1])
  }

  /** The memo holds the first map ever received; until then every call asks again. */
  lemma {:induction false} MemoHoldsFirstMap(answers: seq<ListAnswer>)
    ensures Remembered(answers).None? <==> forall i :: 0 <= i < |answers| ==> answers[i].topics.None?
    ensures forall i :: (
              && 0 <= i < |answers| && answers[i].topics.Some? && (forall j :: 0 <= j < i ==> answers[j].topics.None?)
              ==> Remembered(answers) == answers[i].topics)
  {
    if answers != [] {
      MemoHoldsFirstMap(answers[..|answers| - 1]);
    }
  }

  /** Until the first map arrives a call gets the cluster admin's own answer, with no list if that call failed. */
  lemma ListBeforeFirstMap(answers: seq<ListAnswer>, i: nat)
    requires i < |answers| && forall j :: 0 <= j < i ==> answers[j].topics.None?
    ensures ListReplyTo(Remembered(answers[..i]), answers[i])
         == ListReply(if answers[i].failed then None else answers[i].topics, answers[i].failed, true)
  {
    MemoHoldsFirstMap(answers[..i]);
  }

  /** Every call after the first map gets that very map, without an error and without asking. */
  lemma ListAfterFirstMap(answers: seq<ListAnswer>, first: nat, i: nat)
    requires first < i < |answers|
    requires answers[first].topics.Some? && forall j :: 0 <= j < first ==> answers[j].topics.None?
    ensures ListReplyTo(Remembered(answers[..i]), answers[i]) == ListReply(answers[first].topics, false, false)
  {
    MemoHoldsFirstMap(answers[..i]);
    assert answers[..i][first].topics == answers[first].topics;
  }

  /**
   * After a call that failed, the next call asks again if and only if the failure came without a map; in that case its
   * reply is exactly what the cluster admin then answers.
   */
  lemma RetryAfterErrorIff(answers: seq<ListAnswer>, failure: ListAnswer, next: ListAnswer)
    requires Remembered(answers).None? && failure.failed
    ensures ListReplyTo(Remembered(answers), failure).failed
    ensures var reply := ListReplyTo(Remembered(answers + [failure]), next);
            && (reply.asked <==> failure.topics.None?)
            && (reply.asked ==> reply.failed == next.failed && (!next.failed ==> reply.topics == next.topics))
  {
    assert (answers + [failure])[..|answers|] == answers;
  }
}
