/**
 * The lookups of any number of groups over the one offset cache they share: exactly when what they send does not depend
 * on the order in which the goroutines get hold of the mutex.
 */
module SharedLookups {
  import opened Wrappers
  import opened LagJobs
  import opened LagReport
  import opened LagAggregates
  import LagPipeline
  import opened OffsetCache
  import opened Sums

  type Side = LagPipeline.Side

  /** What the client answers for the newest offset of each (topic, partition). */
  type Answers = (string, int) -> Answer

  function KeyOf(job: Job): Key {
    Key(Newest, job.topic, job.partition)
  }

  function CallOf(job: Job, answers: Answers): Call {
    Call(KeyOf(job), answers(job.topic, job.partition))
  }

  /** An inactive job with an expired offset returns before it calls the cache. */
  predicate Asks(job: Job) {
    job.Active? || job.offset != NO_OFFSET
  }

  /** The calls of the jobs that make one. */
  function CallsOf(order: seq<Job>, answers: Answers): seq<Call> {
    if order == [] then []
    else
      var last := order[|order| - 1];
      CallsOf(order[..|order| - 1], answers) + if Asks(last) then [CallOf(last, answers)] else []
  }

  function WithReply(job: Job, reply: Reply): Job {
    job.(highWater := if reply.failed then None else Some(reply.value))
  }

  /** The jobs with the replies they get when they call the cache in this order. */
  function Served(order: seq<Job>, answers: Answers): seq<Job> {
    if order == [] then []
    else
      var init, last := order[..|order| - 1], order[|order| - 1];
      Served(init, answers)
      + [if Asks(last) then WithReply(last, ReplyTo(Known(CallsOf(init, answers)), CallOf(last, answers))) else last]
  }

  /** A job whose key's query succeeds, or was made before. */
  function Given(job: Job, answers: Answers): Job {
    job.(highWater := Some(answers(job.topic, job.partition).value))
  }

  predicate Fails(job: Job, answers: Answers) {
    answers(job.topic, job.partition).failed
  }

  ghost predicate AsksFirst(order: seq<Job>, job: Job) {
    forall x :: x in order && Asks(x) ==> KeyOf(x) != KeyOf(job)
  }

  ghost predicate Named(order: seq<Job>) {
    forall job :: job in order ==> job.topic != ""
  }

  // ---------------------------------------------------------------- one more call

  function KeysOf(order: seq<Job>): set<Key> {
    set job | job in order && Asks(job) :: KeyOf(job)
  }

  function AskedKey(job: Job): set<Key> {
    if Asks(job) then {KeyOf(job)} else {}
  }

  lemma KeysAppend(init: seq<Job>, job: Job)
    ensures KeysOf(init + [job]) == KeysOf(init) + AskedKey(job)
    ensures AsksFirst(init, job) <==> KeyOf(job) !in KeysOf(init)
  {
  }

  function CalledKeys(calls: seq<Call>): set<Key> {
    set call | call in calls :: call.key
  }

  lemma CalledAppend(calls: seq<Call>, more: seq<Call>)
    ensures CalledKeys(calls + more) == CalledKeys(calls) + CalledKeys(more)
  {
  }

  /** The calls carry the client's answers, and they are for the keys that the jobs ask for. */
  lemma {:induction false} CallsAre(order: seq<Job>, answers: Answers)
    ensures CalledKeys(CallsOf(order, answers)) == KeysOf(order)
    ensures forall call :: call in CallsOf(order, answers)
              ==> call.answer == answers(call.key.topic, call.key.partition)
  {
    if order != [] {
      var init, last := order[..|order| - 1], order[|order| - 1];
      assert order == init + [last];
      CallsAre(init, answers);
      KeysAppend(init, last);
      var more := if Asks(last) then [CallOf(last, answers)] else [];
      CalledAppend(CallsOf(init, answers), more);
      assert CalledKeys(more) == AskedKey(last);
    }
  }

  lemma ReplyOfCache(order: seq<Job>, job: Job, answers: Answers)
    ensures WithReply(job, ReplyTo(Known(CallsOf(order, answers)), CallOf(job, answers)))
         == if AsksFirst(order, job) && Fails(job, answers) then job.(highWater := None) else Given(job, answers)
  {
    var before := CallsOf(order, answers);
    var calls := before + [CallOf(job, answers)];
    assert calls[..|before|] == before;
    ReplyAt(calls, |before|);
    CallsAre(order, answers);
    KeysAppend(order, job);
    if AsksFirst(order, job) {
      forall j | 0 <= j < |before| ensures calls[j].key != KeyOf(job) {
        assert before[j].key in CalledKeys(before);
      }
      FirstCallAsks(calls, |before|);
    } else {
      var call :| call in before && call.key == KeyOf(job);
      var j :| 0 <= j < |before| && before[j] == call;
      var first := FirstOf(calls, j);
      assert calls[first] == before[first];
      LaterCallIsServed(calls, first, |before|);
    }
  }

  /** What a job gets, if its key has been asked for before or not. */
  function OneServed(before: bool, job: Job, answers: Answers): Job {
    if !Asks(job) then job
    else if !before && Fails(job, answers) then job.(highWater := None)
    else Given(job, answers)
  }

  /**
   * Whoever asks first for a key whose query fails gets no offset; everybody else who asks gets the value the client
   * gave.
   */
  lemma OneMoreLookup(order: seq<Job>, job: Job, answers: Answers)
    ensures Served(order + [job], answers)
         == Served(order, answers) + [OneServed(!AsksFirst(order, job), job, answers)]
  {
    assert (order + [job])[..|order|] == order;
    ReplyOfCache(order, job, answers);
    hide Known, CallsOf, ReplyTo;
  }

  /** The same in fields: what the next goroutine to call finds, whoever has called before. */
  lemma NextLookup(order: seq<Job>, job: Job, answers: Answers)
    ensures var answer := answers(job.topic, job.partition);
            Served(order + [job], answers) == Served(order, answers) + [
              if job.Inactive? && job.offset == -1 then job
              else if answer.failed
                   && (forall x :: x in order && (x.Active? || x.offset != -1)
                                   ==> x.topic != job.topic || x.partition != job.partition)
                then job.(highWater := None)
              else job.(highWater := Some(answer.value))]
  {
    OneMoreLookup(order, job, answers);
    hide Served;
  }

  // ---------------------------------------------------------------- what is sent, and what is lost

  function Sends(side: Side): Job -> multiset<PartitionLag> {
    (job: Job) => if side.ClientSide? && !job.Active? then multiset{} else multiset(ToSeq(Message(job)))
  }

  /** What the job sends unless it is the first to ask in vain. */
  function Worth(answers: Answers, side: Side): Job -> multiset<PartitionLag> {
    (job: Job) => Sends(side)(Given(job, answers))
  }

  ghost function SentBy(order: seq<Job>, answers: Answers, side: Side): multiset<PartitionLag> {
    Gather(Served(order, answers), Sends(side))
  }

  /** What is not sent because this job, called after the others, is the first to ask in vain. */
  ghost function LostNow(before: seq<Job>, job: Job, answers: Answers, side: Side): multiset<PartitionLag> {
    if Asks(job) && AsksFirst(before, job) && Fails(job, answers) then Worth(answers, side)(job) else multiset{}
  }

  /** What the first askers of failing keys do not send. */
  ghost function Lost(order: seq<Job>, answers: Answers, side: Side): multiset<PartitionLag> {
    if order == [] then multiset{}
    else
      var init, last := order[..|order| - 1], order[|order| - 1];
      Lost(init, answers, side) + LostNow(init, last, answers, side)
  }

  lemma LostAppend(order: seq<Job>, job: Job, answers: Answers, side: Side)
    ensures Lost(order + [job], answers, side) == Lost(order, answers, side) + LostNow(order, job, answers, side)
  {
    assert (order + [job])[..|order|] == order;
  }

  lemma SentStep(order: seq<Job>, job: Job, answers: Answers, side: Side)
    ensures SentBy(order + [job], answers, side)
         == SentBy(order, answers, side) + Sends(side)(OneServed(!AsksFirst(order, job), job, answers))
  {
    OneMoreLookup(order, job, answers);
    var served := OneServed(!AsksFirst(order, job), job, answers);
    assert Served(order + [job], answers) == Served(order, answers) + [served];
    hide Served, AsksFirst, OneServed, Sends;
    GatherAppend(Served(order, answers), served, Sends(side));
  }

  /** What a job puts on a channel is what its task puts there. */
  lemma SendsTask(job: Job, side: Side)
    ensures Sends(side)(job)
         == if side.ClientSide? then LagPipeline.ClientMessages(TaskOf(job)) else LagPipeline.Sent(TaskOf(job))
  {
    var message := Message(job);
    assert message.Some? ==> multiset([message.value]) == multiset{message.value};
    hide Message;
  }

  lemma SilentSends(job: Job, side: Side)
    requires Message(job).None?
    ensures Sends(side)(job) == multiset{}
  {
    hide Message;
  }

  lemma Silent(job: Job)
    requires job.topic != ""
    ensures Message(job.(highWater := None)).None?
    ensures !Asks(job) ==> Message(job).None? && forall v :: Message(job.(highWater := v)).None?
  {
  }

  lemma ServedWorth(order: seq<Job>, job: Job, answers: Answers, side: Side)
    requires job.topic != ""
    ensures Sends(side)(OneServed(!AsksFirst(order, job), job, answers)) + LostNow(order, job, answers, side)
         == Worth(answers, side)(job)
  {
    Silent(job);
    hide Message, AsksFirst;
    if !Asks(job) {
      SilentSends(job, side);
      SilentSends(Given(job, answers), side);
    } else {
      SilentSends(job.(highWater := None), side);
    }
    hide Sends;
  }

  lemma SentAppend(order: seq<Job>, job: Job, answers: Answers, side: Side)
    requires job.topic != ""
    ensures SentBy(order + [job], answers, side) + LostNow(order, job, answers, side)
         == SentBy(order, answers, side) + Worth(answers, side)(job)
  {
    hide *;
    SentStep(order, job, answers, side);
    ServedWorth(order, job, answers, side);
    Regrouped(SentBy(order, answers, side), Sends(side)(OneServed(!AsksFirst(order, job), job, answers)),
              LostNow(order, job, answers, side));
  }

  lemma Regrouped<T>(a: multiset<T>, b: multiset<T>, c: multiset<T>)
    ensures (a + b) + c == a + (b + c)
  {
  }

  lemma Balanced<T>(sent: multiset<T>, lost: multiset<T>, sent': multiset<T>, now: multiset<T>, worth: multiset<T>)
    requires sent' + now == sent + worth
    ensures sent' + (lost + now) == (sent + lost) + worth
  {
    assert sent' + (lost + now) == (sent' + now) + lost;
  }

  lemma {:induction false} SentPlusLost(order: seq<Job>, answers: Answers, side: Side)
    requires Named(order)
    ensures SentBy(order, answers, side) + Lost(order, answers, side) == Gather(order, Worth(answers, side))
  {
    if order == [] {
      assert Served(order, answers) == [];
    } else {
      var init, last := order[..|order| - 1], order[|order| - 1];
      assert order == init + [last] && last in order;
      hide SentBy, Lost, LostNow, Worth, Gather;
      SentPlusLost(init, answers, side);
      SentAppend(init, last, answers, side);
      LostAppend(init, last, answers, side);
      GatherAppend(init, last, Worth(answers, side));
      Balanced(SentBy(init, answers, side), Lost(init, answers, side), SentBy(order, answers, side),
               LostNow(init, last, answers, side),
               Worth(answers, side)(last));
    }
  }

  /** All jobs that ask for the same failing key would send the same. */
  ghost predicate Interchangeable(order: seq<Job>, answers: Answers, side: Side) {
    forall a, b :: a in order && Asks(a) && b in order && Asks(b) && KeyOf(a) == KeyOf(b) && Fails(a, answers)
      ==> Worth(answers, side)(a) == Worth(answers, side)(b)
  }

  /** What is lost on a failing key when it does not matter who asks first. */
  ghost function LossOn(order: seq<Job>, answers: Answers, side: Side, k: Key): multiset<PartitionLag> {
    if exists job :: job in order && Asks(job) && KeyOf(job) == k && Fails(job, answers) then
      var job :| job in order && Asks(job) && KeyOf(job) == k && Fails(job, answers);
      Worth(answers, side)(job)
    else multiset{}
  }

  ghost function TotalLoss(all: seq<Job>, answers: Answers, side: Side, keys: set<Key>, m: PartitionLag): nat {
    if keys == {} then 0
    else
      var k :| k in keys;
      LossOn(all, answers, side, k)[m] + TotalLoss(all, answers, side, keys - {k}, m)
  }

  lemma {:induction false} TotalLossRemove(
    all: seq<Job>, answers: Answers, side: Side, keys: set<Key>, k: Key, m: PartitionLag)
    requires k in keys
    ensures TotalLoss(all, answers, side, keys, m)
         == LossOn(all, answers, side, k)[m] + TotalLoss(all, answers, side, keys - {k}, m)
  {
    var c :| c in keys
        && TotalLoss(all, answers, side, keys, m)
            == LossOn(all, answers, side, c)[m] + TotalLoss(all, answers, side, keys - {c}, m);
    if c != k {
      TotalLossRemove(all, answers, side, keys - {c}, k, m);
      TotalLossRemove(all, answers, side, keys - {k}, c, m);
      assert keys - {c} - {k} == keys - {k} - {c};
    }
  }

  lemma LossIs(all: seq<Job>, answers: Answers, side: Side, job: Job)
    requires Interchangeable(all, answers, side) && job in all && Asks(job)
    ensures LossOn(all, answers, side, KeyOf(job))
         == if Fails(job, answers) then Worth(answers, side)(job) else multiset{}
  {
  }

  ghost predicate Among(order: seq<Job>, all: seq<Job>) {
    forall job :: job in order ==> job in all
  }

  lemma AmongInit(order: seq<Job>, all: seq<Job>)
    requires order != [] && Among(order, all)
    ensures Among(order[..|order| - 1], all) && order[|order| - 1] in all
    ensures order == order[..|order| - 1] + [order[|order| - 1]]
  {
    assert order[|order| - 1] in order;
  }

  lemma {:induction false} LostIsTotal(all: seq<Job>, order: seq<Job>, answers: Answers, side: Side, m: PartitionLag)
    requires Interchangeable(all, answers, side) && Among(order, all)
    ensures Lost(order, answers, side)[m] == TotalLoss(all, answers, side, KeysOf(order), m)
  {
    hide *;
    if order == [] {
      NothingLost(all, answers, side, m);
    } else {
      var init, last := order[..|order| - 1], order[|order| - 1];
      AmongInit(order, all);
      LostIsTotal(all, init, answers, side, m);
      LostStep(all, init, last, answers, side, m);
    }
  }

  lemma LostStep(all: seq<Job>, init: seq<Job>, last: Job, answers: Answers, side: Side, m: PartitionLag)
    requires Interchangeable(all, answers, side) && last in all
    requires Lost(init, answers, side)[m] == TotalLoss(all, answers, side, KeysOf(init), m)
    ensures Lost(init + [last], answers, side)[m] == TotalLoss(all, answers, side, KeysOf(init + [last]), m)
  {
    hide *;
    LostAppend(init, last, answers, side);
    LossNow(all, init, last, answers, side);
    KeysAppend(init, last);
    if AskedKey(last) <= KeysOf(init) {
      assert KeysOf(init) + AskedKey(last) == KeysOf(init);
    } else {
      NewKey(init, last);
      WithoutNew(KeysOf(init), KeyOf(last));
      TotalLossRemove(all, answers, side, KeysOf(init + [last]), KeyOf(last), m);
    }
  }

  lemma NewKey(init: seq<Job>, job: Job)
    requires !(AskedKey(job) <= KeysOf(init))
    ensures AskedKey(job) == {KeyOf(job)} && KeyOf(job) !in KeysOf(init)
  {
  }

  lemma NothingLost(all: seq<Job>, answers: Answers, side: Side, m: PartitionLag)
    ensures Lost([], answers, side)[m] == TotalLoss(all, answers, side, KeysOf([]), m) == 0
  {
    assert KeysOf([]) == {};
  }

  lemma WithoutNew<T>(s: set<T>, x: T)
    requires x !in s
    ensures s + {x} - {x} == s
  {
  }

  lemma LossNow(all: seq<Job>, init: seq<Job>, job: Job, answers: Answers, side: Side)
    requires Interchangeable(all, answers, side) && job in all
    ensures LostNow(init, job, answers, side)
         == if AskedKey(job) <= KeysOf(init) then multiset{} else LossOn(all, answers, side, KeyOf(job))
  {
    if Asks(job) {
      LossIs(all, answers, side, job);
    }
    KeysAppend(init, job);
  }

  lemma SameJobs(a: seq<Job>, b: seq<Job>)
    requires multiset(a) == multiset(b)
    ensures forall job :: job in a <==> job in b
    ensures KeysOf(a) == KeysOf(b)
  {
    forall job ensures job in a <==> job in b {
      assert job in multiset(a) <==> job in multiset(b);
    }
  }

  /** With interchangeable askers, two orders of the same calls send the same messages. */
  lemma OrdersAgree(a: seq<Job>, b: seq<Job>, answers: Answers, side: Side)
    requires multiset(a) == multiset(b) && Named(a) && Interchangeable(a, answers, side)
    ensures SentBy(a, answers, side) == SentBy(b, answers, side)
  {
    SameJobs(a, b);
    SentPlusLost(a, answers, side);
    SentPlusLost(b, answers, side);
    GatherPermutation(a, b, Worth(answers, side));
    forall m ensures Lost(a, answers, side)[m] == Lost(b, answers, side)[m] {
      LostIsTotal(a, a, answers, side, m);
      LostIsTotal(a, b, answers, side, m);
    }
    assert Lost(a, answers, side) == Lost(b, answers, side);
    Cancel(SentBy(a, answers, side), SentBy(b, answers, side), Lost(a, answers, side));
  }

  lemma Cancel<T>(a: multiset<T>, b: multiset<T>, c: multiset<T>)
    requires a + c == b + c
    ensures a == b
  {
    assert a == (a + c) - c;
    assert b == (b + c) - c;
  }

  // ---------------------------------------------------------------- two orders that send different messages

  lemma {:induction false} LostTail(
    a: seq<Job>, b: seq<Job>, rest: seq<Job>, answers: Answers, side: Side,
    before: multiset<PartitionLag>, after: multiset<PartitionLag>)
    requires KeysOf(a) == KeysOf(b) && Lost(a, answers, side) + after == Lost(b, answers, side) + before
    ensures Lost(a + rest, answers, side) + after == Lost(b + rest, answers, side) + before
  {
    if rest == [] {
      assert a + rest == a && b + rest == b;
    } else {
      hide *;
      var init, last := rest[..|rest| - 1], rest[|rest| - 1];
      WithLast(a, rest);
      WithLast(b, rest);
      LostTail(a, b, init, answers, side, before, after);
      LostAppend(a + init, last, answers, side);
      LostAppend(b + init, last, answers, side);
      SameLossNow(a, b, init, last, answers, side);
      Shifted(Lost(a + init, answers, side), Lost(b + init, answers, side), LostNow(a + init, last, answers, side),
              before, after);
    }
  }

  lemma WithLast<T>(a: seq<T>, rest: seq<T>)
    requires rest != []
    ensures a + rest == (a + rest[..|rest| - 1]) + [rest[|rest| - 1]]
  {
  }

  lemma Shifted<T>(a: multiset<T>, b: multiset<T>, now: multiset<T>, before: multiset<T>, after: multiset<T>)
    requires a + after == b + before
    ensures (a + now) + after == (b + now) + before
  {
    assert (a + now) + after == (a + after) + now;
    assert (b + now) + before == (b + before) + now;
  }

  lemma SameLossNow(a: seq<Job>, b: seq<Job>, init: seq<Job>, job: Job, answers: Answers, side: Side)
    requires KeysOf(a) == KeysOf(b)
    ensures LostNow(a + init, job, answers, side) == LostNow(b + init, job, answers, side)
  {
    KeysConcat(a, init);
    KeysConcat(b, init);
    KeysAppend(a + init, job);
    KeysAppend(b + init, job);
    hide KeysOf;
  }

  lemma KeysConcat(a: seq<Job>, b: seq<Job>)
    ensures KeysOf(a + b) == KeysOf(a) + KeysOf(b)
  {
  }

  lemma PairLost(a: Job, b: Job, answers: Answers, side: Side)
    requires Asks(a) && Asks(b) && KeyOf(a) == KeyOf(b) && Fails(a, answers)
    ensures Lost([a, b], answers, side) == Worth(answers, side)(a) && KeysOf([a, b]) == {KeyOf(a)}
  {
    assert [a, b][..1] == [a] && [a][..0] == [];
    assert Lost([a], answers, side) == Worth(answers, side)(a) by {
      assert AsksFirst([], a);
    }
    assert a in [a];
    assert !AsksFirst([a], b);
  }

  /** Two askers of a failing key that would send different messages: who comes first decides which one is missing. */
  lemma FirstAskerMatters(a: Job, b: Job, rest: seq<Job>, answers: Answers, side: Side)
    requires Named([a, b] + rest) && Asks(a) && Asks(b) && KeyOf(a) == KeyOf(b)
    requires Fails(a, answers) && Worth(answers, side)(a) != Worth(answers, side)(b)
    ensures SentBy([a, b] + rest, answers, side) != SentBy([b, a] + rest, answers, side)
  {
    var x, y := [a, b] + rest, [b, a] + rest;
    Swapped(a, b, rest);
    SameJobs(x, y);
    assert Named(y) && Fails(b, answers);
    hide *;
    PairLost(a, b, answers, side);
    PairLost(b, a, answers, side);
    LostTail([a, b], [b, a], rest, answers, side, Worth(answers, side)(a), Worth(answers, side)(b));
    SentPlusLost(x, answers, side);
    SentPlusLost(y, answers, side);
    GatherPermutation(x, y, Worth(answers, side));
    if SentBy(x, answers, side) == SentBy(y, answers, side) {
      Decided(SentBy(x, answers, side), Lost(x, answers, side), Lost(y, answers, side), Worth(answers, side)(a),
              Worth(answers, side)(b));
    }
  }

  lemma Swapped<T>(a: T, b: T, rest: seq<T>)
    ensures multiset([a, b] + rest) == multiset([b, a] + rest)
  {
    assert multiset([a, b]) == multiset([b, a]);
  }

  lemma Decided<T>(sent: multiset<T>, x: multiset<T>, y: multiset<T>, a: multiset<T>, b: multiset<T>)
    requires sent + x == sent + y && x + b == y + a
    ensures a == b
  {
    Commuted(sent, x);
    Commuted(sent, y);
    Cancel(x, y, sent);
    Commuted(x, a);
    Commuted(x, b);
    Cancel(a, b, x);
  }

  lemma Commuted<T>(a: multiset<T>, b: multiset<T>)
    ensures a + b == b + a
  {
  }

  ghost predicate OrderIrrelevant(order: seq<Job>, answers: Answers, side: Side) {
    forall other :: multiset(other) == multiset(order) ==> SentBy(other, answers, side) == SentBy(order, answers, side)
  }

  lemma TakeOut(order: seq<Job>, a: Job, b: Job) returns (rest: seq<Job>)
    requires a in order && b in order && a != b
    ensures multiset([a, b] + rest) == multiset(order)
  {
    var i :| 0 <= i < |order| && order[i] == a;
    var others := order[..i] + order[i + 1..];
    WithoutElement(order, i);
    assert b in multiset(order);
    assert b in multiset(others);
    var j :| 0 <= j < |others| && others[j] == b;
    WithoutElement(others, j);
    rest := others[..j] + others[j + 1..];
  }

  /**
   * With the client's answers fixed, what all the goroutines together send on a channel is independent of the order in
   * which they call the cache if and only if, for every key whose query fails, all who ask for it would send the same.
   */
  lemma OrderIrrelevantIff(order: seq<Job>, answers: Answers, side: Side)
    requires Named(order)
    ensures OrderIrrelevant(order, answers, side) <==> Interchangeable(order, answers, side)
  {
    hide SentBy, Worth;
    if Interchangeable(order, answers, side) {
      forall other | multiset(other) == multiset(order)
        ensures SentBy(other, answers, side) == SentBy(order, answers, side)
      {
        OrdersAgree(order, other, answers, side);
      }
    }
    if OrderIrrelevant(order, answers, side) {
      forall a, b | a in order && Asks(a) && b in order && Asks(b) && KeyOf(a) == KeyOf(b) && Fails(a, answers)
        ensures Worth(answers, side)(a) == Worth(answers, side)(b)
      {
        if Worth(answers, side)(a) != Worth(answers, side)(b) {
          var rest := TakeOut(order, a, b);
          assert multiset([b, a] + rest) == multiset([a, b] + rest);
          SameJobs([a, b] + rest, order);
          FirstAskerMatters(a, b, rest, answers, side);
        }
      }
    }
  }

  /** Two groups that read the same partition, whose query fails with the value 9. */
  const RIVAL_G := Active("g", "c", "t", 0, 5, None, true)
  const RIVAL_H := Active("h", "d", "t", 0, 5, None, true)

  function FailingAnswers(): Answers {
    (topic, partition) => Answer(9, true)
  }

  lemma RivalMessages()
    ensures Message(Given(RIVAL_G, FailingAnswers())) == Some(PartitionLag("c", "g", "t", Some(0), 4))
    ensures Message(Given(RIVAL_H, FailingAnswers())) == Some(PartitionLag("d", "h", "t", Some(0), 4))
  {
  }

  lemma RivalsDiffer(side: Side)
    ensures Worth(FailingAnswers(), side)(RIVAL_G) != Worth(FailingAnswers(), side)(RIVAL_H)
  {
    RivalMessages();
    hide Message;
    SendsTask(Given(RIVAL_G, FailingAnswers()), side);
    SendsTask(Given(RIVAL_H, FailingAnswers()), side);
    var g, h := PartitionLag("c", "g", "t", Some(0), 4), PartitionLag("d", "h", "t", Some(0), 4);
    assert "c" != "d" by {
      assert "c"[0] != "d"[0];
    }
    assert Worth(FailingAnswers(), side)(RIVAL_G) == multiset{g};
    assert Worth(FailingAnswers(), side)(RIVAL_H) == multiset{h};
    assert multiset{g}[g] != multiset{h}[g];
  }

  /** The group that asks first gets no offset; the other one reports a lag computed from the failed answer. */
  lemma GroupsCompete(side: Side)
    ensures !OrderIrrelevant([RIVAL_G, RIVAL_H], FailingAnswers(), side)
    ensures Served([RIVAL_G, RIVAL_H], FailingAnswers()) == [RIVAL_G, Given(RIVAL_H, FailingAnswers())]
    ensures Served([RIVAL_H, RIVAL_G], FailingAnswers()) == [RIVAL_H, Given(RIVAL_G, FailingAnswers())]
  {
    TwoServed(RIVAL_G, RIVAL_H, FailingAnswers());
    TwoServed(RIVAL_H, RIVAL_G, FailingAnswers());
    assert RIVAL_G.(highWater := None) == RIVAL_G && RIVAL_H.(highWater := None) == RIVAL_H;
    RivalsNotInterchangeable(side);
    hide *;
    OrderIrrelevantIff([RIVAL_G, RIVAL_H], FailingAnswers(), side);
  }

  lemma RivalsNotInterchangeable(side: Side)
    ensures Named([RIVAL_G, RIVAL_H]) && !Interchangeable([RIVAL_G, RIVAL_H], FailingAnswers(), side)
  {
    RivalsDiffer(side);
    hide Worth;
    assert RIVAL_G in [RIVAL_G, RIVAL_H] && RIVAL_H in [RIVAL_G, RIVAL_H];
    assert KeyOf(RIVAL_G) == KeyOf(RIVAL_H) && Asks(RIVAL_G) && Asks(RIVAL_H);
    assert RIVAL_G.topic == "t" && RIVAL_H.topic == "t" && |"t"| == 1;
  }

  lemma TwoServed(a: Job, b: Job, answers: Answers)
    requires Asks(a) && Asks(b) && KeyOf(a) == KeyOf(b) && Fails(a, answers)
    ensures Served([a, b], answers) == [a.(highWater := None), Given(b, answers)]
  {
    OneMoreLookup([], a, answers);
    OneMoreLookup([a], b, answers);
    assert [] + [a] == [a] && [a] + [b] == [a, b];
    assert AsksFirst([], a) && a in [a];
  }

  // ---------------------------------------------------------------- the reports of the groups

  function JobsOf(jobs: seq<Job>, group: string): seq<Job> {
    if jobs == [] then []
    else
      var last := jobs[|jobs| - 1];
      JobsOf(jobs[..|jobs| - 1], group) + if last.group == group then [last] else []
  }

  /** A group's jobs are those with its name, each as often as it occurs. */
  lemma {:induction false} JobsOfCount(jobs: seq<Job>, group: string, job: Job)
    ensures multiset(JobsOf(jobs, group))[job] == if job.group == group then multiset(jobs)[job] else 0
  {
    if jobs != [] {
      JobsOfCount(jobs[..|jobs| - 1], group, job);
      assert jobs == jobs[..|jobs| - 1] + [jobs[|jobs| - 1]];
    }
  }

  lemma SendsForGroup(job: Job, side: Side, m: PartitionLag)
    requires job.topic != "" && m in Sends(side)(job)
    ensures m.consumerGroup == job.group
  {
  }

  lemma GroupAppend(init: seq<Job>, last: Job, group: string, side: Side)
    ensures Gather(JobsOf(init + [last], group), Sends(side))
         == Gather(JobsOf(init, group), Sends(side)) + if last.group == group then Sends(side)(last) else multiset{}
  {
    assert (init + [last])[..|init|] == init;
    var before := JobsOf(init, group);
    assert JobsOf(init + [last], group) == before + if last.group == group then [last] else [];
    hide Sends, JobsOf, Gather;
    if last.group == group {
      GatherAppend(before, last, Sends(side));
    } else {
      assert before + [] == before;
    }
  }

  /** The jobs of a group send exactly the messages for that group. */
  lemma {:induction false} GroupShare(jobs: seq<Job>, group: string, side: Side, m: PartitionLag)
    requires Named(jobs)
    ensures Gather(JobsOf(jobs, group), Sends(side))[m]
         == if m.consumerGroup == group then Gather(jobs, Sends(side))[m] else 0
  {
    if jobs != [] {
      var init, last := jobs[..|jobs| - 1], jobs[|jobs| - 1];
      assert jobs == init + [last] && last in jobs;
      hide Gather, JobsOf, Sends;
      GroupShare(init, group, side, m);
      GatherAppend(init, last, Sends(side));
      GroupAppend(init, last, group, side);
      if m in Sends(side)(last) {
        SendsForGroup(last, side, m);
      }
    }
  }

  lemma {:induction false} ServedNamed(order: seq<Job>, answers: Answers)
    requires Named(order)
    ensures Named(Served(order, answers))
  {
    if order != [] {
      var init, last := order[..|order| - 1], order[|order| - 1];
      assert order == init + [last] && last in order;
      ServedNamed(init, answers);
      OneMoreLookup(init, last, answers);
      hide Served, AsksFirst;
    }
  }

  lemma {:induction false} LaneSends(jobs: seq<Job>, side: Side)
    ensures Gather(jobs, Sends(side))
         == if side.ClientSide? then Gather(Tasks(jobs), LagPipeline.ClientMessages)
           else Gather(Tasks(jobs), LagPipeline.Sent)
  {
    forall i | 0 <= i < |jobs|
      ensures Sends(side)(jobs[i])
           == if side.ClientSide? then LagPipeline.ClientMessages(Tasks(jobs)[i]) else LagPipeline.Sent(Tasks(jobs)[i])
    {
      SendsTask(jobs[i], side);
    }
    hide Sends;
    if side.ClientSide? {
      GatherPointwise(jobs, Sends(side), Tasks(jobs), LagPipeline.ClientMessages);
    } else {
      GatherPointwise(jobs, Sends(side), Tasks(jobs), LagPipeline.Sent);
    }
  }

  /** What an aggregator of a group's pipeline receives. */
  lemma LaneReceives(jobs: seq<Job>, capacity: nat, steps: seq<LagPipeline.Step>, t: LagPipeline.State, side: Side)
    requires CompletesFrom(capacity, jobs, steps, t)
    ensures multiset(t.On(side).received) == Gather(jobs, Sends(side))
  {
    LagPipeline.CompleteRunDelivers(capacity, Tasks(jobs), steps, t);
    hide CompletesFrom, Sends;
    LaneSends(jobs, side);
  }

  /** Two orders of the lookups of all groups, and two complete runs of the pipeline of one group. */
  lemma LanesAgree(
    a: seq<Job>, b: seq<Job>, answers: Answers, group: string, side: Side,
    capacity1: nat, steps1: seq<LagPipeline.Step>, t1: LagPipeline.State,
    capacity2: nat, steps2: seq<LagPipeline.Step>, t2: LagPipeline.State)
    requires multiset(a) == multiset(b) && Named(a) && Interchangeable(a, answers, side)
    requires CompletesFrom(capacity1, JobsOf(Served(a, answers), group), steps1, t1)
    requires CompletesFrom(capacity2, JobsOf(Served(b, answers), group), steps2, t2)
    ensures multiset(t1.On(side).received) == multiset(t2.On(side).received)
  {
    SameJobs(a, b);
    assert Named(b);
    OrdersAgree(a, b, answers, side);
    ServedNamed(a, answers);
    ServedNamed(b, answers);
    hide CompletesFrom, Served, Interchangeable, Named, Sends;
    var x, y := JobsOf(Served(a, answers), group), JobsOf(Served(b, answers), group);
    LaneReceives(x, capacity1, steps1, t1, side);
    LaneReceives(y, capacity2, steps2, t2, side);
    forall m ensures Gather(x, Sends(side))[m] == Gather(y, Sends(side))[m] {
      GroupShare(Served(a, answers), group, side, m);
      GroupShare(Served(b, answers), group, side, m);
    }
  }

  /**
   * Where all askers of every failing key would send the same on either channel, each group's reports per client, per
   * group and per topic are the same whatever the order of the lookups of all groups, the schedule of the group's
   * goroutines and the capacity of its channels.
   */
  lemma GroupReportsAgree(
    a: seq<Job>, b: seq<Job>, answers: Answers, group: string, byTopic: bool,
    capacity1: nat, steps1: seq<LagPipeline.Step>, t1: LagPipeline.State,
    capacity2: nat, steps2: seq<LagPipeline.Step>, t2: LagPipeline.State)
    requires multiset(a) == multiset(b) && Named(a) && forall side :: Interchangeable(a, answers, side)
    requires CompletesFrom(capacity1, JobsOf(Served(a, answers), group), steps1, t1)
    requires CompletesFrom(capacity2, JobsOf(Served(b, answers), group), steps2, t2)
    ensures ClientReport(t1.client.received) == ClientReport(t2.client.received)
    ensures CGroupReport(byTopic, t1.group.received) == CGroupReport(byTopic, t2.group.received)
  {
    hide CompletesFrom, Served, CGroupReport, ClientReport, Interchangeable, Named;
    LanesAgree(a, b, answers, group, LagPipeline.ClientSide, capacity1, steps1, t1, capacity2, steps2, t2);
    LanesAgree(a, b, answers, group, LagPipeline.GroupSide, capacity1, steps1, t1, capacity2, steps2, t2);
    ReportsIgnoreOrder(byTopic, t1.client.received, t2.client.received);
    ReportsIgnoreOrder(byTopic, t1.group.received, t2.group.received);
  }
}
