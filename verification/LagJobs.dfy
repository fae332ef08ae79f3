/**
 * One unit of work per (topic, partition): what a partition goroutine of the consumer-group lag collection looks up
 * and the message it sends. Answers of the Kafka client and of the entity registry are part of the job.
 */
module LagJobs {
  import opened Wrappers
  import Int64

  const NO_OFFSET: int := -1

  /** The partition id is kept as a number rather than in decimal; None stands for the empty id of the zero value. */
  datatype PartitionLag = PartitionLag(
    clientID: string,
    consumerGroup: string,
    topic: string,
    partitionID: Option<int>,
    lag: int)

  const ZERO_RESULT: PartitionLag := PartitionLag("", "", "", None, 0)

  /**
   * `highWater` is the answer of the offset getter (None: it failed). An `Active` job belongs to a member assignment,
   * an `Inactive` one to a topic no member is assigned to.
   */
  datatype Job =
    | Active(group: string, client: string, topic: string, partition: int, offset: int, highWater: Option<int>,
             entityCreated: bool)
    | Inactive(group: string, topic: string, partition: int, offset: int, highWater: Option<int>)

  /** The lookup yields a lag: high-water mark obtained, entity created, committed offset not expired. */
  predicate Succeeds(job: Job) {
    && job.highWater.Some?
    && job.offset != NO_OFFSET
    && (job.Active? ==> job.entityCreated)
  }

  /** The lag message of a successful lookup; an inactive group has no client. */
  function LagOf(job: Job): PartitionLag
    requires Succeeds(job)
  {
    PartitionLag(
      if job.Active? then job.client else "",
      job.group,
      job.topic,
      Some(job.partition),
      Int64.Wrap(job.highWater.value - job.offset))
  }

  /** What an active goroutine finds in its result struct: filled in, or still the zero value. */
  function ActiveResult(job: Job): PartitionLag
    requires job.Active?
  {
    if Succeeds(job) then LagOf(job) else ZERO_RESULT
  }

  /**
   * The messages a job's goroutine puts on a channel. An active goroutine sends when the result's topic equals its own
   * topic; an inactive one when both of its checks pass.
   */
  function Message(job: Job): (m: Option<PartitionLag>) {
    if job.Active? then
      if ActiveResult(job).topic == job.topic then Some(ActiveResult(job)) else None
    else
      if Succeeds(job) then Some(LagOf(job)) else None
  }

  /** The guard of an active goroutine lets a failed lookup through when the topic has the empty name. */
  predicate Phantom(job: Job) {
    job.Active? && job.topic == "" && !Succeeds(job)
  }

  /** Exactly the successful lookups are sent, if and only if the job is not a failed lookup of the empty topic name. */
  lemma SentIffSuccessful(job: Job)
    ensures Succeeds(job) <==> job.highWater.Some? && job.offset != -1 && (job.Inactive? || job.entityCreated)
    ensures Succeeds(job) ==>
              Message(job) == Some(PartitionLag(if job.Active? then job.client else "", job.group, job.topic,
                                                Some(job.partition), Int64.Wrap(job.highWater.value - job.offset)))
    ensures Phantom(job) <==> job.Active? && job.topic == "" && !Succeeds(job)
    ensures (Message(job) == if Succeeds(job) then Some(LagOf(job)) else None) <==> !Phantom(job)
    ensures Phantom(job) ==> Message(job) == Some(ZERO_RESULT)
  {
  }

  /** What an assigned partition's goroutine sends: the lag of its own client, or the zero value for the topic "". */
  lemma ActiveMessage(
    group: string, client: string, topic: string, partition: int, offset: int, highWater: Option<int>, created: bool)
    ensures Message(Active(group, client, topic, partition, offset, highWater, created))
         == if highWater.Some? && offset != -1 && created then
              Some(PartitionLag(client, group, topic, Some(partition), Int64.Wrap(highWater.value - offset)))
            else if topic == "" then Some(PartitionLag("", "", "", None, 0))
            else None
  {
  }

  /** What an unassigned partition's goroutine sends: a lag without a client; no entity is created for it. */
  lemma InactiveMessage(group: string, topic: string, partition: int, offset: int, highWater: Option<int>)
    ensures Message(Inactive(group, topic, partition, offset, highWater))
         == if highWater.Some? && offset != -1 then
              Some(PartitionLag("", group, topic, Some(partition), Int64.Wrap(highWater.value - offset)))
            else None
  {
  }

  /** A phantom exists: a failed high-water lookup of the topic "" still produces a message. */
  lemma PhantomExample()
    ensures var job := Active("g", "c", "", 0, 5, None, true);
            !Succeeds(job) && Message(job) == Some(ZERO_RESULT)
  {
  }

  /** The lookup of an active goroutine, in the order of its checks; `result` starts as the zero value. */
  method CollectClientPartitionOffset(job: Job) returns (result: PartitionLag)
    requires job.Active?
    ensures result == if Succeeds(job) then LagOf(job) else ZERO_RESULT
  {
    result := ZERO_RESULT;
    if job.highWater.None? {
      return;
    }
    var lag := Int64.Wrap(job.highWater.value - job.offset);
    if !job.entityCreated {
      return;
    }
    if job.offset != NO_OFFSET {
      result := PartitionLag(job.client, job.group, job.topic, Some(job.partition), lag);
    }
  }

  /** The goroutine of an unassigned partition: it asks for the high-water mark only if an offset is committed. */
  method CollectInactivePartitionOffset(
    group: string, topic: string, partition: int, offset: int, highWater: Option<int>)
    returns (message: Option<PartitionLag>)
    ensures message == Message(Inactive(group, topic, partition, offset, highWater))
    ensures message.Some? ==> message.value.lag == Int64.Wrap(highWater.value - offset)
  {
    message := None;
    if offset == NO_OFFSET {
      return;
    }
    if highWater.None? {
      return;
    }
    message := Some(PartitionLag("", group, topic, Some(partition), Int64.Wrap(highWater.value - offset)));
  }
}
