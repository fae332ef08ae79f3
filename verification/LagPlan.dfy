/** The goroutines that the main goroutine of one consumer group's collection spawns, and the topics they cover. */
module LagPlan {
  import opened Wrappers
  import opened LagJobs

  const CONSUMER_OFFSETS_TOPIC := "__consumer_offsets"
  const SCHEMA_TOPIC := "_schema"

  /** A committed offset in a reply, with the answers its goroutine will get. */
  datatype Block = Block(partition: int, offset: int, highWater: Option<int>, entityCreated: bool)

  /** One topic of an offset-fetch reply; the blocks are in the order the partition map is iterated. */
  datatype TopicBlocks = TopicBlocks(topic: string, blocks: seq<Block>)

  datatype MemberReply = AssignmentFailed | AssignmentEmpty | ListingFailed | Offsets(topics: seq<TopicBlocks>)

  /** `requested` are the (topic, partition) pairs whose offsets are asked for. */
  datatype Member = Member(client: string, requested: set<(string, int)>, reply: MemberReply)

  /** A topic of the cluster with the reply to the request for all its partitions. */
  datatype TopicDetail = TopicDetail(name: string, reply: seq<TopicBlocks>)

  datatype TopicListing = TopicsFailed | Topics(details: seq<TopicDetail>)

  // ---------------------------------------------------------------- specification

  function ActiveJob(group: string, client: string, topic: string, b: Block): Job {
    Active(group, client, topic, b.partition, b.offset, b.highWater, b.entityCreated)
  }

  function InactiveJob(group: string, topic: string, b: Block): Job {
    Inactive(group, topic, b.partition, b.offset, b.highWater)
  }

  function ActiveBlocks(group: string, client: string, topic: string, blocks: seq<Block>): seq<Job> {
    if blocks == [] then []
    else
      ActiveBlocks(group, client, topic, blocks[..|blocks| - 1])
      + [ActiveJob(group, client, topic, blocks[|blocks| - 1])]
  }

  function InactiveBlocks(group: string, topic: string, blocks: seq<Block>): seq<Job> {
    if blocks == [] then []
    else InactiveBlocks(group, topic, blocks[..|blocks| - 1]) + [InactiveJob(group, topic, blocks[|blocks| - 1])]
  }

  function ActiveTopicJobs(group: string, client: string, topics: seq<TopicBlocks>): seq<Job> {
    if topics == [] then []
    else
      var last := topics[|topics| - 1];
      ActiveTopicJobs(group, client, topics[..|topics| - 1]) + ActiveBlocks(group, client, last.topic, last.blocks)
  }

  function MemberTopics(member: Member): seq<TopicBlocks> {
    if member.reply.Offsets? then member.reply.topics else []
  }

  function ActiveJobs(group: string, members: seq<Member>): seq<Job> {
    if members == [] then []
    else
      var last := members[|members| - 1];
      ActiveJobs(group, members[..|members| - 1]) + ActiveTopicJobs(group, last.client, MemberTopics(last))
  }

  /** Every partition map of the reply counts for the requested topic, whatever topic the reply files it under. */
  function DetailJobs(group: string, topic: string, reply: seq<TopicBlocks>): seq<Job> {
    if reply == [] then []
    else DetailJobs(group, topic, reply[..|reply| - 1]) + InactiveBlocks(group, topic, reply[|reply| - 1].blocks)
  }

  function InactiveJobs(group: string, details: seq<TopicDetail>, exclusions: set<string>): seq<Job> {
    if details == [] then []
    else
      var last := details[|details| - 1];
      InactiveJobs(group, details[..|details| - 1], exclusions)
      + if last.name in exclusions then [] else DetailJobs(group, last.name, last.reply)
  }

  function CoveredTopics(members: seq<Member>): set<string> {
    set m, t | m in members && t in MemberTopics(m) :: t.topic
  }

  function TopicNames(topics: seq<TopicBlocks>): set<string> {
    set t | t in topics :: t.topic
  }

  // ---------------------------------------------------------------- the spawning loops

  method SpawnAssigned(group: string, client: string, topic: string, blocks: seq<Block>, jobs0: seq<Job>)
    returns (jobs: seq<Job>)
    ensures jobs == jobs0 + ActiveBlocks(group, client, topic, blocks)
  {
    jobs := jobs0;
    for j := 0 to |blocks|
      invariant jobs == jobs0 + ActiveBlocks(group, client, topic, blocks[..j])
    {
      assert blocks[..j + 1][..j] == blocks[..j];
      jobs := jobs + [ActiveJob(group, client, topic, blocks[j])];
    }
    assert blocks[..|blocks|] == blocks;
  }

  method SpawnTopics(group: string, client: string, topics: seq<TopicBlocks>, jobs0: seq<Job>, exclusions0: set<string>)
    returns (jobs: seq<Job>, exclusions: set<string>)
    ensures jobs == jobs0 + ActiveTopicJobs(group, client, topics)
    ensures exclusions == exclusions0 + TopicNames(topics)
    ensures forall job :: job in jobs <==> job in jobs0 || FromTopics(group, client, topics, job)
  {
    jobs, exclusions := jobs0, exclusions0;
    forall job ensures job in ActiveTopicJobs(group, client, topics) <==> FromTopics(group, client, topics, job) {
      TopicJobsIff(group, client, topics, job);
    }
    hide FromTopics;
    for i := 0 to |topics|
      invariant jobs == jobs0 + ActiveTopicJobs(group, client, topics[..i])
      invariant exclusions == exclusions0 + TopicNames(topics[..i])
    {
      TopicStep(group, client, topics, i);
      hide ActiveTopicJobs, ActiveBlocks, TopicNames;
      exclusions := exclusions + {topics[i].topic};
      jobs := SpawnAssigned(group, client, topics[i].topic, topics[i].blocks, jobs);
    }
    assert topics[..|topics|] == topics;
  }

  lemma TopicStep(group: string, client: string, topics: seq<TopicBlocks>, i: nat)
    requires i < |topics|
    ensures ActiveTopicJobs(group, client, topics[..i + 1])
         == ActiveTopicJobs(group, client, topics[..i]) + ActiveBlocks(group, client, topics[i].topic, topics[i].blocks)
    ensures TopicNames(topics[..i + 1]) == TopicNames(topics[..i]) + {topics[i].topic}
  {
    assert topics[..i + 1][..i] == topics[..i];
    assert topics[..i + 1] == topics[..i] + [topics[i]];
  }

  method SpawnPartitions(group: string, name: string, blocks: seq<Block>, jobs0: seq<Job>) returns (jobs: seq<Job>)
    ensures jobs == jobs0 + InactiveBlocks(group, name, blocks)
  {
    jobs := jobs0;
    for k := 0 to |blocks|
      invariant jobs == jobs0 + InactiveBlocks(group, name, blocks[..k])
    {
      assert blocks[..k + 1][..k] == blocks[..k];
      jobs := jobs + [InactiveJob(group, name, blocks[k])];
    }
    assert blocks[..|blocks|] == blocks;
  }

  method SpawnDetail(group: string, name: string, reply: seq<TopicBlocks>, jobs0: seq<Job>) returns (jobs: seq<Job>)
    ensures jobs == jobs0 + DetailJobs(group, name, reply)
  {
    jobs := jobs0;
    for j := 0 to |reply|
      invariant jobs == jobs0 + DetailJobs(group, name, reply[..j])
    {
      assert reply[..j + 1][..j] == reply[..j];
      jobs := SpawnPartitions(group, name, reply[j].blocks, jobs);
    }
    assert reply[..|reply|] == reply;
  }

  method SpawnInactive(group: string, details: seq<TopicDetail>, exclusions: set<string>, jobs0: seq<Job>)
    returns (jobs: seq<Job>)
    ensures jobs == jobs0 + InactiveJobs(group, details, exclusions)
    ensures forall job :: job in jobs <==> job in jobs0 || FromDetails(group, details, exclusions, job)
  {
    jobs := jobs0;
    forall job ensures job in InactiveJobs(group, details, exclusions) <==>
                       FromDetails(group, details, exclusions, job) {
      DetailJobsIff(group, details, exclusions, job);
    }
    hide FromDetails;
    for i := 0 to |details|
      invariant jobs == jobs0 + InactiveJobs(group, details[..i], exclusions)
    {
      assert details[..i + 1][..i] == details[..i];
      if details[i].name in exclusions {
        continue;
      }
      jobs := SpawnDetail(group, details[i].name, details[i].reply, jobs);
    }
    assert details[..|details|] == details;
  }

  /** The jobs in spawning order, and the topics that the inactive path leaves out. */
  method SpawnConsumerGroup(group: string, members: seq<Member>, inactiveOffsets: bool, listing: TopicListing)
    returns (jobs: seq<Job>, topicExclusions: set<string>)
    ensures topicExclusions == {CONSUMER_OFFSETS_TOPIC, SCHEMA_TOPIC} + CoveredTopics(members)
    ensures jobs == ActiveJobs(group, members)
                    + if inactiveOffsets && listing.Topics? then InactiveJobs(group, listing.details, topicExclusions)
                      else []
    ensures jobs == Plan(group, members, if inactiveOffsets && listing.Topics? then listing.details else [])
    ensures forall job :: job in jobs <==>
              || FromMembers(group, members, job)
              || (inactiveOffsets && listing.Topics? && FromDetails(group, listing.details, topicExclusions, job))
  {
    jobs, topicExclusions := [], {CONSUMER_OFFSETS_TOPIC, SCHEMA_TOPIC};
    for i := 0 to |members|
      invariant jobs == ActiveJobs(group, members[..i])
      invariant topicExclusions == {CONSUMER_OFFSETS_TOPIC, SCHEMA_TOPIC} + CoveredTopics(members[..i])
    {
      MemberStep(group, members, i);
      hide ActiveJobs, ActiveTopicJobs, CoveredTopics, TopicNames;
      if !members[i].reply.Offsets? {
        continue;
      }
      jobs, topicExclusions := SpawnTopics(group, members[i].client, members[i].reply.topics, jobs, topicExclusions);
    }
    assert members[..|members|] == members;
    ghost var details := if inactiveOffsets && listing.Topics? then listing.details else [];
    if inactiveOffsets && listing.Topics? {
      jobs := SpawnInactive(group, listing.details, topicExclusions, jobs);
    }
    assert jobs == Plan(group, members, details);
    hide Plan, FromMembers, FromDetail, CoveredTopics;
    forall job ensures job in jobs <==> FromMembers(group, members, job)
                                        || FromDetails(group, details, topicExclusions, job) {
      PlannedIff(group, members, details, job);
    }
  }

  /** What one more member adds: nothing if its offsets could not be had. */
  lemma MemberStep(group: string, members: seq<Member>, i: nat)
    requires i < |members|
    ensures var added := if members[i].reply.Offsets? then members[i].reply.topics else [];
            && ActiveJobs(group, members[..i + 1])
                == ActiveJobs(group, members[..i]) + ActiveTopicJobs(group, members[i].client, added)
            && CoveredTopics(members[..i + 1]) == CoveredTopics(members[..i]) + TopicNames(added)
            && (added == [] ==> TopicNames(added) == {} && ActiveTopicJobs(group, members[i].client, added) == [])
  {
    assert members[..i + 1] == members[..i] + [members[i]];
    assert members[..i + 1][..i] == members[..i];
    CoveredTopicsAppend(members[..i], members[i]);
  }

  lemma CoveredTopicsAppend(members: seq<Member>, member: Member)
    ensures CoveredTopics(members + [member]) == CoveredTopics(members) + TopicNames(MemberTopics(member))
  {
  }

  // ---------------------------------------------------------------- no partition is counted twice

  function Key(job: Job): (string, int) {
    (job.topic, job.partition)
  }

  /** No two of the jobs concern the same (topic, partition). */
  ghost predicate DistinctKeys(jobs: seq<Job>) {
    forall i, j :: 0 <= i < j < |jobs| ==> Key(jobs[i]) != Key(jobs[j])
  }

  ghost predicate DistinctPartitions(blocks: seq<Block>) {
    forall i, j :: 0 <= i < j < |blocks| ==> blocks[i].partition != blocks[j].partition
  }

  ghost predicate DistinctNames(details: seq<TopicDetail>) {
    forall i, j :: 0 <= i < j < |details| ==> details[i].name != details[j].name
  }

  ghost predicate DistinctTopics(topics: seq<TopicBlocks>) {
    forall i, j :: 0 <= i < j < |topics| ==> topics[i].topic != topics[j].topic
  }

  /** A reply limited to the requested topic holds at most its one partition map, each partition once. */
  ghost predicate Limited(detail: TopicDetail) {
    |detail.reply| <= 1 && (detail.reply != [] ==> DistinctPartitions(detail.reply[0].blocks))
  }

  /** The keys of a Go map are distinct: each topic once, each partition of a topic once. */
  ghost predicate MapReply(topics: seq<TopicBlocks>) {
    DistinctTopics(topics) && forall t :: t in topics ==> DistinctPartitions(t.blocks)
  }

  ghost predicate Requested(t: TopicBlocks, requested: set<(string, int)>) {
    forall b :: b in t.blocks ==> (t.topic, b.partition) in requested
  }

  /** The reply to a member's request holds nothing that was not asked for. */
  ghost predicate LimitedMember(m: Member) {
    MapReply(MemberTopics(m)) && forall t :: t in MemberTopics(m) ==> Requested(t, m.requested)
  }

  /** No (topic, partition) is assigned to two members. */
  ghost predicate DisjointAssignments(members: seq<Member>) {
    forall i, j :: 0 <= i < j < |members| ==> members[i].requested !! members[j].requested
  }

  lemma DistinctConcat(a: seq<Job>, b: seq<Job>)
    requires DistinctKeys(a) && DistinctKeys(b)
    requires forall x, y :: x in a && y in b ==> Key(x) != Key(y)
    ensures DistinctKeys(a + b)
  {
  }

  lemma {:induction false} ActiveTopicsCovered(group: string, client: string, topics: seq<TopicBlocks>)
    ensures (forall job :: job in ActiveTopicJobs(group, client, topics)
              ==> job.Active? && job.group == group && exists t :: t in topics && t.topic == job.topic)
  {
    if topics != [] {
      var last := topics[|topics| - 1];
      ActiveTopicsCovered(group, client, topics[..|topics| - 1]);
      ActiveBlocksShape(group, client, last.topic, last.blocks);
      assert last in topics;
    }
  }

  lemma {:induction false} ActiveBlocksShape(group: string, client: string, topic: string, blocks: seq<Block>)
    ensures |ActiveBlocks(group, client, topic, blocks)| == |blocks|
    ensures forall i :: 0 <= i < |blocks|
              ==> ActiveBlocks(group, client, topic, blocks)[i] == ActiveJob(group, client, topic, blocks[i])
  {
    if blocks != [] {
      ActiveBlocksShape(group, client, topic, blocks[..|blocks| - 1]);
    }
  }

  lemma {:induction false} InactiveBlocksShape(group: string, topic: string, blocks: seq<Block>)
    ensures |InactiveBlocks(group, topic, blocks)| == |blocks|
    ensures forall i :: 0 <= i < |blocks|
              ==> InactiveBlocks(group, topic, blocks)[i] == InactiveJob(group, topic, blocks[i])
  {
    if blocks != [] {
      InactiveBlocksShape(group, topic, blocks[..|blocks| - 1]);
    }
  }

  /** Every active job's topic is among the covered topics. */
  lemma {:induction false} ActiveJobsCovered(group: string, members: seq<Member>)
    ensures (forall job :: job in ActiveJobs(group, members)
              ==> job.Active? && job.group == group && job.topic in CoveredTopics(members))
  {
    if members != [] {
      var init, last := members[..|members| - 1], members[|members| - 1];
      ActiveJobsCovered(group, init);
      ActiveTopicsCovered(group, last.client, MemberTopics(last));
      CoveredTopicsAppend(init, last);
      assert members == init + [last];
    }
  }

  lemma {:induction false} DetailJobsShape(group: string, topic: string, reply: seq<TopicBlocks>)
    ensures forall job :: job in DetailJobs(group, topic, reply)
              ==> job.Inactive? && job.group == group && job.topic == topic
  {
    if reply != [] {
      DetailJobsShape(group, topic, reply[..|reply| - 1]);
      InactiveBlocksShape(group, topic, reply[|reply| - 1].blocks);
    }
  }

  lemma LimitedDetailDistinct(group: string, detail: TopicDetail)
    requires Limited(detail)
    ensures DistinctKeys(DetailJobs(group, detail.name, detail.reply))
  {
    if detail.reply != [] {
      assert detail.reply[..0] == [];
      InactiveBlocksShape(group, detail.name, detail.reply[0].blocks);
    }
  }

  /** Inactive jobs concern listed topics outside the exclusions, each partition once. */
  lemma {:induction false} InactiveJobsShape(group: string, details: seq<TopicDetail>, exclusions: set<string>)
    ensures (forall job :: job in InactiveJobs(group, details, exclusions)
              ==> && job.Inactive? && job.group == group && job.topic !in exclusions
                  && exists d :: d in details && d.name == job.topic)
    ensures DistinctNames(details) && (forall d :: d in details ==> Limited(d))
         ==> DistinctKeys(InactiveJobs(group, details, exclusions))
  {
    if details != [] {
      var init, last := details[..|details| - 1], details[|details| - 1];
      InactiveJobsShape(group, init, exclusions);
      DetailJobsShape(group, last.name, last.reply);
      assert last in details;
      if DistinctNames(details) && forall d :: d in details ==> Limited(d) {
        LimitedDetailDistinct(group, last);
        if last.name !in exclusions {
          DistinctConcat(InactiveJobs(group, init, exclusions), DetailJobs(group, last.name, last.reply));
        }
      }
    }
  }

  ghost function Plan(group: string, members: seq<Member>, details: seq<TopicDetail>): seq<Job> {
    ActiveJobs(group, members)
    + InactiveJobs(group, details, {CONSUMER_OFFSETS_TOPIC, SCHEMA_TOPIC} + CoveredTopics(members))
  }

  // ---------------------------------------------------------------- every block gets its job

  ghost predicate FromBlocks(group: string, client: string, t: TopicBlocks, job: Job) {
    && job.Active? && job.group == group && job.client == client && job.topic == t.topic
    && exists b :: (
         && b in t.blocks && b.partition == job.partition && b.offset == job.offset
         && b.highWater == job.highWater && b.entityCreated == job.entityCreated)
  }

  ghost predicate FromTopics(group: string, client: string, topics: seq<TopicBlocks>, job: Job) {
    exists t :: t in topics && FromBlocks(group, client, t, job)
  }

  ghost predicate FromMembers(group: string, members: seq<Member>, job: Job) {
    exists m :: m in members && FromTopics(group, m.client, MemberTopics(m), job)
  }

  ghost predicate FromReplyBlocks(group: string, name: string, t: TopicBlocks, job: Job) {
    && job.Inactive? && job.group == group && job.topic == name
    && exists b :: (
         && b in t.blocks && b.partition == job.partition && b.offset == job.offset
         && b.highWater == job.highWater)
  }

  ghost predicate FromReply(group: string, name: string, reply: seq<TopicBlocks>, job: Job) {
    exists t :: t in reply && FromReplyBlocks(group, name, t, job)
  }

  ghost predicate FromDetail(group: string, d: TopicDetail, exclusions: set<string>, job: Job) {
    d.name !in exclusions && FromReply(group, d.name, d.reply, job)
  }

  ghost predicate FromDetails(group: string, details: seq<TopicDetail>, exclusions: set<string>, job: Job) {
    exists d :: d in details && FromDetail(group, d, exclusions, job)
  }

  lemma {:induction false} TopicJobsIff(group: string, client: string, topics: seq<TopicBlocks>, job: Job)
    ensures job in ActiveTopicJobs(group, client, topics) <==> FromTopics(group, client, topics, job)
  {
    if topics != [] {
      var init, last := topics[..|topics| - 1], topics[|topics| - 1];
      TopicJobsIff(group, client, init, job);
      ActiveBlocksShape(group, client, last.topic, last.blocks);
      assert job in ActiveBlocks(group, client, last.topic, last.blocks) <==> FromBlocks(group, client, last, job);
      assert topics == init + [last];
      hide FromBlocks;
    }
  }

  lemma {:induction false} MemberJobsIff(group: string, members: seq<Member>, job: Job)
    ensures job in ActiveJobs(group, members) <==> FromMembers(group, members, job)
  {
    if members != [] {
      var init, last := members[..|members| - 1], members[|members| - 1];
      MemberJobsIff(group, init, job);
      TopicJobsIff(group, last.client, MemberTopics(last), job);
      assert members == init + [last];
      hide FromTopics;
    }
  }

  lemma {:induction false} ReplyJobsIff(group: string, name: string, reply: seq<TopicBlocks>, job: Job)
    ensures job in DetailJobs(group, name, reply) <==> FromReply(group, name, reply, job)
  {
    if reply != [] {
      var init, last := reply[..|reply| - 1], reply[|reply| - 1];
      ReplyJobsIff(group, name, init, job);
      InactiveBlocksShape(group, name, last.blocks);
      assert job in InactiveBlocks(group, name, last.blocks) <==> FromReplyBlocks(group, name, last, job);
      assert reply == init + [last];
      hide FromReplyBlocks;
    }
  }

  lemma InactiveStep(group: string, init: seq<TopicDetail>, last: TopicDetail, exclusions: set<string>, job: Job)
    ensures job in InactiveJobs(group, init + [last], exclusions)
       <==> job in InactiveJobs(group, init, exclusions) || FromDetail(group, last, exclusions, job)
  {
    ReplyJobsIff(group, last.name, last.reply, job);
    assert (init + [last])[..|init|] == init;
    hide FromReply, DetailJobs;
  }

  lemma FromDetailsStep(group: string, init: seq<TopicDetail>, last: TopicDetail, exclusions: set<string>, job: Job)
    ensures FromDetails(group, init + [last], exclusions, job)
       <==> FromDetails(group, init, exclusions, job) || FromDetail(group, last, exclusions, job)
  {
    hide FromDetail;
  }

  lemma {:induction false} DetailJobsIff(group: string, details: seq<TopicDetail>, exclusions: set<string>, job: Job)
    ensures job in InactiveJobs(group, details, exclusions) <==> FromDetails(group, details, exclusions, job)
  {
    if details == [] {
      assert InactiveJobs(group, details, exclusions) == [];
    } else {
      hide *;
      var init, last := details[..|details| - 1], details[|details| - 1];
      assert details == init + [last];
      DetailJobsIff(group, init, exclusions, job);
      InactiveStep(group, init, last, exclusions, job);
      FromDetailsStep(group, init, last, exclusions, job);
    }
  }

  /**
   * What is looked up: every block of every member's reply, for that member's client, and every block of the reply to
   * every listed topic that is neither internal nor in any member's reply. Nothing else.
   */
  lemma PlannedIff(group: string, members: seq<Member>, details: seq<TopicDetail>, job: Job)
    ensures job in Plan(group, members, details) <==>
            || FromMembers(group, members, job)
            || FromDetails(group, details, {CONSUMER_OFFSETS_TOPIC, SCHEMA_TOPIC} + CoveredTopics(members), job)
  {
    MemberJobsIff(group, members, job);
    DetailJobsIff(group, details, {CONSUMER_OFFSETS_TOPIC, SCHEMA_TOPIC} + CoveredTopics(members), job);
  }

  /** The active jobs, field by field: each block of each member's reply, for that member as the client. */
  lemma ActivePlannedIff(group: string, members: seq<Member>, details: seq<TopicDetail>, job: Job)
    requires job.Active?
    ensures job in Plan(group, members, details) <==>
            exists m, t, b :: (
              && m in members && m.reply.Offsets? && t in m.reply.topics && b in t.blocks
              && job.group == group && job.client == m.client && job.topic == t.topic
              && job.partition == b.partition && job.offset == b.offset
              && job.highWater == b.highWater && job.entityCreated == b.entityCreated)
  {
    PlannedIff(group, members, details, job);
  }

  /** The inactive jobs, field by field, under the name that was listed. */
  lemma InactivePlannedIff(group: string, members: seq<Member>, details: seq<TopicDetail>, job: Job)
    requires job.Inactive?
    ensures job in Plan(group, members, details) <==>
            exists d, t, b :: (
              && d in details && d.name != "__consumer_offsets" && d.name != "_schema"
              && (forall m, r :: m in members && m.reply.Offsets? && r in m.reply.topics ==> r.topic != d.name)
              && t in d.reply && b in t.blocks
              && job.group == group && job.topic == d.name
              && job.partition == b.partition && job.offset == b.offset && job.highWater == b.highWater)
  {
    PlannedIff(group, members, details, job);
    forall d: TopicDetail
      ensures d.name in CoveredTopics(members) <==>
              exists m, r :: m in members && m.reply.Offsets? && r in m.reply.topics && r.topic == d.name
    {
    }
  }

  /** The active and the inactive path never share a topic; internal topics are never collected as inactive. */
  lemma PathsDisjoint(group: string, members: seq<Member>, details: seq<TopicDetail>, a: Job, b: Job)
    requires a in Plan(group, members, details) && a.Active?
    requires b in Plan(group, members, details) && b.Inactive?
    ensures a.topic != b.topic
    ensures b.topic != CONSUMER_OFFSETS_TOPIC && b.topic != SCHEMA_TOPIC
  {
    ActiveJobsCovered(group, members);
    InactiveJobsShape(group, details, {CONSUMER_OFFSETS_TOPIC, SCHEMA_TOPIC} + CoveredTopics(members));
  }

  lemma {:induction false} MemberKeys(
    group: string, client: string, topics: seq<TopicBlocks>, requested: set<(string, int)>)
    requires MapReply(topics) && forall t :: t in topics ==> Requested(t, requested)
    ensures DistinctKeys(ActiveTopicJobs(group, client, topics))
    ensures forall job :: job in ActiveTopicJobs(group, client, topics) ==> Key(job) in requested
  {
    if topics != [] {
      var init, last := topics[..|topics| - 1], topics[|topics| - 1];
      MemberKeys(group, client, init, requested);
      TopicKeys(group, client, last, requested);
      ActiveTopicsCovered(group, client, init);
      var before, added := ActiveTopicJobs(group, client, init), ActiveBlocks(group, client, last.topic, last.blocks);
      forall x, y | x in before && y in added ensures Key(x) != Key(y) {
        var t :| t in init && t.topic == x.topic;
      }
      DistinctConcat(before, added);
    }
  }

  lemma TopicKeys(group: string, client: string, t: TopicBlocks, requested: set<(string, int)>)
    requires DistinctPartitions(t.blocks) && Requested(t, requested)
    ensures DistinctKeys(ActiveBlocks(group, client, t.topic, t.blocks))
    ensures forall job :: job in ActiveBlocks(group, client, t.topic, t.blocks)
              ==> job.topic == t.topic && Key(job) in requested
  {
    ActiveBlocksShape(group, client, t.topic, t.blocks);
  }

  function RequestedBy(members: seq<Member>): set<(string, int)> {
    set m, k | m in members && k in m.requested :: k
  }

  /** Disjoint assignments and replies limited to them: no (topic, partition) has two active jobs. */
  lemma {:induction false} AssignedKeysDistinct(group: string, members: seq<Member>)
    requires DisjointAssignments(members) && forall m :: m in members ==> LimitedMember(m)
    ensures DistinctKeys(ActiveJobs(group, members))
    ensures forall job :: job in ActiveJobs(group, members) ==> Key(job) in RequestedBy(members)
  {
    if members != [] {
      var init, last := members[..|members| - 1], members[|members| - 1];
      AssignedKeysDistinct(group, init);
      assert LimitedMember(last);
      MemberKeys(group, last.client, MemberTopics(last), last.requested);
      hide MemberTopics, LimitedMember;
      LastDisjoint(members);
      DistinctConcat(ActiveJobs(group, init), ActiveTopicJobs(group, last.client, MemberTopics(last)));
    }
  }

  lemma LastDisjoint(members: seq<Member>)
    requires members != [] && DisjointAssignments(members)
    ensures RequestedBy(members[..|members| - 1]) !! members[|members| - 1].requested
    ensures RequestedBy(members) == RequestedBy(members[..|members| - 1]) + members[|members| - 1].requested
  {
    var init, last := members[..|members| - 1], members[|members| - 1];
    assert members == init + [last];
    forall m | m in init ensures m.requested !! last.requested {
      var i :| 0 <= i < |init| && init[i] == m;
      assert members[i] == m;
    }
  }

  /** Disjoint assignments and limited replies: no (topic, partition) is looked up, and so counted, twice. */
  lemma NothingCountedTwice(group: string, members: seq<Member>, details: seq<TopicDetail>)
    requires DisjointAssignments(members) && forall m :: m in members ==> LimitedMember(m)
    requires DistinctNames(details) && forall d :: d in details ==> Limited(d)
    ensures DistinctKeys(Plan(group, members, details))
    ensures forall job :: job in Plan(group, members, details) ==> job.group == group
  {
    AssignedKeysDistinct(group, members);
    ActiveJobsCovered(group, members);
    InactiveJobsShape(group, details, {CONSUMER_OFFSETS_TOPIC, SCHEMA_TOPIC} + CoveredTopics(members));
    DistinctConcat(ActiveJobs(group, members),
                   InactiveJobs(group, details, {CONSUMER_OFFSETS_TOPIC, SCHEMA_TOPIC} + CoveredTopics(members)));
  }

  // ---------------------------------------------------------------- exactly when something is counted twice

  /** The partitions that a reply makes the inactive path look up, over all its partition maps. */
  function ReplyPartitions(reply: seq<TopicBlocks>): seq<int> {
    if reply == [] then [] else ReplyPartitions(reply[..|reply| - 1]) + Partitions(reply[|reply| - 1].blocks)
  }

  function Partitions(blocks: seq<Block>): seq<int> {
    seq(|blocks|, i requires 0 <= i < |blocks| => blocks[i].partition)
  }

  ghost predicate NoRepeats<T>(xs: seq<T>) {
    forall i, j :: 0 <= i < j < |xs| ==> xs[i] != xs[j]
  }

  lemma {:induction false} DetailPartitions(group: string, name: string, reply: seq<TopicBlocks>)
    ensures |DetailJobs(group, name, reply)| == |ReplyPartitions(reply)|
    ensures forall i :: 0 <= i < |ReplyPartitions(reply)|
              ==> Key(DetailJobs(group, name, reply)[i]) == (name, ReplyPartitions(reply)[i])
  {
    if reply != [] {
      DetailPartitions(group, name, reply[..|reply| - 1]);
      InactiveBlocksShape(group, name, reply[|reply| - 1].blocks);
    }
  }

  lemma DetailDistinctIff(group: string, name: string, reply: seq<TopicBlocks>)
    ensures DistinctKeys(DetailJobs(group, name, reply)) <==> NoRepeats(ReplyPartitions(reply))
  {
    DetailPartitions(group, name, reply);
    var jobs, partitions := DetailJobs(group, name, reply), ReplyPartitions(reply);
    forall i, j | 0 <= i < j < |jobs| ensures Key(jobs[i]) != Key(jobs[j]) <==> partitions[i] != partitions[j] {
    }
  }

  lemma DistinctParts(a: seq<Job>, b: seq<Job>)
    requires forall x, y :: x in a && y in b ==> Key(x) != Key(y)
    ensures DistinctKeys(a + b) <==> DistinctKeys(a) && DistinctKeys(b)
  {
    var c := a + b;
    if DistinctKeys(c) {
      assert forall i :: 0 <= i < |a| ==> a[i] == c[i];
      assert forall i :: 0 <= i < |b| ==> b[i] == c[i + |a|];
    }
    if DistinctKeys(a) && DistinctKeys(b) {
      DistinctConcat(a, b);
    }
  }

  /** The reply to this topic makes nobody look a partition up twice, or nobody looks at it. */
  ghost predicate DetailOnce(d: TopicDetail, exclusions: set<string>) {
    d.name in exclusions || NoRepeats(ReplyPartitions(d.reply))
  }

  lemma InactiveDistinctStep(group: string, init: seq<TopicDetail>, last: TopicDetail, exclusions: set<string>)
    requires DistinctNames(init + [last])
    ensures DistinctKeys(InactiveJobs(group, init + [last], exclusions))
       <==> DistinctKeys(InactiveJobs(group, init, exclusions)) && DetailOnce(last, exclusions)
  {
    assert (init + [last])[..|init|] == init;
    InactiveJobsShape(group, init, exclusions);
    DetailJobsShape(group, last.name, last.reply);
    var before := InactiveJobs(group, init, exclusions);
    var added := if last.name in exclusions then [] else DetailJobs(group, last.name, last.reply);
    assert InactiveJobs(group, init + [last], exclusions) == before + added;
    DetailDistinctIff(group, last.name, last.reply);
    forall x, y | x in before && y in added ensures Key(x) != Key(y) {
      var d :| d in init && d.name == x.topic;
      var i :| 0 <= i < |init| && init[i] == d;
      assert (init + [last])[i] == d && (init + [last])[|init|] == last;
    }
    hide InactiveJobs, DetailJobs;
    DistinctParts(before, added);
  }

  lemma {:induction false} InactiveDistinctIff(group: string, details: seq<TopicDetail>, exclusions: set<string>)
    requires DistinctNames(details)
    ensures DistinctKeys(InactiveJobs(group, details, exclusions))
         <==> forall d :: d in details ==> DetailOnce(d, exclusions)
  {
    if details == [] {
      assert InactiveJobs(group, details, exclusions) == [];
    } else {
      var init, last := details[..|details| - 1], details[|details| - 1];
      assert details == init + [last];
      InactiveDistinctIff(group, init, exclusions);
      InactiveDistinctStep(group, init, last, exclusions);
      hide *;
    }
  }

  /**
   * The planned keys are distinct if and only if the active ones are and every reply to a topic names no partition
   * twice.
   */
  lemma PlanDistinctIff(group: string, members: seq<Member>, details: seq<TopicDetail>)
    requires DistinctNames(details)
    ensures DistinctKeys(Plan(group, members, details)) <==>
            && DistinctKeys(ActiveJobs(group, members))
            && forall d :: d in details
                 ==> DetailOnce(d, {CONSUMER_OFFSETS_TOPIC, SCHEMA_TOPIC} + CoveredTopics(members))
  {
    var exclusions := {CONSUMER_OFFSETS_TOPIC, SCHEMA_TOPIC} + CoveredTopics(members);
    ActiveJobsCovered(group, members);
    InactiveJobsShape(group, details, exclusions);
    InactiveDistinctIff(group, details, exclusions);
    hide ActiveJobs, InactiveJobs, CoveredTopics;
    DistinctParts(ActiveJobs(group, members), InactiveJobs(group, details, exclusions));
  }

  /** The (topic, partition) pairs in the reply to a member's request. */
  function Replied(m: Member): set<(string, int)> {
    set t, b | t in MemberTopics(m) && b in t.blocks :: (t.topic, b.partition)
  }

  function RepliedTo(members: seq<Member>): set<(string, int)> {
    set m, k | m in members && k in Replied(m) :: k
  }

  ghost predicate DisjointReplies(members: seq<Member>) {
    forall i, j :: 0 <= i < j < |members| ==> Replied(members[i]) !! Replied(members[j])
  }

  function JobKeys(jobs: seq<Job>): set<(string, int)> {
    set job | job in jobs :: Key(job)
  }

  lemma {:induction false} TopicJobKeys(group: string, client: string, topics: seq<TopicBlocks>)
    ensures JobKeys(ActiveTopicJobs(group, client, topics))
         == set t, b | t in topics && b in t.blocks :: (t.topic, b.partition)
  {
    if topics != [] {
      var init, last := topics[..|topics| - 1], topics[|topics| - 1];
      assert topics == init + [last];
      TopicJobKeys(group, client, init);
      BlockKeys(group, client, last);
      KeysOfConcat(ActiveTopicJobs(group, client, init), ActiveBlocks(group, client, last.topic, last.blocks));
    }
  }

  lemma BlockKeys(group: string, client: string, t: TopicBlocks)
    ensures JobKeys(ActiveBlocks(group, client, t.topic, t.blocks)) == set b | b in t.blocks :: (t.topic, b.partition)
  {
    ActiveBlocksShape(group, client, t.topic, t.blocks);
    var jobs := ActiveBlocks(group, client, t.topic, t.blocks);
    forall b | b in t.blocks ensures (t.topic, b.partition) in JobKeys(jobs) {
      var i :| 0 <= i < |t.blocks| && t.blocks[i] == b;
      assert jobs[i] in jobs;
    }
  }

  lemma KeysOfConcat(a: seq<Job>, b: seq<Job>)
    ensures JobKeys(a + b) == JobKeys(a) + JobKeys(b)
  {
  }

  lemma MemberJobKeys(group: string, m: Member)
    ensures JobKeys(ActiveTopicJobs(group, m.client, MemberTopics(m))) == Replied(m)
  {
    TopicJobKeys(group, m.client, MemberTopics(m));
  }

  lemma MapReplyDistinct(group: string, m: Member)
    requires MapReply(MemberTopics(m))
    ensures DistinctKeys(ActiveTopicJobs(group, m.client, MemberTopics(m)))
  {
    MemberKeys(group, m.client, MemberTopics(m), Replied(m));
  }

  lemma DistinctConcatIff(a: seq<Job>, b: seq<Job>)
    ensures DistinctKeys(a + b) <==> DistinctKeys(a) && DistinctKeys(b) && JobKeys(a) !! JobKeys(b)
  {
    if DistinctKeys(a + b) {
      forall x, y | x in a && y in b ensures Key(x) != Key(y) {
        var i :| 0 <= i < |a| && a[i] == x;
        var j :| 0 <= j < |b| && b[j] == y;
        assert (a + b)[i] == x && (a + b)[|a| + j] == y;
      }
    }
    if JobKeys(a) !! JobKeys(b) {
      forall x, y | x in a && y in b ensures Key(x) != Key(y) {
        assert Key(x) in JobKeys(a) && Key(y) in JobKeys(b);
      }
      DistinctParts(a, b);
    }
  }

  lemma LastReplyDisjoint(init: seq<Member>, last: Member)
    ensures DisjointReplies(init + [last]) <==> DisjointReplies(init) && RepliedTo(init) !! Replied(last)
    ensures RepliedTo(init + [last]) == RepliedTo(init) + Replied(last)
  {
    hide Replied;
    var members := init + [last];
    if DisjointReplies(members) {
      assert forall i :: 0 <= i < |init| ==> members[i] == init[i];
      forall m | m in init ensures Replied(m) !! Replied(last) {
        var i :| 0 <= i < |init| && init[i] == m;
        assert members[i] == m && members[|init|] == last;
      }
    }
  }

  /**
   * Replies being maps: no (topic, partition) has two active jobs if and only if no two members' replies name the same
   * one.
   */
  lemma {:induction false} ActiveOnceIff(group: string, members: seq<Member>)
    requires forall m :: m in members ==> MapReply(MemberTopics(m))
    ensures DistinctKeys(ActiveJobs(group, members)) <==> DisjointReplies(members)
    ensures JobKeys(ActiveJobs(group, members)) == RepliedTo(members)
  {
    if members != [] {
      var init, last := members[..|members| - 1], members[|members| - 1];
      assert members == init + [last] && last in members;
      ActiveOnceIff(group, init);
      hide MapReply, MemberTopics, ActiveTopicJobs, DistinctKeys, JobKeys, Replied, RepliedTo, DisjointReplies;
      MemberJobKeys(group, last);
      MapReplyDistinct(group, last);
      LastReplyDisjoint(init, last);
      DistinctConcatIff(ActiveJobs(group, init), ActiveTopicJobs(group, last.client, MemberTopics(last)));
      KeysOfConcat(ActiveJobs(group, init), ActiveTopicJobs(group, last.client, MemberTopics(last)));
    }
  }

  /**
   * Members' replies being maps: nothing is looked up twice if and only if no two members' replies name the same
   * (topic, partition) and, for every listed topic that is not left out, all the partition maps of its reply together
   * name no partition twice.
   */
  lemma CountedOnceIff(group: string, members: seq<Member>, details: seq<TopicDetail>)
    requires DistinctNames(details) && forall m :: m in members ==> MapReply(MemberTopics(m))
    ensures DistinctKeys(Plan(group, members, details)) <==>
            && DisjointReplies(members)
            && forall d :: d in details
                 ==> DetailOnce(d, {CONSUMER_OFFSETS_TOPIC, SCHEMA_TOPIC} + CoveredTopics(members))
  {
    hide *;
    PlanDistinctIff(group, members, details);
    ActiveOnceIff(group, members);
  }

  /** A reply that also files another topic's partitions makes the same partition count twice. */
  lemma UnlimitedReplyCountsTwice()
    ensures var block := Block(0, 5, Some(9), true);
            var detail := TopicDetail("t", [TopicBlocks("t", [block]), TopicBlocks("u", [block])]);
            !DistinctKeys(Plan("g", [], [detail]))
  {
    var block := Block(0, 5, Some(9), true);
    var reply := [TopicBlocks("t", [block]), TopicBlocks("u", [block])];
    var detail := TopicDetail("t", reply);
    assert InactiveBlocks("g", "t", [block]) == [InactiveJob("g", "t", block)];
    assert reply[..1] == [reply[0]] && reply[..1][..0] == [];
    assert DetailJobs("g", "t", reply[..1]) == [InactiveJob("g", "t", block)];
    assert DetailJobs("g", "t", reply) == [InactiveJob("g", "t", block), InactiveJob("g", "t", block)];
    assert [detail][..0] == [];
    assert CoveredTopics([]) == {};
    var exclusions := {CONSUMER_OFFSETS_TOPIC, SCHEMA_TOPIC} + CoveredTopics([]);
    assert |"t"| == 1 && |CONSUMER_OFFSETS_TOPIC| == 18 && |SCHEMA_TOPIC| == 7;
    assert "t" !in exclusions;
    assert InactiveJobs("g", [], exclusions) == [];
    assert [detail][|[detail]| - 1] == detail;
    assert InactiveJobs("g", [detail], exclusions) == [] + DetailJobs("g", "t", reply);
    var plan := Plan("g", [], [detail]);
    assert plan == [InactiveJob("g", "t", block), InactiveJob("g", "t", block)];
    assert Key(plan[0]) == Key(plan[1]);
  }
}
