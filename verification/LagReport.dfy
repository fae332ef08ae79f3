/** What one consumer group's concurrent collection reports, as a function of its jobs alone. */
module LagReport {
  import opened Wrappers
  import opened LagJobs
  import opened LagAggregates
  import opened LagPipeline
  import opened LagTotals
  import opened LagPlan
  import opened Sums
  import Int64

  function TaskOf(job: Job): Task {
    Task(job.Active?, Message(job))
  }

  function Tasks(jobs: seq<Job>): seq<Task> {
    seq(|jobs|, i requires 0 <= i < |jobs| => TaskOf(jobs[i]))
  }

  function ToSeq(m: Option<PartitionLag>): seq<PartitionLag> {
    if m.Some? then [m.value] else []
  }

  /** The lags of the successful lookups, in job order. */
  function SuccessfulLags(jobs: seq<Job>): seq<PartitionLag> {
    if jobs == [] then []
    else (if Succeeds(jobs[0]) then [LagOf(jobs[0])] else []) + SuccessfulLags(jobs[1..])
  }

  function Messages(jobs: seq<Job>): seq<PartitionLag> {
    if jobs == [] then [] else ToSeq(Message(jobs[0])) + Messages(jobs[1..])
  }

  function ActiveOnly(jobs: seq<Job>): seq<Job> {
    if jobs == [] then []
    else (if jobs[0].Active? then [jobs[0]] else []) + ActiveOnly(jobs[1..])
  }

  function InactiveOnly(jobs: seq<Job>): seq<Job> {
    if jobs == [] then []
    else (if jobs[0].Active? then [] else [jobs[0]]) + InactiveOnly(jobs[1..])
  }

  predicate NoPhantom(jobs: seq<Job>) {
    forall job :: job in jobs ==> !Phantom(job)
  }

  lemma GatherCons(task: Task, rest: seq<Task>, items: Task -> multiset<PartitionLag>)
    ensures Gather([task] + rest, items) == items(task) + Gather(rest, items)
  {
    assert ([task] + rest)[1..] == rest;
  }

  lemma {:induction false} MessagesGathered(jobs: seq<Job>)
    ensures multiset(Messages(jobs)) == Gather(Tasks(jobs), Sent)
  {
    if jobs != [] {
      var job, rest := jobs[0], jobs[1..];
      assert jobs == [job] + rest && Tasks(jobs) == [TaskOf(job)] + Tasks(rest);
      hide *;
      MessagesGathered(rest);
      MessagesCons(job, rest);
      GatherCons(TaskOf(job), Tasks(rest), Sent);
    }
  }

  lemma {:induction false} ActiveMessagesGathered(jobs: seq<Job>)
    ensures multiset(Messages(ActiveOnly(jobs))) == Gather(Tasks(jobs), ClientMessages)
  {
    if jobs != [] {
      var job, rest := jobs[0], jobs[1..];
      assert Tasks(jobs) == [TaskOf(job)] + Tasks(rest);
      assert ActiveOnly(jobs) == (if job.Active? then [job] else []) + ActiveOnly(rest);
      assert ClientMessages(TaskOf(job)) == if job.Active? then Sent(TaskOf(job)) else multiset{};
      hide *;
      ActiveMessagesGathered(rest);
      MessagesCons(job, ActiveOnly(rest));
      GatherCons(TaskOf(job), Tasks(rest), ClientMessages);
      assert !job.Active? ==> ActiveOnly(jobs) == ActiveOnly(rest);
    }
  }

  lemma MessagesCons(job: Job, rest: seq<Job>)
    ensures multiset(Messages([job] + rest)) == Sent(TaskOf(job)) + multiset(Messages(rest))
  {
    assert ([job] + rest)[1..] == rest;
  }

  lemma {:induction false} MessagesPermutation(a: seq<Job>, b: seq<Job>)
    requires multiset(a) == multiset(b)
    ensures multiset(Messages(a)) == multiset(Messages(b))
    ensures multiset(Messages(ActiveOnly(a))) == multiset(Messages(ActiveOnly(b)))
  {
    MessagesGathered(a);
    MessagesGathered(b);
    ActiveMessagesGathered(a);
    ActiveMessagesGathered(b);
    TasksPermutation(a, b);
    GatherPermutation(Tasks(a), Tasks(b), Sent);
    GatherPermutation(Tasks(a), Tasks(b), ClientMessages);
  }

  lemma {:induction false} TasksPermutation(a: seq<Job>, b: seq<Job>)
    requires multiset(a) == multiset(b)
    ensures multiset(Tasks(a)) == multiset(Tasks(b))
  {
    if a == [] {
      assert |multiset(b)| == 0;
    } else {
      assert a[0] in multiset(b);
      var i :| 0 <= i < |b| && b[i] == a[0];
      var rest := b[..i] + b[i + 1..];
      RestsAgree(a, b, i);
      TasksPermutation(a[1..], rest);
      assert Tasks(a) == [TaskOf(a[0])] + Tasks(a[1..]);
      assert Tasks(b)[..i] + Tasks(b)[i + 1..] == Tasks(rest);
      WithoutElement(Tasks(b), i);
    }
  }

  /** `t` ends a complete run over the given jobs, under some schedule and channel capacity. */
  ghost predicate CompletesFrom(capacity: nat, jobs: seq<Job>, steps: seq<Step>, t: State) {
    Leads(capacity, Initial(Tasks(jobs)), steps, t) && t.main == Returned
  }

  /** Whatever the schedule, the reports are those of the jobs' messages taken in job order. */
  lemma CompleteRunReports(capacity: nat, jobs: seq<Job>, steps: seq<Step>, t: State, byTopic: bool)
    requires CompletesFrom(capacity, jobs, steps, t)
    ensures ClientReport(t.client.received) == ClientReport(Messages(ActiveOnly(jobs)))
    ensures CGroupReport(byTopic, t.group.received) == CGroupReport(byTopic, Messages(jobs))
  {
    CompleteRunDelivers(capacity, Tasks(jobs), steps, t);
    MessagesGathered(jobs);
    ActiveMessagesGathered(jobs);
    ReportsIgnoreOrder(byTopic, t.client.received, Messages(ActiveOnly(jobs)));
    ReportsIgnoreOrder(byTopic, t.group.received, Messages(jobs));
  }

  /** Two complete runs over the same jobs, in any order of spawning and scheduling, report the same. */
  lemma ReportIsScheduleIndependent(
    capacity1: nat, jobs1: seq<Job>, steps1: seq<Step>, t1: State,
    capacity2: nat, jobs2: seq<Job>, steps2: seq<Step>, t2: State, byTopic: bool)
    requires multiset(jobs1) == multiset(jobs2)
    requires CompletesFrom(capacity1, jobs1, steps1, t1)
    requires CompletesFrom(capacity2, jobs2, steps2, t2)
    ensures ClientReport(t1.client.received) == ClientReport(t2.client.received)
    ensures CGroupReport(byTopic, t1.group.received) == CGroupReport(byTopic, t2.group.received)
  {
    CompleteRunReports(capacity1, jobs1, steps1, t1, byTopic);
    CompleteRunReports(capacity2, jobs2, steps2, t2, byTopic);
    MessagesPermutation(jobs1, jobs2);
    ReportsIgnoreOrder(byTopic, Messages(jobs1), Messages(jobs2));
    ReportsIgnoreOrder(byTopic, Messages(ActiveOnly(jobs1)), Messages(ActiveOnly(jobs2)));
  }

  lemma {:induction false} MessagesAreSuccesses(jobs: seq<Job>)
    ensures |Messages(jobs)| >= |SuccessfulLags(jobs)|
    ensures Messages(jobs) == SuccessfulLags(jobs) <==> NoPhantom(jobs)
    ensures |Messages(jobs)| == |SuccessfulLags(jobs)| <==> NoPhantom(jobs)
  {
    if jobs != [] {
      MessagesAreSuccesses(jobs[1..]);
      SentIffSuccessful(jobs[0]);
      assert jobs == [jobs[0]] + jobs[1..];
    }
  }

  lemma {:induction false} ActiveOnlyKeeps(jobs: seq<Job>)
    ensures forall job :: job in ActiveOnly(jobs) <==> job in jobs && job.Active?
  {
    if jobs != [] {
      ActiveOnlyKeeps(jobs[1..]);
      assert jobs == [jobs[0]] + jobs[1..];
    }
  }

  /**
   * The aggregators receive exactly the lags of the successful lookups, each once, if and only if no failed lookup was
   * for a topic with the empty name.
   */
  lemma ReceivesSuccessesIff(capacity: nat, jobs: seq<Job>, steps: seq<Step>, t: State)
    requires CompletesFrom(capacity, jobs, steps, t)
    ensures multiset(t.group.received) == multiset(SuccessfulLags(jobs)) <==> NoPhantom(jobs)
    ensures multiset(t.client.received) == multiset(SuccessfulLags(ActiveOnly(jobs))) <==> NoPhantom(jobs)
  {
    CompleteRunDelivers(capacity, Tasks(jobs), steps, t);
    MessagesGathered(jobs);
    ActiveMessagesGathered(jobs);
    MessagesAreSuccesses(jobs);
    MessagesAreSuccesses(ActiveOnly(jobs));
    ActiveOnlyKeeps(jobs);
    SameSize(Messages(jobs), SuccessfulLags(jobs));
    SameSize(Messages(ActiveOnly(jobs)), SuccessfulLags(ActiveOnly(jobs)));
  }

  lemma SameSize<T>(a: seq<T>, b: seq<T>)
    ensures multiset(a) == multiset(b) ==> |a| == |b|
  {
    assert |multiset(a)| == |a| && |multiset(b)| == |b|;
  }

  /** The pure-fold form of the report when every topic has a name. */
  lemma ReportIsFoldOfSuccesses(capacity: nat, jobs: seq<Job>, steps: seq<Step>, t: State, byTopic: bool)
    requires CompletesFrom(capacity, jobs, steps, t)
    requires forall job :: job in jobs ==> job.topic != ""
    ensures ClientReport(t.client.received) == ClientReport(SuccessfulLags(ActiveOnly(jobs)))
    ensures CGroupReport(byTopic, t.group.received) == CGroupReport(byTopic, SuccessfulLags(jobs))
  {
    CompleteRunReports(capacity, jobs, steps, t, byTopic);
    ActiveOnlyKeeps(jobs);
    MessagesAreSuccesses(jobs);
    MessagesAreSuccesses(ActiveOnly(jobs));
  }

  // ---------------------------------------------------------------- group total, client totals, inactive lags

  lemma {:induction false} SuccessesSplit(jobs: seq<Job>)
    ensures Sum(SuccessfulLags(jobs), LagValue)
         == Sum(SuccessfulLags(ActiveOnly(jobs)), LagValue) + Sum(SuccessfulLags(InactiveOnly(jobs)), LagValue)
  {
    hide Int64.Wrap;
    if jobs != [] {
      var job, rest := jobs[0], jobs[1..];
      SuccessesSplit(rest);
      SuccessesCons(job, rest);
      if job.Active? {
        assert ActiveOnly(jobs) == [job] + ActiveOnly(rest) && InactiveOnly(jobs) == InactiveOnly(rest);
        SuccessesCons(job, ActiveOnly(rest));
      } else {
        assert InactiveOnly(jobs) == [job] + InactiveOnly(rest) && ActiveOnly(jobs) == ActiveOnly(rest);
        SuccessesCons(job, InactiveOnly(rest));
      }
      assert jobs == [job] + rest;
    }
  }

  lemma SuccessesCons(job: Job, rest: seq<Job>)
    ensures Sum(SuccessfulLags([job] + rest), LagValue)
         == (if Succeeds(job) then LagOf(job).lag else 0) + Sum(SuccessfulLags(rest), LagValue)
  {
    assert ([job] + rest)[1..] == rest;
    if Succeeds(job) {
      SumConcat([LagOf(job)], SuccessfulLags(rest), LagValue);
      SumSingle(LagOf(job), LagValue);
    } else {
      assert SuccessfulLags([job] + rest) == SuccessfulLags(rest);
    }
  }

  lemma {:induction false} SuccessesOfGroup(jobs: seq<Job>, group: string)
    requires forall job :: job in jobs ==> job.group == group
    ensures OfGroup(SuccessfulLags(jobs), group)
  {
    if jobs != [] {
      SuccessesOfGroup(jobs[1..], group);
    }
  }

  lemma ClientsPlusInactive(jobs: seq<Job>)
    ensures Int64.Wrap(Sum(SuccessfulLags(jobs), LagValue))
         == Int64.Wrap(SumValues(ClientReport(SuccessfulLags(ActiveOnly(jobs))))
                       + Sum(SuccessfulLags(InactiveOnly(jobs)), LagValue))
  {
    hide Int64.Wrap, SuccessfulLags, Sum, SumValues, ActiveOnly, InactiveOnly;
    var actives := SuccessfulLags(ActiveOnly(jobs));
    var inactive := Sum(SuccessfulLags(InactiveOnly(jobs)), LagValue);
    SuccessesSplit(jobs);
    RollupTotal(actives, ClientKey);
    Int64.WrapCongruence(SumValues(ClientReport(actives)), Sum(actives, LagValue), inactive);
  }

  lemma SuccessesGroupTotal(
    jobs: seq<Job>, group: string, clients: map<string, int>, report: CGroupAggregations, byTopic: bool)
    requires forall job :: job in jobs ==> job.group == group
    requires clients == ClientReport(SuccessfulLags(ActiveOnly(jobs)))
    requires report == CGroupReport(byTopic, SuccessfulLags(jobs))
    ensures Get(report.consumerGroupRollup, group)
         == Int64.Wrap(SumValues(clients) + Sum(SuccessfulLags(InactiveOnly(jobs)), LagValue))
  {
    hide Int64.Wrap, Sum, SumValues, SuccessfulLags, Rollup;
    SuccessesOfGroup(jobs, group);
    GroupEntry(SuccessfulLags(jobs), group);
    ClientsPlusInactive(jobs);
  }

  /** After any complete run: group total = all clients' totals plus the lags of the unassigned topics. */
  lemma GroupTotalSplits(capacity: nat, jobs: seq<Job>, group: string, steps: seq<Step>, t: State, byTopic: bool)
    requires CompletesFrom(capacity, jobs, steps, t)
    requires forall job :: job in jobs ==> job.topic != ""
    requires forall job :: job in jobs ==> job.group == group
    ensures Get(CGroupReport(byTopic, t.group.received).consumerGroupRollup, group)
         == Int64.Wrap(SumValues(ClientReport(t.client.received)) + Sum(SuccessfulLags(InactiveOnly(jobs)), LagValue))
  {
    hide *;
    ReportIsFoldOfSuccesses(capacity, jobs, steps, t, byTopic);
    SuccessesGroupTotal(jobs, group, ClientReport(t.client.received), CGroupReport(byTopic, t.group.received), byTopic);
  }

  // ---------------------------------------------------------------- the collection as a whole

  lemma PlannedForGroup(group: string, members: seq<Member>, details: seq<TopicDetail>)
    ensures forall job :: job in Plan(group, members, details) ==> job.group == group
  {
    ActiveJobsCovered(group, members);
    InactiveJobsShape(group, details, {CONSUMER_OFFSETS_TOPIC, SCHEMA_TOPIC} + CoveredTopics(members));
  }

  /**
   * From the members' and topics' replies to the report: whatever the schedule, the client totals are those of the
   * assigned partitions' successful lookups, the group total is theirs plus the lags of the unassigned topics, and with
   * disjoint assignments and limited replies no partition is in it twice.
   */
  lemma PlannedCollectionReports(
    capacity: nat, group: string, members: seq<Member>, details: seq<TopicDetail>,
    steps: seq<Step>, t: State, byTopic: bool)
    requires CompletesFrom(capacity, Plan(group, members, details), steps, t)
    requires forall job :: job in Plan(group, members, details) ==> job.topic != ""
    ensures ClientReport(t.client.received) == ClientReport(SuccessfulLags(ActiveOnly(Plan(group, members, details))))
    ensures CGroupReport(byTopic, t.group.received)
         == CGroupReport(byTopic, SuccessfulLags(Plan(group, members, details)))
    ensures Get(CGroupReport(byTopic, t.group.received).consumerGroupRollup, group)
         == Int64.Wrap(SumValues(ClientReport(t.client.received))
                       + Sum(SuccessfulLags(InactiveOnly(Plan(group, members, details))), LagValue))
    ensures DisjointAssignments(members) && (forall m :: m in members ==> LimitedMember(m))
            && DistinctNames(details) && (forall d :: d in details ==> Limited(d))
            ==> DistinctKeys(Plan(group, members, details))
  {
    hide *;
    PlannedForGroup(group, members, details);
    ReportIsFoldOfSuccesses(capacity, Plan(group, members, details), steps, t, byTopic);
    GroupTotalSplits(capacity, Plan(group, members, details), group, steps, t, byTopic);
    if && DisjointAssignments(members) && (forall m :: m in members ==> LimitedMember(m))
       && DistinctNames(details) && (forall d :: d in details ==> Limited(d)) {
      NothingCountedTwice(group, members, details);
    }
  }
}
