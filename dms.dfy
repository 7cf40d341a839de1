/** The decisions of package dms: which replication instance classes may be
    requested, how a described instance or task is matched and checked, and
    which start type each task operation sends.

    Every Database Migration Service call is an input: a call that takes a
    request is a function from that request to the call's outcome, and a
    Describe call is the `Result` it returned (the described records or the
    SDK's error). */
module Dms {
  import opened Aws

  // The instance classes ModifyReplicationInstanceClass accepts.
  const T2Micro := "dms.t2.micro"
  const T2Small := "dms.t2.small"
  const T2Medium := "dms.t2.medium"
  const T2Large := "dms.t2.large"
  const C4Large := "dms.c4.large"
  const C4XLarge := "dms.c4.xlarge"
  const C4_2XLarge := "dms.c4.2xlarge"
  const C4_4XLarge := "dms.c4.4xlarge"

  /** The allow-list as a set: the reference the switch is checked against. */
  const InstanceClasses: set<string> :=
    {T2Micro, T2Small, T2Medium, T2Large, C4Large, C4XLarge, C4_2XLarge, C4_4XLarge}

  /** The status an instance must have for the instance check to pass. */
  const Available := "available"
  /** The status a task must have for the task check to pass. */
  const Stopped := "stopped"

  datatype ModifyReplicationInstanceInput = ModifyReplicationInstanceInput(
    applyImmediately: bool,
    replicationInstanceArn: string,
    replicationInstanceClass: string)

  /** One entry of DescribeReplicationInstances' answer. */
  datatype ReplicationInstance = ReplicationInstance(
    replicationInstanceArn: string,
    replicationInstanceClass: string,
    replicationInstanceStatus: string)

  /** One entry of DescribeReplicationTasks' answer. */
  datatype ReplicationTask = ReplicationTask(replicationTaskArn: string, status: string)

  /** The three ways the package starts a replication task. */
  datatype TaskStart = StartReplication | ResumeProcessing | ReloadTarget

  datatype StartReplicationTaskInput = StartReplicationTaskInput(
    replicationTaskArn: string,
    startReplicationTaskType: string)

  /** The `switch` of ModifyReplicationInstanceClass: one empty case per
      known class, and a default case that rejects everything else. */
  function ValidateClass(instanceClass: string): (r: Outcome)
    ensures r == Pass <==> instanceClass in InstanceClasses
    ensures r != Pass ==> r == Fail("Invalid instance class: " + instanceClass)
  {
    if instanceClass == T2Micro then Pass
    else if instanceClass == T2Small then Pass
    else if instanceClass == T2Medium then Pass
    else if instanceClass == T2Large then Pass
    else if instanceClass == C4Large then Pass
    else if instanceClass == C4XLarge then Pass
    else if instanceClass == C4_2XLarge then Pass
    else if instanceClass == C4_4XLarge then Pass
    else Fail("Invalid instance class: " + instanceClass)
  }

  /** Asks for an immediate class change. An unknown class is rejected
      before the service is called; otherwise the service's outcome is
      returned unchanged. */
  function ModifyReplicationInstanceClass(
    arn: string, instanceClass: string,
    modifyReplicationInstance: ModifyReplicationInstanceInput -> Outcome): (r: Outcome)
    ensures instanceClass !in InstanceClasses ==> r == Fail("Invalid instance class: " + instanceClass)
    ensures instanceClass in InstanceClasses ==>
      r == modifyReplicationInstance(ModifyReplicationInstanceInput(true, arn, instanceClass))
  {
    var input := ModifyReplicationInstanceInput(
      applyImmediately := true,
      replicationInstanceArn := arn,
      replicationInstanceClass := instanceClass);
    match ValidateClass(instanceClass)
    case Fail(e) => Fail(e)
    case Pass => modifyReplicationInstance(input)
  }

  /** The index of the first element of `s` that `hit` accepts, if any:
      the `for range` scans of this package, which return at the first match. */
  function FirstIndex<T>(s: seq<T>, hit: T -> bool): (r: Option<nat>)
    ensures r.Some? ==> r.value < |s| && hit(s[r.value])
    ensures r.Some? ==> forall j :: 0 <= j < r.value ==> !hit(s[j])
    ensures r.None? <==> forall j :: 0 <= j < |s| ==> !hit(s[j])
  {
    if s == [] then None
    else if hit(s[0]) then Some(0)
    else
      match FirstIndex(s[1..], hit)
      case None => None
      case Some(k) => Some(k + 1)
  }

  /** `k` is the position of the first described instance whose ARN is `arn`. */
  ghost predicate FirstInstanceWithArn(instances: seq<ReplicationInstance>, arn: string, k: int) {
    && 0 <= k < |instances|
    && instances[k].replicationInstanceArn == arn
    && forall j :: 0 <= j < k ==> instances[j].replicationInstanceArn != arn
  }

  /** `k` is the position of the first described task whose ARN is `arn`. */
  ghost predicate FirstTaskWithArn(tasks: seq<ReplicationTask>, arn: string, k: int) {
    && 0 <= k < |tasks|
    && tasks[k].replicationTaskArn == arn
    && forall j :: 0 <= j < k ==> tasks[j].replicationTaskArn != arn
  }

  /** Checks the first described instance with the given ARN: its class
      first, then its status. */
  function CheckReplicationInstanceClassAndStatus(
    arn: string, instanceClass: string,
    described: Result<seq<ReplicationInstance>>): (r: Outcome)
    ensures described.Err? ==> r == Fail(described.error)
    ensures described.Ok? &&
            (forall j :: 0 <= j < |described.value| ==> described.value[j].replicationInstanceArn != arn)
            ==> r == Fail("Instance not found: " + arn)
    // A class mismatch is reported whatever the status is.
    ensures described.Ok? ==>
      forall k :: FirstInstanceWithArn(described.value, arn, k) &&
                  described.value[k].replicationInstanceClass != instanceClass ==>
        r == Fail("Current class does not match expected: current: " +
                  described.value[k].replicationInstanceClass + ", expected: " + instanceClass)
    ensures described.Ok? ==>
      forall k :: FirstInstanceWithArn(described.value, arn, k) &&
                  described.value[k].replicationInstanceClass == instanceClass &&
                  described.value[k].replicationInstanceStatus != Available ==>
        r == Fail("Replication instance not available: status: " +
                  described.value[k].replicationInstanceStatus)
    ensures r == Pass <==>
      described.Ok? &&
      exists k :: FirstInstanceWithArn(described.value, arn, k) &&
                  described.value[k].replicationInstanceClass == instanceClass &&
                  described.value[k].replicationInstanceStatus == Available
  {
    match described
    case Err(e) => Fail(e)
    case Ok(instances) =>
      match FirstIndex(instances, (i: ReplicationInstance) => i.replicationInstanceArn == arn)
      case None => Fail("Instance not found: " + arn)
      case Some(k) =>
        assert FirstInstanceWithArn(instances, arn, k);
        var instance := instances[k];
        if instance.replicationInstanceClass != instanceClass then
          Fail("Current class does not match expected: current: " +
               instance.replicationInstanceClass + ", expected: " + instanceClass)
        else if instance.replicationInstanceStatus != Available then
          Fail("Replication instance not available: status: " + instance.replicationInstanceStatus)
        else
          Pass
  }

  /** Checks that the first described task with the given ARN is stopped. */
  function CheckReplicationTaskStatus(arn: string, described: Result<seq<ReplicationTask>>): (r: Outcome)
    ensures described.Err? ==> r == Fail(described.error)
    ensures described.Ok? &&
            (forall j :: 0 <= j < |described.value| ==> described.value[j].replicationTaskArn != arn)
            ==> r == Fail("Task not found: " + arn)
    ensures described.Ok? ==>
      forall k :: FirstTaskWithArn(described.value, arn, k) && described.value[k].status != Stopped ==>
        r == Fail("Task not stopped: status: " + described.value[k].status)
    ensures r == Pass <==>
      described.Ok? &&
      exists k :: FirstTaskWithArn(described.value, arn, k) && described.value[k].status == Stopped
  {
    match described
    case Err(e) => Fail(e)
    case Ok(tasks) =>
      match FirstIndex(tasks, (t: ReplicationTask) => t.replicationTaskArn == arn)
      case None => Fail("Task not found: " + arn)
      case Some(k) =>
        assert FirstTaskWithArn(tasks, arn, k);
        if tasks[k].status == Stopped then Pass
        else Fail("Task not stopped: status: " + tasks[k].status)
  }

  /** Entries after the first instance with the ARN never change the check. */
  lemma {:induction false} LaterInstancesIgnored(
    arn: string, instanceClass: string, instances: seq<ReplicationInstance>, later: seq<ReplicationInstance>)
    requires exists j :: 0 <= j < |instances| && instances[j].replicationInstanceArn == arn
    ensures CheckReplicationInstanceClassAndStatus(arn, instanceClass, Ok(instances + later))
         == CheckReplicationInstanceClassAndStatus(arn, instanceClass, Ok(instances))
  {
    var hit := (i: ReplicationInstance) => i.replicationInstanceArn == arn;
    var k := FirstIndex(instances, hit);
    assert k.Some?;
    assert FirstInstanceWithArn(instances, arn, k.value);
    assert FirstInstanceWithArn(instances + later, arn, k.value) by {
      forall j | 0 <= j <= k.value ensures (instances + later)[j] == instances[j] { }
    }
  }

  /** Entries after the first task with the ARN never change the check. */
  lemma {:induction false} LaterTasksIgnored(
    arn: string, tasks: seq<ReplicationTask>, later: seq<ReplicationTask>)
    requires exists j :: 0 <= j < |tasks| && tasks[j].replicationTaskArn == arn
    ensures CheckReplicationTaskStatus(arn, Ok(tasks + later)) == CheckReplicationTaskStatus(arn, Ok(tasks))
  {
    var hit := (t: ReplicationTask) => t.replicationTaskArn == arn;
    var k := FirstIndex(tasks, hit);
    assert k.Some?;
    assert FirstTaskWithArn(tasks, arn, k.value);
    assert FirstTaskWithArn(tasks + later, arn, k.value) by {
      forall j | 0 <= j <= k.value ensures (tasks + later)[j] == tasks[j] { }
    }
  }

  /** The StartReplicationTaskType each operation sends. */
  function StartTypeOf(start: TaskStart): (t: string)
    ensures start == StartReplication <==> t == "start-replication"
    ensures start == ResumeProcessing <==> t == "resume-processing"
    ensures start == ReloadTarget <==> t == "reload-target"
  {
    match start
    case StartReplication => "start-replication"
    case ResumeProcessing => "resume-processing"
    case ReloadTarget => "reload-target"
  }

  /** The request the three task operations build. */
  function StartTaskRequest(arn: string, start: TaskStart): (input: StartReplicationTaskInput)
    ensures input.replicationTaskArn == arn
    ensures input.startReplicationTaskType == StartTypeOf(start)
  {
    StartReplicationTaskInput(replicationTaskArn := arn, startReplicationTaskType := StartTypeOf(start))
  }

  /** Starts a task from scratch; the service's outcome is returned unchanged. */
  function StartReplicationTask(
    arn: string, startReplicationTask: StartReplicationTaskInput -> Outcome): (r: Outcome)
    ensures r == startReplicationTask(StartReplicationTaskInput(arn, "start-replication"))
  {
    startReplicationTask(StartTaskRequest(arn, StartReplication))
  }

  /** Resumes a stopped task; the service's outcome is returned unchanged. */
  function ResumeReplicationTask(
    arn: string, startReplicationTask: StartReplicationTaskInput -> Outcome): (r: Outcome)
    ensures r == startReplicationTask(StartReplicationTaskInput(arn, "resume-processing"))
  {
    startReplicationTask(StartTaskRequest(arn, ResumeProcessing))
  }

  /** Reloads the target of a task; the service's outcome is returned unchanged. */
  function ReloadReplicationTask(
    arn: string, startReplicationTask: StartReplicationTaskInput -> Outcome): (r: Outcome)
    ensures r == startReplicationTask(StartReplicationTaskInput(arn, "reload-target"))
  {
    startReplicationTask(StartTaskRequest(arn, ReloadTarget))
  }
}
