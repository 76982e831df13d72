/** The job queue of runtime_webstate.go: enqueue, claim, complete, fail and reset. */
module JobQueue {
  import opened Wrappers
  import opened Text
  import opened Helpers
  import opened Sorting
  import opened Normalize

  datatype Job = Job(
    jobId: string, queue: string, kind: string, dedupeKey: Option<string>, status: string, priority: int, runAt: nat,
    lockedAt: Option<nat>, lockedBy: Option<string>, attempts: nat, maxAttempts: int, payload: map<string, string>,
    lastError: Option<string>, finishedAt: Option<nat>)

  type Jobs = map<string, Job>

  datatype EnqueueInput = EnqueueInput(
    jobId: string, queue: string, kind: string, dedupeKey: string, status: string, priority: int,
    runAt: Option<nat>, maxAttempts: int, payload: map<string, string>)

  // ----- What each statement does to one row -----

  /** The row EnqueueJob inserts; freshId is the random id drawn when none is given. */
  function NewJob(input: EnqueueInput, freshId: string, now: nat): Job {
    Job(if Blank(input.jobId) then freshId else input.jobId,
        StatusOrDefault(input.queue, "default"), input.kind, NullString(input.dedupeKey),
        StatusOrDefault(input.status, "pending"),
        if input.priority == 0 then 100 else input.priority, TimeOr(input.runAt, now), None, None, 0,
        if input.maxAttempts == 0 then 10 else input.maxAttempts, input.payload, None, None)
  }

  function Enqueue(jobs: Jobs, input: EnqueueInput, freshId: string, now: nat): Result<Job> {
    var job := NewJob(input, freshId, now);
    if Blank(input.kind) then Err("kind is required")
    else if job.jobId in jobs then Err("conflict")
    else Ok(job)
  }

  function ClaimedJob(job: Job, worker: string, now: nat): Job {
    job.(status := "running", lockedAt := Some(now), lockedBy := Some(worker))
  }

  function CompletedJob(job: Job, at: nat): Job {
    job.(status := "completed", lockedAt := None, lockedBy := None, finishedAt := Some(at))
  }

  function FailedJob(job: Job, error: string, retryAt: nat, failedAt: nat): Job {
    var exhausted := job.attempts + 1 >= job.maxAttempts;
    job.(attempts := job.attempts + 1, lastError := Some(error), lockedAt := None, lockedBy := None,
         runAt := if exhausted then job.runAt else retryAt,
         finishedAt := if exhausted then Some(failedAt) else None,
         status := if exhausted then "failed" else "pending")
  }

  function ResetJob(job: Job, queue: string, reason: string): Job {
    if job.queue == queue && job.status == "running" then
      job.(status := "pending", lockedAt := None, lockedBy := None,
           lastError := if reason != "" && (job.lastError.None? || job.lastError.value == "") then Some(reason)
                        else job.lastError)
    else job
  }

  // ----- Claims -----

  predicate Due(job: Job, queue: string, now: nat) {
    job.queue == queue && job.status == "pending" && job.runAt <= now
  }

  function DueIds(jobs: Jobs, queue: string, now: nat): set<string> {
    set id | id in jobs && Due(jobs[id], queue, now)
  }

  /** order by priority desc, run_at asc: a may come before b. */
  predicate Ahead(a: Job, b: Job) {
    a.priority > b.priority || (a.priority == b.priority && a.runAt <= b.runAt)
  }

  /** What the select of ClaimJobs may return: as many due jobs as the limit lets through, and none of them
      behind a due job left out.  Jobs equal in priority and time may be taken in any order. */
  ghost predicate ValidChoice(jobs: Jobs, queue: string, now: nat, limit: nat, chosen: set<string>) {
    var due := DueIds(jobs, queue, now);
    && chosen <= due
    && |chosen| == (if |due| <= limit then |due| else limit)
    && forall a, b :: a in chosen && b in due - chosen ==> Ahead(jobs[a], jobs[b])
  }

  function Taken(jobs: Jobs, chosen: set<string>, worker: string, now: nat): Jobs {
    map id | id in jobs :: if id in chosen then ClaimedJob(jobs[id], worker, now) else jobs[id]
  }

  function AllReset(jobs: Jobs, queue: string, reason: string): Jobs {
    map id | id in jobs :: ResetJob(jobs[id], queue, reason)
  }

  /** The order a claim goes through: a tie is broken by job id, one of the orders the query allows. */
  datatype ClaimKey = ClaimKey(priority: int, runAt: nat, jobId: string)

  predicate ClaimFirst(a: ClaimKey, b: ClaimKey) {
    if a.priority != b.priority then a.priority > b.priority
    else if a.runAt != b.runAt then a.runAt < b.runAt
    else StringLe(a.jobId, b.jobId)
  }

  lemma ClaimOrder()
    ensures TotalOrder(ClaimFirst)
  {
    forall a, b ensures ClaimFirst(a, b) || ClaimFirst(b, a)
                ensures ClaimFirst(a, b) && ClaimFirst(b, a) ==> a == b
    {
      StringLeTotal(a.jobId, b.jobId);
    }
    forall a, b, c | ClaimFirst(a, b) && ClaimFirst(b, c) ensures ClaimFirst(a, c) {
      if StringLe(a.jobId, b.jobId) && StringLe(b.jobId, c.jobId) { StringLeTransitive(a.jobId, b.jobId, c.jobId); }
    }
  }

  function DueKeys(jobs: Jobs, queue: string, now: nat): set<ClaimKey> {
    set id | id in jobs && Due(jobs[id], queue, now) :: ClaimKey(jobs[id].priority, jobs[id].runAt, id)
  }

  lemma DueKeysExact(jobs: Jobs, queue: string, now: nat)
    ensures forall k :: k in DueKeys(jobs, queue, now) <==>
              k.jobId in DueIds(jobs, queue, now) && k.priority == jobs[k.jobId].priority
              && k.runAt == jobs[k.jobId].runAt
  {}

  /** The select of ClaimJobs. */
  method SelectDue(jobs: Jobs, queue: string, now: nat, limit: nat) returns (ids: seq<string>)
    ensures Distinct(ids)
    ensures ValidChoice(jobs, queue, now, limit, set id | id in ids)
    ensures forall i, j :: 0 <= i < j < |ids| ==> ids[i] in jobs && ids[j] in jobs && Ahead(jobs[ids[i]], jobs[ids[j]])
  {
    hide ClaimFirst, ValidChoice, Ahead, Due, DueKeys, TotalOrder, Sort;
    var found := DueKeys(jobs, queue, now);
    DueKeysExact(jobs, queue, now);
    var listed := Listed(found);
    ClaimOrder();
    SortCorrect(ClaimFirst, listed);
    SortDistinct(ClaimFirst, listed);
    var sorted := Sort(ClaimFirst, listed);
    forall k ensures k in sorted <==> k in found { SortMembers(ClaimFirst, listed, k); }
    var all := seq(|sorted|, i requires 0 <= i < |sorted| => sorted[i].jobId);
    SelectedAll(jobs, queue, now, sorted, all);
    ids := if |all| <= limit then all else all[..limit];
    DistinctSize(ids);
    forall i | 0 <= i < |all| ensures all[i] in jobs { assert all[i] in DueIds(jobs, queue, now); }
    FirstOnes(jobs, queue, now, limit, all, ids);
  }

  lemma SelectedAll(jobs: Jobs, queue: string, now: nat, sorted: seq<ClaimKey>, all: seq<string>)
    requires Sorted(ClaimFirst, sorted) && Distinct(sorted) && |all| == |sorted|
    requires forall i :: 0 <= i < |sorted| ==> all[i] == sorted[i].jobId
    requires forall k :: k in sorted <==>
               k.jobId in DueIds(jobs, queue, now) && k.priority == jobs[k.jobId].priority
               && k.runAt == jobs[k.jobId].runAt
    ensures Distinct(all) && (set id | id in all) == DueIds(jobs, queue, now)
    ensures forall i, j :: 0 <= i < j < |all| ==> Ahead(jobs[all[i]], jobs[all[j]])
  {
    hide StringLe;
    forall i | 0 <= i < |all| ensures all[i] in DueIds(jobs, queue, now) { assert sorted[i] in sorted; }
    forall i, j | 0 <= i < j < |all| ensures all[i] != all[j] && Ahead(jobs[all[i]], jobs[all[j]]) {
      assert sorted[i] in sorted && sorted[j] in sorted;
      assert ClaimFirst(sorted[i], sorted[j]);
    }
    forall id | id in DueIds(jobs, queue, now) ensures id in all {
      var k := ClaimKey(jobs[id].priority, jobs[id].runAt, id);
      assert k in sorted;
      var i :| 0 <= i < |sorted| && sorted[i] == k;
      assert all[i] == id;
    }
  }

  lemma FirstOnes(jobs: Jobs, queue: string, now: nat, limit: nat, all: seq<string>, ids: seq<string>)
    requires Distinct(all) && (set id | id in all) == DueIds(jobs, queue, now)
    requires forall i :: 0 <= i < |all| ==> all[i] in jobs
    requires forall i, j :: 0 <= i < j < |all| ==> Ahead(jobs[all[i]], jobs[all[j]])
    requires ids == (if |all| <= limit then all else all[..limit]) && |set id | id in ids| == |ids|
    ensures ValidChoice(jobs, queue, now, limit, set id | id in ids)
  {
    hide Ahead;
    DistinctSize(all);
    var chosen := set id | id in ids;
    forall a, b | a in chosen && b in DueIds(jobs, queue, now) - chosen ensures a in jobs && Ahead(jobs[a], jobs[b]) {
      assert b in all;
      var i :| 0 <= i < |ids| && ids[i] == a;
      var j :| 0 <= j < |all| && all[j] == b;
      assert b in ids <==> j < |ids|;
    }
  }

  // ----- The table -----

  class JobTable {
    var jobs: Jobs

    constructor ()
      ensures jobs == map[]
    {
      jobs := map[];
    }

    method EnqueueJob(input: EnqueueInput, freshId: string, now: nat) returns (r: Result<Job>)
      modifies this
      ensures r == Enqueue(old(jobs), input, freshId, now)
      ensures jobs == if r.Ok? then old(jobs)[r.value.jobId := r.value] else old(jobs)
    {
      if Blank(input.kind) {
        return Err("kind is required");
      }
      var jobId := if Blank(input.jobId) then freshId else input.jobId;
      var priority := if input.priority == 0 then 100 else input.priority;
      var maxAttempts := if input.maxAttempts == 0 then 10 else input.maxAttempts;
      var runAt := now;
      if input.runAt.Some? && input.runAt.value != 0 {
        runAt := input.runAt.value;
      }
      if jobId in jobs {
        return Err("conflict");
      }
      var job := Job(jobId, StatusOrDefault(input.queue, "default"), input.kind, NullString(input.dedupeKey),
                     StatusOrDefault(input.status, "pending"), priority, runAt, None, None, 0, maxAttempts,
                     input.payload, None, None);
      jobs := jobs[jobId := job];
      return Ok(job);
    }

    /** Claims the due jobs that come first and returns them as they now are. */
    method ClaimJobs(queueName: string, worker: string, limit: int, now: nat) returns (r: Result<seq<Job>>)
      requires Keyed(jobs)
      modifies this
      ensures Keyed(jobs)
      ensures r.Err? <==> Blank(worker)
      ensures r.Err? ==> jobs == old(jobs)
      ensures r.Ok? ==>
                && Distinct(r.value)
                && ValidChoice(old(jobs), if Blank(queueName) then "default" else TrimSpace(queueName), now,
                               if limit <= 0 then 20 else if limit > 100 then 100 else limit, IdsOf(r.value))
                && jobs == Taken(old(jobs), IdsOf(r.value), worker, now)
                && forall i :: 0 <= i < |r.value| ==> r.value[i].jobId in jobs && jobs[r.value[i].jobId] == r.value[i]
    {
      hide ValidChoice, Blank, TrimSpace, Due, Ahead, IdsOf;
      if Blank(worker) {
        return Err("worker is required");
      }
      var ids := SelectDue(jobs, StatusOrDefault(queueName, "default"), now, ClampLimit(limit, 20, 100));
      ChosenStored(jobs, StatusOrDefault(queueName, "default"), now, ClampLimit(limit, 20, 100), set id | id in ids);
      forall i | 0 <= i < |ids| ensures ids[i] in jobs { assert ids[i] in ids; }
      var items := LockAll(ids, worker, now);
      ItemIds(items, ids);
      return Ok(items);
    }

    /** The update of ClaimJobs, row by row. */
    method LockAll(ids: seq<string>, worker: string, now: nat) returns (items: seq<Job>)
      requires Keyed(jobs) && Distinct(ids) && forall i :: 0 <= i < |ids| ==> ids[i] in jobs
      modifies this
      ensures Keyed(jobs) && jobs == Taken(old(jobs), (set id | id in ids), worker, now)
      ensures |items| == |ids| && Distinct(items)
      ensures forall i :: 0 <= i < |ids| ==> items[i].jobId == ids[i] && items[i] == jobs[ids[i]]
    {
      hide Taken;
      ghost var before := jobs;
      items := [];
      TakenNone(before, worker, now);
      assert (set id | id in ids[..0]) == {};
      for i := 0 to |ids|
        invariant |items| == i && jobs == Taken(before, (set id | id in ids[..i]), worker, now)
        invariant forall j :: 0 <= j < i ==> items[j] == ClaimedJob(before[ids[j]], worker, now)
      {
        TakenOneMore(before, ids, i, worker, now);
        var item := jobs[ids[i]].(status := "running", lockedAt := Some(now), lockedBy := Some(worker));
        jobs := jobs[ids[i] := item];
        items := items + [item];
      }
      assert ids[..|ids|] == ids;
      TakenItems(before, ids, items, worker, now);
    }

    method ResetRunningJobs(queueName: string, reason: string) returns (r: Result<()>)
      modifies this
      ensures r.Err? <==> Blank(queueName)
      ensures jobs == if r.Err? then old(jobs) else AllReset(old(jobs), TrimSpace(queueName), TrimSpace(reason))
    {
      if Blank(queueName) {
        return Err("queue is required");
      }
      jobs := AllReset(jobs, TrimSpace(queueName), TrimSpace(reason));
      return Ok(());
    }

    method CompleteJob(jobId: string, finishedAt: Option<nat>, now: nat) returns (r: Result<Job>)
      modifies this
      ensures r.Ok? <==> TrimSpace(jobId) in old(jobs)
      ensures r.Ok? ==> r.value == CompletedJob(old(jobs)[TrimSpace(jobId)], TimeOr(finishedAt, now))
      ensures jobs == if r.Ok? then old(jobs)[TrimSpace(jobId) := r.value] else old(jobs)
    {
      var id := TrimSpace(jobId);
      if id !in jobs {
        return Err("not found");
      }
      var finished := if finishedAt.Some? && finishedAt.value != 0 then finishedAt.value else now;
      jobs := jobs[id := jobs[id].(status := "completed", lockedAt := None, lockedBy := None,
                                   finishedAt := Some(finished))];
      return Ok(jobs[id]);
    }

    method FailJob(jobId: string, error: string, retryAt: Option<nat>, failedAt: Option<nat>, now: nat)
      returns (r: Result<Job>)
      modifies this
      ensures r.Ok? <==> !Blank(error) && TrimSpace(jobId) in old(jobs)
      ensures r.Ok? ==> r.value == FailedJob(old(jobs)[TrimSpace(jobId)], error, TimeOr(retryAt, now),
                                             TimeOr(failedAt, TimeOr(retryAt, now)))
      ensures jobs == if r.Ok? then old(jobs)[TrimSpace(jobId) := r.value] else old(jobs)
    {
      if Blank(error) {
        return Err("error is required");
      }
      var retry := if retryAt.Some? && retryAt.value != 0 then retryAt.value else now;
      var failed := if failedAt.Some? && failedAt.value != 0 then failedAt.value else retry;
      var id := TrimSpace(jobId);
      if id !in jobs {
        return Err("not found");
      }
      var item := jobs[id].(attempts := jobs[id].attempts + 1, lastError := Some(error), lockedAt := None,
                            lockedBy := None);
      if item.attempts >= item.maxAttempts {
        item := item.(finishedAt := Some(failed), status := "failed");
      } else {
        item := item.(runAt := retry, finishedAt := None, status := "pending");
      }
      jobs := jobs[id := item];
      return Ok(item);
    }
  }

  ghost predicate Keyed(jobs: Jobs) {
    forall id :: id in jobs ==> jobs[id].jobId == id
  }

  ghost function IdsOf(items: seq<Job>): set<string> {
    set i | 0 <= i < |items| :: items[i].jobId
  }

  lemma TakenNone(jobs: Jobs, worker: string, now: nat)
    ensures Taken(jobs, {}, worker, now) == jobs
  {}

  lemma TakenOneMore(jobs: Jobs, ids: seq<string>, i: nat, worker: string, now: nat)
    requires Distinct(ids) && i < |ids| && ids[i] in jobs
    ensures var sofar, next := Taken(jobs, (set id | id in ids[..i]), worker, now), ids[..i + 1];
            && ids[i] in sofar && sofar[ids[i]] == jobs[ids[i]]
            && sofar[ids[i] := ClaimedJob(jobs[ids[i]], worker, now)]
               == Taken(jobs, (set id | id in next), worker, now)
  {
    hide ClaimedJob;
    assert ids[i] !in ids[..i];
    assert ids[..i + 1] == ids[..i] + [ids[i]];
  }

  lemma TakenItems(jobs: Jobs, ids: seq<string>, items: seq<Job>, worker: string, now: nat)
    requires Keyed(jobs) && Distinct(ids) && |items| == |ids|
    requires forall i :: 0 <= i < |ids| ==> ids[i] in jobs && items[i] == ClaimedJob(jobs[ids[i]], worker, now)
    ensures var taken := Taken(jobs, (set id | id in ids), worker, now);
            && Keyed(taken) && Distinct(items)
            && forall i :: 0 <= i < |ids| ==> items[i].jobId == ids[i] && ids[i] in taken && items[i] == taken[ids[i]]
  {
    var taken := Taken(jobs, (set id | id in ids), worker, now);
    forall i | 0 <= i < |ids| ensures items[i].jobId == ids[i] && ids[i] in taken && items[i] == taken[ids[i]] {
      assert ids[i] in ids;
    }
  }

  lemma ItemIds(items: seq<Job>, ids: seq<string>)
    requires |items| == |ids| && forall i :: 0 <= i < |ids| ==> items[i].jobId == ids[i]
    ensures IdsOf(items) == set id | id in ids
  {
    forall id | id in ids ensures id in IdsOf(items) {
      var i :| 0 <= i < |ids| && ids[i] == id;
      assert items[i].jobId == id;
    }
  }

  lemma ChosenStored(jobs: Jobs, queue: string, now: nat, limit: nat, chosen: set<string>)
    requires ValidChoice(jobs, queue, now, limit, chosen)
    ensures forall id :: id in chosen ==> id in jobs && Due(jobs[id], queue, now)
  {}

  // ----- Runs -----

  /** One statement against the table.  A claim carries the jobs the select returned, a completion or failure
      the worker that asks for it. */
  datatype Op =
    | EnqueueOp(input: EnqueueInput, freshId: string, now: nat)
    | ClaimOp(worker: string, queue: string, now: nat, limit: nat, chosen: set<string>)
    | CompleteOp(worker: string, jobId: string, at: nat)
    | FailOp(worker: string, jobId: string, error: string, retryAt: nat, failedAt: nat)
    | ResetOp(queue: string, reason: string)

  function Step(jobs: Jobs, op: Op): Jobs {
    match op
    case EnqueueOp(input, freshId, now) =>
      var r := Enqueue(jobs, input, freshId, now);
      if r.Ok? then jobs[r.value.jobId := r.value] else jobs
    case ClaimOp(worker, _, now, _, chosen) => Taken(jobs, chosen, worker, now)
    case CompleteOp(_, id, at) => if id in jobs then jobs[id := CompletedJob(jobs[id], at)] else jobs
    case FailOp(_, id, error, retryAt, failedAt) =>
      if id in jobs then jobs[id := FailedJob(jobs[id], error, retryAt, failedAt)] else jobs
    case ResetOp(queue, reason) => AllReset(jobs, queue, reason)
  }

  predicate HeldBy(jobs: Jobs, id: string, worker: string) {
    id in jobs && jobs[id].status == "running" && jobs[id].lockedBy == Some(worker)
  }

  /** Jobs enter pending with at least one attempt, and only the holder completes or fails a job. */
  ghost predicate Allowed(jobs: Jobs, op: Op) {
    match op
    case EnqueueOp(input, _, _) => StatusOrDefault(input.status, "pending") == "pending" && input.maxAttempts >= 0
    case ClaimOp(_, queue, now, limit, chosen) => ValidChoice(jobs, queue, now, limit, chosen)
    case CompleteOp(worker, id, _) => HeldBy(jobs, id, worker)
    case FailOp(worker, id, _, _, _) => HeldBy(jobs, id, worker)
    case ResetOp(_, _) => true
  }

  ghost function Run(jobs: Jobs, ops: seq<Op>): Jobs
    decreases |ops|
  {
    if ops == [] then jobs else Run(Step(jobs, ops[0]), ops[1..])
  }

  ghost predicate AllowedRun(jobs: Jobs, ops: seq<Op>)
    decreases |ops|
  {
    ops == [] || (Allowed(jobs, ops[0]) && AllowedRun(Step(jobs, ops[0]), ops[1..]))
  }

  /** A lock exactly while running, a finish time exactly when completed or failed, and all attempts used
      exactly when failed. */
  ghost predicate JobValid(job: Job) {
    && (job.status == "pending" || job.status == "running" || job.status == "completed" || job.status == "failed")
    && (job.lockedBy.Some? <==> job.status == "running")
    && (job.lockedAt.Some? <==> job.status == "running")
    && (job.finishedAt.Some? <==> job.status == "completed" || job.status == "failed")
    && job.attempts <= job.maxAttempts && 1 <= job.maxAttempts
    && (job.attempts == job.maxAttempts <==> job.status == "failed")
  }

  ghost predicate QueueValid(jobs: Jobs) {
    forall id :: id in jobs ==> JobValid(jobs[id])
  }

  lemma NewJobValid(input: EnqueueInput, freshId: string, now: nat)
    requires StatusOrDefault(input.status, "pending") == "pending" && input.maxAttempts >= 0
    ensures JobValid(NewJob(input, freshId, now))
  {
    hide StatusOrDefault, NullString, Blank, TimeOr;
  }

  lemma StepKeeps(jobs: Jobs, op: Op)
    requires QueueValid(jobs) && Allowed(jobs, op)
    ensures QueueValid(Step(jobs, op))
    ensures forall id :: id in jobs ==> id in Step(jobs, op) && Step(jobs, op)[id].queue == jobs[id].queue
  {
    hide StatusOrDefault, Blank, NewJob, ValidChoice, ClaimedJob, CompletedJob, FailedJob, ResetJob, JobValid;
    match op {
      case EnqueueOp(input, freshId, now) => NewJobValid(input, freshId, now);
      case ClaimOp(worker, queue, now, limit, chosen) =>
        ChosenStored(jobs, queue, now, limit, chosen);
        forall id | id in chosen
          ensures JobValid(ClaimedJob(jobs[id], worker, now))
                  && ClaimedJob(jobs[id], worker, now).queue == jobs[id].queue
        {
          ClaimValid(jobs[id], worker, now);
        }
      case CompleteOp(_, id, at) => FinishValid(jobs[id], "", 0, 0, at);
      case FailOp(_, id, error, retryAt, failedAt) => FinishValid(jobs[id], error, retryAt, failedAt, 0);
      case ResetOp(queue, reason) =>
        forall id | id in jobs
          ensures JobValid(ResetJob(jobs[id], queue, reason))
                  && ResetJob(jobs[id], queue, reason).queue == jobs[id].queue
        {
          ResetValid(jobs[id], queue, reason);
        }
    }
  }

  lemma ClaimValid(job: Job, worker: string, now: nat)
    requires JobValid(job) && job.status == "pending"
    ensures JobValid(ClaimedJob(job, worker, now)) && ClaimedJob(job, worker, now).queue == job.queue
  {}

  lemma FinishValid(job: Job, error: string, retryAt: nat, failedAt: nat, at: nat)
    requires JobValid(job) && job.status == "running"
    ensures JobValid(CompletedJob(job, at)) && CompletedJob(job, at).queue == job.queue
    ensures JobValid(FailedJob(job, error, retryAt, failedAt))
            && FailedJob(job, error, retryAt, failedAt).queue == job.queue
  {}

  lemma ResetValid(job: Job, queue: string, reason: string)
    requires JobValid(job)
    ensures JobValid(ResetJob(job, queue, reason)) && ResetJob(job, queue, reason).queue == job.queue
  {}

  /** Over every run: the queue stays valid and no job is lost or moved to another queue. */
  lemma {:induction false} RunKeeps(jobs: Jobs, ops: seq<Op>)
    requires QueueValid(jobs) && AllowedRun(jobs, ops)
    ensures QueueValid(Run(jobs, ops))
    ensures forall id :: id in jobs ==> id in Run(jobs, ops) && Run(jobs, ops)[id].queue == jobs[id].queue
    decreases |ops|
  {
    hide Allowed, Step, JobValid;
    if ops != [] {
      StepKeeps(jobs, ops[0]);
      RunKeeps(Step(jobs, ops[0]), ops[1..]);
    }
  }

  // ----- No two claims without a release -----

  predicate Claims(op: Op, id: string) {
    op.ClaimOp? && id in op.chosen
  }

  /** op puts the job back for another claim: it fails it or resets its queue. */
  predicate Releases(op: Op, id: string, queue: string) {
    (op.FailOp? && op.jobId == id) || (op.ResetOp? && op.queue == queue)
  }

  ghost predicate Released(ops: seq<Op>, id: string, queue: string) {
    exists i :: 0 <= i < |ops| && Releases(ops[i], id, queue)
  }

  lemma StaysTaken(jobs: Jobs, op: Op, id: string)
    requires Allowed(jobs, op) && id in jobs && jobs[id].status != "pending" && !Releases(op, id, jobs[id].queue)
    ensures !Claims(op, id)
    ensures id in Step(jobs, op) && Step(jobs, op)[id].status != "pending" && Step(jobs, op)[id].queue == jobs[id].queue
  {
    hide StatusOrDefault, Blank;
  }

  lemma {:induction false} StaysTakenThrough(jobs: Jobs, ops: seq<Op>, id: string)
    requires AllowedRun(jobs, ops) && id in jobs && jobs[id].status != "pending" && !Released(ops, id, jobs[id].queue)
    ensures id in Run(jobs, ops) && Run(jobs, ops)[id].status != "pending"
    decreases |ops|
  {
    hide Allowed, Step, Releases;
    if ops != [] {
      assert !Releases(ops[0], id, jobs[id].queue);
      StaysTaken(jobs, ops[0], id);
      var rest := ops[1..];
      forall i | 0 <= i < |rest| ensures !Releases(rest[i], id, jobs[id].queue) { assert rest[i] == ops[i + 1]; }
      StaysTakenThrough(Step(jobs, ops[0]), rest, id);
    }
  }

  /** From any state: between two claims that return the same job, the job was failed or its queue reset. */
  lemma NoDoubleClaim(jobs: Jobs, first: Op, between: seq<Op>, second: Op, id: string)
    requires Allowed(jobs, first) && Claims(first, id)
    requires AllowedRun(Step(jobs, first), between)
    requires Allowed(Run(Step(jobs, first), between), second) && Claims(second, id)
    ensures id in jobs && Released(between, id, jobs[id].queue)
  {
    ChosenStored(jobs, first.queue, first.now, first.limit, first.chosen);
    var claimed := Step(jobs, first);
    var last := Run(claimed, between);
    ChosenStored(last, second.queue, second.now, second.limit, second.chosen);
    if !Released(between, id, claimed[id].queue) {
      StaysTakenThrough(claimed, between, id);
    }
  }

  lemma OnlyClaimed(jobs: Jobs, op: Op, id: string)
    requires Allowed(jobs, op) && id in jobs && jobs[id].status != "running" && !Claims(op, id)
    ensures id in Step(jobs, op) && Step(jobs, op)[id] == jobs[id]
  {
    hide StatusOrDefault, Blank, NewJob;
  }

  /** A job that nobody holds stays as it is until a claim takes it. */
  lemma {:induction false} WaitsUntouched(jobs: Jobs, ops: seq<Op>, id: string)
    requires AllowedRun(jobs, ops) && id in jobs && jobs[id].status != "running"
    requires forall i :: 0 <= i < |ops| ==> !Claims(ops[i], id)
    ensures id in Run(jobs, ops) && Run(jobs, ops)[id] == jobs[id]
    decreases |ops|
  {
    hide Allowed, Step, Claims;
    if ops != [] {
      assert !Claims(ops[0], id);
      OnlyClaimed(jobs, ops[0], id);
      var rest := ops[1..];
      forall i | 0 <= i < |rest| ensures !Claims(rest[i], id) { assert rest[i] == ops[i + 1]; }
      WaitsUntouched(Step(jobs, ops[0]), rest, id);
    }
  }

  /** From any state: the next claim of a failed job comes no earlier than its retry time, in its own queue, and
      never when the failure used its last attempt; whatever else was done to the queue in between. */
  lemma RetryNotEarly(jobs: Jobs, failure: Op, between: seq<Op>, claim: Op, id: string)
    requires failure.FailOp? && failure.jobId == id && Allowed(jobs, failure)
    requires AllowedRun(Step(jobs, failure), between)
    requires forall i :: 0 <= i < |between| ==> !Claims(between[i], id)
    requires Allowed(Run(Step(jobs, failure), between), claim) && Claims(claim, id)
    ensures failure.retryAt <= claim.now && claim.queue == jobs[id].queue
    ensures jobs[id].attempts + 1 < jobs[id].maxAttempts
    ensures Run(Step(jobs, failure), between)[id].lastError == Some(failure.error)
  {
    var failed := Step(jobs, failure);
    WaitsUntouched(failed, between, id);
    hide Run;
    ChosenStored(Run(failed, between), claim.queue, claim.now, claim.limit, claim.chosen);
  }

  // ----- What was asked for is what is claimed -----

  /** A job is refused for want of a kind or for an id that is taken; otherwise it is stored with what the request
      gives, and with the defaults for what it leaves open. */
  lemma EnqueueStoresRequest(jobs: Jobs, input: EnqueueInput, freshId: string, now: nat)
    ensures var id := if Blank(input.jobId) then freshId else input.jobId;
            var t := Step(jobs, EnqueueOp(input, freshId, now));
            if Blank(input.kind) || id in jobs then t == jobs
            else
              && t.Keys == jobs.Keys + {id} && (forall j :: j in jobs ==> t[j] == jobs[j])
              && t[id].jobId == id && t[id].kind == input.kind && t[id].payload == input.payload
              && t[id].queue == (if Blank(input.queue) then "default" else TrimSpace(input.queue))
              && t[id].status == (if Blank(input.status) then "pending" else TrimSpace(input.status))
              && (if input.runAt.Some? && input.runAt.value != 0 then t[id].runAt == input.runAt.value
                  else t[id].runAt == now)
              && t[id].priority == (if input.priority != 0 then input.priority else 100)
              && t[id].maxAttempts == (if input.maxAttempts != 0 then input.maxAttempts else 10)
              && t[id].dedupeKey == (if Blank(input.dedupeKey) then None else Some(TrimSpace(input.dedupeKey)))
              && t[id].attempts == 0 && t[id].lockedBy.None? && t[id].lockedAt.None? && t[id].finishedAt.None?
              && t[id].lastError.None?
  {
    hide TrimSpace;
  }

  /** What no operation but a failure changes. */
  predicate SameRequest(a: Job, b: Job) {
    && a.jobId == b.jobId && a.queue == b.queue && a.kind == b.kind && a.payload == b.payload && a.runAt == b.runAt
    && a.priority == b.priority && a.maxAttempts == b.maxAttempts && a.dedupeKey == b.dedupeKey
  }

  predicate Fails(op: Op, id: string) {
    op.FailOp? && op.jobId == id
  }

  lemma StepKeepsRequest(jobs: Jobs, op: Op, id: string)
    requires id in jobs && !Fails(op, id)
    ensures id in Step(jobs, op) && SameRequest(Step(jobs, op)[id], jobs[id])
  {
    hide NewJob, Blank;
  }

  lemma {:induction false} RunKeepsRequest(jobs: Jobs, ops: seq<Op>, id: string)
    requires id in jobs && forall i :: 0 <= i < |ops| ==> !Fails(ops[i], id)
    ensures id in Run(jobs, ops) && SameRequest(Run(jobs, ops)[id], jobs[id])
    decreases |ops|
  {
    hide Step, Fails;
    if ops != [] {
      assert !Fails(ops[0], id);
      StepKeepsRequest(jobs, ops[0], id);
      var rest := ops[1..];
      forall i | 0 <= i < |rest|
        ensures !Fails(rest[i], id)
      {
        assert rest[i] == ops[i + 1];
      }
      RunKeepsRequest(Step(jobs, ops[0]), rest, id);
    }
  }

  /** Over every run a job that is enqueued and has not failed yet is claimed no earlier than the time its request
      gives, or than its enqueueing when it gives none, and only from the queue the request names. */
  lemma NotClaimedEarly(jobs: Jobs, input: EnqueueInput, freshId: string, now: nat, between: seq<Op>, claim: Op)
    requires var id := if Blank(input.jobId) then freshId else input.jobId;
             var enqueued := Step(jobs, EnqueueOp(input, freshId, now));
             && !Blank(input.kind) && id !in jobs
             && (forall i :: 0 <= i < |between| ==> !Fails(between[i], id))
             && Claims(claim, id) && Allowed(Run(enqueued, between), claim)
    ensures if input.runAt.Some? && input.runAt.value != 0 then claim.now >= input.runAt.value else claim.now >= now
    ensures claim.queue == if Blank(input.queue) then "default" else TrimSpace(input.queue)
  {
    var id := if Blank(input.jobId) then freshId else input.jobId;
    var enqueued := Step(jobs, EnqueueOp(input, freshId, now));
    EnqueueStoresRequest(jobs, input, freshId, now);
    hide Step, Run, Blank, TrimSpace;
    RunKeepsRequest(enqueued, between, id);
    ChosenStored(Run(enqueued, between), claim.queue, claim.now, claim.limit, claim.chosen);
  }

  /** A job that is completed, or fails for the last time, stays so over every run: it keeps its finish time, its
      attempts and its error, and is never claimed again. */
  lemma FinishedForever(jobs: Jobs, finish: Op, ops: seq<Op>, id: string)
    requires finish.CompleteOp? || finish.FailOp?
    requires finish.jobId == id && Allowed(jobs, finish) && AllowedRun(Step(jobs, finish), ops)
    requires finish.FailOp? ==> jobs[id].attempts + 1 >= jobs[id].maxAttempts
    ensures var t := Run(Step(jobs, finish), ops);
            && id in t && t[id].lockedBy.None? && t[id].lockedAt.None?
            && t[id].runAt == jobs[id].runAt && t[id].payload == jobs[id].payload
            && (finish.CompleteOp? ==>
                  && t[id].status == "completed" && t[id].finishedAt == Some(finish.at)
                  && t[id].attempts == jobs[id].attempts && t[id].lastError == jobs[id].lastError)
            && (finish.FailOp? ==>
                  && t[id].status == "failed" && t[id].finishedAt == Some(finish.failedAt)
                  && t[id].attempts == jobs[id].attempts + 1 && t[id].lastError == Some(finish.error))
  {
    NeverAgain(Step(jobs, finish), ops, id);
  }

  lemma {:induction false} NeverAgain(jobs: Jobs, ops: seq<Op>, id: string)
    requires id in jobs && (jobs[id].status == "completed" || jobs[id].status == "failed") && AllowedRun(jobs, ops)
    ensures id in Run(jobs, ops) && Run(jobs, ops)[id] == jobs[id]
    decreases |ops|
  {
    if ops != [] {
      if Claims(ops[0], id) {
        ChosenStored(jobs, ops[0].queue, ops[0].now, ops[0].limit, ops[0].chosen);
      }
      OnlyClaimed(jobs, ops[0], id);
      hide Step, Allowed, Claims;
      NeverAgain(Step(jobs, ops[0]), ops[1..], id);
    }
  }

  // ----- Job ids with spaces around them -----

  /** Whoever completes or fails a job names it by a trimmed id. */
  predicate Addressed(op: Op) {
    op.CompleteOp? || op.FailOp? ==> TrimSpace(op.jobId) == op.jobId
  }

  /** Completing or failing a running job under its own id settles it exactly when the id, which is stored as it
      was given, carries no surrounding spaces. */
  lemma SettledIff(jobs: Jobs, id: string, worker: string, error: string, retryAt: nat, at: nat)
    requires id in jobs && jobs[id].status == "running"
    ensures Step(jobs, CompleteOp(worker, TrimSpace(id), at))[id].status != "running" <==> TrimSpace(id) == id
    ensures Step(jobs, FailOp(worker, TrimSpace(id), error, retryAt, at))[id].status != "running"
        <==> TrimSpace(id) == id
  {
    hide TrimSpace;
  }

  lemma PaddedStep(jobs: Jobs, op: Op, id: string)
    requires id in jobs && TrimSpace(id) != id && Addressed(op)
    requires jobs[id].status == "pending" || jobs[id].status == "running"
    ensures id in Step(jobs, op)
    ensures Step(jobs, op)[id].status == "pending" || Step(jobs, op)[id].status == "running"
    ensures Step(jobs, op)[id].attempts == jobs[id].attempts && Step(jobs, op)[id].queue == jobs[id].queue
  {
    hide TrimSpace, StatusOrDefault, NewJob;
  }

  /** A job whose id carries spaces is never completed, never failed and never charged an attempt, over any run:
      it is claimed, waits for a reset, and is claimed again. */
  lemma {:induction false} PaddedNeverSettles(jobs: Jobs, ops: seq<Op>, id: string)
    requires id in jobs && TrimSpace(id) != id && forall i :: 0 <= i < |ops| ==> Addressed(ops[i])
    requires jobs[id].status == "pending" || jobs[id].status == "running"
    ensures id in Run(jobs, ops) && (Run(jobs, ops)[id].status == "pending" || Run(jobs, ops)[id].status == "running")
    ensures Run(jobs, ops)[id].attempts == jobs[id].attempts
    decreases |ops|
  {
    hide Step, Addressed, TrimSpace;
    if ops != [] {
      assert Addressed(ops[0]);
      PaddedStep(jobs, ops[0], id);
      var rest := ops[1..];
      forall i | 0 <= i < |rest|
        ensures Addressed(rest[i])
      {
        assert rest[i] == ops[i + 1];
      }
      PaddedNeverSettles(Step(jobs, ops[0]), rest, id);
    }
  }

  // ----- Attempts pay for claims -----

  /** How often the job can still be claimed if nothing resets it. */
  function Potential(job: Job): int {
    if job.status == "pending" then job.maxAttempts - job.attempts
    else if job.status == "running" then job.maxAttempts - job.attempts - 1
    else 0
  }

  ghost function ClaimCount(ops: seq<Op>, id: string): nat
    decreases |ops|
  {
    if ops == [] then 0 else (if Claims(ops[0], id) then 1 else 0) + ClaimCount(ops[1..], id)
  }

  ghost function FailCount(ops: seq<Op>, id: string): nat
    decreases |ops|
  {
    if ops == [] then 0 else (if ops[0].FailOp? && ops[0].jobId == id then 1 else 0) + FailCount(ops[1..], id)
  }

  /** How often a reset took the job from its holder. */
  ghost function Interruptions(jobs: Jobs, ops: seq<Op>, id: string): nat
    decreases |ops|
  {
    if ops == [] then 0 else
    (if ops[0].ResetOp? && id in jobs && jobs[id].queue == ops[0].queue && jobs[id].status == "running" then 1 else 0)
    + Interruptions(Step(jobs, ops[0]), ops[1..], id)
  }

  lemma StepPays(jobs: Jobs, op: Op, id: string)
    requires QueueValid(jobs) && Allowed(jobs, op) && id in jobs
    ensures id in Step(jobs, op)
    ensures jobs[id].status == "completed" ==> Step(jobs, op)[id].status == "completed"
    ensures Step(jobs, op)[id].attempts == jobs[id].attempts + FailCount([op], id)
    ensures ClaimCount([op], id) + Potential(Step(jobs, op)[id]) <= Potential(jobs[id]) + Interruptions(jobs, [op], id)
    ensures Step(jobs, op)[id].status != "completed" ==>
              ClaimCount([op], id) + Potential(Step(jobs, op)[id])
              == Potential(jobs[id]) + Interruptions(jobs, [op], id)
  {
    hide StatusOrDefault, Blank;
    assert [op][1..] == [];
    assert JobValid(jobs[id]);
  }

  lemma SumsSplit(jobs: Jobs, ops: seq<Op>, id: string)
    requires ops != []
    ensures ClaimCount(ops, id) == ClaimCount([ops[0]], id) + ClaimCount(ops[1..], id)
    ensures FailCount(ops, id) == FailCount([ops[0]], id) + FailCount(ops[1..], id)
    ensures Interruptions(jobs, ops, id)
         == Interruptions(jobs, [ops[0]], id) + Interruptions(Step(jobs, ops[0]), ops[1..], id)
  {
    hide Step;
    assert [ops[0]][1..] == [];
  }

  /** Over every run attempts count failures exactly, and claims are paid for: each claim uses one unit of the
      job's potential, an interruption gives one back, a completion forfeits the rest. */
  lemma {:induction false} ClaimsArePaidFor(jobs: Jobs, ops: seq<Op>, id: string)
    requires QueueValid(jobs) && AllowedRun(jobs, ops) && id in jobs
    ensures id in Run(jobs, ops)
    ensures jobs[id].status == "completed" ==> Run(jobs, ops)[id].status == "completed"
    ensures Run(jobs, ops)[id].attempts == jobs[id].attempts + FailCount(ops, id)
    ensures ClaimCount(ops, id) + Potential(Run(jobs, ops)[id]) <= Potential(jobs[id]) + Interruptions(jobs, ops, id)
    ensures Run(jobs, ops)[id].status != "completed" ==>
              ClaimCount(ops, id) + Potential(Run(jobs, ops)[id]) == Potential(jobs[id]) + Interruptions(jobs, ops, id)
    decreases |ops|
  {
    hide Allowed, Step, JobValid, Potential, Claims;
    if ops != [] {
      StepKeeps(jobs, ops[0]);
      StepPays(jobs, ops[0], id);
      SumsSplit(jobs, ops, id);
      ClaimsArePaidFor(Step(jobs, ops[0]), ops[1..], id);
    }
  }

  lemma {:induction false} NoInterruption(jobs: Jobs, ops: seq<Op>, id: string)
    requires forall i :: 0 <= i < |ops| ==> !ops[i].ResetOp?
    ensures Interruptions(jobs, ops, id) == 0
    decreases |ops|
  {
    hide Step;
    if ops != [] { NoInterruption(Step(jobs, ops[0]), ops[1..], id); }
  }

  /** With no resets the remaining attempts bound the number of claims. */
  lemma RemainingAttemptsBoundClaims(jobs: Jobs, ops: seq<Op>, id: string)
    requires QueueValid(jobs) && AllowedRun(jobs, ops) && id in jobs
    requires forall i :: 0 <= i < |ops| ==> !ops[i].ResetOp?
    ensures ClaimCount(ops, id) <= jobs[id].maxAttempts - jobs[id].attempts
  {
    hide Allowed, Step;
    NoInterruption(jobs, ops, id);
    ClaimsArePaidFor(jobs, ops, id);
    RunKeeps(jobs, ops);
    assert JobValid(Run(jobs, ops)[id]) && JobValid(jobs[id]);
  }
}
