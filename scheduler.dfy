/** The bounded-concurrency download scheduler: a counter of running
    downloads, a FIFO queue of waiting submissions, and the promise each
    submission returned to its caller.  Every method is one step of the
    single-threaded event loop. */
module Scheduling {
  import opened Jobs

  /** The identity of the promise a submission returns; a queued entry keeps
      it so that its caller is answered when the job eventually runs. */
  type Handle = nat

  /** A queue entry: the job and the promise (resolve/reject pair) of the
      caller that submitted it. */
  datatype Pending = Pending(job: Job, handle: Handle)

  /** The body of the `/status` reply. */
  datatype StatusReport = StatusReport(
    activeDownloads: nat, maxConcurrent: int, queueLength: nat, queuedItems: seq<string>)

  /** `config.maxConcurrentDownloads || 3`: a missing or zero setting falls
      back to three. */
  function ConcurrencyLimit(configured: Option<int>): (r: int)
    ensures r != 0
    ensures configured.Some? && configured.value != 0 ==> r == configured.value
    ensures configured.None? || configured.value == 0 ==> r == 3
  {
    match configured
    case Some(n) => if n != 0 then n else 3
    case None => 3
  }

  /** The jobs `jobs` tagged with consecutive handles starting at `first`. */
  function Tagged(jobs: seq<Job>, first: Handle): (r: seq<Pending>)
    ensures |r| == |jobs|
    ensures forall k :: 0 <= k < |jobs| ==> r[k] == Pending(jobs[k], first + k)
  {
    seq(|jobs|, k requires 0 <= k < |jobs| => Pending(jobs[k], first + k))
  }

  /** The handles `first`, ..., `first + n - 1`. */
  function HandleRange(first: Handle, n: nat): (r: set<Handle>)
    ensures forall h :: h in r <==> first <= h < first + n
    decreases n
  {
    if n == 0 then {} else HandleRange(first, n - 1) + {first + n - 1}
  }

  /** A snapshot of the scheduler's fields, real and ghost. */
  datatype State = State(
    active: nat, queue: seq<Pending>, settled: map<Handle, Outcome>, nextHandle: Handle,
    running: set<Handle>, submitted: seq<Pending>, started: seq<Pending>,
    enqueued: seq<Pending>, dequeued: seq<Pending>)

  /** The state after one submission of `job` to a scheduler in state `st`
      with `capacity` slots: the job starts when a slot is free and waits at
      the back of the queue otherwise. */
  function AfterSubmit(st: State, capacity: nat, job: Job): State {
    var p := Pending(job, st.nextHandle);
    var st' := st.(nextHandle := st.nextHandle + 1, submitted := st.submitted + [p]);
    if st.active < capacity then
      st'.(active := st.active + 1, running := st.running + {p.handle}, started := st.started + [p])
    else
      st'.(queue := st.queue + [p], enqueued := st.enqueued + [p])
  }

  /** The state after submitting `jobs` one after the other to a scheduler
      in state `st` with `capacity` slots. */
  function AfterSubmits(st: State, capacity: nat, jobs: seq<Job>): (r: State)
    ensures r.nextHandle == st.nextHandle + |jobs|
    decreases |jobs|
  {
    if jobs == [] then st
    else AfterSubmit(AfterSubmits(st, capacity, jobs[..|jobs| - 1]), capacity, jobs[|jobs| - 1])
  }

  /** The same state in closed form: as many of the jobs as there are free
      slots start, in order, and the rest wait behind the queue, in order. */
  function StartOrQueue(st: State, capacity: nat, jobs: seq<Job>): (r: State)
    ensures r.settled == st.settled && r.dequeued == st.dequeued
    ensures r.submitted == st.submitted + Tagged(jobs, st.nextHandle)
  {
    var free := if st.active <= capacity then capacity - st.active else 0;
    var n := if free < |jobs| then free else |jobs|;
    var tagged := Tagged(jobs, st.nextHandle);
    State(st.active + n, st.queue + tagged[n..], st.settled, st.nextHandle + |jobs|,
          st.running + HandleRange(st.nextHandle, n), st.submitted + tagged,
          st.started + tagged[..n], st.enqueued + tagged[n..], st.dequeued)
  }

  /** Submitting one job at a time gives the closed form. */
  lemma {:induction false} AfterSubmitsInClosedForm(st: State, capacity: nat, jobs: seq<Job>)
    ensures AfterSubmits(st, capacity, jobs) == StartOrQueue(st, capacity, jobs)
    decreases |jobs|
  {
    if jobs != [] {
      var init := jobs[..|jobs| - 1];
      AfterSubmitsInClosedForm(st, capacity, init);
      StartOrQueueStep(st, capacity, init, jobs[|jobs| - 1]);
      assert init + [jobs[|jobs| - 1]] == jobs;
    }
  }

  /** One more submission extends the closed form by one job. */
  lemma StartOrQueueStep(st: State, capacity: nat, jobs: seq<Job>, job: Job)
    ensures StartOrQueue(st, capacity, jobs + [job]) == AfterSubmit(StartOrQueue(st, capacity, jobs), capacity, job)
  {
    var free := if st.active <= capacity then capacity - st.active else 0;
    var n := if free < |jobs| then free else |jobs|;
    var t := Tagged(jobs, st.nextHandle);
    var t' := Tagged(jobs + [job], st.nextHandle);
    var p := Pending(job, st.nextHandle + |jobs|);
    assert t' == t + [p];
    if n < free {
      assert t'[..n + 1] == t[..n] + [p] && t'[n + 1..] == [] && t[n..] == [];
      assert HandleRange(st.nextHandle, n + 1) == HandleRange(st.nextHandle, n) + {p.handle};
    } else {
      assert t'[..n] == t[..n] && t'[n..] == t[n..] + [p];
    }
  }

  /** Submissions never overfill the slots, a job waits only when every
      slot is taken, and, when nobody was waiting or no slot was free,
      the jobs started and waiting are the old ones followed by the new
      ones in submission order. */
  lemma AfterSubmitsOrder(st: State, capacity: nat, jobs: seq<Job>)
    ensures var r := AfterSubmits(st, capacity, jobs);
            && r.submitted == st.submitted + Tagged(jobs, st.nextHandle)
            && (st.active <= capacity ==> r.active <= capacity)
            && (r.queue != st.queue ==> r.active >= capacity)
            && (st.queue == [] || st.active >= capacity ==>
                  r.started + r.queue == st.started + st.queue + Tagged(jobs, st.nextHandle))
  {
    AfterSubmitsInClosedForm(st, capacity, jobs);
    StartOrQueueOrder(st, capacity, jobs);
  }

  /** The order facts of `AfterSubmitsOrder`, on the closed form. */
  lemma StartOrQueueOrder(st: State, capacity: nat, jobs: seq<Job>)
    ensures var r := StartOrQueue(st, capacity, jobs);
            && (st.active <= capacity ==> r.active <= capacity)
            && (r.queue != st.queue ==> r.active >= capacity)
            && (st.queue == [] || st.active >= capacity ==>
                  r.started + r.queue == st.started + st.queue + Tagged(jobs, st.nextHandle))
  {
    var r := StartOrQueue(st, capacity, jobs);
    var free := if st.active <= capacity then capacity - st.active else 0;
    var n := if free < |jobs| then free else |jobs|;
    var tagged := Tagged(jobs, st.nextHandle);
    assert r.active == st.active + n && r.queue == st.queue + tagged[n..] && r.started == st.started + tagged[..n];
    if st.active >= capacity {
      assert n == 0 && tagged[..n] == [] && tagged[n..] == tagged;
    } else if st.queue == [] {
      assert tagged[..n] + tagged[n..] == tagged;
    }
    if r.queue != st.queue {
      assert tagged[n..] != [];
    }
  }

  class Scheduler {
    /** MAX_CONCURRENT_DOWNLOADS; nothing stops a configured negative value. */
    const max: int
    /** activeDownloads. */
    var active: nat
    /** downloadQueue, oldest entry first. */
    var queue: seq<Pending>
    /** The promises that have settled, with their outcome. */
    var settled: map<Handle, Outcome>
    /** The handle the next submission's promise receives. */
    var nextHandle: Handle

    /** The handles of the jobs whose downloader is running. */
    ghost var running: set<Handle>
    /** Every submission, in submission order. */
    ghost var submitted: seq<Pending>
    /** Every start of a downloader, in start order. */
    ghost var started: seq<Pending>
    /** Every entry appended to the queue, in order. */
    ghost var enqueued: seq<Pending>
    /** Every entry taken from the queue, in order. */
    ghost var dequeued: seq<Pending>

    /** The number of slots: the limit, or none when the limit is negative. */
    function Capacity(): nat
      reads this
    {
      if max < 0 then 0 else max
    }

    /** Slot and promise accounting: the counter is the number of running
        jobs and never exceeds the number of slots, and no promise is both
        waiting or running and settled. */
    ghost predicate Slots()
      reads this
    {
      && active <= Capacity()
      && active == |running|
      && (forall h :: h in running ==> h < nextHandle && h !in settled)
      && (forall h :: h in settled ==> h < nextHandle)
      && (forall i :: 0 <= i < |queue| ==>
            queue[i].handle < nextHandle && queue[i].handle !in running && queue[i].handle !in settled)
      && (forall i, j :: 0 <= i < j < |queue| ==> queue[i].handle < queue[j].handle)
    }

    /** The logs: entries leave the queue in the order they entered it (FIFO),
        and the submissions, in order, are the jobs started so far followed
        by the waiting ones, so jobs start exactly in submission order. */
    ghost predicate Logs()
      reads this
    {
      && enqueued == dequeued + queue
      && submitted == started + queue
    }

    /** The invariant that holds at every point, even inside a completion
        callback before the queue is served. */
    ghost predicate Sound()
      reads this
    {
      Slots() && Logs()
    }

    /** Promise accounting: the promises are numbered in submission order,
        and every started job is still running or has settled, so no promise
        is lost. */
    ghost predicate Accounted()
      reads this
    {
      && |submitted| == nextHandle
      && (forall i :: 0 <= i < |submitted| ==> submitted[i].handle == i)
      && (forall i :: 0 <= i < |started| ==> started[i].handle in running || started[i].handle in settled)
    }

    /** The invariant between event-loop steps: in addition, a job waits only
        while every slot is taken, and every promise is accounted for. */
    ghost predicate Valid()
      reads this
    {
      Sound() && Accounted() && (queue != [] ==> active == Capacity())
    }

    /** The fields as one value. */
    ghost function Snapshot(): State
      reads this
    {
      State(active, queue, settled, nextHandle, running, submitted, started, enqueued, dequeued)
    }

    /** Every promise handed out is running, waiting or settled. */
    lemma NoPromiseLost(h: Handle)
      requires Valid() && h < nextHandle
      ensures h in running || h in settled || exists i :: 0 <= i < |queue| && queue[i].handle == h
    {
      assert submitted[h].handle == h;
      if h < |started| {
        assert started[h] == submitted[h];
      } else {
        assert queue[h - |started|] == submitted[h];
      }
    }

    constructor (max: int)
      ensures Valid()
      ensures this.max == max && active == 0 && queue == [] && settled == map[] && nextHandle == 0
      ensures running == {} && submitted == [] && started == [] && enqueued == [] && dequeued == []
    {
      this.max := max;
      active := 0;
      queue := [];
      settled := map[];
      nextHandle := 0;
      running := {};
      submitted := [];
      started := [];
      enqueued := [];
      dequeued := [];
    }

    /** The `/status` projection: it only reads the scheduler. */
    function Status(): (r: StatusReport)
      reads this
      ensures r.activeDownloads == active && r.maxConcurrent == max
      ensures r.queueLength == |queue| && |r.queuedItems| == |queue|
      ensures forall i :: 0 <= i < |queue| ==> r.queuedItems[i] == queue[i].job.name
    {
      StatusReport(active, max, |queue|, seq(|queue|, i requires 0 <= i < |queue| reads this => queue[i].job.name))
    }

    /** The synchronous part of `executeDownload`: take a slot and hand the
        job to the downloader.  Its callers have checked that a slot is free. */
    method Execute(p: Pending)
      requires Slots() && active < max
      requires p.handle < nextHandle && p.handle !in running && p.handle !in settled
      requires forall i :: 0 <= i < |queue| ==> queue[i].handle != p.handle
      modifies this
      ensures Slots()
      ensures active == old(active) + 1
      ensures running == old(running) + {p.handle}
      ensures started == old(started) + [p]
      ensures queue == old(queue) && settled == old(settled) && nextHandle == old(nextHandle)
      ensures submitted == old(submitted) && enqueued == old(enqueued) && dequeued == old(dequeued)
    {
      active := active + 1;
      running := running + {p.handle};
      started := started + [p];
    }

    /** `processQueue`: when a job waits and a slot is free, start the oldest
        waiting job; otherwise do nothing. */
    method ProcessQueue()
      requires Sound()
      modifies this
      ensures Sound()
      ensures old(queue) != [] && old(active) < max ==>
        && queue == old(queue)[1..]
        && active == old(active) + 1
        && running == old(running) + {old(queue)[0].handle}
        && started == old(started) + [old(queue)[0]]
        && dequeued == old(dequeued) + [old(queue)[0]]
        && settled == old(settled) && nextHandle == old(nextHandle)
        && submitted == old(submitted) && enqueued == old(enqueued)
      ensures !(old(queue) != [] && old(active) < max) ==> unchanged(this)
    {
      if queue != [] && active < max {
        var p := queue[0];
        queue := queue[1..];
        dequeued := dequeued + [p];
        Execute(p);
      }
    }

    /** `downloadQueue.push(...)` for a job that found every slot taken. */
    method Enqueue(p: Pending)
      requires Slots() && active == Capacity()
      requires p.handle < nextHandle && p.handle !in running && p.handle !in settled
      requires forall i :: 0 <= i < |queue| ==> queue[i].handle < p.handle
      modifies this
      ensures Slots()
      ensures queue == old(queue) + [p] && enqueued == old(enqueued) + [p]
      ensures active == old(active) && running == old(running) && started == old(started)
      ensures settled == old(settled) && nextHandle == old(nextHandle)
      ensures submitted == old(submitted) && dequeued == old(dequeued)
    {
      queue := queue + [p];
      enqueued := enqueued + [p];
    }

    /** `queueDownload`: start the job at once when a slot is free, otherwise
        append it to the queue.  Returns the promise given to the caller. */
    method Submit(job: Job) returns (h: Handle)
      requires Valid()
      modifies this
      ensures Valid()
      ensures h == old(nextHandle) && nextHandle == h + 1
      ensures submitted == old(submitted) + [Pending(job, h)]
      ensures old(active) < max ==>
        && active == old(active) + 1
        && queue == old(queue)
        && running == old(running) + {h}
        && started == old(started) + [Pending(job, h)]
        && enqueued == old(enqueued)
      ensures old(active) >= max ==>
        && active == old(active)
        && queue == old(queue) + [Pending(job, h)]
        && running == old(running)
        && started == old(started)
        && enqueued == old(enqueued) + [Pending(job, h)]
      ensures settled == old(settled) && dequeued == old(dequeued)
      ensures Snapshot() == AfterSubmit(old(Snapshot()), Capacity(), job)
    {
      h := nextHandle;
      nextHandle := nextHandle + 1;
      var p := Pending(job, h);
      submitted := submitted + [p];
      if active < max {
        Execute(p);
      } else {
        Enqueue(p);
      }
    }

    /** The downloader of the running job `h` exited with `outcome`: free its
        slot, serve the queue once, then settle the job's promise (which also
        settles the caller's promise when the job had been queued). */
    method Complete(h: Handle, outcome: Outcome)
      requires Valid() && h in running
      modifies this
      ensures Valid()
      ensures h !in old(settled) && settled == old(settled)[h := outcome]
      ensures old(queue) != [] ==>
        && active == old(active)
        && queue == old(queue)[1..]
        && running == old(running) - {h} + {old(queue)[0].handle}
        && started == old(started) + [old(queue)[0]]
        && dequeued == old(dequeued) + [old(queue)[0]]
      ensures old(queue) == [] ==>
        && active == old(active) - 1
        && queue == []
        && running == old(running) - {h}
        && started == old(started)
        && dequeued == old(dequeued)
      ensures nextHandle == old(nextHandle) && submitted == old(submitted) && enqueued == old(enqueued)
    {
      Release(h);
      ProcessQueue();
      Settle(h, outcome);
    }

    /** The first step of a completion: the slot of the running job `h` is
        freed.  Every started job is still running or settled, or is `h`. */
    method Release(h: Handle)
      requires Valid() && h in running
      modifies this
      ensures Sound() && active < max && h !in running && h !in settled
      ensures h < nextHandle && forall i :: 0 <= i < |queue| ==> queue[i].handle != h
      ensures |submitted| == nextHandle && forall i :: 0 <= i < |submitted| ==> submitted[i].handle == i
      ensures forall i :: 0 <= i < |started| ==>
                started[i].handle in running || started[i].handle in settled || started[i].handle == h
      ensures active == old(active) - 1 && running == old(running) - {h}
      ensures queue == old(queue) && settled == old(settled) && nextHandle == old(nextHandle)
      ensures submitted == old(submitted) && started == old(started)
      ensures enqueued == old(enqueued) && dequeued == old(dequeued)
      ensures queue != [] ==> active + 1 == Capacity()
    {
      active := active - 1;
      running := running - {h};
    }

    /** The last step of a completion: the promise of `h`, which is neither
        running nor waiting, settles with `outcome`. */
    method Settle(h: Handle, outcome: Outcome)
      requires Sound() && h < nextHandle && h !in running && h !in settled
      requires forall i :: 0 <= i < |queue| ==> queue[i].handle != h
      modifies this
      ensures Sound()
      ensures settled == old(settled)[h := outcome]
      ensures active == old(active) && running == old(running) && queue == old(queue)
      ensures nextHandle == old(nextHandle) && submitted == old(submitted) && started == old(started)
      ensures enqueued == old(enqueued) && dequeued == old(dequeued)
    {
      settled := settled[h := outcome];
    }
  }

  /** Two submissions against a limit of two both start at once. */
  method TwoJobsLimitTwo(j1: Job, j2: Job) returns (s: Scheduler, h1: Handle, h2: Handle)
    ensures fresh(s) && s.Valid() && s.max == 2 && s.active == 2
    ensures h1 < h2 && s.running == {h1, h2} && s.started == [Pending(j1, h1), Pending(j2, h2)]
    ensures s.queue == []
  {
    s := new Scheduler(2);
    assert s.Capacity() == 2;
    h1 := s.Submit(j1);
    assert s.active == 1 && s.running == {h1} && s.started == [Pending(j1, h1)] && s.queue == [];
    h2 := s.Submit(j2);
  }

  /** Five submissions against a limit of two: the first two start and the
      other three wait, in submission order. */
  method FiveJobsLimitTwo(j1: Job, j2: Job, j3: Job, j4: Job, j5: Job)
    returns (s: Scheduler, h1: Handle, h2: Handle, h3: Handle, h4: Handle, h5: Handle)
    ensures fresh(s) && s.Valid() && s.max == 2
    ensures h1 < h2 && s.running == {h1, h2} && s.started == [Pending(j1, h1), Pending(j2, h2)]
    ensures s.queue == [Pending(j3, h3), Pending(j4, h4), Pending(j5, h5)]
  {
    s, h1, h2 := TwoJobsLimitTwo(j1, j2);
    h3 := s.Submit(j3);
    h4 := s.Submit(j4);
    h5 := s.Submit(j5);
  }

  /** The first two completions, whatever their outcomes, start the two
      oldest waiting jobs. */
  method TwoCompletions(s: Scheduler, h1: Handle, h2: Handle, p3: Pending, p4: Pending, p5: Pending,
                        o1: Outcome, o2: Outcome)
    requires s.Valid() && h1 != h2 && s.running == {h1, h2} && s.queue == [p3, p4, p5]
    modifies s
    ensures s.Valid() && s.running == {p3.handle, p4.handle} && s.queue == [p5]
    ensures s.started == old(s.started) + [p3, p4]
    ensures s.settled == old(s.settled)[h2 := o2][h1 := o1]
  {
    s.Complete(h2, o2);
    s.Complete(h1, o1);
  }

  /** With a limit of two, jobs three, four and five start in submission
      order as slots free up, whatever the outcomes of the jobs before. */
  method QueuedJobsStartInOrder(j1: Job, j2: Job, j3: Job, j4: Job, j5: Job, o1: Outcome, o2: Outcome, o4: Outcome)
    returns (s: Scheduler, h1: Handle, h2: Handle, h3: Handle, h4: Handle, h5: Handle)
    ensures fresh(s) && s.Valid() && s.queue == []
    ensures s.started == [Pending(j1, h1), Pending(j2, h2), Pending(j3, h3), Pending(j4, h4), Pending(j5, h5)]
    ensures s.running == {h3, h5}
  {
    s, h1, h2, h3, h4, h5 := FiveJobsLimitTwo(j1, j2, j3, j4, j5);
    TwoCompletions(s, h1, h2, Pending(j3, h3), Pending(j4, h4), Pending(j5, h5), o1, o2);
    s.Complete(h4, o4);
  }
}
