/** The job queue of a thread pool and the sequence classes that run their jobs one at a time,
    as a machine whose steps are the critical sections of the source.  Any number of workers
    and callers may take steps in any order; the pool keeps accepting jobs. */
module ThreadPool {
  import opened Options

  /** A job and the reference counter it carries, if any. */
  datatype Job = Job(id: nat, ref: Option<nat>)

  /** A pool job runs a job of its own or, as a wrapper, one job of a sequence class. */
  datatype PoolJob = Plain(job: Job) | Wrapper(class_: nat, job: Job)

  /** Running: the function is being called.  Returned: it came back and the wrapper has not
      yet taken the class lock.  Releasing: only the counter is still to be decremented. */
  datatype Phase = Idle | Running(pj: PoolJob) | Returned(pj: PoolJob) | Releasing(pj: PoolJob)

  /** accepted, started, finished and cancelled record the history of the class, and plain and
      plainStarted that of the jobs outside any class. */
  datatype SeqClass = SeqClass(
    free: bool, accepting: bool, jobs: seq<Job>,
    accepted: seq<Job>, started: seq<Job>, finished: seq<Job>, cancelled: seq<Job>)

  datatype Pool = Pool(
    queue: seq<PoolJob>, workers: seq<Phase>, classes: seq<SeqClass>,
    counters: map<nat, int>, nextId: nat, plain: seq<Job>, plainStarted: seq<Job>)

  datatype Action =
    | CreateSeq
    | Enqueue(ref: Option<nat>)
    | EnqueueSeq(class_: nat, ref: Option<nat>)
    | DisableSeq(class_: nat)
    | Pop(w: nat)
    | Return(w: nat)
    | Epilogue(w: nat)
    | Release(w: nat)

  const NEW_CLASS := SeqClass(true, true, [], [], [], [], [])

  function Count(m: map<nat, int>, r: nat): int {
    if r in m then m[r] else 0
  }

  function Bump(m: map<nat, int>, ref: Option<nat>, delta: int): map<nat, int> {
    if ref == None then m else m[ref.value := Count(m, ref.value) + delta]
  }

  /** Pushing a pool job takes a reference to its counter. */
  function Push(p: Pool, pj: PoolJob): Pool {
    p.(queue := p.queue + [pj], counters := Bump(p.counters, pj.job.ref, 1))
  }

  /** Wrappers only serve classes that exist. */
  predicate Known(p: Pool) {
    && (forall i :: 0 <= i < |p.queue| && p.queue[i].Wrapper? ==> p.queue[i].class_ < |p.classes|)
    && (forall i :: 0 <= i < |p.workers| && !p.workers[i].Idle? && p.workers[i].pj.Wrapper? ==>
          p.workers[i].pj.class_ < |p.classes|)
    && (forall i :: 0 <= i < |p.workers| && p.workers[i].Returned? ==> p.workers[i].pj.Wrapper?)
  }

  function AfterEnqueue(p: Pool, ref: Option<nat>): Pool {
    var j := Job(p.nextId, ref);
    Push(p, Plain(j)).(nextId := p.nextId + 1, plain := p.plain + [j])
  }

  function AfterEnqueueSeq(p: Pool, c: nat, ref: Option<nat>): Pool
    requires c < |p.classes|
  {
    var k, j := p.classes[c], Job(p.nextId, ref);
    if !k.accepting then p
    else if k.free then
      Push(p.(classes := p.classes[c := k.(free := false, accepted := k.accepted + [j])], nextId := p.nextId + 1),
           Wrapper(c, j))
    else
      p.(classes := p.classes[c := k.(jobs := k.jobs + [j], accepted := k.accepted + [j])], nextId := p.nextId + 1)
  }

  function AfterDisable(p: Pool, c: nat): Pool
    requires c < |p.classes|
  {
    var k := p.classes[c];
    p.(classes := p.classes[c := k.(accepting := false, free := true, jobs := [], cancelled := k.cancelled + k.jobs)])
  }

  /** A worker takes the oldest pool job and starts calling its function. */
  function AfterPop(p: Pool, w: nat): Pool
    requires Known(p) && w < |p.workers| && p.queue != []
  {
    var pj := p.queue[0];
    p.(queue := p.queue[1..], workers := p.workers[w := Running(pj)],
       plainStarted := p.plainStarted + if pj.Plain? then [pj.job] else [],
       classes := if pj.Plain? then p.classes else
         var k := p.classes[pj.class_];
         p.classes[pj.class_ := k.(started := k.started + [pj.job])])
  }

  function AfterReturn(p: Pool, w: nat): Pool
    requires Known(p) && w < |p.workers| && p.workers[w].Running?
  {
    var pj := p.workers[w].pj;
    if pj.Plain? then p.(workers := p.workers[w := Releasing(pj)])
    else
      var k := p.classes[pj.class_];
      p.(workers := p.workers[w := Returned(pj)],
         classes := p.classes[pj.class_ := k.(finished := k.finished + [pj.job])])
  }

  /** Under the class lock the wrapper frees the class or queues a wrapper for its next job. */
  function AfterEpilogue(p: Pool, w: nat): Pool
    requires Known(p) && w < |p.workers| && p.workers[w].Returned?
  {
    var pj := p.workers[w].pj;
    var k := p.classes[pj.class_];
    var p' := p.(workers := p.workers[w := Releasing(pj)]);
    if k.jobs == [] then p'.(classes := p.classes[pj.class_ := k.(free := true)])
    else Push(p'.(classes := p.classes[pj.class_ := k.(jobs := k.jobs[1..])]), Wrapper(pj.class_, k.jobs[0]))
  }

  function AfterRelease(p: Pool, w: nat): Pool
    requires w < |p.workers| && p.workers[w].Releasing?
  {
    p.(workers := p.workers[w := Idle], counters := Bump(p.counters, p.workers[w].pj.job.ref, -1))
  }

  /** An action that is not possible in a state leaves it alone. */
  function Step(p: Pool, a: Action): Pool
    requires Known(p)
  {
    match a
    case CreateSeq => p.(classes := p.classes + [NEW_CLASS])
    case Enqueue(ref) => AfterEnqueue(p, ref)
    case EnqueueSeq(c, ref) => if c < |p.classes| then AfterEnqueueSeq(p, c, ref) else p
    case DisableSeq(c) => if c < |p.classes| then AfterDisable(p, c) else p
    case Pop(w) => if w < |p.workers| && p.workers[w] == Idle && p.queue != [] then AfterPop(p, w) else p
    case Return(w) => if w < |p.workers| && p.workers[w].Running? then AfterReturn(p, w) else p
    case Epilogue(w) => if w < |p.workers| && p.workers[w].Returned? then AfterEpilogue(p, w) else p
    case Release(w) => if w < |p.workers| && p.workers[w].Releasing? then AfterRelease(p, w) else p
  }

  function Start(workers: nat): Pool {
    Pool([], seq(workers, i => Idle), [], map[], 0, [], [])
  }

  lemma StepKeepsKnown(p: Pool, a: Action)
    requires Known(p)
    ensures Known(Step(p, a)) && |Step(p, a).classes| >= |p.classes| && |Step(p, a).workers| == |p.workers|
  {
  }

  function Run(p: Pool, actions: seq<Action>): Pool
    requires Known(p)
    decreases |actions|
  {
    if actions == [] then p
    else
      StepKeepsKnown(p, actions[0]);
      Run(Step(p, actions[0]), actions[1..])
  }

  // --------------------------------------------------- where the jobs of a class are

  function Queued(queue: seq<PoolJob>, c: nat): seq<Job> {
    if queue == [] then []
    else (if queue[0].Wrapper? && queue[0].class_ == c then [queue[0].job] else []) + Queued(queue[1..], c)
  }

  predicate RunsFor(ph: Phase, c: nat) {
    ph.Running? && ph.pj.Wrapper? && ph.pj.class_ == c
  }

  predicate ReturnedFor(ph: Phase, c: nat) {
    ph.Returned? && ph.pj.Wrapper? && ph.pj.class_ == c
  }

  function Executing(workers: seq<Phase>, c: nat): seq<Job> {
    if workers == [] then []
    else (if RunsFor(workers[0], c) then [workers[0].pj.job] else []) + Executing(workers[1..], c)
  }

  function Returning(workers: seq<Phase>, c: nat): nat {
    if workers == [] then 0
    else (if ReturnedFor(workers[0], c) then 1 else 0) + Returning(workers[1..], c)
  }

  /** Wrappers of a class that are queued, running, or about to hand over. */
  function Live(p: Pool, c: nat): nat {
    |Queued(p.queue, c)| + |Executing(p.workers, c)| + Returning(p.workers, c)
  }

  /** The protocol's invariant for one class. */
  ghost predicate ClassInv(p: Pool, c: nat)
    requires c < |p.classes|
  {
    var k := p.classes[c];
    && Live(p, c) <= 1
    && (k.accepting ==> (k.free <==> Live(p, c) == 0) && k.cancelled == [])
    && (k.free || !k.accepting ==> k.jobs == [])
    && k.started == k.finished + Executing(p.workers, c)
    && k.accepted == k.started + Queued(p.queue, c) + k.jobs + k.cancelled
    && IdsIncrease(k.accepted, p.nextId)
  }

  ghost predicate IdsIncrease(jobs: seq<Job>, bound: nat) {
    && (forall i :: 0 <= i < |jobs| ==> jobs[i].id < bound)
    && (forall i, j :: 0 <= i < j < |jobs| ==> jobs[i].id < jobs[j].id)
  }

  // ---------------------------------------------------------- how the places change

  lemma {:induction false} QueuedPush(queue: seq<PoolJob>, pj: PoolJob, c: nat)
    ensures Queued(queue + [pj], c) ==
      Queued(queue, c) + if pj.Wrapper? && pj.class_ == c then [pj.job] else []
  {
    if queue == [] {
      assert queue + [pj] == [pj] && [pj][1..] == [];
    } else {
      QueuedPush(queue[1..], pj, c);
      assert (queue + [pj])[1..] == queue[1..] + [pj];
    }
  }

  lemma {:induction false} ExecutingAfter(workers: seq<Phase>, w: nat, ph: Phase, c: nat)
    requires w < |workers|
    ensures !RunsFor(workers[w], c) && !RunsFor(ph, c) ==> Executing(workers[w := ph], c) == Executing(workers, c)
    ensures RunsFor(ph, c) && Executing(workers, c) == [] ==> Executing(workers[w := ph], c) == [ph.pj.job]
    ensures RunsFor(workers[w], c) ==> workers[w].pj.job in Executing(workers, c)
    ensures RunsFor(workers[w], c) && |Executing(workers, c)| == 1 && !RunsFor(ph, c) ==>
      Executing(workers, c) == [workers[w].pj.job] && Executing(workers[w := ph], c) == []
  {
    var after := workers[w := ph];
    if w == 0 {
      assert after[1..] == workers[1..];
    } else {
      ExecutingAfter(workers[1..], w - 1, ph, c);
      assert after[1..] == workers[1..][w - 1 := ph];
    }
  }

  lemma {:induction false} ReturningAfter(workers: seq<Phase>, w: nat, ph: Phase, c: nat)
    requires w < |workers|
    ensures Returning(workers[w := ph], c) + (if ReturnedFor(workers[w], c) then 1 else 0) ==
      Returning(workers, c) + (if ReturnedFor(ph, c) then 1 else 0)
  {
    var after := workers[w := ph];
    if w == 0 {
      assert after[1..] == workers[1..];
    } else {
      ReturningAfter(workers[1..], w - 1, ph, c);
      assert after[1..] == workers[1..][w - 1 := ph];
    }
  }

  lemma {:induction false} NothingLive(n: nat, c: nat)
    ensures Executing(seq(n, i => Idle), c) == [] && Returning(seq(n, i => Idle), c) == 0
  {
    if n > 0 {
      NothingLive(n - 1, c);
      assert seq(n, i => Idle)[1..] == seq(n - 1, i => Idle);
    }
  }

  /** A class nobody was told about has no wrappers. */
  lemma {:induction false} UnknownQueued(queue: seq<PoolJob>, c: nat)
    requires forall i :: 0 <= i < |queue| && queue[i].Wrapper? ==> queue[i].class_ != c
    ensures Queued(queue, c) == []
  {
    if queue != [] { UnknownQueued(queue[1..], c); }
  }

  lemma {:induction false} UnknownWorkers(workers: seq<Phase>, c: nat)
    requires forall i :: 0 <= i < |workers| && !workers[i].Idle? && workers[i].pj.Wrapper? ==> workers[i].pj.class_ != c
    ensures Executing(workers, c) == [] && Returning(workers, c) == 0
  {
    if workers != [] { UnknownWorkers(workers[1..], c); }
  }

  // ------------------------------------------------------------- every step keeps it

  /** A step that leaves a class and its wrappers alone keeps its invariant. */
  lemma Untouched(p: Pool, p': Pool, c: nat)
    requires c < |p.classes| && c < |p'.classes| && ClassInv(p, c)
    requires p'.classes[c] == p.classes[c] && p'.nextId >= p.nextId
    requires Queued(p'.queue, c) == Queued(p.queue, c)
    requires Executing(p'.workers, c) == Executing(p.workers, c)
    requires Returning(p'.workers, c) == Returning(p.workers, c)
    ensures ClassInv(p', c)
  {
  }

  lemma CreateKeeps(p: Pool, c: nat)
    requires Known(p) && c < |p.classes| + 1 && (c < |p.classes| ==> ClassInv(p, c))
    ensures ClassInv(Step(p, CreateSeq), c)
  {
    if c == |p.classes| {
      UnknownQueued(p.queue, c);
      UnknownWorkers(p.workers, c);
    }
  }

  lemma EnqueueKeeps(p: Pool, c: nat, ref: Option<nat>)
    requires c < |p.classes| && ClassInv(p, c)
    ensures ClassInv(AfterEnqueue(p, ref), c)
  {
    QueuedPush(p.queue, Plain(Job(p.nextId, ref)), c);
  }

  lemma IdsPush(jobs: seq<Job>, n: nat, ref: Option<nat>)
    requires IdsIncrease(jobs, n)
    ensures IdsIncrease(jobs + [Job(n, ref)], n + 1)
  {
  }

  /** A free class gets a wrapper of its own. */
  lemma EnqueueFree(p: Pool, c: nat, ref: Option<nat>)
    requires c < |p.classes| && ClassInv(p, c) && p.classes[c].accepting && p.classes[c].free
    ensures ClassInv(AfterEnqueueSeq(p, c, ref), c)
  {
    var k, j := p.classes[c], Job(p.nextId, ref);
    QueuedPush(p.queue, Wrapper(c, j), c);
    IdsPush(k.accepted, p.nextId, ref);
    assert k.accepted + [j] == k.started + [j] + [] + [];
  }

  /** In a class that is not free the job waits. */
  lemma EnqueueWaiting(p: Pool, c: nat, ref: Option<nat>)
    requires c < |p.classes| && ClassInv(p, c) && p.classes[c].accepting && !p.classes[c].free
    ensures ClassInv(AfterEnqueueSeq(p, c, ref), c)
  {
    var k, j := p.classes[c], Job(p.nextId, ref);
    IdsPush(k.accepted, p.nextId, ref);
    assert k.accepted + [j] == k.started + Queued(p.queue, c) + (k.jobs + [j]) + [];
  }

  lemma EnqueueOther(p: Pool, c: nat, d: nat, ref: Option<nat>)
    requires c < |p.classes| && d < |p.classes| && c != d && ClassInv(p, c)
    ensures ClassInv(AfterEnqueueSeq(p, d, ref), c)
  {
    QueuedPush(p.queue, Wrapper(d, Job(p.nextId, ref)), c);
    Untouched(p, AfterEnqueueSeq(p, d, ref), c);
  }

  lemma EnqueueSeqKeeps(p: Pool, c: nat, d: nat, ref: Option<nat>)
    requires c < |p.classes| && d < |p.classes| && ClassInv(p, c)
    ensures ClassInv(AfterEnqueueSeq(p, d, ref), c)
  {
    if c != d {
      EnqueueOther(p, c, d, ref);
    } else if p.classes[c].accepting && p.classes[c].free {
      EnqueueFree(p, c, ref);
    } else if p.classes[c].accepting {
      EnqueueWaiting(p, c, ref);
    }
  }

  lemma DisableKeeps(p: Pool, c: nat, d: nat)
    requires c < |p.classes| && d < |p.classes| && ClassInv(p, c)
    ensures ClassInv(AfterDisable(p, d), c)
  {
    if c == d {
      var k := p.classes[c];
      assert k.started + Queued(p.queue, c) + k.jobs + k.cancelled ==
        k.started + Queued(p.queue, c) + [] + (k.cancelled + k.jobs);
    }
  }

  lemma PopKeeps(p: Pool, c: nat, w: nat)
    requires Known(p) && c < |p.classes| && ClassInv(p, c)
    requires w < |p.workers| && p.workers[w] == Idle && p.queue != []
    ensures ClassInv(AfterPop(p, w), c)
  {
    var pj := p.queue[0];
    ExecutingAfter(p.workers, w, Running(pj), c);
    ReturningAfter(p.workers, w, Running(pj), c);
    if pj.Wrapper? && pj.class_ == c {
      PopOwn(p, c, w);
    } else {
      Untouched(p, AfterPop(p, w), c);
    }
  }

  /** The popped wrapper was the class's only one: its job moves from queued to executing. */
  lemma PopOwn(p: Pool, c: nat, w: nat)
    requires Known(p) && c < |p.classes| && ClassInv(p, c)
    requires w < |p.workers| && p.queue != [] && p.queue[0].Wrapper? && p.queue[0].class_ == c
    requires Executing(p.workers, c) == [] ==>
      Executing(p.workers[w := Running(p.queue[0])], c) == [p.queue[0].job]
    requires Returning(p.workers[w := Running(p.queue[0])], c) == Returning(p.workers, c)
    ensures ClassInv(AfterPop(p, w), c)
  {
    var k, j, p' := p.classes[c], p.queue[0].job, AfterPop(p, w);
    OnlyQueued(p, c);
    assert p'.classes[c] == k.(started := k.started + [j]);
    assert k.started + [j] + k.jobs + k.cancelled == (k.started + [j]) + [] + k.jobs + k.cancelled;
  }

  lemma OnlyQueued(p: Pool, c: nat)
    requires c < |p.classes| && ClassInv(p, c)
    requires p.queue != [] && p.queue[0].Wrapper? && p.queue[0].class_ == c
    ensures Queued(p.queue, c) == [p.queue[0].job] && Queued(p.queue[1..], c) == []
    ensures Executing(p.workers, c) == [] && Returning(p.workers, c) == 0
    ensures p.classes[c].started == p.classes[c].finished
  {
    assert Queued(p.queue, c) == [p.queue[0].job] + Queued(p.queue[1..], c);
  }

  lemma ReturnKeeps(p: Pool, c: nat, w: nat)
    requires Known(p) && c < |p.classes| && ClassInv(p, c)
    requires w < |p.workers| && p.workers[w].Running?
    ensures ClassInv(AfterReturn(p, w), c)
  {
    var pj := p.workers[w].pj;
    ExecutingAfter(p.workers, w, if pj.Plain? then Releasing(pj) else Returned(pj), c);
    ReturningAfter(p.workers, w, if pj.Plain? then Releasing(pj) else Returned(pj), c);
    if pj.Wrapper? && pj.class_ == c {
      assert |Executing(p.workers, c)| == 1;
    } else {
      Untouched(p, AfterReturn(p, w), c);
    }
  }

  lemma EpilogueKeeps(p: Pool, c: nat, w: nat)
    requires Known(p) && c < |p.classes| && ClassInv(p, c)
    requires w < |p.workers| && p.workers[w].Returned?
    ensures ClassInv(AfterEpilogue(p, w), c)
  {
    var pj := p.workers[w].pj;
    ExecutingAfter(p.workers, w, Releasing(pj), c);
    ReturningAfter(p.workers, w, Releasing(pj), c);
    var k := p.classes[pj.class_];
    if k.jobs != [] {
      QueuedPush(p.queue, Wrapper(pj.class_, k.jobs[0]), c);
    }
    if pj.class_ != c {
      Untouched(p, AfterEpilogue(p, w), c);
    } else {
      EpilogueOwn(p, c, w);
    }
  }

  /** The returned wrapper was the class's only one: it leaves none, or exactly one, behind. */
  lemma EpilogueOwn(p: Pool, c: nat, w: nat)
    requires Known(p) && c < |p.classes| && ClassInv(p, c)
    requires w < |p.workers| && ReturnedFor(p.workers[w], c)
    requires var after := p.workers[w := Releasing(p.workers[w].pj)];
      Executing(after, c) == Executing(p.workers, c) && Returning(after, c) + 1 == Returning(p.workers, c)
    requires var k := p.classes[c]; k.jobs != [] ==>
      Queued(p.queue + [Wrapper(c, k.jobs[0])], c) == Queued(p.queue, c) + [k.jobs[0]]
    ensures ClassInv(AfterEpilogue(p, w), c)
  {
    var k, p' := p.classes[c], AfterEpilogue(p, w);
    assert Queued(p.queue, c) == [] && Executing(p.workers, c) == [];
    if k.jobs == [] {
      assert p'.classes[c] == k.(free := true) && p'.queue == p.queue;
    } else {
      assert p'.classes[c] == k.(jobs := k.jobs[1..]);
      assert p'.queue == p.queue + [Wrapper(c, k.jobs[0])];
      assert Queued(p'.queue, c) == [k.jobs[0]];
      assert k.started + [] + k.jobs + k.cancelled == k.started + [k.jobs[0]] + k.jobs[1..] + k.cancelled;
    }
  }

  lemma ReleaseKeeps(p: Pool, c: nat, w: nat)
    requires c < |p.classes| && ClassInv(p, c)
    requires w < |p.workers| && p.workers[w].Releasing?
    ensures ClassInv(AfterRelease(p, w), c)
  {
    ExecutingAfter(p.workers, w, Idle, c);
    ReturningAfter(p.workers, w, Idle, c);
  }

  lemma StepKeepsClass(p: Pool, a: Action, c: nat)
    requires Known(p) && c < |Step(p, a).classes| && (c < |p.classes| ==> ClassInv(p, c))
    ensures ClassInv(Step(p, a), c)
  {
    match a {
      case CreateSeq => CreateKeeps(p, c);
      case Enqueue(ref) => EnqueueKeeps(p, c, ref);
      case EnqueueSeq(d, ref) => if d < |p.classes| { EnqueueSeqKeeps(p, c, d, ref); }
      case DisableSeq(d) => if d < |p.classes| { DisableKeeps(p, c, d); }
      case Pop(w) => if w < |p.workers| && p.workers[w] == Idle && p.queue != [] { PopKeeps(p, c, w); }
      case Return(w) => if w < |p.workers| && p.workers[w].Running? { ReturnKeeps(p, c, w); }
      case Epilogue(w) => if w < |p.workers| && p.workers[w].Returned? { EpilogueKeeps(p, c, w); }
      case Release(w) => if w < |p.workers| && p.workers[w].Releasing? { ReleaseKeeps(p, c, w); }
    }
  }

  // ------------------------------------------------------------- reference counters

  function Carries(pj: PoolJob, r: nat): nat {
    if pj.job.ref == Some(r) then 1 else 0
  }

  function HeldBy(ph: Phase, r: nat): nat {
    if ph.Idle? then 0 else Carries(ph.pj, r)
  }

  function QueuedRefs(queue: seq<PoolJob>, r: nat): nat {
    if queue == [] then 0 else Carries(queue[0], r) + QueuedRefs(queue[1..], r)
  }

  function WorkerRefs(workers: seq<Phase>, r: nat): nat {
    if workers == [] then 0 else HeldBy(workers[0], r) + WorkerRefs(workers[1..], r)
  }

  /** A counter equals the number of pool jobs, queued or not yet finished, that carry it. */
  predicate RefInv(p: Pool, r: nat) {
    Count(p.counters, r) == QueuedRefs(p.queue, r) + WorkerRefs(p.workers, r)
  }

  lemma {:induction false} QueuedRefsPush(queue: seq<PoolJob>, pj: PoolJob, r: nat)
    ensures QueuedRefs(queue + [pj], r) == QueuedRefs(queue, r) + Carries(pj, r)
  {
    if queue == [] {
      assert queue + [pj] == [pj] && [pj][1..] == [];
    } else {
      QueuedRefsPush(queue[1..], pj, r);
      assert (queue + [pj])[1..] == queue[1..] + [pj];
    }
  }

  lemma {:induction false} WorkerRefsAfter(workers: seq<Phase>, w: nat, ph: Phase, r: nat)
    requires w < |workers|
    ensures WorkerRefs(workers[w := ph], r) + HeldBy(workers[w], r) == WorkerRefs(workers, r) + HeldBy(ph, r)
  {
    var after := workers[w := ph];
    if w == 0 {
      assert after[1..] == workers[1..];
    } else {
      WorkerRefsAfter(workers[1..], w - 1, ph, r);
      assert after[1..] == workers[1..][w - 1 := ph];
    }
  }

  lemma PushKeepsRefs(p: Pool, pj: PoolJob, r: nat)
    requires RefInv(p, r)
    ensures RefInv(Push(p, pj), r)
  {
    QueuedRefsPush(p.queue, pj, r);
  }

  /** The next job's reference is taken before the wrapper's own is released. */
  lemma EpilogueKeepsRefs(p: Pool, w: nat, r: nat)
    requires Known(p) && RefInv(p, r) && w < |p.workers| && p.workers[w].Returned?
    ensures RefInv(AfterEpilogue(p, w), r)
  {
    var pj := p.workers[w].pj;
    var k := p.classes[pj.class_];
    WorkerRefsAfter(p.workers, w, Releasing(pj), r);
    if k.jobs != [] {
      PushKeepsRefs(p.(workers := p.workers[w := Releasing(pj)]), Wrapper(pj.class_, k.jobs[0]), r);
    }
  }

  lemma StepKeepsRefs(p: Pool, a: Action, r: nat)
    requires Known(p) && RefInv(p, r)
    ensures RefInv(Step(p, a), r)
  {
    match a {
      case CreateSeq =>
      case Enqueue(ref) => PushKeepsRefs(p, Plain(Job(p.nextId, ref)), r);
      case EnqueueSeq(d, ref) => if d < |p.classes| { PushKeepsRefs(p, Wrapper(d, Job(p.nextId, ref)), r); }
      case DisableSeq(d) =>
      case Pop(w) =>
        if w < |p.workers| && p.queue != [] { WorkerRefsAfter(p.workers, w, Running(p.queue[0]), r); }
      case Return(w) =>
        if w < |p.workers| && p.workers[w].Running? {
          WorkerRefsAfter(p.workers, w, Returned(p.workers[w].pj), r);
          WorkerRefsAfter(p.workers, w, Releasing(p.workers[w].pj), r);
        }
      case Epilogue(w) =>
        if w < |p.workers| && p.workers[w].Returned? { EpilogueKeepsRefs(p, w, r); }
      case Release(w) =>
        if w < |p.workers| && p.workers[w].Releasing? { WorkerRefsAfter(p.workers, w, Idle, r); }
    }
  }

  // ------------------------------------------------------------------- whole runs

  ghost predicate Inv(p: Pool) {
    && Known(p)
    && (forall c: nat :: c < |p.classes| ==> ClassInv(p, c))
    && (forall r: nat :: RefInv(p, r))
  }

  lemma {:induction false} NoRefs(n: nat, r: nat)
    ensures WorkerRefs(seq(n, i => Idle), r) == 0
  {
    if n > 0 {
      NoRefs(n - 1, r);
      assert seq(n, i => Idle)[1..] == seq(n - 1, i => Idle);
    }
  }

  lemma {:induction false} RunKeepsInv(p: Pool, actions: seq<Action>)
    requires Inv(p)
    ensures Inv(Run(p, actions))
    decreases |actions|
  {
    if actions != [] {
      var p' := Step(p, actions[0]);
      StepKeepsKnown(p, actions[0]);
      forall c: nat | c < |p'.classes| ensures ClassInv(p', c) {
        StepKeepsClass(p, actions[0], c);
      }
      forall r: nat ensures RefInv(p', r) {
        StepKeepsRefs(p, actions[0], r);
      }
      RunKeepsInv(p', actions[1..]);
    }
  }

  lemma ReachableInv(workers: nat, actions: seq<Action>)
    ensures Inv(Run(Start(workers), actions))
  {
    forall r: nat ensures RefInv(Start(workers), r) {
      NoRefs(workers, r);
    }
    RunKeepsInv(Start(workers), actions);
  }

  lemma {:induction false} OneExecutes(workers: seq<Phase>, c: nat, i: nat, j: nat)
    requires i < j < |workers| && RunsFor(workers[i], c) && RunsFor(workers[j], c)
    ensures |Executing(workers, c)| >= 2
  {
    if i == 0 {
      ExecutingAfter(workers[1..], j - 1, workers[j], c);
    } else {
      OneExecutes(workers[1..], c, i - 1, j - 1);
    }
  }

  /** In every interleaving, jobs of one class never overlap, start in the order they were
      accepted, and each accepted job is in exactly one place: finished, executing, queued in
      the pool, waiting in the class, or given to the callback that disabled the class. */
  lemma SequenceGuarantees(workers: nat, actions: seq<Action>, c: nat)
    requires c < |Run(Start(workers), actions).classes|
    ensures var p := Run(Start(workers), actions); var k := p.classes[c];
      && (forall i, j :: 0 <= i < j < |p.workers| ==> !(RunsFor(p.workers[i], c) && RunsFor(p.workers[j], c)))
      && k.finished <= k.started <= k.accepted
      && k.accepted == k.finished + Executing(p.workers, c) + Queued(p.queue, c) + k.jobs + k.cancelled
      && (forall i, j :: 0 <= i < j < |k.accepted| ==> k.accepted[i].id != k.accepted[j].id)
      && (k.accepting && k.jobs != [] ==> Live(p, c) == 1)
  {
    ReachableInv(workers, actions);
    var p := Run(Start(workers), actions);
    assert ClassInv(p, c);
    forall i, j | 0 <= i < j < |p.workers| && RunsFor(p.workers[i], c) && RunsFor(p.workers[j], c) ensures false {
      OneExecutes(p.workers, c, i, j);
    }
  }

  predicate Quiescent(p: Pool) {
    p.queue == [] && forall i :: 0 <= i < |p.workers| ==> p.workers[i] == Idle
  }

  lemma {:induction false} IdleHoldsNothing(workers: seq<Phase>, c: nat, r: nat)
    requires forall i :: 0 <= i < |workers| ==> workers[i] == Idle
    ensures Executing(workers, c) == [] && Returning(workers, c) == 0 && WorkerRefs(workers, r) == 0
  {
    if workers != [] { IdleHoldsNothing(workers[1..], c, r); }
  }

  /** Counters are never negative, and once nothing runs they are zero and every accepted job
      was run or cancelled. */
  lemma CountersAreConserved(workers: nat, actions: seq<Action>, r: nat)
    ensures var p := Run(Start(workers), actions);
      && Count(p.counters, r) == QueuedRefs(p.queue, r) + WorkerRefs(p.workers, r) >= 0
      && (Quiescent(p) ==> Count(p.counters, r) == 0)
      && (Quiescent(p) ==> forall c :: 0 <= c < |p.classes| ==>
            p.classes[c].accepted == p.classes[c].finished + p.classes[c].cancelled)
  {
    ReachableInv(workers, actions);
    var p := Run(Start(workers), actions);
    assert RefInv(p, r);
    if Quiescent(p) {
      IdleHoldsNothing(p.workers, 0, r);
      forall c: nat | c < |p.classes| ensures p.classes[c].accepted == p.classes[c].finished + p.classes[c].cancelled {
        IdleHoldsNothing(p.workers, c, r);
        assert ClassInv(p, c);
      }
    }
  }

  // ----------------------------------------------------------- nothing is stuck

  function Waiting(classes: seq<SeqClass>): nat {
    if classes == [] then 0 else |classes[0].jobs| + Waiting(classes[1..])
  }

  function Busy(workers: seq<Phase>): nat {
    if workers == [] then 0 else PhaseWork(workers[0]) + Busy(workers[1..])
  }

  /** Steps a worker still has to take in its phase. */
  function PhaseWork(ph: Phase): nat {
    match ph
    case Idle => 0
    case Releasing(_) => 1
    case Returned(_) => 2
    case Running(_) => 3
  }

  function Work(p: Pool): nat {
    5 * Waiting(p.classes) + 4 * |p.queue| + Busy(p.workers)
  }

  lemma {:induction false} WaitingAfter(classes: seq<SeqClass>, c: nat, k: SeqClass)
    requires c < |classes|
    ensures Waiting(classes[c := k]) + |classes[c].jobs| == Waiting(classes) + |k.jobs|
  {
    var after := classes[c := k];
    if c == 0 {
      assert after[1..] == classes[1..];
    } else {
      WaitingAfter(classes[1..], c - 1, k);
      assert after[1..] == classes[1..][c - 1 := k];
    }
  }

  lemma {:induction false} BusyAfter(workers: seq<Phase>, w: nat, ph: Phase)
    requires w < |workers|
    ensures Busy(workers[w := ph]) + PhaseWork(workers[w]) == Busy(workers) + PhaseWork(ph)
  {
    var after := workers[w := ph];
    if w == 0 {
      assert after[1..] == workers[1..];
    } else {
      BusyAfter(workers[1..], w - 1, ph);
      assert after[1..] == workers[1..][w - 1 := ph];
    }
  }

  /** What a worker does next; an idle one takes a job. */
  function NextAction(p: Pool, w: nat): Action
    requires w < |p.workers|
  {
    match p.workers[w]
    case Idle => Pop(w)
    case Running(_) => Return(w)
    case Returned(_) => Epilogue(w)
    case Releasing(_) => Release(w)
  }

  /** No class is added, and no job is accepted or cancelled. */
  ghost predicate OnlyWorked(p: Pool, q: Pool) {
    && |q.classes| == |p.classes|
    && forall c :: 0 <= c < |p.classes| ==>
         q.classes[c].accepted == p.classes[c].accepted && q.classes[c].cancelled == p.classes[c].cancelled
  }

  /** A step of a worker, not of a caller. */
  predicate ByWorker(a: Action) {
    a.Pop? || a.Return? || a.Epilogue? || a.Release?
  }

  lemma WorkLessens(p: Pool, w: nat)
    requires Known(p) && w < |p.workers| && (p.workers[w] == Idle ==> p.queue != [])
    ensures var q := Step(p, NextAction(p, w));
      Work(q) < Work(p) && |q.workers| == |p.workers| && OnlyWorked(p, q)
  {
    match p.workers[w]
    case Idle => PopLessens(p, w);
    case Running(_) => ReturnLessens(p, w);
    case Returned(_) => EpilogueLessens(p, w);
    case Releasing(_) => BusyAfter(p.workers, w, Idle);
  }

  lemma PopLessens(p: Pool, w: nat)
    requires Known(p) && w < |p.workers| && p.workers[w] == Idle && p.queue != []
    ensures Work(AfterPop(p, w)) < Work(p) && OnlyWorked(p, AfterPop(p, w))
  {
    var pj := p.queue[0];
    BusyAfter(p.workers, w, Running(pj));
    if pj.Wrapper? {
      var k := p.classes[pj.class_];
      WaitingAfter(p.classes, pj.class_, k.(started := k.started + [pj.job]));
    }
  }

  lemma ReturnLessens(p: Pool, w: nat)
    requires Known(p) && w < |p.workers| && p.workers[w].Running?
    ensures Work(AfterReturn(p, w)) < Work(p) && OnlyWorked(p, AfterReturn(p, w))
  {
    var pj := p.workers[w].pj;
    if pj.Plain? {
      BusyAfter(p.workers, w, Releasing(pj));
    } else {
      var k := p.classes[pj.class_];
      BusyAfter(p.workers, w, Returned(pj));
      WaitingAfter(p.classes, pj.class_, k.(finished := k.finished + [pj.job]));
    }
  }

  lemma EpilogueLessens(p: Pool, w: nat)
    requires Known(p) && w < |p.workers| && p.workers[w].Returned?
    ensures Work(AfterEpilogue(p, w)) < Work(p) && OnlyWorked(p, AfterEpilogue(p, w))
  {
    var pj := p.workers[w].pj;
    var k := p.classes[pj.class_];
    BusyAfter(p.workers, w, Releasing(pj));
    WaitingAfter(p.classes, pj.class_, if k.jobs == [] then k.(free := true) else k.(jobs := k.jobs[1..]));
  }

  /** As long as anything is queued or running, some worker can go on. */
  lemma {:induction false} Finishes(p: Pool) returns (more: seq<Action>)
    requires Known(p) && p.workers != []
    ensures Quiescent(Run(p, more)) && OnlyWorked(p, Run(p, more))
    ensures forall i :: 0 <= i < |more| ==> ByWorker(more[i])
    decreases Work(p)
  {
    more := [];
    if !Quiescent(p) {
      var w: nat := 0;
      if p.queue == [] {
        w :| w < |p.workers| && p.workers[w] != Idle;
      }
      var a := NextAction(p, w);
      WorkLessens(p, w);
      StepKeepsKnown(p, a);
      var rest := Finishes(Step(p, a));
      more := [a] + rest;
      assert more[1..] == rest;
    }
  }

  lemma FirstOf<T>(a: seq<T>, b: seq<T>)
    requires a != []
    ensures (a + b)[0] == a[0] && (a + b)[1..] == a[1..] + b
  {
  }

  lemma {:induction false} RunAppend(p: Pool, a: seq<Action>, b: seq<Action>)
    requires Known(p)
    ensures Known(Run(p, a)) && Run(p, a + b) == Run(Run(p, a), b)
    decreases |a|
  {
    if a == [] {
      assert a + b == b;
    } else {
      StepKeepsKnown(p, a[0]);
      FirstOf(a, b);
      RunAppend(Step(p, a[0]), a[1..], b);
    }
  }

  /** From every reachable state of a pool with a worker, steps of the workers alone bring
      everything to an end, and then every job accepted so far was run but for those that had
      been handed to the callback before. */
  lemma EveryJobIsRun(workers: nat, actions: seq<Action>) returns (more: seq<Action>)
    requires workers > 0
    ensures forall i :: 0 <= i < |more| ==> ByWorker(more[i])
    ensures var p := Run(Start(workers), actions); var q := Run(Start(workers), actions + more);
      && Quiescent(q) && OnlyWorked(p, q)
      && forall c :: 0 <= c < |q.classes| ==> p.classes[c].accepted == q.classes[c].finished + p.classes[c].cancelled
  {
    RunAppend(Start(workers), actions, []);
    var p := Run(Start(workers), actions);
    RunKeepsWorkers(Start(workers), actions);
    more := Finishes(p);
    RunAppend(Start(workers), actions, more);
    CountersAreConserved(workers, actions + more, 0);
  }

  lemma {:induction false} RunKeepsWorkers(p: Pool, actions: seq<Action>)
    requires Known(p)
    ensures |Run(p, actions).workers| == |p.workers|
    decreases |actions|
  {
    if actions != [] {
      StepKeepsKnown(p, actions[0]);
      RunKeepsWorkers(Step(p, actions[0]), actions[1..]);
    }
  }

  // ------------------------------------------------- the same, told from the calls alone

  /** Classes created by these calls; they are numbered in that order. */
  function CreatedIn(actions: seq<Action>): nat {
    if actions == [] then 0
    else CreatedIn(actions[..|actions| - 1]) + if actions[|actions| - 1] == CreateSeq then 1 else 0
  }

  /** Class c was created and then disabled. */
  predicate DisabledIn(actions: seq<Action>, c: nat) {
    actions != [] &&
    var init := actions[..|actions| - 1];
    DisabledIn(init, c) || (actions[|actions| - 1] == DisableSeq(c) && c < CreatedIn(init))
  }

  /** The counters of the jobs that were enqueued in class c while it existed and had not been
      disabled. */
  function OfferedTo(actions: seq<Action>, c: nat): seq<Option<nat>> {
    if actions == [] then []
    else
      var init, a := actions[..|actions| - 1], actions[|actions| - 1];
      OfferedTo(init, c) +
        if a.EnqueueSeq? && a.class_ == c && c < CreatedIn(init) && !DisabledIn(init, c) then [a.ref] else []
  }

  function PlainIn(actions: seq<Action>): seq<Option<nat>> {
    if actions == [] then []
    else
      var a := actions[|actions| - 1];
      PlainIn(actions[..|actions| - 1]) + if a.Enqueue? then [a.ref] else []
  }

  function Refs(jobs: seq<Job>): seq<Option<nat>> {
    seq(|jobs|, i requires 0 <= i < |jobs| => jobs[i].ref)
  }

  function QueuedPlain(queue: seq<PoolJob>): seq<Job> {
    if queue == [] then []
    else (if queue[0].Plain? then [queue[0].job] else []) + QueuedPlain(queue[1..])
  }

  lemma {:induction false} QueuedPlainPush(queue: seq<PoolJob>, pj: PoolJob)
    ensures QueuedPlain(queue + [pj]) == QueuedPlain(queue) + if pj.Plain? then [pj.job] else []
  {
    if queue == [] {
      assert queue + [pj] == [pj] && [pj][1..] == [];
    } else {
      QueuedPlainPush(queue[1..], pj);
      assert (queue + [pj])[1..] == queue[1..] + [pj];
    }
  }

  ghost predicate TellsClass(p: Pool, actions: seq<Action>, c: nat)
    requires c < |p.classes|
  {
    Refs(p.classes[c].accepted) == OfferedTo(actions, c) && p.classes[c].accepting == !DisabledIn(actions, c)
  }

  ghost predicate Tells(p: Pool, actions: seq<Action>) {
    && |p.classes| == CreatedIn(actions)
    && TellsPlain(p, actions)
    && forall c: nat | c < |p.classes| :: TellsClass(p, actions, c)
  }

  lemma RefsSnoc(jobs: seq<Job>, j: Job)
    ensures Refs(jobs + [j]) == Refs(jobs) + [j.ref]
  {
  }

  lemma CallsSnoc(actions: seq<Action>, a: Action, c: nat)
    ensures CreatedIn(actions + [a]) == CreatedIn(actions) + if a == CreateSeq then 1 else 0
    ensures DisabledIn(actions + [a], c) == (DisabledIn(actions, c) || (a == DisableSeq(c) && c < CreatedIn(actions)))
    ensures PlainIn(actions + [a]) == PlainIn(actions) + if a.Enqueue? then [a.ref] else []
    ensures OfferedTo(actions + [a], c) == OfferedTo(actions, c) +
      if a.EnqueueSeq? && a.class_ == c && c < CreatedIn(actions) && !DisabledIn(actions, c) then [a.ref] else []
  {
    assert (actions + [a])[..|actions|] == actions;
  }

  /** A class that does not exist yet was offered nothing. */
  lemma {:induction false} NothingOffered(actions: seq<Action>, c: nat)
    requires CreatedIn(actions) <= c
    ensures OfferedTo(actions, c) == [] && !DisabledIn(actions, c)
  {
    if actions != [] {
      NothingOffered(actions[..|actions| - 1], c);
    }
  }

  /** No other action adds to what class c has accepted, and only its own disabling stops it. */
  lemma StepLeavesClass(p: Pool, a: Action, c: nat)
    requires Known(p) && c < |p.classes| && !(a.EnqueueSeq? && a.class_ == c)
    ensures c < |Step(p, a).classes| && Step(p, a).classes[c].accepted == p.classes[c].accepted
    ensures Step(p, a).classes[c].accepting == (p.classes[c].accepting && a != DisableSeq(c))
  {
  }

  lemma OfferTaken(p: Pool, actions: seq<Action>, c: nat, ref: Option<nat>)
    requires c < |p.classes| == CreatedIn(actions) && TellsClass(p, actions, c)
    ensures TellsClass(AfterEnqueueSeq(p, c, ref), actions + [EnqueueSeq(c, ref)], c)
  {
    CallsSnoc(actions, EnqueueSeq(c, ref), c);
    RefsSnoc(p.classes[c].accepted, Job(p.nextId, ref));
  }

  lemma TellsClassNext(p: Pool, actions: seq<Action>, a: Action, c: nat)
    requires Known(p) && |p.classes| == CreatedIn(actions) && c < |Step(p, a).classes|
    requires c < |p.classes| ==> TellsClass(p, actions, c)
    ensures TellsClass(Step(p, a), actions + [a], c)
  {
    if c < |p.classes| && a.EnqueueSeq? && a.class_ == c {
      OfferTaken(p, actions, c, a.ref);
    } else {
      CallsSnoc(actions, a, c);
      if c < |p.classes| {
        StepLeavesClass(p, a, c);
      } else {
        FirstOfClass(p, actions, a, c);
      }
    }
  }

  lemma FirstOfClass(p: Pool, actions: seq<Action>, a: Action, c: nat)
    requires Known(p) && |p.classes| == CreatedIn(actions) <= c < |Step(p, a).classes|
    ensures a == CreateSeq && c == |p.classes| && Step(p, a).classes[c] == NEW_CLASS
    ensures OfferedTo(actions, c) == [] && !DisabledIn(actions, c)
  {
    NothingOffered(actions, c);
  }

  ghost predicate TellsPlain(p: Pool, actions: seq<Action>) {
    Refs(p.plain) == PlainIn(actions) && p.plain == p.plainStarted + QueuedPlain(p.queue)
  }

  lemma PlainEnqueued(p: Pool, actions: seq<Action>, ref: Option<nat>)
    requires TellsPlain(p, actions)
    ensures TellsPlain(AfterEnqueue(p, ref), actions + [Enqueue(ref)])
  {
    CallsSnoc(actions, Enqueue(ref), 0);
    RefsSnoc(p.plain, Job(p.nextId, ref));
    QueuedPlainPush(p.queue, Plain(Job(p.nextId, ref)));
  }

  lemma PlainUntouched(p: Pool, q: Pool, actions: seq<Action>, a: Action)
    requires TellsPlain(p, actions) && !a.Enqueue? && q.plain == p.plain
    requires q.plainStarted + QueuedPlain(q.queue) == p.plainStarted + QueuedPlain(p.queue)
    ensures TellsPlain(q, actions + [a])
  {
    CallsSnoc(actions, a, 0);
  }

  lemma StepLeavesPlain(p: Pool, a: Action)
    requires Known(p) && !a.Enqueue?
    ensures var q := Step(p, a);
      q.plain == p.plain && q.plainStarted + QueuedPlain(q.queue) == p.plainStarted + QueuedPlain(p.queue)
  {
    match a
    case EnqueueSeq(c, ref) => QueuedPlainPush(p.queue, Wrapper(c, Job(p.nextId, ref)));
    case Epilogue(w) =>
      if w < |p.workers| && p.workers[w].Returned? && p.classes[p.workers[w].pj.class_].jobs != [] {
        var c := p.workers[w].pj.class_;
        QueuedPlainPush(p.queue, Wrapper(c, p.classes[c].jobs[0]));
      }
    case _ =>
  }

  lemma TellsPlainNext(p: Pool, actions: seq<Action>, a: Action)
    requires Known(p) && TellsPlain(p, actions)
    ensures TellsPlain(Step(p, a), actions + [a])
  {
    if a.Enqueue? {
      PlainEnqueued(p, actions, a.ref);
    } else {
      StepLeavesPlain(p, a);
      PlainUntouched(p, Step(p, a), actions, a);
    }
  }

  lemma CreatedNext(p: Pool, actions: seq<Action>, a: Action)
    requires Known(p) && |p.classes| == CreatedIn(actions)
    ensures |Step(p, a).classes| == CreatedIn(actions + [a])
  {
    CallsSnoc(actions, a, 0);
  }

  lemma TellsNext(p: Pool, actions: seq<Action>, a: Action)
    requires Known(p) && Tells(p, actions)
    ensures Tells(Step(p, a), actions + [a])
  {
    TellsPlainNext(p, actions, a);
    CreatedNext(p, actions, a);
    forall c: nat | c < |Step(p, a).classes| ensures TellsClass(Step(p, a), actions + [a], c) {
      TellsClassNext(p, actions, a, c);
    }
  }

  lemma RunSnoc(p: Pool, actions: seq<Action>, a: Action)
    requires Known(p)
    ensures Known(Run(p, actions)) && Run(p, actions + [a]) == Step(Run(p, actions), a)
  {
    RunAppend(p, actions, [a]);
    assert [a][1..] == [];
    StepKeepsKnown(Run(p, actions), a);
  }

  lemma {:induction false} RunTells(workers: nat, actions: seq<Action>)
    ensures Known(Run(Start(workers), actions)) && Tells(Run(Start(workers), actions), actions)
    decreases |actions|
  {
    if actions != [] {
      var init, a := actions[..|actions| - 1], actions[|actions| - 1];
      assert actions == init + [a];
      RunTells(workers, init);
      RunSnoc(Start(workers), init, a);
      StepKeepsKnown(Run(Start(workers), init), a);
      TellsNext(Run(Start(workers), init), init, a);
    }
  }

  /** In every interleaving a class has accepted exactly the jobs that were enqueued in it, in that
      order, from its creation until it was disabled, and it takes more if and only if it has not
      been. */
  lemma AcceptedAreOffered(workers: nat, actions: seq<Action>, c: nat)
    ensures var p := Run(Start(workers), actions);
      && |p.classes| == CreatedIn(actions)
      && (c < |p.classes| ==>
            && Refs(p.classes[c].accepted) == OfferedTo(actions, c)
            && (p.classes[c].accepting <==> !DisabledIn(actions, c)))
  {
    RunTells(workers, actions);
    if c < CreatedIn(actions) { assert TellsClass(Run(Start(workers), actions), actions, c); }
  }

  /** Nothing enqueued in a class after it was disabled is accepted. */
  lemma {:induction false} NothingAfterDisable(actions: seq<Action>, more: seq<Action>, c: nat)
    requires DisabledIn(actions, c)
    ensures OfferedTo(actions + more, c) == OfferedTo(actions, c) && DisabledIn(actions + more, c)
    decreases |more|
  {
    if more == [] {
      assert actions + more == actions;
    } else {
      var init, a := more[..|more| - 1], more[|more| - 1];
      NothingAfterDisable(actions, init, c);
      assert actions + more == actions + init + [a];
      CallsSnoc(actions + init, a, c);
    }
  }

  /** A job outside any class is started exactly once, after all that were enqueued before it. */
  lemma PlainJobsInOrder(workers: nat, actions: seq<Action>)
    ensures var p := Run(Start(workers), actions);
      && Refs(p.plain) == PlainIn(actions)
      && p.plain == p.plainStarted + QueuedPlain(p.queue)
      && (Quiescent(p) ==> p.plainStarted == p.plain)
  {
    RunTells(workers, actions);
  }

  // ------------------------------------------------------------- the critical sections

  class Pools {
    var jobs: seq<PoolJob>
    var workers: seq<Phase>
    var classes: seq<SeqClass>
    var counters: map<nat, int>
    var nextId: nat
    var plain: seq<Job>
    var plainStarted: seq<Job>

    function View(): Pool
      reads this
    {
      Pool(jobs, workers, classes, counters, nextId, plain, plainStarted)
    }

    constructor (count: nat)
      ensures View() == Start(count)
    {
      jobs, workers, classes, counters, nextId := [], seq(count, i => Idle), [], map[], 0;
      plain, plainStarted := [], [];
    }

    method PushJob(pj: PoolJob)
      modifies this`jobs, this`counters
      ensures View() == Push(old(View()), pj)
    {
      jobs := jobs + [pj];
      if pj.job.ref.Some? {
        var r := pj.job.ref.value;
        counters := counters[r := Count(counters, r) + 1];
      }
    }

    method EnqueueJob(ref: Option<nat>)
      requires Known(View())
      modifies this
      ensures View() == Step(old(View()), Enqueue(ref))
    {
      var j := Job(nextId, ref);
      PushJob(Plain(j));
      plain := plain + [j];
      nextId := nextId + 1;
    }

    method EnqueueInSequence(c: nat, ref: Option<nat>) returns (ok: bool)
      requires Known(View()) && c < |classes|
      modifies this
      ensures View() == Step(old(View()), EnqueueSeq(c, ref)) && ok == old(classes[c].accepting)
    {
      var k, j := classes[c], Job(nextId, ref);
      if !k.accepting {
        return false;
      }
      nextId := nextId + 1;
      if k.free {
        classes := classes[c := k.(free := false, accepted := k.accepted + [j])];
        PushJob(Wrapper(c, j));
      } else {
        classes := classes[c := k.(jobs := k.jobs + [j], accepted := k.accepted + [j])];
      }
      ok := true;
    }

    /** Hands every waiting job to the callback, which is recorded as cancelling it. */
    method DisableSequence(c: nat)
      requires Known(View()) && c < |classes|
      modifies this
      ensures View() == Step(old(View()), DisableSeq(c))
    {
      ghost var k0 := classes[c];
      classes := classes[c := classes[c].(accepting := false, free := true)];
      while classes[c].jobs != []
        invariant c < |classes| && classes == old(classes)[c := classes[c]]
        invariant classes[c] ==
          k0.(accepting := false, free := true, jobs := classes[c].jobs, cancelled := classes[c].cancelled)
        invariant classes[c].cancelled + classes[c].jobs == k0.cancelled + k0.jobs
        invariant unchanged(`jobs) && unchanged(`workers) && unchanged(`counters) && unchanged(`nextId)
        invariant unchanged(`plain) && unchanged(`plainStarted)
        decreases |classes[c].jobs|
      {
        var k := classes[c];
        assert k.cancelled + k.jobs == k.cancelled + [k.jobs[0]] + k.jobs[1..];
        classes := classes[c := k.(jobs := k.jobs[1..], cancelled := k.cancelled + [k.jobs[0]])];
      }
      assert classes[c].cancelled + [] == classes[c].cancelled;
    }

    /** The part of worker_func under the pool lock. */
    method TakeJob(w: nat)
      requires Known(View()) && w < |workers| && workers[w] == Idle && jobs != []
      modifies this
      ensures View() == Step(old(View()), Pop(w))
    {
      var pj := jobs[0];
      jobs := jobs[1..];
      workers := workers[w := Running(pj)];
      if pj.Wrapper? {
        var k := classes[pj.class_];
        classes := classes[pj.class_ := k.(started := k.started + [pj.job])];
      } else {
        plainStarted := plainStarted + [pj.job];
      }
    }

    /** The part of seq_wrapper under the class lock. */
    method FinishWrapper(w: nat)
      requires Known(View()) && w < |workers| && workers[w].Returned?
      modifies this
      ensures View() == Step(old(View()), Epilogue(w))
    {
      var pj := workers[w].pj;
      var k := classes[pj.class_];
      workers := workers[w := Releasing(pj)];
      if k.jobs == [] {
        classes := classes[pj.class_ := k.(free := true)];
      } else {
        classes := classes[pj.class_ := k.(jobs := k.jobs[1..])];
        PushJob(Wrapper(pj.class_, k.jobs[0]));
      }
    }
  }
}
