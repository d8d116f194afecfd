/** The worker task queue of resotocore/core/worker_task_queue.py as functions on its whole state:
    every public operation, with the branches and the iteration order of the source. The class in
    WorkerTaskQueue.dfy is proved to compute these functions, and WorkerTaskProofs.dfy proves what
    they keep over every run.

    A worker's queue is what was ever put on it; taking from it belongs to the worker. A callback is
    known by its task's id. `clock(i)` is what the i-th call of `utc()` returns. */
module WorkerTasks {
  import opened OrderedDict

  datatype Description = Description(name: string, filter: map<string, seq<string>>)

  datatype Subscription = Subscription(workerId: string, desc: Description, queue: nat)

  datatype Task = Task(id: string, name: string, attrs: map<string, string>, timeout: nat)

  datatype InProgress = InProgress(task: Task, worker: Subscription, retry: nat, deadline: int)

  datatype OnHold = OnHold(task: Task, retry: nat, deadline: int)

  datatype Outcome = Finished(result: string) | Failed(message: string) | TooManyRetries | NoWorker

  /** One attempt to resolve a task's callback. */
  datatype Note = Note(id: string, outcome: Outcome)

  datatype Put = Put(worker: Subscription, task: Task)

  type Clock = nat -> int

  datatype State = State(
    workers: map<string, seq<Subscription>>,   // worker_by_task_name
    workCount: map<string, int>,
    outstanding: Dict<InProgress>,
    unassigned: Dict<OnHold>,
    // the attach calls that are open, and the number of queues made so far
    live: map<string, seq<Subscription>>,
    queues: nat,
    // what the outside has seen
    puts: seq<Put>,
    notes: seq<Note>,
    ticks: nat,
    // for the proofs: every task added with its first retry count, and the timeouts by worker
    added: map<string, nat>,
    lapsed: map<string, nat>)

  function Init(): State {
    State(map[], map[], Empty(), Empty(), map[], 0, [], [], 0, map[], map[])
  }

  // ----- choosing a worker -----

  predicate Accepts(attrs: map<string, string>, name: string, values: seq<string>) {
    name in attrs && attrs[name] != "" && attrs[name] in values
  }

  predicate CanPerform(sub: Subscription, task: Task) {
    forall n :: n in sub.desc.filter ==> Accepts(task.attrs, n, sub.desc.filter[n])
  }

  function SubsFor(workers: map<string, seq<Subscription>>, name: string): seq<Subscription> {
    if name in workers then workers[name] else []
  }

  function Matching(subs: seq<Subscription>, task: Task): seq<Subscription> {
    if subs == [] then []
    else (if CanPerform(subs[0], task) then [subs[0]] else []) + Matching(subs[1..], task)
  }

  function MaxFilter(subs: seq<Subscription>): nat {
    if subs == [] then 0
    else var n := MaxFilter(subs[1..]); if |subs[0].desc.filter| > n then |subs[0].desc.filter| else n
  }

  function OfLength(subs: seq<Subscription>, n: nat): seq<Subscription> {
    if subs == [] then []
    else (if |subs[0].desc.filter| == n then [subs[0]] else []) + OfLength(subs[1..], n)
  }

  function CountOf(workCount: map<string, int>, worker: string): int {
    if worker in workCount then workCount[worker] else 0
  }

  /** The head of the list sorted by count; sorting is stable, so the first of the least. */
  function LeastLoaded(subs: seq<Subscription>, workCount: map<string, int>): Subscription
    requires subs != []
  {
    if |subs| == 1 then subs[0]
    else
      var best := LeastLoaded(subs[1..], workCount);
      if CountOf(workCount, subs[0].workerId) <= CountOf(workCount, best.workerId) then subs[0] else best
  }

  lemma {:induction false} MatchingIs(subs: seq<Subscription>, task: Task)
    ensures forall x :: x in Matching(subs, task) <==> x in subs && CanPerform(x, task)
  {
    if subs != [] {
      MatchingIs(subs[1..], task);
    }
  }

  lemma {:induction false} OfLengthIs(subs: seq<Subscription>, n: nat)
    ensures forall x :: x in OfLength(subs, n) <==> x in subs && |x.desc.filter| == n
  {
    if subs != [] {
      OfLengthIs(subs[1..], n);
    }
  }

  lemma {:induction false} MaxFilterIs(subs: seq<Subscription>)
    ensures forall x :: x in subs ==> |x.desc.filter| <= MaxFilter(subs)
    ensures subs != [] ==> exists x :: x in subs && |x.desc.filter| == MaxFilter(subs)
  {
    if subs != [] {
      MaxFilterIs(subs[1..]);
      if |subs[0].desc.filter| == MaxFilter(subs) {
        assert subs[0] in subs;
      } else {
        var x :| x in subs[1..] && |x.desc.filter| == MaxFilter(subs[1..]);
        assert x in subs;
      }
    }
  }

  lemma {:induction false} LeastLoadedIs(subs: seq<Subscription>, workCount: map<string, int>)
    requires subs != []
    ensures LeastLoaded(subs, workCount) in subs
    ensures forall x :: x in subs ==>
              CountOf(workCount, LeastLoaded(subs, workCount).workerId) <= CountOf(workCount, x.workerId)
  {
    if |subs| > 1 {
      LeastLoadedIs(subs[1..], workCount);
    }
  }

  function Chosen(s: State, task: Task): (sub: Subscription)
    requires Matching(SubsFor(s.workers, task.name), task) != []
  {
    var subs := Matching(SubsFor(s.workers, task.name), task);
    MaxFilterIs(subs);
    OfLengthIs(subs, MaxFilter(subs));
    LeastLoaded(OfLength(subs, MaxFilter(subs)), s.workCount)
  }

  // ----- __add_task, __retry_tasks -----

  function Assigns(s: State, task: Task): bool {
    Matching(SubsFor(s.workers, task.name), task) != []
  }

  function Assign(s: State, clock: Clock, task: Task, retry: nat): State {
    if Assigns(s, task) then
      var sub := Chosen(s, task);
      s.(outstanding := s.outstanding.Set(task.id, InProgress(task, sub, retry, clock(s.ticks) + task.timeout)),
         ticks := s.ticks + 1,
         puts := s.puts + [Put(sub, task)],
         workCount := s.workCount[sub.workerId := CountOf(s.workCount, sub.workerId) + 1])
    else if task.id !in s.unassigned.vals then
      s.(outstanding := s.outstanding.Pop(task.id),
         unassigned := s.unassigned.Set(task.id, OnHold(task, retry, clock(s.ticks) + task.timeout)),
         ticks := s.ticks + 1)
    else s.(outstanding := s.outstanding.Pop(task.id))
  }

  function Lapsed(s: State, worker: string): nat {
    if worker in s.lapsed then s.lapsed[worker] else 0
  }

  function Retry(s: State, clock: Clock, ip: InProgress): State {
    var w := ip.worker.workerId;
    if ip.retry < 3 then
      Assign(s.(lapsed := s.lapsed[w := Lapsed(s, w) + 1]), clock, ip.task, ip.retry + 1)
    else
      s.(outstanding := s.outstanding.Pop(ip.task.id),
         workCount := s.workCount[w := CountOf(s.workCount, w) - 1],
         notes := s.notes + [Note(ip.task.id, TooManyRetries)])
  }

  function RetryAll(s: State, clock: Clock, ips: seq<InProgress>): State
    decreases |ips|
  {
    if ips == [] then s else RetryAll(Retry(s, clock, ips[0]), clock, ips[1..])
  }

  // ----- the public operations -----

  function AddTask(s: State, clock: Clock, task: Task, retry: nat): State {
    Assign(s.(added := s.added[task.id := retry]), clock, task, retry)
  }

  /** acknowledge_task and error_task differ only in what the callback gets. */
  function Close(s: State, worker: string, id: string, outcome: Outcome): State {
    if id in s.outstanding.vals && s.outstanding.vals[id].worker.workerId == worker then
      s.(outstanding := s.outstanding.Pop(id),
         workCount := s.workCount[worker := CountOf(s.workCount, worker) - 1],
         notes := s.notes + [Note(id, outcome)])
    else s
  }

  function Expired(ips: seq<InProgress>, now: int): seq<InProgress> {
    if ips == [] then []
    else (if ips[0].deadline < now then [ips[0]] else []) + Expired(ips[1..], now)
  }

  function ExpiredHolds(holds: seq<OnHold>, now: int): seq<OnHold> {
    if holds == [] then []
    else (if holds[0].deadline < now then [holds[0]] else []) + ExpiredHolds(holds[1..], now)
  }

  function GiveUp(s: State, holds: seq<OnHold>): State
    decreases |holds|
  {
    if holds == [] then s
    else GiveUp(s.(unassigned := s.unassigned.Pop(holds[0].task.id),
                   notes := s.notes + [Note(holds[0].task.id, NoWorker)]), holds[1..])
  }

  function AssignHeld(s: State, clock: Clock, hold: OnHold): State {
    var s' := Assign(s, clock, hold.task, hold.retry);
    if Assigns(s, hold.task) then s'.(unassigned := s'.unassigned.Pop(hold.task.id)) else s'
  }

  function AssignAllHeld(s: State, clock: Clock, holds: seq<OnHold>): State
    decreases |holds|
  {
    if holds == [] then s else AssignAllHeld(AssignHeld(s, clock, holds[0]), clock, holds[1..])
  }

  function Check(s: State, clock: Clock): State
  {
    var now := clock(s.ticks);
    var s1 := RetryAll(s.(ticks := s.ticks + 1), clock, Expired(s.outstanding.Values(), now));
    var s2 := GiveUp(s1, ExpiredHolds(s.unassigned.Values(), now));
    AssignAllHeld(s2, clock, s2.unassigned.Values())
  }

  function Subscribe(worker: string, descs: seq<Description>, queue: nat): seq<Subscription> {
    seq(|descs|, i requires 0 <= i < |descs| => Subscription(worker, descs[i], queue))
  }

  function Register(workers: map<string, seq<Subscription>>, subs: seq<Subscription>): map<string, seq<Subscription>>
    decreases |subs|
  {
    if subs == [] then workers
    else Register(workers[subs[0].desc.name := SubsFor(workers, subs[0].desc.name) + [subs[0]]], subs[1..])
  }

  /** Attaching with no description at all raises before anything has changed. */
  function Attach(s: State, worker: string, descs: seq<Description>): State {
    if descs == [] then s
    else
      var subs := Subscribe(worker, descs, s.queues);
      s.(queues := s.queues + 1,
         live := s.live[worker := subs],
         lapsed := s.lapsed[worker := 0],
         workCount := s.workCount[worker := 0],
         workers := Register(s.workers, subs))
  }

  function RemoveFirst(subs: seq<Subscription>, sub: Subscription): seq<Subscription> {
    if subs == [] then []
    else if subs[0] == sub then subs[1..]
    else [subs[0]] + RemoveFirst(subs[1..], sub)
  }

  function Unregister(workers: map<string, seq<Subscription>>, subs: seq<Subscription>): map<string, seq<Subscription>>
    decreases |subs|
  {
    if subs == [] then workers
    else
      var name := subs[0].desc.name;
      Unregister(workers[name := RemoveFirst(SubsFor(workers, name), subs[0])], subs[1..])
  }

  function OpenTasks(ips: seq<InProgress>, worker: string): seq<InProgress> {
    if ips == [] then []
    else (if ips[0].worker.workerId == worker then [ips[0]] else []) + OpenTasks(ips[1..], worker)
  }

  function Detach(s: State, clock: Clock, worker: string): State
    requires worker in s.live
  {
    var s' := s.(workers := Unregister(s.workers, s.live[worker]),
                 workCount := s.workCount - {worker},
                 live := s.live - {worker});
    RetryAll(s', clock, OpenTasks(s.outstanding.Values(), worker))
  }
}
