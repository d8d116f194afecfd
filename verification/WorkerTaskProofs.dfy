/** What the worker task queue keeps over every run of its public operations. */
module WorkerTaskProofs {
  import opened OrderedDict
  import opened WorkerTasks

  // ----- conservation: a task is outstanding, parked or resolved, and resolved once -----

  function Notices(notes: seq<Note>, id: string): nat {
    if notes == [] then 0
    else Notices(notes[..|notes| - 1], id) + (if notes[|notes| - 1].id == id then 1 else 0)
  }

  function PutCount(puts: seq<Put>, id: string): nat {
    if puts == [] then 0
    else PutCount(puts[..|puts| - 1], id) + (if puts[|puts| - 1].task.id == id then 1 else 0)
  }

  lemma NoticesPlus(notes: seq<Note>, n: Note, id: string)
    ensures Notices(notes + [n], id) == Notices(notes, id) + (if n.id == id then 1 else 0)
  {
    assert (notes + [n])[..|notes|] == notes;
  }

  lemma PutCountPlus(puts: seq<Put>, p: Put, id: string)
    ensures PutCount(puts + [p], id) == PutCount(puts, id) + (if p.task.id == id then 1 else 0)
  {
    assert (puts + [p])[..|puts|] == puts;
  }

  /** In exactly one place, and the callback is resolved exactly when that place is outside both maps. */
  predicate InOnePlace(s: State, id: string) {
    (if id in s.outstanding.vals then 1 else 0) + (if id in s.unassigned.vals then 1 else 0)
    + Notices(s.notes, id) == (if id in s.added then 1 else 0)
  }

  function Most(first: nat): nat {
    if first <= 3 then 3 else first
  }

  /** The retry counter tells exactly how often the task was put on a worker's queue. */
  predicate PutsMatchRetries(s: State, id: string)
    requires id in s.added
  {
    var first, puts := s.added[id], PutCount(s.puts, id);
    if id in s.outstanding.vals then
      var retry := s.outstanding.vals[id].retry;
      first <= retry <= Most(first) && puts == retry - first + 1
    else if id in s.unassigned.vals then
      var retry := s.unassigned.vals[id].retry;
      first <= retry <= Most(first) && puts == retry - first
    else puts <= Most(first) - first + 1
  }

  ghost predicate TaskOk(s: State, id: string) {
    && InOnePlace(s, id)
    && (if id in s.added then PutsMatchRetries(s, id) else PutCount(s.puts, id) == 0)
    && (id in s.outstanding.vals ==> s.outstanding.vals[id].task.id == id)
    && (id in s.unassigned.vals ==> s.unassigned.vals[id].task.id == id)
  }

  ghost predicate Tasks(s: State) {
    && s.outstanding.Valid() && s.unassigned.Valid()
    && forall id :: TaskOk(s, id)
  }

  // ----- load -----

  function On(vals: map<string, InProgress>, worker: string): set<string> {
    set id | id in vals && vals[id].worker.workerId == worker
  }

  /** The count of an attached worker is what is outstanding on it, plus one for every timeout
      retry of a task that was outstanding on it since it attached. */
  ghost predicate Balanced(s: State) {
    forall w :: w in s.live ==>
      w in s.workCount && s.workCount[w] == |On(s.outstanding.vals, w)| + Lapsed(s, w)
  }

  // ----- subscriptions -----

  function Mine(subs: seq<Subscription>, worker: string): seq<Subscription> {
    if subs == [] then []
    else (if subs[0].workerId == worker then [subs[0]] else []) + Mine(subs[1..], worker)
  }

  function Named(subs: seq<Subscription>, name: string): seq<Subscription> {
    if subs == [] then []
    else (if subs[0].desc.name == name then [subs[0]] else []) + Named(subs[1..], name)
  }

  ghost predicate Registered(workers: map<string, seq<Subscription>>, live: map<string, seq<Subscription>>) {
    && (forall w, i :: w in live && 0 <= i < |live[w]| ==> live[w][i].workerId == w)
    && (forall n, w :: Mine(SubsFor(workers, n), w) == (if w in live then Named(live[w], n) else []))
  }

  predicate Placed(workers: map<string, seq<Subscription>>, ip: InProgress) {
    ip.worker in SubsFor(workers, ip.task.name) && CanPerform(ip.worker, ip.task)
  }

  ghost predicate AllPlaced(s: State) {
    forall id :: id in s.outstanding.vals ==> Placed(s.workers, s.outstanding.vals[id])
  }

  /** Every put went to a worker whose filter the task satisfies. */
  ghost predicate PutsFit(puts: seq<Put>) {
    forall i :: 0 <= i < |puts| ==> CanPerform(puts[i].worker, puts[i].task)
  }

  ghost predicate Base(s: State) {
    Tasks(s) && Balanced(s) && Registered(s.workers, s.live) && PutsFit(s.puts)
  }

  ghost predicate Inv(s: State) {
    Base(s) && AllPlaced(s)
  }

  // ----- the choice -----

  /** A matching worker with a largest filter and, among those, a least count. */
  lemma ChosenIsBest(s: State, task: Task)
    requires Assigns(s, task)
    ensures var sub, subs := Chosen(s, task), SubsFor(s.workers, task.name);
            && sub in subs && CanPerform(sub, task)
            && forall x :: x in subs && CanPerform(x, task) ==>
                 && |x.desc.filter| <= |sub.desc.filter|
                 && (|x.desc.filter| == |sub.desc.filter| ==>
                       CountOf(s.workCount, sub.workerId) <= CountOf(s.workCount, x.workerId))
  {
    var subs := Matching(SubsFor(s.workers, task.name), task);
    MatchingIs(SubsFor(s.workers, task.name), task);
    MaxFilterIs(subs);
    OfLengthIs(subs, MaxFilter(subs));
    LeastLoadedIs(OfLength(subs, MaxFilter(subs)), s.workCount);
  }

  lemma AssignsIff(s: State, task: Task)
    ensures Assigns(s, task) <==> exists x :: x in SubsFor(s.workers, task.name) && CanPerform(x, task)
  {
    MatchingIs(SubsFor(s.workers, task.name), task);
    if Assigns(s, task) {
      assert Matching(SubsFor(s.workers, task.name), task)[0] in Matching(SubsFor(s.workers, task.name), task);
    }
  }

  // ----- __add_task keeps the base -----

  lemma OnSet(vals: map<string, InProgress>, id: string, ip: InProgress, w: string)
    ensures On(vals[id := ip], w) == if ip.worker.workerId == w then On(vals, w) + {id} else On(vals, w) - {id}
  {
  }

  lemma OnPop(vals: map<string, InProgress>, id: string, w: string)
    ensures On(vals - {id}, w) == On(vals, w) - {id}
  {
  }

  lemma OnPopSize(vals: map<string, InProgress>, id: string, w: string)
    ensures |On(vals - {id}, w)| == |On(vals, w)| - (if id in vals && vals[id].worker.workerId == w then 1 else 0)
  {
    OnPop(vals, id, w);
  }

  /** The counts are right for everything but `id`, which is about to move. */
  ghost predicate BalancedBut(s: State, id: string) {
    forall w :: w in s.live ==>
      w in s.workCount && s.workCount[w] == |On(s.outstanding.vals - {id}, w)| + Lapsed(s, w)
  }

  /** `task` can be put on a queue or parked with this retry count. */
  predicate Ready(s: State, task: Task, retry: nat) {
    && task.id in s.added && s.added[task.id] <= retry <= Most(s.added[task.id])
    && PutCount(s.puts, task.id) == retry - s.added[task.id]
    && Notices(s.notes, task.id) == 0
  }

  lemma AssignFrame(s: State, clock: Clock, task: Task, retry: nat)
    ensures var s' := Assign(s, clock, task, retry);
            && s'.workers == s.workers && s'.live == s.live && s'.queues == s.queues
            && s'.notes == s.notes && s'.added == s.added && s'.lapsed == s.lapsed
            && s.ticks <= s'.ticks
  {
    hide *;
    AssignWorkers(s, clock, task, retry);
    AssignNotes(s, clock, task, retry);
  }

  lemma AssignWorkers(s: State, clock: Clock, task: Task, retry: nat)
    ensures var s' := Assign(s, clock, task, retry);
            s'.workers == s.workers && s'.live == s.live && s'.queues == s.queues && s.ticks <= s'.ticks
  {
    hide Assigns, Chosen, CountOf, Dict.Set, Dict.Pop;
    if Assigns(s, task) {
    } else if task.id !in s.unassigned.vals {
    }
  }

  lemma AssignNotes(s: State, clock: Clock, task: Task, retry: nat)
    ensures var s' := Assign(s, clock, task, retry);
            s'.notes == s.notes && s'.added == s.added && s'.lapsed == s.lapsed
  {
    hide Assigns, Chosen, CountOf, Dict.Set, Dict.Pop;
    if Assigns(s, task) {
    } else if task.id !in s.unassigned.vals {
    }
  }

  lemma AssignCounts(s: State, clock: Clock, task: Task, retry: nat)
    ensures var s' := Assign(s, clock, task, retry);
            if Assigns(s, task) then
              var sub := Chosen(s, task);
              && task.id in s'.outstanding.vals && s'.outstanding.vals[task.id].worker == sub
              && s'.outstanding.vals == s.outstanding.vals[task.id := s'.outstanding.vals[task.id]]
              && s'.workCount == s.workCount[sub.workerId := CountOf(s.workCount, sub.workerId) + 1]
            else
              s'.outstanding.vals == s.outstanding.vals - {task.id} && s'.workCount == s.workCount
  {
    hide Chosen;
  }

  lemma AssignHolds(s: State, clock: Clock, task: Task, retry: nat)
    ensures var s' := Assign(s, clock, task, retry);
            if Assigns(s, task) || task.id in s.unassigned.vals then s'.unassigned == s.unassigned
            else s'.unassigned == s.unassigned.Set(task.id, OnHold(task, retry, clock(s.ticks) + task.timeout))
  {
    hide Chosen, Matching;
  }

  lemma AssignMaps(s: State, clock: Clock, task: Task, retry: nat)
    ensures SameElse(s.outstanding.vals, Assign(s, clock, task, retry).outstanding.vals, task.id)
    ensures SameElse(s.unassigned.vals, Assign(s, clock, task, retry).unassigned.vals, task.id)
  {
    hide Chosen, Assign, Assigns;
    AssignCounts(s, clock, task, retry);
    AssignHolds(s, clock, task, retry);
  }

  /** The maps agree everywhere but on `k`. */
  ghost predicate SameElse<V>(m: map<string, V>, m': map<string, V>, k: string) {
    forall x :: x != k ==> (x in m <==> x in m') && (x in m ==> m[x] == m'[x])
  }

  lemma AssignPuts(s: State, clock: Clock, task: Task, retry: nat, id: string)
    ensures PutCount(Assign(s, clock, task, retry).puts, id)
         == PutCount(s.puts, id) + (if Assigns(s, task) && id == task.id then 1 else 0)
  {
    hide Chosen;
    if Assigns(s, task) {
      PutCountPlus(s.puts, Put(Chosen(s, task), task), id);
    }
  }

  lemma AssignOthers(s: State, clock: Clock, task: Task, retry: nat, id: string)
    requires id != task.id && TaskOk(s, id)
    ensures TaskOk(Assign(s, clock, task, retry), id)
  {
    hide Assign, PutCount, Notices;
    AssignFrame(s, clock, task, retry);
    AssignMaps(s, clock, task, retry);
    AssignPuts(s, clock, task, retry, id);
    var s' := Assign(s, clock, task, retry);
  }

  lemma AssignSelf(s: State, clock: Clock, task: Task, retry: nat)
    requires Ready(s, task, retry)
    requires task.id in s.unassigned.vals ==>
               s.unassigned.vals[task.id].retry == retry && s.unassigned.vals[task.id].task == task
    ensures var s' := Assign(s, clock, task, retry);
            if Assigns(s, task) && task.id in s.unassigned.vals then
              TaskOk(s'.(unassigned := s'.unassigned.Pop(task.id)), task.id)
            else TaskOk(s', task.id)
  {
    hide Chosen, CountOf, Matching, SubsFor;
    if Assigns(s, task) {
      PutCountPlus(s.puts, Put(Chosen(s, task), task), task.id);
    } else if task.id in s.unassigned.vals {
    } else {
    }
  }

  lemma AssignBalanced(s: State, clock: Clock, task: Task, retry: nat)
    requires BalancedBut(s, task.id)
    ensures Balanced(Assign(s, clock, task, retry))
  {
    hide Chosen, Assigns, Assign, On;
    var s' := Assign(s, clock, task, retry);
    AssignCounts(s, clock, task, retry);
    AssignFrame(s, clock, task, retry);
    forall w | w in s.live
      ensures w in s'.workCount && s'.workCount[w] == |On(s'.outstanding.vals, w)| + Lapsed(s', w)
    {
      if Assigns(s, task) {
        OnSet(s.outstanding.vals, task.id, s'.outstanding.vals[task.id], w);
        OnPop(s.outstanding.vals, task.id, w);
      }
    }
  }

  /** What __add_task never touches, and what it needs to keep the base. */
  lemma AssignBase(s: State, clock: Clock, task: Task, retry: nat)
    requires s.outstanding.Valid() && s.unassigned.Valid() && Registered(s.workers, s.live) && PutsFit(s.puts)
    requires BalancedBut(s, task.id) && Ready(s, task, retry) && task.id !in s.unassigned.vals
    requires forall id :: id != task.id ==> TaskOk(s, id)
    ensures Base(Assign(s, clock, task, retry))
  {
    hide Assign, TaskOk, Ready, BalancedBut, Balanced, PutsFit;
    var s' := Assign(s, clock, task, retry);
    AssignFrame(s, clock, task, retry);
    AssignBalanced(s, clock, task, retry);
    AssignValid(s, clock, task, retry);
    AssignFits(s, clock, task, retry);
    forall id
      ensures TaskOk(s', id)
    {
      if id == task.id {
        AssignSelf(s, clock, task, retry);
      } else {
        AssignOthers(s, clock, task, retry, id);
      }
    }
  }

  lemma AssignValid(s: State, clock: Clock, task: Task, retry: nat)
    requires s.outstanding.Valid() && s.unassigned.Valid()
    ensures Assign(s, clock, task, retry).outstanding.Valid()
    ensures Assign(s, clock, task, retry).unassigned.Valid()
  {
    PopValid(s.outstanding, task.id);
    if Assigns(s, task) {
      SetValid(s.outstanding, task.id, Assign(s, clock, task, retry).outstanding.vals[task.id]);
    } else if task.id !in s.unassigned.vals {
      SetValid(s.unassigned, task.id, Assign(s, clock, task, retry).unassigned.vals[task.id]);
    }
  }

  lemma AssignFits(s: State, clock: Clock, task: Task, retry: nat)
    requires PutsFit(s.puts)
    ensures PutsFit(Assign(s, clock, task, retry).puts)
  {
    if Assigns(s, task) {
      ChosenIsBest(s, task);
    }
  }

  // ----- retries -----

  lemma RetryBase(s: State, clock: Clock, ip: InProgress)
    requires Base(s) && ip.task.id in s.outstanding.vals && s.outstanding.vals[ip.task.id] == ip
    ensures Base(Retry(s, clock, ip))
  {
    hide Assign, On, PutsFit, Registered, PutCount, Notices;
    var id, w := ip.task.id, ip.worker.workerId;
    assert TaskOk(s, id);
    if ip.retry < 3 {
      var s1 := s.(lapsed := s.lapsed[w := Lapsed(s, w) + 1]);
      forall u | u in s.live
        ensures u in s1.workCount && s1.workCount[u] == |On(s1.outstanding.vals - {id}, u)| + Lapsed(s1, u)
      {
        OnPopSize(s.outstanding.vals, id, u);
      }
      forall x | x != id
        ensures TaskOk(s1, x)
      {
        assert TaskOk(s, x);
      }
      AssignBase(s1, clock, ip.task, ip.retry + 1);
    } else {
      var s' := Retry(s, clock, ip);
      CloseBase(s, id, TooManyRetries, s');
    }
  }

  /** Leaving the map of outstanding tasks with the callback resolved and one less on the count. */
  lemma CloseBase(s: State, id: string, outcome: Outcome, s': State)
    requires Base(s) && id in s.outstanding.vals
    requires var w := s.outstanding.vals[id].worker.workerId;
             s' == s.(outstanding := s.outstanding.Pop(id),
                      workCount := s.workCount[w := CountOf(s.workCount, w) - 1],
                      notes := s.notes + [Note(id, outcome)])
    ensures Base(s')
  {
    hide On, PutCount, Notices, PutsFit, Registered;
    PopValid(s.outstanding, id);
    forall u | u in s.live
      ensures u in s'.workCount && s'.workCount[u] == |On(s'.outstanding.vals, u)| + Lapsed(s', u)
    {
      OnPopSize(s.outstanding.vals, id, u);
    }
    forall x
      ensures TaskOk(s', x)
    {
      assert TaskOk(s, x);
      NoticesPlus(s.notes, Note(id, outcome), x);
    }
  }

  /** Nothing of what happens to `id` in between is ever undone: either it stayed where it was, or
      its stage went up. */
  function Stage(s: State, id: string): nat
    requires id in s.added
  {
    if id in s.outstanding.vals then 2 * s.outstanding.vals[id].retry + 1
    else if id in s.unassigned.vals then 2 * s.unassigned.vals[id].retry
    else 2 * Most(s.added[id]) + 2
  }

  predicate Stays(s: State, s': State, id: string) {
    && (id in s.outstanding.vals <==> id in s'.outstanding.vals)
    && (id in s.outstanding.vals ==> s.outstanding.vals[id] == s'.outstanding.vals[id])
    && (id in s.unassigned.vals <==> id in s'.unassigned.vals)
    && (id in s.unassigned.vals ==> s.unassigned.vals[id] == s'.unassigned.vals[id])
    && PutCount(s.puts, id) == PutCount(s'.puts, id)
    && Notices(s.notes, id) == Notices(s'.notes, id)
  }

  predicate Advances(s: State, s': State, id: string) {
    && id in s.added && id in s'.added && s'.added[id] == s.added[id]
    && (Stays(s, s', id) || Stage(s, id) < Stage(s', id))
  }

  // ----- lists of entries -----

  ghost predicate Current(s: State, ips: seq<InProgress>) {
    && (forall i :: 0 <= i < |ips| ==>
          ips[i].task.id in s.outstanding.vals && s.outstanding.vals[ips[i].task.id] == ips[i])
    && (forall i, j :: 0 <= i < j < |ips| ==> ips[i].task.id != ips[j].task.id)
  }

  ghost predicate Holding(s: State, holds: seq<OnHold>) {
    && (forall i :: 0 <= i < |holds| ==>
          holds[i].task.id in s.unassigned.vals && s.unassigned.vals[holds[i].task.id] == holds[i])
    && (forall i, j :: 0 <= i < j < |holds| ==> holds[i].task.id != holds[j].task.id)
  }

  lemma ValuesCurrent(s: State)
    requires Tasks(s)
    ensures Current(s, s.outstanding.Values())
    ensures forall id :: id in s.outstanding.vals ==> s.outstanding.vals[id] in s.outstanding.Values()
  {
    ValuesAre(s.outstanding);
    forall i | 0 <= i < |s.outstanding.keys|
      ensures s.outstanding.Values()[i].task.id == s.outstanding.keys[i]
    {
      assert TaskOk(s, s.outstanding.keys[i]);
    }
  }

  lemma ValuesHolding(s: State)
    requires Tasks(s)
    ensures Holding(s, s.unassigned.Values())
    ensures forall id :: id in s.unassigned.vals ==> s.unassigned.vals[id] in s.unassigned.Values()
  {
    ValuesAre(s.unassigned);
    forall i | 0 <= i < |s.unassigned.keys|
      ensures s.unassigned.Values()[i].task.id == s.unassigned.keys[i]
    {
      assert TaskOk(s, s.unassigned.keys[i]);
    }
  }

  lemma CurrentHead(s: State, ip: InProgress, ips: seq<InProgress>)
    ensures Current(s, [ip] + ips)
       <==> && ip.task.id in s.outstanding.vals && s.outstanding.vals[ip.task.id] == ip && Current(s, ips)
            && forall x :: x in ips ==> x.task.id != ip.task.id
  {
    var all := [ip] + ips;
    assert all[0] == ip;
    assert forall i :: 0 <= i < |ips| ==> all[i + 1] == ips[i];
    if Current(s, all) {
      forall i, j | 0 <= i < j < |ips|
        ensures ips[i].task.id != ips[j].task.id
      {
        assert all[i + 1].task.id != all[j + 1].task.id;
      }
      forall i | 0 <= i < |ips|
        ensures ips[i].task.id in s.outstanding.vals && s.outstanding.vals[ips[i].task.id] == ips[i]
        ensures ips[i].task.id != ip.task.id
      {
        assert all[i + 1] == ips[i] && all[0] == ip;
      }
    }
  }

  lemma HoldingHeads(s: State, hold: OnHold, holds: seq<OnHold>)
    ensures Holding(s, [hold] + holds)
       <==> && hold.task.id in s.unassigned.vals && s.unassigned.vals[hold.task.id] == hold && Holding(s, holds)
            && forall x :: x in holds ==> x.task.id != hold.task.id
  {
    var all := [hold] + holds;
    assert all[0] == hold;
    assert forall i :: 0 <= i < |holds| ==> all[i + 1] == holds[i];
    if Holding(s, all) {
      forall i, j | 0 <= i < j < |holds|
        ensures holds[i].task.id != holds[j].task.id
      {
        assert all[i + 1].task.id != all[j + 1].task.id;
      }
      forall i | 0 <= i < |holds|
        ensures holds[i].task.id in s.unassigned.vals && s.unassigned.vals[holds[i].task.id] == holds[i]
        ensures holds[i].task.id != hold.task.id
      {
        assert all[i + 1] == holds[i] && all[0] == hold;
      }
    }
  }

  lemma {:induction false} ExpiredCurrent(s: State, ips: seq<InProgress>, now: int)
    requires Current(s, ips)
    ensures Current(s, Expired(ips, now))
    ensures forall x :: x in Expired(ips, now) <==> x in ips && x.deadline < now
  {
    if ips != [] {
      hide Current;
      assert ips == [ips[0]] + ips[1..];
      CurrentHead(s, ips[0], ips[1..]);
      ExpiredCurrent(s, ips[1..], now);
      CurrentHead(s, ips[0], Expired(ips[1..], now));
    }
  }

  lemma {:induction false} OpenCurrent(s: State, ips: seq<InProgress>, worker: string)
    requires Current(s, ips)
    ensures Current(s, OpenTasks(ips, worker))
    ensures forall x :: x in OpenTasks(ips, worker) <==> x in ips && x.worker.workerId == worker
  {
    if ips != [] {
      hide Current;
      assert ips == [ips[0]] + ips[1..];
      CurrentHead(s, ips[0], ips[1..]);
      OpenCurrent(s, ips[1..], worker);
      CurrentHead(s, ips[0], OpenTasks(ips[1..], worker));
    }
  }

  lemma {:induction false} ExpiredHolding(s: State, holds: seq<OnHold>, now: int)
    requires Holding(s, holds)
    ensures Holding(s, ExpiredHolds(holds, now))
    ensures forall x :: x in ExpiredHolds(holds, now) <==> x in holds && x.deadline < now
  {
    if holds != [] {
      hide Holding;
      assert holds == [holds[0]] + holds[1..];
      HoldingHeads(s, holds[0], holds[1..]);
      ExpiredHolding(s, holds[1..], now);
      HoldingHeads(s, holds[0], ExpiredHolds(holds[1..], now));
    }
  }

  // ----- what one retry does -----

  /** The entry `__add_task` leaves for the task. */
  lemma AssignEntry(s: State, clock: Clock, task: Task, retry: nat)
    ensures var s' := Assign(s, clock, task, retry);
            if Assigns(s, task) then
              && s'.unassigned == s.unassigned && task.id in s'.outstanding.vals
              && s'.outstanding.vals[task.id]
                 == InProgress(task, Chosen(s, task), retry, clock(s.ticks) + task.timeout)
            else
              && task.id !in s'.outstanding.vals && task.id in s'.unassigned.vals
              && s'.unassigned.vals[task.id]
                 == (if task.id in s.unassigned.vals then s.unassigned.vals[task.id]
                     else OnHold(task, retry, clock(s.ticks) + task.timeout))
  {
    hide Chosen;
  }

  lemma RetryFrame(s: State, clock: Clock, ip: InProgress)
    ensures var s', id := Retry(s, clock, ip), ip.task.id;
            && s'.workers == s.workers && s'.live == s.live && s'.added == s.added && s.ticks <= s'.ticks
            && SameElse(s.outstanding.vals, s'.outstanding.vals, id)
            && SameElse(s.unassigned.vals, s'.unassigned.vals, id)
  {
    hide Assign;
    if ip.retry < 3 {
      var s1 := s.(lapsed := s.lapsed[ip.worker.workerId := Lapsed(s, ip.worker.workerId) + 1]);
      AssignFrame(s1, clock, ip.task, ip.retry + 1);
      AssignMaps(s1, clock, ip.task, ip.retry + 1);
    }
  }

  lemma RetryOthers(s: State, clock: Clock, ip: InProgress, id: string)
    requires id != ip.task.id
    ensures Stays(s, Retry(s, clock, ip), id)
  {
    hide Assign, PutCount, Notices;
    var s' := Retry(s, clock, ip);
    RetryFrame(s, clock, ip);
    if ip.retry < 3 {
      var s1 := s.(lapsed := s.lapsed[ip.worker.workerId := Lapsed(s, ip.worker.workerId) + 1]);
      AssignFrame(s1, clock, ip.task, ip.retry + 1);
      AssignPuts(s1, clock, ip.task, ip.retry + 1, id);
    } else {
      NoticesPlus(s.notes, Note(ip.task.id, TooManyRetries), id);
    }
  }

  /** A retry gives the task to a matching worker with a new deadline, or parks it when nobody
      matches, or resolves it. */
  lemma RetryEntry(s: State, clock: Clock, ip: InProgress)
    requires Base(s) && ip.task.id in s.outstanding.vals && s.outstanding.vals[ip.task.id] == ip
    ensures var s', id := Retry(s, clock, ip), ip.task.id;
            && (id in s'.outstanding.vals ==>
                  && Placed(s'.workers, s'.outstanding.vals[id]) && s'.outstanding.vals[id].retry == ip.retry + 1
                  && s'.outstanding.vals[id].deadline == clock(s.ticks) + ip.task.timeout)
            && (id in s'.unassigned.vals ==> s'.unassigned.vals[id].retry == ip.retry + 1)
            && (Assigns(s, ip.task) ==> s'.unassigned == s.unassigned)
            && Advances(s, s', id)
            && Stage(s, id) < Stage(s', id)
  {
    hide Assign, PutCount, Notices, Chosen, Balanced, Registered, PutsFit;
    var id, s' := ip.task.id, Retry(s, clock, ip);
    RetryFrame(s, clock, ip);
    assert TaskOk(s, id);
    if ip.retry < 3 {
      var s1 := s.(lapsed := s.lapsed[ip.worker.workerId := Lapsed(s, ip.worker.workerId) + 1]);
      AssignEntry(s1, clock, ip.task, ip.retry + 1);
      if Assigns(s1, ip.task) {
        ChosenIsBest(s1, ip.task);
      }
    }
  }

  lemma AdvancesTrans(a: State, b: State, c: State, id: string)
    requires Advances(a, b, id) && Advances(b, c, id)
    ensures Advances(a, c, id)
    ensures Stage(a, id) <= Stage(b, id) <= Stage(c, id)
  {
    hide PutCount, Notices;
  }

  /** Every entry is placed, except perhaps the ones about to be retried. */
  ghost predicate PlacedOr(s: State, ips: seq<InProgress>) {
    forall id :: id in s.outstanding.vals ==> Placed(s.workers, s.outstanding.vals[id]) || s.outstanding.vals[id] in ips
  }

  /** The induction step of __retry_tasks: what holds of the rest of the list after its head. */
  lemma RetryStep(s: State, clock: Clock, ips: seq<InProgress>)
    requires ips != [] && Base(s) && Current(s, ips) && PlacedOr(s, ips)
    ensures var s' := Retry(s, clock, ips[0]);
            Base(s') && Current(s', ips[1..]) && PlacedOr(s', ips[1..])
  {
    hide Retry, Base, PutCount, Notices, Stage;
    var s' := Retry(s, clock, ips[0]);
    RetryBase(s, clock, ips[0]);
    RetryFrame(s, clock, ips[0]);
    RetryEntry(s, clock, ips[0]);
    forall id | id in s'.outstanding.vals
      ensures Placed(s'.workers, s'.outstanding.vals[id]) || s'.outstanding.vals[id] in ips[1..]
    {
      if id != ips[0].task.id && s.outstanding.vals[id] in ips {
        var i :| 0 <= i < |ips| && ips[i] == s.outstanding.vals[id];
        BaseIds(s, id);
        assert i > 0;
        assert ips[1..][i - 1] == s.outstanding.vals[id];
      }
    }
  }

  lemma BaseIds(s: State, id: string)
    requires Base(s)
    ensures id in s.outstanding.vals ==> s.outstanding.vals[id].task.id == id
    ensures id in s.unassigned.vals ==> s.unassigned.vals[id].task.id == id
    ensures id in s.outstanding.vals || id in s.unassigned.vals ==> id in s.added
    ensures !(id in s.outstanding.vals && id in s.unassigned.vals)
  {
    assert TaskOk(s, id);
  }

  lemma {:induction false} RetryAllKeeps(s: State, clock: Clock, ips: seq<InProgress>)
    requires Base(s) && Current(s, ips) && PlacedOr(s, ips)
    ensures var s' := RetryAll(s, clock, ips);
            && Base(s') && AllPlaced(s')
            && s'.workers == s.workers && s'.live == s.live && s'.added == s.added && s.ticks <= s'.ticks
    decreases |ips|
  {
    hide Retry, Base, Placed, Current;
    if ips != [] {
      RetryStep(s, clock, ips);
      RetryFrame(s, clock, ips[0]);
      RetryAllKeeps(Retry(s, clock, ips[0]), clock, ips[1..]);
    }
  }

  /** A task in the list goes up a stage, and in particular its retry counter does while it is open;
      every other task stays where it is. */
  lemma {:induction false} RetryAllMoves(s: State, clock: Clock, ips: seq<InProgress>, id: string)
    requires Base(s) && Current(s, ips) && PlacedOr(s, ips) && id in s.added
    ensures var s' := RetryAll(s, clock, ips);
            && Advances(s, s', id)
            && ((forall i :: 0 <= i < |ips| ==> ips[i].task.id != id) ==> Stays(s, s', id))
            && (forall i :: 0 <= i < |ips| && ips[i].task.id == id ==> Raised(ips[i], s'))
    decreases |ips|
  {
    hide Retry, Base, Placed, PutCount, Notices;
    if ips != [] {
      var s1 := Retry(s, clock, ips[0]);
      RetryStep(s, clock, ips);
      RetryFrame(s, clock, ips[0]);
      if ips[0].task.id == id {
        RetryEntry(s, clock, ips[0]);
      } else {
        RetryOthers(s, clock, ips[0], id);
      }
      RetryAllMoves(s1, clock, ips[1..], id);
      AdvancesTrans(s, s1, RetryAll(s1, clock, ips[1..]), id);
      assert forall i :: 0 <= i < |ips| - 1 ==> ips[1..][i] == ips[i + 1];
    }
  }

  /** The task is resolved, or open with a higher retry counter than the entry had. */
  predicate Raised(ip: InProgress, s: State) {
    && (ip.task.id in s.outstanding.vals ==> s.outstanding.vals[ip.task.id].retry > ip.retry)
    && (ip.task.id in s.unassigned.vals ==> s.unassigned.vals[ip.task.id].retry > ip.retry)
  }

  // ----- add_task, acknowledge_task, error_task -----

  function Adding(s: State, task: Task, retry: nat): State {
    s.(added := s.added[task.id := retry])
  }

  /** A task that is new can be put or parked, and the others are as they were. */
  lemma AddReady(s: State, task: Task, retry: nat)
    requires Inv(s) && task.id !in s.added
    ensures var s1 := Adding(s, task, retry);
            && BalancedBut(s1, task.id) && Ready(s1, task, retry) && task.id !in s1.unassigned.vals
            && forall id :: id != task.id ==> TaskOk(s1, id)
  {
    hide PutCount, Notices, Registered, PutsFit, Placed, On;
    assert TaskOk(s, task.id);
    forall id | id != task.id
      ensures TaskOk(Adding(s, task, retry), id)
    {
      assert TaskOk(s, id);
    }
    assert s.outstanding.vals - {task.id} == s.outstanding.vals;
  }

  lemma AddInv(s: State, clock: Clock, task: Task, retry: nat)
    requires Inv(s) && task.id !in s.added
    ensures var s' := AddTask(s, clock, task, retry);
            && Inv(s') && s'.workers == s.workers && s'.live == s.live
            && s'.added == s.added[task.id := retry] && s.ticks <= s'.ticks
  {
    hide Assign, TaskOk, BalancedBut, Balanced, Ready, Registered, PutsFit, Placed;
    var s1 := Adding(s, task, retry);
    AddReady(s, task, retry);
    AssignBase(s1, clock, task, retry);
    AssignFrame(s1, clock, task, retry);
    AssignPlaces(s1, clock, task, retry);
  }

  lemma AssignPlaces(s: State, clock: Clock, task: Task, retry: nat)
    requires forall id :: id in s.outstanding.vals && id != task.id ==> Placed(s.workers, s.outstanding.vals[id])
    ensures AllPlaced(Assign(s, clock, task, retry))
  {
    hide Assign;
    var s' := Assign(s, clock, task, retry);
    AssignFrame(s, clock, task, retry);
    AssignMaps(s, clock, task, retry);
    AssignEntry(s, clock, task, retry);
    if Assigns(s, task) {
      ChosenIsBest(s, task);
    }
  }

  lemma AddMoves(s: State, clock: Clock, task: Task, retry: nat, id: string)
    requires id in s.added && id != task.id
    ensures Stays(s, AddTask(s, clock, task, retry), id)
  {
    hide Assign, PutCount, Notices;
    var s1 := s.(added := s.added[task.id := retry]);
    AssignFrame(s1, clock, task, retry);
    AssignMaps(s1, clock, task, retry);
    AssignPuts(s1, clock, task, retry, id);
  }

  lemma CloseInv(s: State, worker: string, id: string, outcome: Outcome)
    requires Inv(s)
    ensures var s' := Close(s, worker, id, outcome);
            Inv(s') && s'.workers == s.workers && s'.live == s.live && s'.added == s.added
  {
    hide Base;
    if id in s.outstanding.vals && s.outstanding.vals[id].worker.workerId == worker {
      CloseBase(s, id, outcome, Close(s, worker, id, outcome));
    }
  }

  lemma CloseMoves(s: State, worker: string, id: string, outcome: Outcome, x: string)
    requires Inv(s) && x in s.added
    ensures Advances(s, Close(s, worker, id, outcome), x)
  {
    hide PutCount, Notices, Placed;
    assert TaskOk(s, x);
    NoticesPlus(s.notes, Note(id, outcome), x);
  }

  lemma CloseKeeps(s: State, worker: string, id: string, outcome: Outcome)
    requires Inv(s)
    ensures var s' := Close(s, worker, id, outcome);
            Inv(s') && s'.ticks == s.ticks && forall x :: x in s.added ==> Advances(s, s', x)
  {
    hide Inv, Advances;
    CloseInv(s, worker, id, outcome);
    forall x | x in s.added
      ensures Advances(s, Close(s, worker, id, outcome), x)
    {
      CloseMoves(s, worker, id, outcome, x);
    }
  }

  // ----- attach -----

  lemma {:induction false} MinePlus(a: seq<Subscription>, b: seq<Subscription>, w: string)
    ensures Mine(a + b, w) == Mine(a, w) + Mine(b, w)
  {
    if a == [] {
      assert a + b == b;
    } else {
      var all, tail := a + b, a[1..];
      assert all[0] == a[0] && all[1..] == tail + b;
      MinePlus(tail, b, w);
      MineHead(all, w);
      MineHead(a, w);
      hide Mine;
      assert Mine(tail + b, w) == Mine(tail, w) + Mine(b, w);
    }
  }

  lemma MineHead(subs: seq<Subscription>, w: string)
    requires subs != []
    ensures Mine(subs, w) == (if subs[0].workerId == w then [subs[0]] else []) + Mine(subs[1..], w)
  {
  }

  lemma {:induction false} MineIs(subs: seq<Subscription>, w: string)
    ensures forall x :: x in Mine(subs, w) <==> x in subs && x.workerId == w
  {
    if subs != [] {
      MineIs(subs[1..], w);
    }
  }

  lemma {:induction false} MineOfOne(subs: seq<Subscription>, n: string, worker: string, w: string)
    requires forall i :: 0 <= i < |subs| ==> subs[i].workerId == worker
    ensures Mine(Named(subs, n), w) == if w == worker then Named(subs, n) else []
  {
    if subs != [] {
      MineOfOne(subs[1..], n, worker, w);
      var one := if subs[0].desc.name == n then [subs[0]] else [];
      MinePlus(one, Named(subs[1..], n), w);
    }
  }

  lemma {:induction false} RegisterAdds(workers: map<string, seq<Subscription>>, subs: seq<Subscription>, n: string)
    ensures SubsFor(Register(workers, subs), n) == SubsFor(workers, n) + Named(subs, n)
    decreases |subs|
  {
    if subs != [] {
      RegisterAdds(workers[subs[0].desc.name := SubsFor(workers, subs[0].desc.name) + [subs[0]]], subs[1..], n);
    }
  }

  /** An entry's worker is attached. */
  lemma PlacedIsLive(s: State, ip: InProgress)
    requires Registered(s.workers, s.live) && Placed(s.workers, ip)
    ensures ip.worker.workerId in s.live
  {
    var subs := SubsFor(s.workers, ip.task.name);
    MineIs(subs, ip.worker.workerId);
    assert ip.worker in Mine(subs, ip.worker.workerId);
  }

  lemma RegisterRegistered(workers: map<string, seq<Subscription>>, live: map<string, seq<Subscription>>,
                           worker: string, subs: seq<Subscription>)
    requires Registered(workers, live) && worker !in live
    requires forall i :: 0 <= i < |subs| ==> subs[i].workerId == worker
    ensures Registered(Register(workers, subs), live[worker := subs])
  {
    hide Mine, Named, Register, SubsFor;
    var live' := live[worker := subs];
    forall n, w
      ensures Mine(SubsFor(Register(workers, subs), n), w) == (if w in live' then Named(live'[w], n) else [])
    {
      RegisterAdds(workers, subs, n);
      MinePlus(SubsFor(workers, n), Named(subs, n), w);
      MineOfOne(subs, n, worker, w);
    }
  }

  lemma AttachFields(s: State, worker: string, descs: seq<Description>)
    requires descs != []
    ensures var s', subs := Attach(s, worker, descs), Subscribe(worker, descs, s.queues);
            && s'.workers == Register(s.workers, subs) && s'.live == s.live[worker := subs]
            && s'.outstanding == s.outstanding && s'.unassigned == s.unassigned && s'.ticks == s.ticks
            && s'.puts == s.puts && s'.notes == s.notes && s'.added == s.added
            && s'.workCount == s.workCount[worker := 0] && s'.lapsed == s.lapsed[worker := 0]
  {
  }

  lemma AttachPlaced(s: State, worker: string, descs: seq<Description>)
    requires AllPlaced(s) && descs != []
    ensures AllPlaced(Attach(s, worker, descs))
  {
    hide Attach, SubsFor, CanPerform, Register;
    var s' := Attach(s, worker, descs);
    AttachFields(s, worker, descs);
    forall id | id in s'.outstanding.vals
      ensures Placed(s'.workers, s'.outstanding.vals[id])
    {
      assert Placed(s.workers, s.outstanding.vals[id]);
      RegisterAdds(s.workers, Subscribe(worker, descs, s.queues), s.outstanding.vals[id].task.name);
    }
  }

  lemma AttachBalanced(s: State, worker: string, descs: seq<Description>)
    requires Balanced(s) && AllPlaced(s) && Registered(s.workers, s.live) && worker !in s.live && descs != []
    ensures Balanced(Attach(s, worker, descs))
  {
    hide Attach, Registered, Placed;
    AttachFields(s, worker, descs);
    forall id | id in s.outstanding.vals
      ensures s.outstanding.vals[id].worker.workerId in s.live
    {
      PlacedIsLive(s, s.outstanding.vals[id]);
    }
    assert On(s.outstanding.vals, worker) == {};
  }

  lemma AttachInv(s: State, worker: string, descs: seq<Description>)
    requires Inv(s) && worker !in s.live
    ensures var s' := Attach(s, worker, descs);
            Inv(s') && s'.added == s.added && s'.ticks == s.ticks
    ensures forall x :: x in s.added ==> Stays(s, Attach(s, worker, descs), x)
  {
    hide Attach, PutCount, Notices, Placed, Registered, AllPlaced, Balanced, PutsFit;
    var s' := Attach(s, worker, descs);
    if descs == [] {
      AttachNothing(s, worker);
    } else {
      AttachFields(s, worker, descs);
      AttachPlaced(s, worker, descs);
      AttachBalanced(s, worker, descs);
      RegisterRegistered(s.workers, s.live, worker, Subscribe(worker, descs, s.queues));
      forall x
        ensures TaskOk(s', x)
      {
        assert TaskOk(s, x);
      }
    }
  }

  lemma AttachNothing(s: State, worker: string)
    ensures Attach(s, worker, []) == s
  {
  }

  // ----- detach -----

  lemma {:induction false} RemoveMine(subs: seq<Subscription>, sub: Subscription, w: string)
    requires w == sub.workerId ==> Mine(subs, w) != [] && Mine(subs, w)[0] == sub
    ensures Mine(RemoveFirst(subs, sub), w) == if w == sub.workerId then Mine(subs, w)[1..] else Mine(subs, w)
    ensures w == sub.workerId ==> sub in subs
  {
    if subs != [] {
      if subs[0] != sub {
        RemoveMine(subs[1..], sub, w);
        assert ([subs[0]] + RemoveFirst(subs[1..], sub))[1..] == RemoveFirst(subs[1..], sub);
      }
    }
  }

  /** Detaching finds every subscription it removes, leaves none of the worker's behind and every
      other worker's alone. */
  lemma {:induction false} UnregisterMine(workers: map<string, seq<Subscription>>, subs: seq<Subscription>,
                                          worker: string)
    requires forall i :: 0 <= i < |subs| ==> subs[i].workerId == worker
    requires forall n :: Mine(SubsFor(workers, n), worker) == Named(subs, n)
    ensures subs != [] ==> subs[0] in SubsFor(workers, subs[0].desc.name)
    ensures forall n, w :: Mine(SubsFor(Unregister(workers, subs), n), w)
                        == if w == worker then [] else Mine(SubsFor(workers, n), w)
    decreases |subs|
  {
    hide *;
    if subs == [] {
      forall n, w
        ensures Mine(SubsFor(Unregister(workers, subs), n), w) == if w == worker then [] else Mine(SubsFor(workers,
            n), w)
      {
        NoneNamed(workers, n);
      }
    } else {
      var sub, name := subs[0], subs[0].desc.name;
      var workers' := workers[name := RemoveFirst(SubsFor(workers, name), sub)];
      UnregisterStep(workers, subs);
      UnregisterHead(workers, subs, worker);
      UnregisterMine(workers', subs[1..], worker);
      forall n, w
        ensures Mine(SubsFor(Unregister(workers, subs), n), w) == if w == worker then [] else Mine(SubsFor(workers,
            n), w)
      {
        if w != worker {
          RemoveMine(SubsFor(workers, name), sub, w);
        }
        SubsForSet(workers, name, RemoveFirst(SubsFor(workers, name), sub), n);
      }
    }
  }

  lemma NoneNamed(workers: map<string, seq<Subscription>>, n: string)
    ensures Unregister(workers, []) == workers && Named([], n) == []
  {
  }

  lemma SubsForSet(workers: map<string, seq<Subscription>>, name: string, subs: seq<Subscription>, n: string)
    ensures SubsFor(workers[name := subs], n) == if n == name then subs else SubsFor(workers, n)
  {
  }

  lemma UnregisterHead(workers: map<string, seq<Subscription>>, subs: seq<Subscription>, worker: string)
    requires subs != [] && subs[0].workerId == worker
    requires forall n :: Mine(SubsFor(workers, n), worker) == Named(subs, n)
    ensures var sub, name := subs[0], subs[0].desc.name;
            var workers' := workers[name := RemoveFirst(SubsFor(workers, name), sub)];
            && sub in SubsFor(workers, name)
            && forall n :: Mine(SubsFor(workers', n), worker) == Named(subs[1..], n)
  {
    hide Mine, RemoveFirst;
    var sub, name := subs[0], subs[0].desc.name;
    assert Named(subs, name)[0] == sub;
    RemoveMine(SubsFor(workers, name), sub, worker);
    hide Named;
    forall n
      ensures Named(subs[1..], n) == if name == n then Named(subs, n)[1..] else Named(subs, n)
    {
      NamedTail(subs, n);
    }
  }

  lemma NamedTail(subs: seq<Subscription>, n: string)
    requires subs != []
    ensures Named(subs[1..], n) == if subs[0].desc.name == n then Named(subs, n)[1..] else Named(subs, n)
  {
  }

  lemma UnregisterStep(workers: map<string, seq<Subscription>>, subs: seq<Subscription>)
    requires subs != []
    ensures var sub, name := subs[0], subs[0].desc.name;
            Unregister(workers, subs) == Unregister(workers[name := RemoveFirst(SubsFor(workers, name), sub)],
                subs[1..])
  {
  }

  /** The state right after the worker's subscriptions and counter are gone. */
  function Detached(s: State, worker: string): State
    requires worker in s.live
  {
    s.(workers := Unregister(s.workers, s.live[worker]),
       workCount := s.workCount - {worker},
       live := s.live - {worker})
  }

  lemma DetachedRegistered(s: State, worker: string)
    requires Registered(s.workers, s.live) && worker in s.live
    ensures Registered(Detached(s, worker).workers, Detached(s, worker).live)
    ensures forall n, w :: w != worker ==>
              Mine(SubsFor(Detached(s, worker).workers, n), w) == Mine(SubsFor(s.workers, n), w)
  {
    hide Mine, Named, Unregister, SubsFor;
    UnregisterMine(s.workers, s.live[worker], worker);
  }

  lemma DetachedBase(s: State, worker: string)
    requires Inv(s) && worker in s.live
    ensures Base(Detached(s, worker))
  {
    hide PutCount, Notices, PutsFit, Placed, Registered, On, Unregister;
    DetachedRegistered(s, worker);
    forall id
      ensures TaskOk(Detached(s, worker), id)
    {
      assert TaskOk(s, id);
    }
  }

  lemma DetachedOpen(s: State, worker: string)
    requires Inv(s) && worker in s.live
    ensures PlacedOr(Detached(s, worker), OpenTasks(s.outstanding.Values(), worker))
    ensures Current(Detached(s, worker), OpenTasks(s.outstanding.Values(), worker))
  {
    hide Mine, SubsFor, CanPerform, Current, Unregister, Registered, TaskOk;
    var s' := Detached(s, worker);
    DetachedRegistered(s, worker);
    ValuesCurrent(s);
    OpenCurrent(s, s.outstanding.Values(), worker);
    SameCurrent(s, s', OpenTasks(s.outstanding.Values(), worker));
    forall id | id in s'.outstanding.vals && s.outstanding.vals[id].worker.workerId != worker
      ensures Placed(s'.workers, s'.outstanding.vals[id])
    {
      var ip := s.outstanding.vals[id];
      MineIs(SubsFor(s.workers, ip.task.name), ip.worker.workerId);
      MineIs(SubsFor(s'.workers, ip.task.name), ip.worker.workerId);
    }
  }

  lemma SameCurrent(s: State, s': State, ips: seq<InProgress>)
    requires Current(s, ips) && s'.outstanding == s.outstanding
    ensures Current(s', ips)
  {
  }

  lemma DetachInv(s: State, clock: Clock, worker: string)
    requires Inv(s) && worker in s.live
    ensures var s' := Detach(s, clock, worker);
            && Inv(s') && s'.live == s.live - {worker} && s'.added == s.added && s.ticks <= s'.ticks
  {
    hide RetryAll, Base, AllPlaced, PlacedOr, Current;
    DetachedBase(s, worker);
    DetachedOpen(s, worker);
    RetryAllKeeps(Detached(s, worker), clock, OpenTasks(s.outstanding.Values(), worker));
  }

  /** After a detach nothing is outstanding on that worker. */
  lemma DetachFreesWorker(s: State, clock: Clock, worker: string)
    requires Inv(s) && worker in s.live
    ensures var s' := Detach(s, clock, worker);
            forall id :: id in s'.outstanding.vals ==> s'.outstanding.vals[id].worker.workerId != worker
  {
    hide Detach, Placed;
    var s' := Detach(s, clock, worker);
    DetachInv(s, clock, worker);
    forall id | id in s'.outstanding.vals
      ensures s'.outstanding.vals[id].worker.workerId != worker
    {
      PlacedIsLive(s', s'.outstanding.vals[id]);
    }
  }

  lemma DetachMoves(s: State, clock: Clock, worker: string, id: string)
    requires Inv(s) && worker in s.live && id in s.added
    ensures Advances(s, Detach(s, clock, worker), id)
  {
    hide RetryAll, Base, AllPlaced, PlacedOr, Current, PutCount, Notices;
    DetachedBase(s, worker);
    DetachedOpen(s, worker);
    var s1, ips := Detached(s, worker), OpenTasks(s.outstanding.Values(), worker);
    RetryAllMoves(s1, clock, ips, id);
    AdvancesTrans(s, s1, RetryAll(s1, clock, ips), id);
  }

  // ----- check_outdated_unassigned_tasks -----

  lemma {:induction false} GiveUpBase(s: State, holds: seq<OnHold>)
    requires Inv(s) && Holding(s, holds)
    ensures var s' := GiveUp(s, holds);
            && Inv(s') && s'.outstanding == s.outstanding && s'.workers == s.workers && s'.live == s.live
            && s'.added == s.added && s'.ticks == s.ticks && s'.workCount == s.workCount
    ensures var s' := GiveUp(s, holds);
            forall id :: id in s'.unassigned.vals <==>
              id in s.unassigned.vals && (forall i :: 0 <= i < |holds| ==> holds[i].task.id != id)
    ensures forall id :: id in GiveUp(s, holds).unassigned.vals ==>
              GiveUp(s, holds).unassigned.vals[id] == s.unassigned.vals[id]
    ensures forall id :: id in s.added ==> Advances(s, GiveUp(s, holds), id)
    decreases |holds|
  {
    if holds == [] {
      hide Inv;
    } else {
      hide *;
      var s1 := GiveUpOne(s, holds[0]);
      GiveUpStep(s, holds);
      GiveUpOneInv(s, holds[0]);
      GiveUpBase(s1, holds[1..]);
      forall id | id in s.added
        ensures Advances(s, GiveUp(s, holds), id)
      {
        AdvancesTrans(s, s1, GiveUp(s1, holds[1..]), id);
      }
      assert forall i :: 0 <= i < |holds| - 1 ==> holds[1..][i] == holds[i + 1];
    }
  }

  function GiveUpOne(s: State, hold: OnHold): State {
    s.(unassigned := s.unassigned.Pop(hold.task.id), notes := s.notes + [Note(hold.task.id, NoWorker)])
  }

  lemma GiveUpStep(s: State, holds: seq<OnHold>)
    requires holds != [] && Holding(s, holds)
    ensures var s1 := GiveUpOne(s, holds[0]);
            && GiveUp(s, holds) == GiveUp(s1, holds[1..]) && Holding(s1, holds[1..])
            && s1.unassigned.vals == s.unassigned.vals - {holds[0].task.id}
            && s1.outstanding == s.outstanding && s1.workers == s.workers && s1.live == s.live
            && s1.added == s.added && s1.ticks == s.ticks && s1.workCount == s.workCount
    ensures holds[0].task.id in s.unassigned.vals && s.unassigned.vals[holds[0].task.id] == holds[0]
  {
    var tail := holds[1..];
    assert forall i :: 0 <= i < |tail| ==> tail[i] == holds[i + 1];
  }

  lemma GiveUpOneInv(s: State, hold: OnHold)
    requires Inv(s) && hold.task.id in s.unassigned.vals && s.unassigned.vals[hold.task.id] == hold
    ensures Inv(GiveUpOne(s, hold))
    ensures forall id :: id in s.added ==> Advances(s, GiveUpOne(s, hold), id)
  {
    hide Placed, PutCount, Notices, Registered, PutsFit, On;
    var s' := GiveUpOne(s, hold);
    PopValid(s.unassigned, hold.task.id);
    forall id
      ensures TaskOk(s', id)
    {
      assert TaskOk(s, id);
      NoticesPlus(s.notes, Note(hold.task.id, NoWorker), id);
    }
    forall id | id in s.added
      ensures Advances(s, s', id)
    {
      assert TaskOk(s, id);
      NoticesPlus(s.notes, Note(hold.task.id, NoWorker), id);
    }
  }

  lemma AssignHeldInv(s: State, clock: Clock, hold: OnHold)
    requires Inv(s) && hold.task.id in s.unassigned.vals && s.unassigned.vals[hold.task.id] == hold
    ensures Inv(AssignHeld(s, clock, hold))
  {
    hide Assign, PutCount, Notices, Placed, Registered, On;
    var task, id, s' := hold.task, hold.task.id, AssignHeld(s, clock, hold);
    assert TaskOk(s, id);
    assert s.outstanding.vals - {id} == s.outstanding.vals;
    AssignBalanced(s, clock, task, hold.retry);
    AssignValid(s, clock, task, hold.retry);
    AssignFits(s, clock, task, hold.retry);
    AssignFrame(s, clock, task, hold.retry);
    AssignPlaces(s, clock, task, hold.retry);
    PopValid(Assign(s, clock, task, hold.retry).unassigned, id);
    AssignSelf(s, clock, task, hold.retry);
    forall x | x != id
      ensures TaskOk(s', x)
    {
      assert TaskOk(s, x);
      AssignOthers(s, clock, task, hold.retry, x);
    }
  }

  /** A parked task with a matching worker gets one, with a new deadline; any other stays parked. */
  lemma AssignHeldEntry(s: State, clock: Clock, hold: OnHold)
    requires Inv(s) && hold.task.id in s.unassigned.vals && s.unassigned.vals[hold.task.id] == hold
    ensures var s', id := AssignHeld(s, clock, hold), hold.task.id;
            && s'.workers == s.workers && s'.live == s.live && s'.added == s.added && s.ticks <= s'.ticks
            && SameElse(s.outstanding.vals, s'.outstanding.vals, id)
            && SameElse(s.unassigned.vals, s'.unassigned.vals, id)
            && (if Assigns(s, hold.task) then
                  && id !in s'.unassigned.vals && id in s'.outstanding.vals
                  && s'.outstanding.vals[id].deadline == clock(s.ticks) + hold.task.timeout
                  && s'.outstanding.vals[id].retry == hold.retry
                else
                  && id in s'.unassigned.vals && s'.unassigned.vals[id] == hold && id !in s'.outstanding.vals)
            && (forall x :: x in s.added ==> Advances(s, s', x))
  {
    hide Assign, PutCount, Notices, Placed, Registered, On, Chosen, Assigns;
    assert TaskOk(s, hold.task.id);
    AssignFrame(s, clock, hold.task, hold.retry);
    AssignMaps(s, clock, hold.task, hold.retry);
    AssignEntry(s, clock, hold.task, hold.retry);
    forall x | x in s.added
      ensures Advances(s, AssignHeld(s, clock, hold), x)
    {
      AssignPuts(s, clock, hold.task, hold.retry, x);
    }
  }

  lemma {:induction false} AssignAllHeldInv(s: State, clock: Clock, holds: seq<OnHold>)
    requires Inv(s) && Holding(s, holds)
    ensures var s' := AssignAllHeld(s, clock, holds);
            && Inv(s') && s'.workers == s.workers && s'.live == s.live && s'.added == s.added && s.ticks <= s'.ticks
    ensures forall x :: x in s.added ==> Advances(s, AssignAllHeld(s, clock, holds), x)
    decreases |holds|
  {
    if holds != [] {
      hide AssignHeld, Inv, Advances;
      var s1 := AssignHeld(s, clock, holds[0]);
      AssignHeldInv(s, clock, holds[0]);
      AssignHeldEntry(s, clock, holds[0]);
      AssignAllHeldInv(s1, clock, holds[1..]);
      forall x | x in s.added
        ensures Advances(s, AssignAllHeld(s, clock, holds), x)
      {
        AdvancesTrans(s, s1, AssignAllHeld(s1, clock, holds[1..]), x);
      }
    }
  }

  // ----- the state a check leaves -----

  ghost predicate Monotone(clock: Clock) {
    forall i: nat, j: nat :: i <= j ==> clock(i) <= clock(j)
  }

  /** Nothing outstanding is overdue, except perhaps the entries about to be retried. */
  ghost predicate FreshOr(s: State, now: int, ips: seq<InProgress>) {
    forall id :: id in s.outstanding.vals ==>
      s.outstanding.vals[id].deadline >= now || s.outstanding.vals[id] in ips
  }

  lemma {:induction false} RetryAllFresh(s: State, clock: Clock, ips: seq<InProgress>, now: int)
    requires Base(s) && Current(s, ips) && AllPlaced(s) && FreshOr(s, now, ips)
    requires Monotone(clock) && clock(s.ticks) >= now
    ensures FreshOr(RetryAll(s, clock, ips), now, [])
    ensures RetryAll(s, clock, ips).unassigned == s.unassigned
    decreases |ips|
  {
    hide Retry, Base, Placed, PutCount, Notices, Stage, Advances, Assigns;
    if ips != [] {
      var s1 := Retry(s, clock, ips[0]);
      RetryStep(s, clock, ips);
      RetryFrame(s, clock, ips[0]);
      RetryEntry(s, clock, ips[0]);
      PlacedAssigns(s, ips[0]);
      forall id | id in s1.outstanding.vals
        ensures s1.outstanding.vals[id].deadline >= now || s1.outstanding.vals[id] in ips[1..]
      {
        if id != ips[0].task.id && s.outstanding.vals[id] in ips {
          var i :| 0 <= i < |ips| && ips[i] == s.outstanding.vals[id];
          BaseIds(s, id);
          assert ips[1..][i - 1] == s.outstanding.vals[id];
        }
      }
      RetryPlaced(s, clock, ips[0]);
      RetryAllFresh(s1, clock, ips[1..], now);
    }
  }

  lemma PlacedAssigns(s: State, ip: InProgress)
    requires Placed(s.workers, ip)
    ensures Assigns(s, ip.task)
  {
    AssignsIff(s, ip.task);
  }

  lemma RetryPlaced(s: State, clock: Clock, ip: InProgress)
    requires Base(s) && AllPlaced(s) && ip.task.id in s.outstanding.vals && s.outstanding.vals[ip.task.id] == ip
    ensures AllPlaced(Retry(s, clock, ip))
  {
    hide Retry, Base, Placed, Advances, Stage, Assigns;
    RetryFrame(s, clock, ip);
    RetryEntry(s, clock, ip);
  }

  /** Everything parked is not overdue, and is in the list or has no matching worker. */
  ghost predicate ParkedOr(s: State, now: int, holds: seq<OnHold>) {
    forall id :: id in s.unassigned.vals ==>
      && s.unassigned.vals[id].deadline >= now
      && (s.unassigned.vals[id] in holds || !Assigns(s, s.unassigned.vals[id].task))
  }

  lemma AssignHeldFresh(s: State, clock: Clock, holds: seq<OnHold>, now: int)
    requires Inv(s) && holds != [] && Holding(s, holds) && FreshOr(s, now, []) && ParkedOr(s, now, holds)
    requires clock(s.ticks) >= now
    ensures var s1 := AssignHeld(s, clock, holds[0]);
            Holding(s1, holds[1..]) && FreshOr(s1, now, []) && ParkedOr(s1, now, holds[1..])
  {
    hide AssignHeld, Inv, Advances, Chosen, Matching;
    var hold, s1 := holds[0], AssignHeld(s, clock, holds[0]);
    AssignHeldEntry(s, clock, hold);
    forall id | id in s1.unassigned.vals
      ensures s1.unassigned.vals[id] in holds[1..] || !Assigns(s1, s1.unassigned.vals[id].task)
    {
      if id != hold.task.id && s.unassigned.vals[id] in holds {
        var i :| 0 <= i < |holds| && holds[i] == s.unassigned.vals[id];
        InvIds(s, id);
        assert holds[1..][i - 1] == s.unassigned.vals[id];
      }
    }
  }

  lemma {:induction false} AssignAllHeldFresh(s: State, clock: Clock, holds: seq<OnHold>, now: int)
    requires Inv(s) && Holding(s, holds) && FreshOr(s, now, []) && ParkedOr(s, now, holds)
    requires Monotone(clock) && clock(s.ticks) >= now
    ensures var s' := AssignAllHeld(s, clock, holds);
            FreshOr(s', now, []) && ParkedOr(s', now, [])
    decreases |holds|
  {
    if holds != [] {
      hide AssignHeld, Inv, Advances, Assigns, Holding, FreshOr, ParkedOr;
      assert holds[0].task.id in s.unassigned.vals && s.unassigned.vals[holds[0].task.id] == holds[0] by {
        HoldingHead(s, holds);
      }
      AssignHeldInv(s, clock, holds[0]);
      AssignHeldEntry(s, clock, holds[0]);
      AssignHeldFresh(s, clock, holds, now);
      AssignAllHeldFresh(AssignHeld(s, clock, holds[0]), clock, holds[1..], now);
    }
  }

  lemma HoldingHead(s: State, holds: seq<OnHold>)
    requires holds != [] && Holding(s, holds)
    ensures holds[0].task.id in s.unassigned.vals && s.unassigned.vals[holds[0].task.id] == holds[0]
  {
  }

  lemma InvIds(s: State, id: string)
    requires Inv(s)
    ensures id in s.unassigned.vals ==> s.unassigned.vals[id].task.id == id
  {
    BaseIds(s, id);
  }

  // The three phases of a check.

  function Ticked(s: State): State {
    s.(ticks := s.ticks + 1)
  }

  function Overdue(s: State, clock: Clock): seq<InProgress> {
    Expired(s.outstanding.Values(), clock(s.ticks))
  }

  function Retried(s: State, clock: Clock): State {
    RetryAll(Ticked(s), clock, Overdue(s, clock))
  }

  function OverdueHolds(s: State, clock: Clock): seq<OnHold> {
    ExpiredHolds(s.unassigned.Values(), clock(s.ticks))
  }

  function GivenUp(s: State, clock: Clock): State {
    GiveUp(Retried(s, clock), OverdueHolds(s, clock))
  }

  lemma CheckPhases(s: State, clock: Clock)
    ensures Check(s, clock) == AssignAllHeld(GivenUp(s, clock), clock, GivenUp(s, clock).unassigned.Values())
  {
  }

  lemma TickedInv(s: State)
    requires Inv(s)
    ensures Inv(Ticked(s))
  {
    hide PutCount, Notices, Placed, Registered, On, PutsFit;
    forall id
      ensures TaskOk(Ticked(s), id)
    {
      assert TaskOk(s, id);
    }
  }

  lemma RetriedOpen(s: State, clock: Clock)
    requires Inv(s)
    ensures Current(Ticked(s), Overdue(s, clock)) && PlacedOr(Ticked(s), Overdue(s, clock))
    ensures FreshOr(Ticked(s), clock(s.ticks), Overdue(s, clock))
    ensures forall id :: id in s.outstanding.vals && s.outstanding.vals[id].deadline < clock(s.ticks) ==>
              s.outstanding.vals[id] in Overdue(s, clock)
    ensures Holding(s, OverdueHolds(s, clock))
    ensures forall x :: x in OverdueHolds(s, clock) <==> x in s.unassigned.Values() && x.deadline < clock(s.ticks)
  {
    hide TaskOk, Placed;
    ValuesCurrent(s);
    ExpiredCurrent(s, s.outstanding.Values(), clock(s.ticks));
    ValuesHolding(s);
    ExpiredHolding(s, s.unassigned.Values(), clock(s.ticks));
  }

  lemma RetriedInv(s: State, clock: Clock)
    requires Inv(s)
    ensures var s1 := Retried(s, clock);
            && Inv(s1) && s1.workers == s.workers && s1.live == s.live && s1.added == s.added && s.ticks < s1.ticks
            && s1.unassigned == s.unassigned
    ensures Monotone(clock) ==> FreshOr(Retried(s, clock), clock(s.ticks), [])
    ensures forall id :: id in s.added ==> Advances(s, Retried(s, clock), id)
    ensures forall id :: id in s.outstanding.vals && s.outstanding.vals[id].deadline < clock(s.ticks) ==>
              Raised(s.outstanding.vals[id], Retried(s, clock))
  {
    hide RetryAll, Base, Placed, Overdue, Current, PlacedOr, FreshOr, Raised;
    var s0, ips := Ticked(s), Overdue(s, clock);
    TickedInv(s);
    RetriedOpen(s, clock);
    RetryAllKeeps(s0, clock, ips);
    RetryAllUnparked(s0, clock, ips);
    if Monotone(clock) {
      RetryAllFresh(s0, clock, ips, clock(s.ticks));
    }
    forall id | id in s.added
      ensures Advances(s, Retried(s, clock), id)
    {
      RetryAllMoves(s0, clock, ips, id);
      AdvancesTrans(s, s0, Retried(s, clock), id);
    }
    forall id | id in s.outstanding.vals && s.outstanding.vals[id].deadline < clock(s.ticks)
      ensures Raised(s.outstanding.vals[id], Retried(s, clock))
    {
      BaseIds(s, id);
      RetryAllMoves(s0, clock, ips, id);
      var i :| 0 <= i < |ips| && ips[i] == s.outstanding.vals[id];
    }
  }

  /** A retry in a check never parks a task: its worker is still attached and still matches. */
  lemma {:induction false} RetryAllUnparked(s: State, clock: Clock, ips: seq<InProgress>)
    requires Base(s) && AllPlaced(s) && Current(s, ips)
    ensures RetryAll(s, clock, ips).unassigned == s.unassigned
    decreases |ips|
  {
    hide Retry, Base, Placed, Advances, Stage, Assigns;
    if ips != [] {
      RetryStep(s, clock, ips);
      RetryPlaced(s, clock, ips[0]);
      RetryEntry(s, clock, ips[0]);
      PlacedAssigns(s, ips[0]);
      RetryAllUnparked(Retry(s, clock, ips[0]), clock, ips[1..]);
    }
  }

  lemma GivenUpInv(s: State, clock: Clock)
    requires Inv(s)
    ensures var s2 := GivenUp(s, clock);
            && Inv(s2) && s2.workers == s.workers && s2.live == s.live && s2.added == s.added && s.ticks < s2.ticks
            && s2.outstanding == Retried(s, clock).outstanding
            && (forall id :: id in s2.unassigned.vals ==>
                  && id in s.unassigned.vals && s2.unassigned.vals[id] == s.unassigned.vals[id]
                  && s.unassigned.vals[id].deadline >= clock(s.ticks))
            && (forall id :: id in s.added ==> Advances(s, s2, id))
  {
    hide Inv, Retried, Advances, GiveUp;
    RetriedInv(s, clock);
    RetriedOpen(s, clock);
    ParkedListed(s);
    var s1, holds := Retried(s, clock), OverdueHolds(s, clock);
    hide OverdueHolds;
    assert Holding(s1, holds) by { SameHolding(s, s1, holds); }
    GiveUpBase(s1, holds);
    forall id | id in s.added
      ensures Advances(s, GivenUp(s, clock), id)
    {
      AdvancesTrans(s, s1, GivenUp(s, clock), id);
    }
    forall id | id in GivenUp(s, clock).unassigned.vals
      ensures s.unassigned.vals[id].deadline >= clock(s.ticks)
    {
      InvIds(s, id);
      NotListed(holds, s.unassigned.vals[id]);
    }
  }

  lemma NotListed(holds: seq<OnHold>, hold: OnHold)
    requires forall i :: 0 <= i < |holds| ==> holds[i].task.id != hold.task.id
    ensures hold !in holds
  {
  }

  lemma ParkedListed(s: State)
    requires Inv(s)
    ensures forall id :: id in s.unassigned.vals ==> s.unassigned.vals[id] in s.unassigned.Values()
  {
    ValuesHolding(s);
  }

  lemma SameHolding(s: State, s': State, holds: seq<OnHold>)
    requires Holding(s, holds) && s'.unassigned == s.unassigned
    ensures Holding(s', holds)
  {
  }

  lemma CheckInv(s: State, clock: Clock)
    requires Inv(s)
    ensures var s' := Check(s, clock);
            && Inv(s') && s'.workers == s.workers && s'.live == s.live && s'.added == s.added && s.ticks < s'.ticks
    ensures forall id :: id in s.added ==> Advances(s, Check(s, clock), id)
  {
    hide Check, GivenUp, Inv, Advances, AssignAllHeld;
    CheckPhases(s, clock);
    GivenUpInv(s, clock);
    var s2 := GivenUp(s, clock);
    ListHolding(s2);
    AssignAllHeldInv(s2, clock, s2.unassigned.Values());
    forall id | id in s.added
      ensures Advances(s, Check(s, clock), id)
    {
      AdvancesTrans(s, s2, Check(s, clock), id);
    }
  }

  lemma ListHolding(s: State)
    requires Inv(s)
    ensures Holding(s, s.unassigned.Values())
  {
    ValuesHolding(s);
  }

  /** After a check nothing is overdue and no parked task has a matching worker. */
  lemma CheckLeavesNothing(s: State, clock: Clock)
    requires Inv(s) && Monotone(clock)
    ensures var s', now := Check(s, clock), clock(s.ticks);
            && (forall id :: id in s'.outstanding.vals ==> s'.outstanding.vals[id].deadline >= now)
            && (forall id :: id in s'.unassigned.vals ==>
                  s'.unassigned.vals[id].deadline >= now && !Assigns(s', s'.unassigned.vals[id].task))
  {
    hide Check, GivenUp, Retried, Inv, Advances, AssignAllHeld, Assigns;
    CheckPhases(s, clock);
    RetriedInv(s, clock);
    GivenUpInv(s, clock);
    var s2 := GivenUp(s, clock);
    ListHolding(s2);
    ParkedListed(s2);
    AssignAllHeldFresh(s2, clock, s2.unassigned.Values(), clock(s.ticks));
  }

  /** A check after the task's deadline resolves it or raises its retry counter. */
  lemma CheckRaises(s: State, clock: Clock, id: string)
    requires Inv(s)
    requires id in s.outstanding.vals && s.outstanding.vals[id].deadline < clock(s.ticks)
    ensures Raised(s.outstanding.vals[id], Check(s, clock))
  {
    hide Check, Retried, AssignAllHeld, PutCount, Notices, Placed, Registered, On, GiveUp;
    CheckPhases(s, clock);
    RetriedInv(s, clock);
    GivenUpInv(s, clock);
    BaseIds(s, id);
    var s1, s2 := Retried(s, clock), GivenUp(s, clock);
    ListHolding(s2);
    AssignAllHeldInv(s2, clock, s2.unassigned.Values());
    assert TaskOk(s1, id) && TaskOk(s2, id) && TaskOk(Check(s, clock), id);
    assert Advances(s2, Check(s, clock), id);
  }

  /** And it resolves an overdue parked task. */
  lemma CheckResolvesParked(s: State, clock: Clock, id: string)
    requires Inv(s)
    requires id in s.unassigned.vals && s.unassigned.vals[id].deadline < clock(s.ticks)
    ensures id !in Check(s, clock).outstanding.vals && id !in Check(s, clock).unassigned.vals
  {
    hide Check, Retried, AssignAllHeld, PutCount, Notices, Placed, Registered, On, GiveUp;
    CheckPhases(s, clock);
    RetriedInv(s, clock);
    GivenUpInv(s, clock);
    BaseIds(s, id);
    var s1, s2 := Retried(s, clock), GivenUp(s, clock);
    ListHolding(s2);
    AssignAllHeldInv(s2, clock, s2.unassigned.Values());
    BaseIds(s1, id);
    assert TaskOk(s2, id) && TaskOk(Check(s, clock), id);
    assert Advances(s2, Check(s, clock), id);
  }

  // ----- runs -----

  datatype Op =
    | DoAttach(worker: string, descs: seq<Description>)
    | DoDetach(worker: string)
    | DoAdd(task: Task, retry: nat)
    | DoAcknowledge(worker: string, id: string, result: string)
    | DoError(worker: string, id: string, message: string)
    | DoCheck

  /** Task ids are fresh, and a worker id is attached at most once at a time. */
  predicate Allowed(s: State, op: Op) {
    match op
    case DoAttach(worker, _) => worker !in s.live
    case DoDetach(worker) => worker in s.live
    case DoAdd(task, _) => task.id !in s.added
    case _ => true
  }

  function Apply(s: State, clock: Clock, op: Op): State
    requires Allowed(s, op)
  {
    match op
    case DoAttach(worker, descs) => Attach(s, worker, descs)
    case DoDetach(worker) => Detach(s, clock, worker)
    case DoAdd(task, retry) => AddTask(s, clock, task, retry)
    case DoAcknowledge(worker, id, result) => Close(s, worker, id, Finished(result))
    case DoError(worker, id, message) => Close(s, worker, id, Failed(message))
    case DoCheck => Check(s, clock)
  }

  ghost predicate Run(clock: Clock, states: seq<State>, ops: seq<Op>) {
    && |states| == |ops| + 1
    && states[0] == Init()
    && forall i :: 0 <= i < |ops| ==> Allowed(states[i], ops[i]) && states[i + 1] == Apply(states[i], clock, ops[i])
  }

  lemma InitInv()
    ensures Inv(Init())
  {
    assert forall id :: TaskOk(Init(), id);
  }

  lemma ApplyInv(s: State, clock: Clock, op: Op)
    requires Inv(s) && Allowed(s, op)
    ensures Inv(Apply(s, clock, op))
    ensures forall id :: id in s.added ==> Advances(s, Apply(s, clock, op), id)
    ensures s.ticks <= Apply(s, clock, op).ticks
  {
    hide Attach, Detach, AddTask, Check, Inv, PutCount, Notices;
    var s' := Apply(s, clock, op);
    match op
    case DoAttach(worker, descs) =>
      AttachInv(s, worker, descs);
    case DoDetach(worker) =>
      DetachInv(s, clock, worker);
      forall id | id in s.added
        ensures Advances(s, s', id)
      {
        DetachMoves(s, clock, worker, id);
      }
    case DoAdd(task, retry) =>
      AddInv(s, clock, task, retry);
      forall id | id in s.added
        ensures Advances(s, s', id)
      {
        AddMoves(s, clock, task, retry, id);
      }
    case DoAcknowledge(worker, id, result) => CloseKeeps(s, worker, id, Finished(result));
    case DoError(worker, id, message) => CloseKeeps(s, worker, id, Failed(message));
    case DoCheck =>
      CheckInv(s, clock);
  }

  lemma {:induction false} RunInv(clock: Clock, states: seq<State>, ops: seq<Op>, i: nat)
    requires Run(clock, states, ops) && i < |states|
    ensures Inv(states[i])
  {
    hide Inv, Apply, Advances;
    if i == 0 {
      InitInv();
    } else {
      RunInv(clock, states, ops, i - 1);
      ApplyInv(states[i - 1], clock, ops[i - 1]);
    }
  }

  /** Each added task is in exactly one of the two maps or has had its callback resolved, and the
      queue resolves a callback exactly once, when the task leaves both maps. */
  lemma Conservation(clock: Clock, states: seq<State>, ops: seq<Op>, i: nat, id: string)
    requires Run(clock, states, ops) && i < |states|
    ensures var s := states[i];
            && !(id in s.outstanding.vals && id in s.unassigned.vals)
            && (id in s.outstanding.vals || id in s.unassigned.vals ==> id in s.added)
            && Notices(s.notes, id)
               == (if id in s.added && id !in s.outstanding.vals && id !in s.unassigned.vals then 1 else 0)
  {
    hide Apply, Placed, Registered, On, PutsFit, PutCount;
    RunInv(clock, states, ops, i);
    assert TaskOk(states[i], id);
  }

  /** The load counter of an attached worker, exactly; so it is never negative. */
  lemma LoadBalance(clock: Clock, states: seq<State>, ops: seq<Op>, i: nat, worker: string)
    requires Run(clock, states, ops) && i < |states| && worker in states[i].live
    ensures var s := states[i];
            && worker in s.workCount
            && s.workCount[worker] == |On(s.outstanding.vals, worker)| + Lapsed(s, worker)
            && s.workCount[worker] >= 0
  {
    hide Apply, Tasks, Registered, PutsFit, AllPlaced;
    RunInv(clock, states, ops, i);
  }

  /** Everything outstanding names an attached worker that subscribed to the task's name with a filter
      the task satisfies. */
  lemma OutstandingIsPlaced(clock: Clock, states: seq<State>, ops: seq<Op>, i: nat, id: string)
    requires Run(clock, states, ops) && i < |states| && id in states[i].outstanding.vals
    ensures var s, ip := states[i], states[i].outstanding.vals[id];
            && ip.task.id == id
            && ip.worker in SubsFor(s.workers, ip.task.name) && CanPerform(ip.worker, ip.task)
            && ip.worker.workerId in s.live && ip.worker in s.live[ip.worker.workerId]
  {
    hide Apply, On, PutsFit, PutCount, Notices, Mine, Named;
    var s, ip := states[i], states[i].outstanding.vals[id];
    RunInv(clock, states, ops, i);
    assert TaskOk(s, id);
    PlacedIsLive(s, ip);
    MineIs(SubsFor(s.workers, ip.task.name), ip.worker.workerId);
    NamedIs(s.live[ip.worker.workerId], ip.task.name);
  }

  lemma {:induction false} NamedIs(subs: seq<Subscription>, n: string)
    ensures forall x :: x in Named(subs, n) <==> x in subs && x.desc.name == n
  {
    if subs != [] {
      NamedIs(subs[1..], n);
    }
  }

  /** A task is put on worker queues at most four times in any run when it starts at retry count 0,
      and in general at most as often as its first count leaves room for. */
  lemma BoundedRetries(clock: Clock, states: seq<State>, ops: seq<Op>, i: nat, id: string)
    requires Run(clock, states, ops) && i < |states| && id in states[i].added
    ensures var first := states[i].added[id];
            PutCount(states[i].puts, id) <= if first <= 3 then 4 - first else 1
  {
    hide Apply, Placed, Registered, On, PutsFit, PutCount, Notices;
    RunInv(clock, states, ops, i);
    assert TaskOk(states[i], id);
  }

  /** Between any two points of a run a task either is untouched or is at a higher stage. */
  lemma {:induction false} StagesRise(clock: Clock, states: seq<State>, ops: seq<Op>, i: nat, j: nat, id: string)
    requires Run(clock, states, ops) && i <= j < |states| && id in states[i].added
    ensures Advances(states[i], states[j], id)
    decreases j
  {
    hide Inv, Apply, PutCount, Notices;
    if i < j {
      StagesRise(clock, states, ops, i, j - 1, id);
      RunInv(clock, states, ops, j - 1);
      ApplyInv(states[j - 1], clock, ops[j - 1]);
      AdvancesTrans(states[i], states[j - 1], states[j], id);
    }
  }

  predicate Open(s: State, id: string) {
    id in s.outstanding.vals || id in s.unassigned.vals
  }

  function RetryOf(s: State, id: string): nat
    requires Open(s, id)
  {
    if id in s.outstanding.vals then s.outstanding.vals[id].retry else s.unassigned.vals[id].retry
  }

  predicate OverdueAt(s: State, clock: Clock, id: string) {
    || (id in s.outstanding.vals && s.outstanding.vals[id].deadline < clock(s.ticks))
    || (id in s.unassigned.vals && s.unassigned.vals[id].deadline < clock(s.ticks))
  }

  /** How many of the first `n` operations were checks that came after the task's deadline. */
  function LateChecks(clock: Clock, states: seq<State>, ops: seq<Op>, n: nat, id: string): nat
    requires n <= |ops| < |states|
  {
    if n == 0 then 0
    else LateChecks(clock, states, ops, n - 1, id)
         + (if ops[n - 1] == DoCheck && OverdueAt(states[n - 1], clock, id) then 1 else 0)
  }

  lemma LateCheckRaises(s: State, clock: Clock, id: string)
    requires Inv(s) && OverdueAt(s, clock, id) && Open(Check(s, clock), id)
    ensures RetryOf(Check(s, clock), id) > RetryOf(s, id)
  {
    hide Check, Inv;
    if id in s.outstanding.vals && s.outstanding.vals[id].deadline < clock(s.ticks) {
      BaseIdsOf(s, id);
      CheckRaises(s, clock, id);
    } else {
      BaseIdsOf(s, id);
      CheckResolvesParked(s, clock, id);
    }
  }

  lemma BaseIdsOf(s: State, id: string)
    requires Inv(s)
    ensures id in s.outstanding.vals ==> s.outstanding.vals[id].task.id == id && id !in s.unassigned.vals
  {
    BaseIds(s, id);
  }

  /** A task that starts at retry count 0 and is still open has seen at most three checks after its
      deadline: the fourth resolves it. */
  lemma {:induction false} ResolvedInFour(clock: Clock, states: seq<State>, ops: seq<Op>, n: nat, id: string)
    requires Run(clock, states, ops) && n < |states| && id in states[n].added
    ensures Open(states[n], id) ==>
              LateChecks(clock, states, ops, n, id) <= RetryOf(states[n], id) - states[n].added[id]
    ensures states[n].added[id] == 0 && LateChecks(clock, states, ops, n, id) >= 4 ==> !Open(states[n], id)
  {
    hide Inv, Apply, PutCount, Notices;
    RunInv(clock, states, ops, n);
    RetryBound(states[n], id);
    if n > 0 {
      var s, s' := states[n - 1], states[n];
      RunInv(clock, states, ops, n - 1);
      ApplyInv(s, clock, ops[n - 1]);
      if id in s.added {
        ResolvedInFour(clock, states, ops, n - 1, id);
        if ops[n - 1] == DoCheck && OverdueAt(s, clock, id) && Open(s', id) {
          ApplyCheck(s, clock);
          LateCheckRaises(s, clock, id);
        }
        RetryBound(s, id);
      } else {
        NotYet(clock, states, ops, n - 1, id);
        NotOpen(s, id);
      }
    }
  }

  lemma ApplyCheck(s: State, clock: Clock)
    ensures Apply(s, clock, DoCheck) == Check(s, clock)
  {
  }

  lemma RetryBound(s: State, id: string)
    requires Inv(s) && id in s.added
    ensures Open(s, id) ==> s.added[id] <= RetryOf(s, id) <= Most(s.added[id])
    ensures Open(s, id) ==> 2 * RetryOf(s, id) <= Stage(s, id) <= 2 * RetryOf(s, id) + 1
    ensures !Open(s, id) ==> Stage(s, id) == 2 * Most(s.added[id]) + 2
  {
    hide PutCount, Notices;
    assert TaskOk(s, id);
  }

  lemma NotOpen(s: State, id: string)
    requires Inv(s) && id !in s.added
    ensures !Open(s, id)
  {
    assert TaskOk(s, id);
  }

  lemma {:induction false} NotYet(clock: Clock, states: seq<State>, ops: seq<Op>, n: nat, id: string)
    requires Run(clock, states, ops) && n < |states| && id !in states[n].added
    ensures LateChecks(clock, states, ops, n, id) == 0
  {
    hide Inv, Apply, PutCount, Notices;
    if n > 0 {
      RunInv(clock, states, ops, n - 1);
      ApplyInv(states[n - 1], clock, ops[n - 1]);
      assert id !in states[n - 1].added;
      NotYet(clock, states, ops, n - 1, id);
      NotOpen(states[n - 1], id);
    }
  }

  /** Once resolved, a task stays resolved: whatever is acknowledged or reported for it later, by
      whichever worker, changes nothing. */
  lemma LateResultsIgnored(clock: Clock, states: seq<State>, ops: seq<Op>, i: nat, j: nat, id: string,
                           worker: string, outcome: Outcome)
    requires Run(clock, states, ops) && i <= j < |states|
    requires id in states[i].added && !Open(states[i], id)
    ensures !Open(states[j], id) && Close(states[j], worker, id, outcome) == states[j]
  {
    hide Inv, Apply, PutCount, Notices;
    StagesRise(clock, states, ops, i, j, id);
    RunInv(clock, states, ops, i);
    RunInv(clock, states, ops, j);
    RetryBound(states[i], id);
    RetryBound(states[j], id);
  }

  // ----- fairness -----

  predicate Offers(s: State, worker: string, name: string, desc: Description) {
    exists i :: 0 <= i < |SubsFor(s.workers, name)| && SubsFor(s.workers, name)[i].workerId == worker
             && SubsFor(s.workers, name)[i].desc == desc
  }

  /** The two workers subscribed to the same names with the same filters. */
  ghost predicate Interchangeable(s: State, a: string, b: string) {
    forall name, desc :: Offers(s, a, name, desc) <==> Offers(s, b, name, desc)
  }

  function AddAll(s: State, clock: Clock, tasks: seq<Task>): State
    decreases |tasks|
  {
    if tasks == [] then s else AddAll(AddTask(s, clock, tasks[0], 0), clock, tasks[1..])
  }

  predicate WithinOne(s: State, a: string, b: string) {
    -1 <= CountOf(s.workCount, a) - CountOf(s.workCount, b) <= 1
  }

  lemma AddOneFair(s: State, clock: Clock, task: Task, a: string, b: string)
    requires Interchangeable(s, a, b) && WithinOne(s, a, b)
    ensures var s' := AddTask(s, clock, task, 0);
            Interchangeable(s', a, b) && WithinOne(s', a, b)
  {
    hide Assign, Chosen, Matching;
    var s1 := s.(added := s.added[task.id := 0]);
    AssignFrame(s1, clock, task, 0);
    AssignCounts(s1, clock, task, 0);
    assert forall w, n, d :: Offers(AddTask(s, clock, task, 0), w, n, d) <==> Offers(s, w, n, d);
    if Assigns(s1, task) {
      ChosenIsBest(s1, task);
      var sub := Chosen(s1, task);
      var k :| 0 <= k < |SubsFor(s.workers, task.name)| && SubsFor(s.workers, task.name)[k] == sub;
      if sub.workerId == a {
        assert Offers(s, a, task.name, sub.desc);
        assert Offers(s, b, task.name, sub.desc);
      } else if sub.workerId == b {
        assert Offers(s, b, task.name, sub.desc);
        assert Offers(s, a, task.name, sub.desc);
      }
    }
  }

  /** Interchangeable workers that start within one of each other stay so over any adds without
      acknowledgements; so work is split equally. */
  lemma {:induction false} AddsAreFair(s: State, clock: Clock, tasks: seq<Task>, a: string, b: string)
    requires Interchangeable(s, a, b) && WithinOne(s, a, b)
    ensures WithinOne(AddAll(s, clock, tasks), a, b)
    decreases |tasks|
  {
    hide AddTask, Interchangeable, WithinOne;
    if tasks != [] {
      AddOneFair(s, clock, tasks[0], a, b);
      AddsAreFair(AddTask(s, clock, tasks[0], 0), clock, tasks[1..], a, b);
    }
  }
}
