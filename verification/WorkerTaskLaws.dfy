/** What every operation of the worker task queue does to every task, and what that adds up to over every run:
    where a task is put, what its callback gets, and what the counters count. All of it is said about the maps,
    the lists of subscriptions, the puts and the notices alone. */
module WorkerTaskLaws {
  import opened OrderedDict
  import opened WorkerTasks
  import opened WorkerTaskProofs

  // ----- what a task can meet -----

  /** The task has a non-empty attribute out of the list for every name in the filter. */
  predicate Satisfies(task: Task, sub: Subscription) {
    forall n :: n in sub.desc.filter.Keys ==>
      n in task.attrs && |task.attrs[n]| > 0 && task.attrs[n] in sub.desc.filter[n]
  }

  /** A listed subscription that the task satisfies, with as large a filter as any. */
  predicate Best(subs: seq<Subscription>, task: Task, sub: Subscription) {
    && sub in subs && Satisfies(task, sub)
    && forall x :: x in subs && Satisfies(task, x) ==> |x.desc.filter| <= |sub.desc.filter|
  }

  /** Nobody with as large a filter that the task satisfies has a smaller count. */
  predicate Least(counts: map<string, int>, subs: seq<Subscription>, task: Task, sub: Subscription) {
    forall x :: x in subs && Satisfies(task, x) && |x.desc.filter| == |sub.desc.filter| ==>
      CountOf(counts, sub.workerId) <= CountOf(counts, x.workerId)
  }

  predicate Someone(subs: seq<Subscription>, task: Task) {
    exists x :: x in subs && Satisfies(task, x)
  }

  /** The puts of one task, in order. */
  function PutsOf(puts: seq<Put>, id: string): seq<Put> {
    if puts == [] then []
    else
      var last := puts[|puts| - 1];
      PutsOf(puts[..|puts| - 1], id) + if last.task.id == id then [last] else []
  }

  /** What the callback of one task was told, in order. */
  function ToldOf(notes: seq<Note>, id: string): seq<Outcome> {
    if notes == [] then []
    else
      var last := notes[|notes| - 1];
      ToldOf(notes[..|notes| - 1], id) + if last.id == id then [last.outcome] else []
  }

  /** Nothing happens to the task. */
  ghost predicate Untouched(s: State, s': State, id: string) {
    && (id in s.outstanding.vals <==> id in s'.outstanding.vals)
    && (id in s.outstanding.vals ==> s'.outstanding.vals[id] == s.outstanding.vals[id])
    && (id in s.unassigned.vals <==> id in s'.unassigned.vals)
    && (id in s.unassigned.vals ==> s'.unassigned.vals[id] == s.unassigned.vals[id])
    && PutsOf(s'.puts, id) == PutsOf(s.puts, id) && ToldOf(s'.notes, id) == ToldOf(s.notes, id)
  }

  /** The task leaves the queue, and its callback is told so once. */
  ghost predicate Leaves(s: State, s': State, id: string, outcome: Outcome) {
    && id !in s'.outstanding.vals && id !in s'.unassigned.vals
    && PutsOf(s'.puts, id) == PutsOf(s.puts, id) && ToldOf(s'.notes, id) == ToldOf(s.notes, id) + [outcome]
  }

  /** The task is put on the queue of a best worker, which its entry names, or is parked when there is none; its
      time runs from the i-th reading of the clock. */
  ghost predicate IssuedAt(s: State, clock: Clock, s': State, id: string, task: Task, retry: nat, i: nat) {
    var subs := SubsFor(s'.workers, task.name);
    if Someone(subs, task) then
      && id in s'.outstanding.vals && id !in s'.unassigned.vals
      && var ip := s'.outstanding.vals[id];
         && ip == InProgress(task, ip.worker, retry, clock(i) + task.timeout) && Best(subs, task, ip.worker)
         && PutsOf(s'.puts, id) == PutsOf(s.puts, id) + [Put(ip.worker, task)]
    else
      && id !in s'.outstanding.vals && id in s'.unassigned.vals
      && s'.unassigned.vals[id] == OnHold(task, retry, clock(i) + task.timeout)
      && PutsOf(s'.puts, id) == PutsOf(s.puts, id)
  }

  ghost predicate Issued(s: State, clock: Clock, s': State, id: string, task: Task, retry: nat) {
    && ToldOf(s'.notes, id) == ToldOf(s.notes, id)
    && exists i: nat :: s.ticks <= i < s'.ticks && IssuedAt(s, clock, s', id, task, retry, i)
  }

  predicate Holds(s: State, worker: string, id: string) {
    id in s.outstanding.vals && s.outstanding.vals[id].worker.workerId == worker
  }

  /** An entry that is taken from its worker: up to the third retry it is issued again, then it is given up. */
  ghost predicate Retried(s: State, clock: Clock, s': State, ip: InProgress) {
    if ip.retry < 3 then Issued(s, clock, s', ip.task.id, ip.task, ip.retry + 1)
    else Leaves(s, s', ip.task.id, TooManyRetries)
  }

  /** What the operation does to the task. */
  ghost predicate Fated(s: State, clock: Clock, op: Op, s': State, id: string) {
    match op
    case DoAttach(_, _) => Untouched(s, s', id)
    case DoDetach(worker) =>
      if Holds(s, worker, id) then Retried(s, clock, s', s.outstanding.vals[id]) else Untouched(s, s', id)
    case DoAdd(task, retry) => if task.id == id then Issued(s, clock, s', id, task, retry) else Untouched(s, s', id)
    case DoAcknowledge(worker, x, result) =>
      if x == id && Holds(s, worker, id) then Leaves(s, s', id, Finished(result)) else Untouched(s, s', id)
    case DoError(worker, x, message) =>
      if x == id && Holds(s, worker, id) then Leaves(s, s', id, Failed(message)) else Untouched(s, s', id)
    case DoCheck =>
      var now := clock(s.ticks);
      if id in s.outstanding.vals then
        if s.outstanding.vals[id].deadline < now then Retried(s, clock, s', s.outstanding.vals[id])
        else Untouched(s, s', id)
      else if id in s.unassigned.vals then
        var hold := s.unassigned.vals[id];
        if hold.deadline < now then Leaves(s, s', id, NoWorker)
        else if Someone(SubsFor(s'.workers, hold.task.name), hold.task) then
          Issued(s, clock, s', id, hold.task, hold.retry)
        else Untouched(s, s', id)
      else Untouched(s, s', id)
  }

  // ----- steps -----

  lemma PutsOfPlus(puts: seq<Put>, p: Put, id: string)
    ensures PutsOf(puts + [p], id) == PutsOf(puts, id) + if p.task.id == id then [p] else []
  {
    assert (puts + [p])[..|puts|] == puts;
  }

  lemma ToldOfPlus(notes: seq<Note>, n: Note, id: string)
    ensures ToldOf(notes + [n], id) == ToldOf(notes, id) + if n.id == id then [n.outcome] else []
  {
    assert (notes + [n])[..|notes|] == notes;
  }

  lemma SatisfiesIs(sub: Subscription, task: Task)
    ensures CanPerform(sub, task) <==> Satisfies(task, sub)
  {
  }

  /** The choice of __add_task is a best one, and has a least count among those with as large a filter. */
  lemma ChosenBest(s: State, task: Task)
    ensures var subs := SubsFor(s.workers, task.name);
            && (Assigns(s, task) <==> Someone(subs, task))
            && (Assigns(s, task) ==>
                  && Best(subs, task, Chosen(s, task))
                  && Least(s.workCount, subs, task, Chosen(s, task)))
  {
    hide CanPerform, Satisfies, Chosen, Assigns;
    forall x
      ensures CanPerform(x, task) <==> Satisfies(task, x)
    {
      SatisfiesIs(x, task);
    }
    AssignsIff(s, task);
    if Assigns(s, task) {
      ChosenIsBest(s, task);
    }
  }

  lemma AssignSeen(s: State, clock: Clock, task: Task, retry: nat)
    ensures var s' := Assign(s, clock, task, retry);
            && s'.notes == s.notes
            && s'.puts == s.puts + (if Assigns(s, task) then [Put(Chosen(s, task), task)] else [])
            && (task.id !in s.unassigned.vals || Assigns(s, task) ==> s'.ticks == s.ticks + 1)
  {
    hide Assigns, Chosen;
    if Assigns(s, task) {
    } else if task.id !in s.unassigned.vals {
    }
  }

  /** Every assignment, of a new task or an old one, goes to a best worker with a least count. */
  lemma AssignPicksBest(s: State, clock: Clock, task: Task, retry: nat)
    ensures var s', subs := Assign(s, clock, task, retry), SubsFor(s.workers, task.name);
            if Someone(subs, task) then
              && task.id in s'.outstanding.vals
              && var sub := s'.outstanding.vals[task.id].worker;
                 && Best(subs, task, sub) && s'.puts == s.puts + [Put(sub, task)]
                 && Least(s.workCount, subs, task, sub)
            else task.id !in s'.outstanding.vals && s'.puts == s.puts
  {
    hide Assign, Assigns, Chosen, Best, Someone, Satisfies, Least;
    ChosenBest(s, task);
    AssignSeen(s, clock, task, retry);
    AssignEntry(s, clock, task, retry);
  }

  lemma AssignIssues(s: State, clock: Clock, task: Task, retry: nat)
    requires task.id !in s.unassigned.vals
    ensures Issued(s, clock, Assign(s, clock, task, retry), task.id, task, retry)
  {
    hide Assign, Chosen, Matching, Best, Someone, PutsOf, ToldOf;
    ChosenBest(s, task);
    AssignSeen(s, clock, task, retry);
    AssignEntry(s, clock, task, retry);
    AssignFrame(s, clock, task, retry);
    if Assigns(s, task) {
      PutsOfPlus(s.puts, Put(Chosen(s, task), task), task.id);
    }
    assert s.puts + [] == s.puts;
    assert IssuedAt(s, clock, Assign(s, clock, task, retry), task.id, task, retry, s.ticks);
  }

  lemma AssignUntouched(s: State, clock: Clock, task: Task, retry: nat, id: string)
    requires id != task.id
    ensures Untouched(s, Assign(s, clock, task, retry), id)
  {
    hide Assign, Chosen, Matching, PutsOf, ToldOf;
    AssignSeen(s, clock, task, retry);
    AssignMaps(s, clock, task, retry);
    if Assigns(s, task) {
      PutsOfPlus(s.puts, Put(Chosen(s, task), task), id);
    }
    assert s.puts + [] == s.puts;
  }

  // ----- retries -----

  lemma RetryFated(s: State, clock: Clock, ip: InProgress)
    requires ip.task.id in s.outstanding.vals && ip.task.id !in s.unassigned.vals
    ensures Retried(s, clock, Retry(s, clock, ip), ip)
  {
    hide Assign, PutsOf, ToldOf;
    if ip.retry < 3 {
      var s1 := s.(lapsed := s.lapsed[ip.worker.workerId := Lapsed(s, ip.worker.workerId) + 1]);
      AssignIssues(s1, clock, ip.task, ip.retry + 1);
      var s' := Assign(s1, clock, ip.task, ip.retry + 1);
      UntouchedSelf(s', ip.task.id);
      IssuedAmong(s, s1, clock, s', s', ip.task.id, ip.task, ip.retry + 1);
    } else {
      ToldOfPlus(s.notes, Note(ip.task.id, TooManyRetries), ip.task.id);
    }
  }

  lemma RetryUntouched(s: State, clock: Clock, ip: InProgress, id: string)
    requires id != ip.task.id
    ensures Untouched(s, Retry(s, clock, ip), id)
  {
    hide Assign, PutsOf, ToldOf;
    if ip.retry < 3 {
      var s1 := s.(lapsed := s.lapsed[ip.worker.workerId := Lapsed(s, ip.worker.workerId) + 1]);
      AssignUntouched(s1, clock, ip.task, ip.retry + 1, id);
    } else {
      ToldOfPlus(s.notes, Note(ip.task.id, TooManyRetries), id);
    }
  }

  lemma UntouchedTrans(a: State, b: State, c: State, id: string)
    requires Untouched(a, b, id) && Untouched(b, c, id)
    ensures Untouched(a, c, id)
  {
    hide PutsOf, ToldOf;
  }

  /** What happens to a task is the same before and after steps that do not touch it. */
  lemma IssuedAmong(s0: State, s: State, clock: Clock, s': State, s1: State, id: string, task: Task, retry: nat)
    requires Untouched(s0, s, id) && Issued(s, clock, s', id, task, retry) && Untouched(s', s1, id)
    requires s0.ticks <= s.ticks && s'.ticks <= s1.ticks && s1.workers == s'.workers
    ensures Issued(s0, clock, s1, id, task, retry)
  {
    hide PutsOf, ToldOf, Best, Someone;
    var i: nat :| s.ticks <= i < s'.ticks && IssuedAt(s, clock, s', id, task, retry, i);
    assert IssuedAt(s0, clock, s1, id, task, retry, i);
  }

  lemma LeavesAmong(s0: State, s: State, s': State, s1: State, id: string, outcome: Outcome)
    requires Untouched(s0, s, id) && Leaves(s, s', id, outcome) && Untouched(s', s1, id)
    ensures Leaves(s0, s1, id, outcome)
  {
    hide PutsOf, ToldOf;
  }

  lemma RetriedAmong(s0: State, s: State, clock: Clock, s': State, s1: State, ip: InProgress)
    requires Untouched(s0, s, ip.task.id) && Retried(s, clock, s', ip) && Untouched(s', s1, ip.task.id)
    requires s0.ticks <= s.ticks && s'.ticks <= s1.ticks && s1.workers == s'.workers
    ensures Retried(s0, clock, s1, ip)
  {
    hide Untouched, Issued, Leaves;
    if ip.retry < 3 {
      IssuedAmong(s0, s, clock, s', s1, ip.task.id, ip.task, ip.retry + 1);
    } else {
      LeavesAmong(s0, s, s', s1, ip.task.id, TooManyRetries);
    }
  }

  lemma UntouchedSelf(s: State, id: string)
    ensures Untouched(s, s, id)
  {
    hide PutsOf, ToldOf;
  }

  predicate Concerns(ips: seq<InProgress>, id: string) {
    exists i :: 0 <= i < |ips| && ips[i].task.id == id
  }

  lemma {:induction false} RetryAllUntouched(s: State, clock: Clock, ips: seq<InProgress>, id: string)
    requires !Concerns(ips, id)
    ensures Untouched(s, RetryAll(s, clock, ips), id)
    decreases |ips|
  {
    hide Retry, Untouched;
    if ips == [] {
      UntouchedSelf(s, id);
    } else {
      var s1 := Retry(s, clock, ips[0]);
      RetryUntouched(s, clock, ips[0], id);
      assert !Concerns(ips[1..], id) by {
        assert forall i :: 0 <= i < |ips| - 1 ==> ips[1..][i] == ips[i + 1];
      }
      RetryAllUntouched(s1, clock, ips[1..], id);
      UntouchedTrans(s, s1, RetryAll(s1, clock, ips[1..]), id);
    }
  }

  lemma CurrentTail(s: State, ips: seq<InProgress>)
    requires Current(s, ips) && ips != []
    ensures !Concerns(ips[1..], ips[0].task.id) && ips[0].task.id in s.outstanding.vals
    ensures s.outstanding.vals[ips[0].task.id] == ips[0]
  {
    assert forall i :: 0 <= i < |ips| - 1 ==> ips[1..][i] == ips[i + 1];
  }

  /** Every entry in the list is retried, and nothing else is touched. */
  lemma {:induction false} RetryAllFated(s: State, clock: Clock, ips: seq<InProgress>, k: nat)
    requires Base(s) && Current(s, ips) && PlacedOr(s, ips) && k < |ips|
    ensures Retried(s, clock, RetryAll(s, clock, ips), ips[k])
    decreases |ips|
  {
    hide Retry, Base, PlacedOr, Untouched, Retried, Concerns, Current;
    var id := ips[k].task.id;
    var s1, rest := Retry(s, clock, ips[0]), ips[1..];
    RetryStep(s, clock, ips);
    RetryFrame(s, clock, ips[0]);
    RetryAllKeeps(s1, clock, rest);
    CurrentTail(s, ips);
    UntouchedSelf(s, id);
    if k == 0 {
      BaseIds(s, id);
      RetryFated(s, clock, ips[0]);
      RetryAllUntouched(s1, clock, rest, id);
      RetriedAmong(s, s, clock, s1, RetryAll(s1, clock, rest), ips[0]);
    } else {
      assert rest[k - 1] == ips[k];
      RetryAllFated(s1, clock, rest, k - 1);
      NotHead(ips, k);
      RetryUntouched(s, clock, ips[0], id);
      var s2 := RetryAll(s1, clock, rest);
      UntouchedSelf(s2, id);
      RetriedAmong(s, s1, clock, s2, s2, ips[k]);
    }
  }

  lemma NotHead(ips: seq<InProgress>, k: nat)
    requires 0 < k < |ips| && !Concerns(ips[1..], ips[0].task.id)
    ensures ips[k].task.id != ips[0].task.id
  {
    assert ips[1..][k - 1] == ips[k];
  }

  // ----- parked tasks -----

  lemma GiveUpOneSeen(s: State, hold: OnHold, id: string)
    ensures var s' := GiveUpOne(s, hold);
            if hold.task.id == id then id !in s.outstanding.vals ==> Leaves(s, s', id, NoWorker) else Untouched(s, s', id)
  {
    hide PutsOf, ToldOf;
    ToldOfPlus(s.notes, Note(hold.task.id, NoWorker), id);
  }

  predicate Parks(holds: seq<OnHold>, id: string) {
    exists i :: 0 <= i < |holds| && holds[i].task.id == id
  }

  lemma HoldsHead(holds: seq<OnHold>, id: string)
    requires holds != []
    ensures Parks(holds, id) <==> holds[0].task.id == id || Parks(holds[1..], id)
  {
    assert forall i :: 0 <= i < |holds| - 1 ==> holds[1..][i] == holds[i + 1];
  }

  /** The parked tasks in the list are given up, and nothing else is touched. */
  lemma {:induction false} GiveUpFated(s: State, holds: seq<OnHold>, id: string)
    requires Inv(s) && Holding(s, holds)
    ensures if Parks(holds, id) then Leaves(s, GiveUp(s, holds), id, NoWorker) else Untouched(s, GiveUp(s, holds), id)
    decreases |holds|
  {
    hide Inv, Holding, Untouched, Leaves, Parks, PutsOf, ToldOf, GiveUpOne;
    UntouchedSelf(s, id);
    if holds != [] {
      var s1, s' := GiveUpOne(s, holds[0]), GiveUp(s, holds);
      GiveUpStep(s, holds);
      GiveUpOneInv(s, holds[0]);
      GiveUpFated(s1, holds[1..], id);
      GiveUpOneSeen(s, holds[0], id);
      HoldsHead(holds, id);
      HeldIds(s, holds, id);
      UntouchedSelf(s', id);
      if holds[0].task.id == id {
        LeavesAmong(s, s, s1, s', id, NoWorker);
      } else if Parks(holds[1..], id) {
        LeavesAmong(s, s1, s', s', id, NoWorker);
      } else {
        UntouchedTrans(s, s1, s', id);
      }
    } else {
      assert !Parks(holds, id) by { NobodyParks(id); }
    }
  }

  lemma NobodyParks(id: string)
    ensures !Parks([], id)
  {
  }

  lemma HeldIds(s: State, holds: seq<OnHold>, id: string)
    requires Inv(s) && Holding(s, holds) && holds != []
    ensures holds[0].task.id == id ==> !Parks(holds[1..], id) && id !in s.outstanding.vals
  {
    BaseIds(s, id);
    assert forall i :: 0 <= i < |holds| - 1 ==> holds[1..][i] == holds[i + 1];
  }

  /** What a check does to a parked task that is not overdue. */
  ghost predicate Assigned(s: State, clock: Clock, s': State, hold: OnHold) {
    if Someone(SubsFor(s'.workers, hold.task.name), hold.task) then
      Issued(s, clock, s', hold.task.id, hold.task, hold.retry)
    else Untouched(s, s', hold.task.id)
  }

  lemma AssignHeldSeen(s: State, clock: Clock, hold: OnHold)
    requires Inv(s) && hold.task.id in s.unassigned.vals && s.unassigned.vals[hold.task.id] == hold
    ensures Assigned(s, clock, AssignHeld(s, clock, hold), hold)
    ensures forall x :: x != hold.task.id ==> Untouched(s, AssignHeld(s, clock, hold), x)
  {
    hide Assign, PutsOf, ToldOf, Someone, Best, Chosen, Matching, Inv;
    var task, id, s1 := hold.task, hold.task.id, Assign(s, clock, hold.task, hold.retry);
    TaskIds(s, id);
    ChosenBest(s, task);
    AssignSeen(s, clock, task, hold.retry);
    AssignEntry(s, clock, task, hold.retry);
    AssignFrame(s, clock, task, hold.retry);
    AssignHeldEntry(s, clock, hold);
    if Assigns(s, task) {
      PutsOfPlus(s.puts, Put(Chosen(s, task), task), id);
      assert IssuedAt(s, clock, AssignHeld(s, clock, hold), id, task, hold.retry, s.ticks);
    }
    assert s.puts + [] == s.puts;
    forall x | x != id
      ensures Untouched(s, AssignHeld(s, clock, hold), x)
    {
      AssignUntouched(s, clock, task, hold.retry, x);
    }
  }

  lemma AssignedAmong(s0: State, s: State, clock: Clock, s': State, s1: State, hold: OnHold)
    requires Untouched(s0, s, hold.task.id) && Assigned(s, clock, s', hold) && Untouched(s', s1, hold.task.id)
    requires s0.ticks <= s.ticks && s'.ticks <= s1.ticks && s1.workers == s'.workers
    ensures Assigned(s0, clock, s1, hold)
  {
    hide Untouched, Issued, Someone;
    if Someone(SubsFor(s'.workers, hold.task.name), hold.task) {
      IssuedAmong(s0, s, clock, s', s1, hold.task.id, hold.task, hold.retry);
    } else {
      UntouchedTrans(s0, s, s', hold.task.id);
      UntouchedTrans(s0, s', s1, hold.task.id);
    }
  }

  lemma {:induction false} AssignAllUntouched(s: State, clock: Clock, holds: seq<OnHold>, id: string)
    requires Inv(s) && Holding(s, holds) && !Parks(holds, id)
    ensures Untouched(s, AssignAllHeld(s, clock, holds), id)
    decreases |holds|
  {
    hide Inv, Untouched, AssignHeld, Parks, Advances, Assigned;
    if holds == [] {
      UntouchedSelf(s, id);
    } else {
      var s1 := AssignHeld(s, clock, holds[0]);
      AssignHeldInv(s, clock, holds[0]);
      AssignHeldEntry(s, clock, holds[0]);
      AssignHeldSeen(s, clock, holds[0]);
      HoldsHead(holds, id);
      AssignAllUntouched(s1, clock, holds[1..], id);
      UntouchedTrans(s, s1, AssignAllHeld(s1, clock, holds[1..]), id);
    }
  }

  lemma {:induction false} AssignAllFated(s: State, clock: Clock, holds: seq<OnHold>, k: nat)
    requires Inv(s) && Holding(s, holds) && k < |holds|
    ensures Assigned(s, clock, AssignAllHeld(s, clock, holds), holds[k])
    decreases |holds|
  {
    hide Inv, Untouched, AssignHeld, Parks, Advances, Assigned;
    var s1, rest, id := AssignHeld(s, clock, holds[0]), holds[1..], holds[k].task.id;
    AssignHeldInv(s, clock, holds[0]);
    AssignHeldEntry(s, clock, holds[0]);
    AssignHeldSeen(s, clock, holds[0]);
    HeldIds(s, holds, holds[0].task.id);
    AssignAllHeldInv(s1, clock, rest);
    var s2 := AssignAllHeld(s1, clock, rest);
    UntouchedSelf(s, id);
    UntouchedSelf(s2, id);
    if k == 0 {
      AssignAllUntouched(s1, clock, rest, id);
      AssignedAmong(s, s, clock, s1, s2, holds[0]);
    } else {
      assert rest[k - 1] == holds[k];
      AssignAllFated(s1, clock, rest, k - 1);
      AssignedAmong(s, s1, clock, s2, s2, holds[k]);
    }
  }

  lemma TaskIds(s: State, id: string)
    requires Inv(s)
    ensures id in s.outstanding.vals ==> s.outstanding.vals[id].task.id == id
    ensures id in s.unassigned.vals ==> s.unassigned.vals[id].task.id == id
    ensures id in s.outstanding.vals || id in s.unassigned.vals ==> id in s.added
    ensures !(id in s.outstanding.vals && id in s.unassigned.vals)
  {
    hide Tasks, Balanced, Registered, PutsFit;
    BaseIds(s, id);
  }

  // ----- operations -----

  lemma CloseFated(s: State, worker: string, x: string, outcome: Outcome, id: string)
    requires Inv(s)
    ensures var s' := Close(s, worker, x, outcome);
            if x == id && Holds(s, worker, id) then Leaves(s, s', id, outcome) else Untouched(s, s', id)
  {
    hide PutsOf, ToldOf, Inv;
    TaskIds(s, id);
    ToldOfPlus(s.notes, Note(x, outcome), id);
  }

  lemma AddFated(s: State, clock: Clock, task: Task, retry: nat, id: string)
    requires Inv(s) && task.id !in s.added
    ensures Fated(s, clock, DoAdd(task, retry), AddTask(s, clock, task, retry), id)
  {
    hide Assign, PutsOf, ToldOf, Inv, Issued;
    var s1 := s.(added := s.added[task.id := retry]);
    var s' := Assign(s1, clock, task, retry);
    TaskIds(s, task.id);
    UntouchedSelf(s', id);
    if task.id == id {
      AssignIssues(s1, clock, task, retry);
      IssuedAmong(s, s1, clock, s', s', id, task, retry);
    } else {
      AssignUntouched(s1, clock, task, retry, id);
      UntouchedTrans(s, s1, s', id);
    }
  }

  lemma AttachFated(s: State, worker: string, descs: seq<Description>, id: string)
    ensures Untouched(s, Attach(s, worker, descs), id)
  {
    hide Attach, PutsOf, ToldOf;
    if descs == [] {
      AttachNothing(s, worker);
    } else {
      AttachFields(s, worker, descs);
    }
  }

  lemma DetachFated(s: State, clock: Clock, worker: string, id: string)
    requires Inv(s) && worker in s.live
    ensures Fated(s, clock, DoDetach(worker), Detach(s, clock, worker), id)
  {
    hide RetryAll, Inv, Base, AllPlaced, PlacedOr, Untouched, Retried, PutsOf, ToldOf, TaskOk;
    var s1, ips := Detached(s, worker), OpenTasks(s.outstanding.Values(), worker);
    DetachedBase(s, worker);
    DetachedOpen(s, worker);
    OpenListed(s, worker, id);
    RetryAllKeeps(s1, clock, ips);
    var s' := RetryAll(s1, clock, ips);
    DetachedUntouched(s, worker, id);
    UntouchedSelf(s', id);
    hide Current;
    if Holds(s, worker, id) {
      var k :| 0 <= k < |ips| && ips[k] == s.outstanding.vals[id];
      BaseIdsOf(s, id);
      RetryAllFated(s1, clock, ips, k);
      RetriedAmong(s, s1, clock, s', s', ips[k]);
    } else {
      RetryAllUntouched(s1, clock, ips, id);
      UntouchedTrans(s, s1, s', id);
    }
  }

  lemma DetachedUntouched(s: State, worker: string, id: string)
    requires worker in s.live
    ensures Untouched(s, Detached(s, worker), id) && Detached(s, worker).ticks == s.ticks
  {
    hide PutsOf, ToldOf;
  }

  /** The entries that are rescheduled are those that name the worker. */
  lemma OpenListed(s: State, worker: string, id: string)
    requires Inv(s)
    ensures var ips := OpenTasks(s.outstanding.Values(), worker);
            if Holds(s, worker, id) then s.outstanding.vals[id] in ips else !Concerns(ips, id)
  {
    hide PutCount, Notices, Placed, Registered, On, PutsFit;
    ValuesCurrent(s);
    OpenCurrent(s, s.outstanding.Values(), worker);
  }

  lemma OverdueListed(s: State, clock: Clock, id: string)
    requires Inv(s)
    ensures var ips := Overdue(s, clock);
            if id in s.outstanding.vals && s.outstanding.vals[id].deadline < clock(s.ticks) then
              s.outstanding.vals[id] in ips
            else !Concerns(ips, id)
  {
    hide PutCount, Notices, Placed, Registered, On, PutsFit;
    ValuesCurrent(s);
    ExpiredCurrent(s, s.outstanding.Values(), clock(s.ticks));
  }

  lemma OverdueHoldsListed(s: State, clock: Clock, id: string)
    requires Inv(s)
    ensures Parks(OverdueHolds(s, clock), id)
       <==> id in s.unassigned.vals && s.unassigned.vals[id].deadline < clock(s.ticks)
  {
    hide PutCount, Notices, Placed, Registered, On, PutsFit;
    ValuesHolding(s);
    ExpiredHolding(s, s.unassigned.Values(), clock(s.ticks));
    TaskIds(s, id);
  }

  lemma HoldsListed(s: State, id: string)
    requires Inv(s)
    ensures if id in s.unassigned.vals then s.unassigned.vals[id] in s.unassigned.Values()
            else !Parks(s.unassigned.Values(), id)
  {
    hide PutCount, Notices, Placed, Registered, On, PutsFit;
    ValuesHolding(s);
  }

  /** The retries of a check. */
  lemma RetriedFated(s: State, clock: Clock, id: string)
    requires Inv(s)
    ensures var s1 := WorkerTaskProofs.Retried(s, clock);
            if id in s.outstanding.vals && s.outstanding.vals[id].deadline < clock(s.ticks) then
              Retried(s, clock, s1, s.outstanding.vals[id])
            else Untouched(s, s1, id)
  {
    hide RetryAll, Base, AllPlaced, PlacedOr, Untouched, Retried, PutsOf, ToldOf, Overdue, TaskOk;
    var s0, ips := Ticked(s), Overdue(s, clock);
    TickedInv(s);
    RetriedOpen(s, clock);
    OverdueListed(s, clock, id);
    RetryAllKeeps(s0, clock, ips);
    var s1 := RetryAll(s0, clock, ips);
    assert Untouched(s, s0, id) by { TickedUntouched(s, id); }
    UntouchedSelf(s1, id);
    hide Current;
    if id in s.outstanding.vals && s.outstanding.vals[id].deadline < clock(s.ticks) {
      var k :| 0 <= k < |ips| && ips[k] == s.outstanding.vals[id];
      BaseIdsOf(s, id);
      RetryAllFated(s0, clock, ips, k);
      RetriedAmong(s, s0, clock, s1, s1, ips[k]);
    } else {
      RetryAllUntouched(s0, clock, ips, id);
      UntouchedTrans(s, s0, s1, id);
    }
  }

  lemma TickedUntouched(s: State, id: string)
    ensures Untouched(s, Ticked(s), id)
  {
    hide PutsOf, ToldOf;
  }

  lemma CheckFated(s: State, clock: Clock, id: string)
    requires Inv(s)
    ensures Fated(s, clock, DoCheck, Check(s, clock), id)
  {
    hide Check, AssignAllHeld, WorkerTaskProofs.Retried, GiveUp, Inv, Untouched, Retried, Leaves, Assigned, Someone, Issued,
        Overdue, OverdueHolds, Parks, Advances, FreshOr, Raised;
    CheckPhases(s, clock);
    RetriedInv(s, clock);
    GivenUpInv(s, clock);
    var s1, s2, s' := WorkerTaskProofs.Retried(s, clock), GivenUp(s, clock), Check(s, clock);
    var late, holds := OverdueHolds(s, clock), s2.unassigned.Values();
    RetriedFated(s, clock, id);
    assert Holding(s1, late) by { LateHolding(s, s1, clock); }
    GiveUpFated(s1, late, id);
    GiveUpBase(s1, late);
    OverdueHoldsListed(s, clock, id);
    ListHolding(s2);
    HoldsListed(s2, id);
    AssignAllHeldInv(s2, clock, holds);
    hide Holding;
    BaseIdsOf(s, id);
    UntouchedSelf(s', id);
    if id in s2.unassigned.vals {
      var k :| 0 <= k < |holds| && holds[k] == s2.unassigned.vals[id];
      InvIds(s2, id);
      AssignAllFated(s2, clock, holds, k);
      UntouchedTrans(s, s1, s2, id);
      AssignedAmong(s, s2, clock, s', s', holds[k]);
      CheckHeld(s, clock, s', id, holds[k]);
    } else {
      AssignAllUntouched(s2, clock, holds, id);
      CheckOther(s, clock, s1, s2, s', id);
    }
  }

  lemma LateHolding(s: State, s1: State, clock: Clock)
    requires Inv(s) && s1.unassigned == s.unassigned
    ensures Holding(s1, OverdueHolds(s, clock))
  {
    RetriedOpen(s, clock);
    SameHolding(s, s1, OverdueHolds(s, clock));
  }

  lemma CheckHeld(s: State, clock: Clock, s': State, id: string, hold: OnHold)
    requires id in s.unassigned.vals && s.unassigned.vals[id] == hold && id !in s.outstanding.vals
    requires hold.deadline >= clock(s.ticks) && hold.task.id == id && Assigned(s, clock, s', hold)
    ensures Fated(s, clock, DoCheck, s', id)
  {
    hide Untouched, Issued, Someone;
  }

  lemma CheckOther(s: State, clock: Clock, s1: State, s2: State, s': State, id: string)
    requires id in s.outstanding.vals ==> id !in s.unassigned.vals && s.outstanding.vals[id].task.id == id
    requires s.ticks < s1.ticks <= s2.ticks <= s'.ticks && s1.workers == s2.workers == s'.workers
    requires if id in s.outstanding.vals && s.outstanding.vals[id].deadline < clock(s.ticks) then
               Retried(s, clock, s1, s.outstanding.vals[id])
             else Untouched(s, s1, id)
    requires if id in s.unassigned.vals && s.unassigned.vals[id].deadline < clock(s.ticks) then
               Leaves(s1, s2, id, NoWorker)
             else Untouched(s1, s2, id)
    requires Untouched(s2, s', id) && id !in s2.unassigned.vals
    ensures Fated(s, clock, DoCheck, s', id)
  {
    hide Retried, Leaves, Issued, Someone, PutsOf, ToldOf;
    if id in s.outstanding.vals && s.outstanding.vals[id].deadline < clock(s.ticks) {
      UntouchedTrans(s1, s2, s', id);
      UntouchedSelf(s, id);
      RetriedAmong(s, s, clock, s1, s', s.outstanding.vals[id]);
    } else if id in s.unassigned.vals && s.unassigned.vals[id].deadline < clock(s.ticks) {
      LeavesAmong(s, s1, s2, s', id, NoWorker);
    } else {
      UntouchedTrans(s, s1, s2, id);
      UntouchedTrans(s, s2, s', id);
    }
  }

  /** Every operation does to every task exactly what it should. */
  lemma Fates(s: State, clock: Clock, op: Op, id: string)
    requires Inv(s) && Allowed(s, op)
    ensures Fated(s, clock, op, Apply(s, clock, op), id)
  {
    hide Inv, Untouched, Retried, Leaves, Issued, Attach, Detach, AddTask, Close, Check;
    match op
    case DoAttach(worker, descs) => AttachFated(s, worker, descs, id);
    case DoDetach(worker) => DetachFated(s, clock, worker, id);
    case DoAdd(task, retry) => AddFated(s, clock, task, retry, id);
    case DoAcknowledge(worker, x, result) => CloseFated(s, worker, x, Finished(result), id);
    case DoError(worker, x, message) => CloseFated(s, worker, x, Failed(message), id);
    case DoCheck => CheckFated(s, clock, id);
  }

  ghost predicate AllFated(s: State, clock: Clock, op: Op, s': State) {
    forall id :: Fated(s, clock, op, s', id)
  }

  lemma AllFates(s: State, clock: Clock, op: Op)
    requires Inv(s) && Allowed(s, op)
    ensures AllFated(s, clock, op, Apply(s, clock, op))
  {
    hide Inv, Fated, Apply;
    forall id
      ensures Fated(s, clock, op, Apply(s, clock, op), id)
    {
      Fates(s, clock, op, id);
    }
  }

  lemma AttachFates(s: State, clock: Clock, worker: string, descs: seq<Description>)
    requires Inv(s) && worker !in s.live
    ensures AllFated(s, clock, DoAttach(worker, descs), Attach(s, worker, descs)) && Inv(Attach(s, worker, descs))
  {
    hide Inv, AllFated, Attach;
    AttachInv(s, worker, descs);
    AllFates(s, clock, DoAttach(worker, descs));
  }

  lemma CheckFates(s: State, clock: Clock)
    requires Inv(s)
    ensures AllFated(s, clock, DoCheck, Check(s, clock)) && Inv(Check(s, clock))
  {
    hide Inv, AllFated, Check, Advances;
    CheckInv(s, clock);
    AllFates(s, clock, DoCheck);
  }

  // ----- over runs: what is put, and what is told -----

  /** The put that a new entry of the task stands for. */
  function Entered(s: State, s': State, id: string): seq<Put> {
    if id !in s'.outstanding.vals || (id in s.outstanding.vals && s.outstanding.vals[id] == s'.outstanding.vals[id]) then []
    else [Put(s'.outstanding.vals[id].worker, s'.outstanding.vals[id].task)]
  }

  /** The workers of the successive entries of the task. */
  function Handed(states: seq<State>, n: nat, id: string): seq<Put>
    requires n < |states|
  {
    if n == 0 then [] else Handed(states, n - 1, id) + Entered(states[n - 1], states[n], id)
  }

  /** What leaving the queue in this operation tells the callback. */
  function Verdict(s: State, clock: Clock, op: Op, id: string): seq<Outcome> {
    match op
    case DoAcknowledge(worker, x, result) => if x == id && Holds(s, worker, id) then [Finished(result)] else []
    case DoError(worker, x, message) => if x == id && Holds(s, worker, id) then [Failed(message)] else []
    case DoDetach(worker) =>
      if Holds(s, worker, id) && s.outstanding.vals[id].retry >= 3 then [TooManyRetries] else []
    case DoCheck =>
      if id in s.outstanding.vals then
        var ip := s.outstanding.vals[id];
        if ip.deadline < clock(s.ticks) && ip.retry >= 3 then [TooManyRetries] else []
      else if id in s.unassigned.vals && s.unassigned.vals[id].deadline < clock(s.ticks) then [NoWorker] else []
    case _ => []
  }

  function Told(clock: Clock, states: seq<State>, ops: seq<Op>, n: nat, id: string): seq<Outcome>
    requires n <= |ops| < |states|
  {
    if n == 0 then [] else Told(clock, states, ops, n - 1, id) + Verdict(states[n - 1], clock, ops[n - 1], id)
  }

  lemma StepSeen(s: State, clock: Clock, op: Op, id: string)
    requires Inv(s) && Allowed(s, op)
    ensures var s' := Apply(s, clock, op);
            && PutsOf(s'.puts, id) == PutsOf(s.puts, id) + Entered(s, s', id)
            && ToldOf(s'.notes, id) == ToldOf(s.notes, id) + Verdict(s, clock, op, id)
            && (Verdict(s, clock, op, id) != [] <==> Open(s, id) && !Open(s', id))
  {
    hide Inv, Apply, PutsOf, ToldOf, Best, Someone;
    Fates(s, clock, op, id);
    TaskIds(s, id);
    var s' := Apply(s, clock, op);
    assert PutsOf(s.puts, id) + [] == PutsOf(s.puts, id) && ToldOf(s.notes, id) + [] == ToldOf(s.notes, id);
  }

  /** Over every run the puts of a task are, in order, those of its successive entries; so a task that is
      outstanding was put last on the queue of the worker that its entry names. */
  lemma {:induction false} PutsFollowEntries(clock: Clock, states: seq<State>, ops: seq<Op>, n: nat, id: string)
    requires Run(clock, states, ops) && n < |states|
    ensures var s, puts := states[n], PutsOf(states[n].puts, id);
            && puts == Handed(states, n, id)
            && (id in s.outstanding.vals ==>
                  && |puts| > 0
                  && puts[|puts| - 1] == Put(s.outstanding.vals[id].worker, s.outstanding.vals[id].task))
  {
    hide Inv, Apply, Verdict;
    if n > 0 {
      PutsFollowEntries(clock, states, ops, n - 1, id);
      RunInv(clock, states, ops, n - 1);
      StepSeen(states[n - 1], clock, ops[n - 1], id);
    }
  }

  lemma {:induction false} ToldIsNoticed(notes: seq<Note>, id: string)
    ensures |ToldOf(notes, id)| == Notices(notes, id)
  {
    if notes != [] {
      ToldIsNoticed(notes[..|notes| - 1], id);
    }
  }

  lemma {:induction false} ToldIs(clock: Clock, states: seq<State>, ops: seq<Op>, n: nat, id: string)
    requires Run(clock, states, ops) && n < |states|
    ensures ToldOf(states[n].notes, id) == Told(clock, states, ops, n, id)
  {
    hide Inv, Apply, Verdict, PutsOf;
    if n > 0 {
      ToldIs(clock, states, ops, n - 1, id);
      RunInv(clock, states, ops, n - 1);
      StepSeen(states[n - 1], clock, ops[n - 1], id);
    }
  }

  /** Over every run the callback of a task is told what the operation says in which the task left both maps: the
      very result or message of the worker that its entry named; too many retries, when it was taken from its
      worker with a retry count of three or more; no worker, when it was parked and overdue. It is told once. */
  lemma CallbacksTold(clock: Clock, states: seq<State>, ops: seq<Op>, n: nat, id: string)
    requires Run(clock, states, ops) && n < |states|
    ensures ToldOf(states[n].notes, id) == Told(clock, states, ops, n, id)
    ensures |ToldOf(states[n].notes, id)| == if id in states[n].added && !Open(states[n], id) then 1 else 0
    ensures n < |ops| ==>
              (Verdict(states[n], clock, ops[n], id) != [] <==> Open(states[n], id) && !Open(states[n + 1], id))
  {
    hide Inv, Apply, Verdict, PutsOf, Told, ToldOf, Notices;
    Conservation(clock, states, ops, n, id);
    ToldIsNoticed(states[n].notes, id);
    ToldIs(clock, states, ops, n, id);
    if n < |ops| {
      RunInv(clock, states, ops, n);
      StepSeen(states[n], clock, ops[n], id);
    }
  }

  /** A check that leaves nothing overdue also leaves no parked task that an attached worker could do. */
  lemma CheckSettles(s: State, clock: Clock)
    requires Inv(s) && Monotone(clock)
    ensures var s', now := Check(s, clock), clock(s.ticks);
            && (forall id :: id in s'.outstanding.vals ==> s'.outstanding.vals[id].deadline >= now)
            && (forall id :: id in s'.unassigned.vals ==>
                  var hold := s'.unassigned.vals[id];
                  hold.deadline >= now && !Someone(SubsFor(s'.workers, hold.task.name), hold.task))
  {
    hide Inv, Check, Someone, Assigns;
    CheckLeavesNothing(s, clock);
    var s' := Check(s, clock);
    forall id | id in s'.unassigned.vals
      ensures !Someone(SubsFor(s'.workers, s'.unassigned.vals[id].task.name), s'.unassigned.vals[id].task)
    {
      ChosenBest(s', s'.unassigned.vals[id].task);
    }
  }

  // ----- over runs: the counters -----

  /** The tasks of the worker that a check now would issue again. */
  function Late(s: State, clock: Clock, worker: string): set<string> {
    set id | id in s.outstanding.vals && s.outstanding.vals[id].worker.workerId == worker
             && s.outstanding.vals[id].deadline < clock(s.ticks) && s.outstanding.vals[id].retry < 3
  }

  /** How many tasks of the worker were issued again after their deadline since it attached last. */
  function LateSince(clock: Clock, states: seq<State>, ops: seq<Op>, n: nat, worker: string): nat
    requires n <= |ops| < |states|
  {
    if n == 0 then 0
    else
      match ops[n - 1]
      case DoAttach(w, descs) =>
        if w == worker && descs != [] then 0 else LateSince(clock, states, ops, n - 1, worker)
      case DoCheck => LateSince(clock, states, ops, n - 1, worker) + |Late(states[n - 1], clock, worker)|
      case _ => LateSince(clock, states, ops, n - 1, worker)
  }

  function LapsesIn(ips: seq<InProgress>, worker: string): nat {
    if ips == [] then 0
    else (if ips[0].worker.workerId == worker && ips[0].retry < 3 then 1 else 0) + LapsesIn(ips[1..], worker)
  }

  lemma RetryLapses(s: State, clock: Clock, ip: InProgress, worker: string)
    ensures Lapsed(Retry(s, clock, ip), worker) == Lapsed(s, worker) + LapsesIn([ip], worker)
  {
    hide Assign;
    var s1 := s.(lapsed := s.lapsed[ip.worker.workerId := Lapsed(s, ip.worker.workerId) + 1]);
    AssignFrame(s1, clock, ip.task, ip.retry + 1);
    assert [ip][1..] == [];
  }

  lemma {:induction false} RetryAllLapses(s: State, clock: Clock, ips: seq<InProgress>, worker: string)
    ensures Lapsed(RetryAll(s, clock, ips), worker) == Lapsed(s, worker) + LapsesIn(ips, worker)
    decreases |ips|
  {
    if ips != [] {
      hide Retry, Lapsed;
      RetryLapses(s, clock, ips[0], worker);
      RetryAllLapses(Retry(s, clock, ips[0]), clock, ips[1..], worker);
    }
  }

  lemma GiveUpLapses(s: State, holds: seq<OnHold>, worker: string)
    ensures Lapsed(GiveUp(s, holds), worker) == Lapsed(s, worker)
    decreases |holds|
  {
    if holds != [] {
      GiveUpLapses(GiveUpOne(s, holds[0]), holds[1..], worker);
    }
  }

  lemma {:induction false} AssignAllLapses(s: State, clock: Clock, holds: seq<OnHold>, worker: string)
    ensures Lapsed(AssignAllHeld(s, clock, holds), worker) == Lapsed(s, worker)
    decreases |holds|
  {
    if holds != [] {
      hide Assign, Assigns;
      AssignFrame(s, clock, holds[0].task, holds[0].retry);
      AssignAllLapses(AssignHeld(s, clock, holds[0]), clock, holds[1..], worker);
    }
  }

  /** The ids of the entries in the list that count as a lapse of the worker. */
  function LapsedIds(ips: seq<InProgress>, worker: string): set<string> {
    if ips == [] then {}
    else (if ips[0].worker.workerId == worker && ips[0].retry < 3 then {ips[0].task.id} else {})
         + LapsedIds(ips[1..], worker)
  }

  predicate Lapses(s: State, ips: seq<InProgress>, worker: string, id: string) {
    && id in s.outstanding.vals && s.outstanding.vals[id] in ips && s.outstanding.vals[id].task.id == id
    && s.outstanding.vals[id].worker.workerId == worker && s.outstanding.vals[id].retry < 3
  }

  lemma LapsesHead(s: State, ips: seq<InProgress>, worker: string, id: string)
    requires Current(s, ips) && ips != []
    ensures Current(s, ips[1..]) && !Lapses(s, ips[1..], worker, ips[0].task.id)
    ensures Lapses(s, ips, worker, id)
       <==> Lapses(s, ips[1..], worker, id)
            || (id == ips[0].task.id && ips[0].worker.workerId == worker && ips[0].retry < 3)
  {
    var tail := ips[1..];
    assert forall i :: 0 <= i < |tail| ==> tail[i] == ips[i + 1];
    assert ips[0] !in tail;
    assert forall x :: x in ips <==> x == ips[0] || x in tail;
  }

  lemma {:induction false} LapsesAreIds(s: State, ips: seq<InProgress>, worker: string)
    requires Current(s, ips)
    ensures LapsesIn(ips, worker) == |LapsedIds(ips, worker)|
    ensures forall id :: id in LapsedIds(ips, worker) <==> Lapses(s, ips, worker, id)
  {
    hide Current, Lapses;
    if ips == [] {
      NothingLapses(s, worker);
    } else {
      forall id
        ensures Lapses(s, ips, worker, id)
           <==> Lapses(s, ips[1..], worker, id)
                || (id == ips[0].task.id && ips[0].worker.workerId == worker && ips[0].retry < 3)
      {
        LapsesHead(s, ips, worker, id);
      }
      LapsesHead(s, ips, worker, ips[0].task.id);
      LapsesAreIds(s, ips[1..], worker);
    }
  }

  lemma NothingLapses(s: State, worker: string)
    ensures forall id :: !Lapses(s, [], worker, id)
  {
  }

  lemma CheckLapses(s: State, clock: Clock, worker: string)
    requires Inv(s)
    ensures Lapsed(Check(s, clock), worker) == Lapsed(s, worker) + |Late(s, clock, worker)|
  {
    hide Check, Inv, RetryAll, GiveUp, AssignAllHeld, Overdue, OverdueHolds, LapsedIds, Current, PlacedOr, FreshOr;
    CheckPhases(s, clock);
    var ips := Overdue(s, clock);
    RetryAllLapses(Ticked(s), clock, ips, worker);
    GiveUpLapses(WorkerTaskProofs.Retried(s, clock), OverdueHolds(s, clock), worker);
    AssignAllLapses(GivenUp(s, clock), clock, GivenUp(s, clock).unassigned.Values(), worker);
    RetriedOpen(s, clock);
    LapsesAreIds(Ticked(s), ips, worker);
    forall id
      ensures id in LapsedIds(ips, worker) <==> id in Late(s, clock, worker)
    {
      OverdueListed(s, clock, id);
      TaskIds(s, id);
      Listed(ips, s, id);
    }
    assert LapsedIds(ips, worker) == Late(s, clock, worker);
  }

  lemma Listed(ips: seq<InProgress>, s: State, id: string)
    ensures id in s.outstanding.vals && s.outstanding.vals[id].task.id == id && s.outstanding.vals[id] in ips ==>
              Concerns(ips, id)
  {
  }

  lemma {:induction false} NoLapses(ips: seq<InProgress>, worker: string)
    requires forall x :: x in ips ==> x.worker.workerId != worker
    ensures LapsesIn(ips, worker) == 0
  {
    if ips != [] {
      NoLapses(ips[1..], worker);
    }
  }

  lemma StepLapses(s: State, clock: Clock, op: Op, worker: string)
    requires Inv(s) && Allowed(s, op) && worker in Apply(s, clock, op).live
    ensures Lapsed(Apply(s, clock, op), worker)
         == match op
            case DoAttach(w, descs) => if w == worker && descs != [] then 0 else Lapsed(s, worker)
            case DoCheck => Lapsed(s, worker) + |Late(s, clock, worker)|
            case _ => Lapsed(s, worker)
  {
    hide Inv, Check, RetryAll, Assign, Register, Unregister, Late, OpenTasks, Current;
    match op
    case DoAttach(w, descs) =>
    case DoDetach(w) =>
      var ips := OpenTasks(s.outstanding.Values(), w);
      DetachInv(s, clock, w);
      RetryAllLapses(Detached(s, w), clock, ips, worker);
      OpenNamed(s, w);
      NoLapses(ips, worker);
    case DoAdd(task, retry) => AssignFrame(s.(added := s.added[task.id := retry]), clock, task, retry);
    case DoAcknowledge(_, _, _) =>
    case DoError(_, _, _) =>
    case DoCheck => CheckLapses(s, clock, worker);
  }

  lemma OpenNamed(s: State, worker: string)
    requires Inv(s)
    ensures forall x :: x in OpenTasks(s.outstanding.Values(), worker) ==> x.worker.workerId == worker
  {
    hide PutCount, Notices, Placed, Registered, On, PutsFit;
    ValuesCurrent(s);
    OpenCurrent(s, s.outstanding.Values(), worker);
  }

  lemma StepLive(s: State, clock: Clock, op: Op, worker: string)
    requires Inv(s) && Allowed(s, op) && worker in Apply(s, clock, op).live
    ensures worker in s.live || (op.DoAttach? && op.worker == worker && op.descs != [])
    ensures op.DoAttach? && op.worker == worker ==> op.descs != []
    ensures !(op.DoDetach? && op.worker == worker)
  {
    hide Inv, Check, Detach, AddTask;
    match op
    case DoAttach(w, descs) =>
    case DoDetach(w) => DetachInv(s, clock, w);
    case DoAdd(task, retry) => AddInv(s, clock, task, retry);
    case DoAcknowledge(_, _, _) =>
    case DoError(_, _, _) =>
    case DoCheck => CheckInv(s, clock);
  }

  lemma {:induction false} LapsedIs(clock: Clock, states: seq<State>, ops: seq<Op>, n: nat, worker: string)
    requires Run(clock, states, ops) && n < |states| && worker in states[n].live
    ensures Lapsed(states[n], worker) == LateSince(clock, states, ops, n, worker)
  {
    hide Inv, Apply, Lapsed, Late;
    if n == 0 {
      assert false;
    } else {
      RunInv(clock, states, ops, n - 1);
      StepLapses(states[n - 1], clock, ops[n - 1], worker);
      StepLive(states[n - 1], clock, ops[n - 1], worker);
      if worker in states[n - 1].live {
        LapsedIs(clock, states, ops, n - 1, worker);
      }
    }
  }

  /** The load counter of an attached worker, exactly: what is outstanding on it and what was taken from it by
      timeouts since it attached. So it is never negative. */
  lemma LoadIs(clock: Clock, states: seq<State>, ops: seq<Op>, n: nat, worker: string)
    requires Run(clock, states, ops) && n < |states| && worker in states[n].live
    ensures var s := states[n];
            && worker in s.workCount
            && s.workCount[worker] == |On(s.outstanding.vals, worker)| + LateSince(clock, states, ops, n, worker)
            && s.workCount[worker] >= 0
  {
    hide Run;
    LoadBalance(clock, states, ops, n, worker);
    LapsedIs(clock, states, ops, n, worker);
  }

  // ----- over runs: the subscriptions -----

  /** The descriptions of the last attach. */
  function Described(ops: seq<Op>, n: nat, worker: string): seq<Description>
    requires n <= |ops|
  {
    if n == 0 then []
    else
      match ops[n - 1]
      case DoAttach(w, descs) => if w == worker && descs != [] then descs else Described(ops, n - 1, worker)
      case _ => Described(ops, n - 1, worker)
  }

  /** What the worker offers under a name, with one queue for all. */
  function Offering(worker: string, descs: seq<Description>, queue: nat, name: string): seq<Subscription> {
    if descs == [] then []
    else
      var last := descs[|descs| - 1];
      Offering(worker, descs[..|descs| - 1], queue, name)
      + if last.name == name then [Subscription(worker, last, queue)] else []
  }

  /** The worker's open attach is for these descriptions and this queue. */
  ghost predicate Attached(s: State, worker: string, descs: seq<Description>, queue: nat) {
    && worker in s.live && queue < s.queues && |s.live[worker]| == |descs|
    && forall i :: 0 <= i < |descs| ==> s.live[worker][i] == Subscription(worker, descs[i], queue)
  }

  ghost predicate Apart(s: State) {
    forall v, w, i, j :: v in s.live && w in s.live && v != w && 0 <= i < |s.live[v]| && 0 <= j < |s.live[w]| ==>
      s.live[v][i].queue != s.live[w][j].queue
  }

  lemma {:induction false} NamedPlus(a: seq<Subscription>, b: seq<Subscription>, name: string)
    ensures Named(a + b, name) == Named(a, name) + Named(b, name)
  {
    if a == [] {
      assert a + b == b;
    } else {
      var all, tail := a + b, a[1..];
      assert all[0] == a[0] && all[1..] == tail + b;
      NamedPlus(tail, b, name);
      NamedHead(all, name);
      NamedHead(a, name);
      hide Named;
      assert Named(tail + b, name) == Named(tail, name) + Named(b, name);
    }
  }

  lemma NamedHead(subs: seq<Subscription>, name: string)
    requires subs != []
    ensures Named(subs, name) == (if subs[0].desc.name == name then [subs[0]] else []) + Named(subs[1..], name)
  {
  }

  lemma {:induction false} NamedIsOffering(subs: seq<Subscription>, worker: string, descs: seq<Description>, queue: nat,
                                           name: string)
    requires |subs| == |descs| && forall i :: 0 <= i < |descs| ==> subs[i] == Subscription(worker, descs[i], queue)
    ensures Named(subs, name) == Offering(worker, descs, queue, name)
    decreases |descs|
  {
    if descs != [] {
      var n := |descs| - 1;
      NamedIsOffering(subs[..n], worker, descs[..n], queue, name);
      NamedPlus(subs[..n], [subs[n]], name);
      assert subs[..n] + [subs[n]] == subs;
      assert [subs[n]][1..] == [];
    }
  }

  lemma RetryAllLive(s: State, clock: Clock, ips: seq<InProgress>)
    ensures var s' := RetryAll(s, clock, ips); s'.live == s.live && s'.queues == s.queues
    decreases |ips|
  {
    if ips != [] {
      hide Assign;
      var ip := ips[0];
      var s1 := s.(lapsed := s.lapsed[ip.worker.workerId := Lapsed(s, ip.worker.workerId) + 1]);
      AssignFrame(s1, clock, ip.task, ip.retry + 1);
      RetryAllLive(Retry(s, clock, ip), clock, ips[1..]);
    }
  }

  lemma GiveUpLive(s: State, holds: seq<OnHold>)
    ensures GiveUp(s, holds).live == s.live && GiveUp(s, holds).queues == s.queues
    decreases |holds|
  {
    if holds != [] {
      GiveUpLive(GiveUpOne(s, holds[0]), holds[1..]);
    }
  }

  lemma {:induction false} AssignAllLive(s: State, clock: Clock, holds: seq<OnHold>)
    ensures AssignAllHeld(s, clock, holds).live == s.live && AssignAllHeld(s, clock, holds).queues == s.queues
    decreases |holds|
  {
    if holds != [] {
      hide Assign, Assigns;
      AssignFrame(s, clock, holds[0].task, holds[0].retry);
      AssignAllLive(AssignHeld(s, clock, holds[0]), clock, holds[1..]);
    }
  }

  /** Only attaching and detaching change who is attached, and only attaching makes a queue. */
  lemma StepAttached(s: State, clock: Clock, op: Op)
    requires Allowed(s, op)
    ensures var s' := Apply(s, clock, op);
            match op
            case DoAttach(w, descs) =>
              if descs == [] then s'.live == s.live && s'.queues == s.queues
              else
                && s'.queues == s.queues + 1 && s'.live.Keys == s.live.Keys + {w} && Attached(s', w, descs, s.queues)
                && forall v :: v in s.live && v != w ==> s'.live[v] == s.live[v]
            case DoDetach(w) => s'.live == s.live - {w} && s'.queues == s.queues
            case _ => s'.live == s.live && s'.queues == s.queues
  {
    hide RetryAll, GiveUp, AssignAllHeld, Assign, Register, Unregister, OpenTasks, Expired, ExpiredHolds;
    match op
    case DoAttach(w, descs) =>
    case DoDetach(w) => RetryAllLive(Detached(s, w), clock, OpenTasks(s.outstanding.Values(), w));
    case DoAdd(task, retry) => AssignFrame(s.(added := s.added[task.id := retry]), clock, task, retry);
    case DoAcknowledge(_, _, _) =>
    case DoError(_, _, _) =>
    case DoCheck =>
      CheckPhases(s, clock);
      RetryAllLive(Ticked(s), clock, Overdue(s, clock));
      GiveUpLive(WorkerTaskProofs.Retried(s, clock), OverdueHolds(s, clock));
      AssignAllLive(GivenUp(s, clock), clock, GivenUp(s, clock).unassigned.Values());
  }

  ghost predicate AllDescribed(s: State, ops: seq<Op>, n: nat)
    requires n <= |ops|
  {
    && Apart(s)
    && forall w :: w in s.live ==> exists queue: nat :: Attached(s, w, Described(ops, n, w), queue)
  }

  lemma AttachApart(s: State, s': State, w: string, descs: seq<Description>)
    requires Apart(s) && s'.live.Keys == s.live.Keys + {w} && Attached(s', w, descs, s.queues)
    requires forall v :: v in s.live && v != w ==> s'.live[v] == s.live[v]
    requires forall v, i :: v in s.live && 0 <= i < |s.live[v]| ==> s.live[v][i].queue < s.queues
    ensures Apart(s')
  {
  }

  lemma QueuesMade(s: State, ops: seq<Op>, n: nat)
    requires n <= |ops| && AllDescribed(s, ops, n)
    ensures forall v, i :: v in s.live && 0 <= i < |s.live[v]| ==> s.live[v][i].queue < s.queues
  {
    forall v, i | v in s.live && 0 <= i < |s.live[v]|
      ensures s.live[v][i].queue < s.queues
    {
      var queue: nat :| Attached(s, v, Described(ops, n, v), queue);
    }
  }

  lemma StepDescribed(s: State, clock: Clock, ops: seq<Op>, n: nat)
    requires n < |ops| && Allowed(s, ops[n]) && AllDescribed(s, ops, n)
    ensures AllDescribed(Apply(s, clock, ops[n]), ops, n + 1)
  {
    hide Apply, Apart;
    var s', m := Apply(s, clock, ops[n]), n + 1;
    StepAttached(s, clock, ops[n]);
    QueuesMade(s, ops, n);
    assert Apart(s') by { StillApart(s, s', ops[n]); }
    forall w | w in s'.live
      ensures exists queue: nat :: Attached(s', w, Described(ops, m, w), queue)
    {
      if w in s.live && s'.live[w] == s.live[w] && Described(ops, m, w) == Described(ops, n, w) {
        var queue: nat :| Attached(s, w, Described(ops, n, w), queue);
        assert Attached(s', w, Described(ops, m, w), queue);
      } else {
        assert Attached(s', w, Described(ops, m, w), s.queues);
      }
    }
  }

  lemma StillApart(s: State, s': State, op: Op)
    requires Apart(s) && forall v, i :: v in s.live && 0 <= i < |s.live[v]| ==> s.live[v][i].queue < s.queues
    requires match op
             case DoAttach(w, descs) =>
               if descs == [] then s'.live == s.live
               else
                 && s'.live.Keys == s.live.Keys + {w} && Attached(s', w, descs, s.queues)
                 && forall v :: v in s.live && v != w ==> s'.live[v] == s.live[v]
             case DoDetach(w) => s'.live == s.live - {w}
             case _ => s'.live == s.live
    ensures Apart(s')
  {
    match op
    case DoAttach(w, descs) =>
      if descs != [] {
        AttachApart(s, s', w, descs);
      }
    case _ =>
  }

  lemma {:induction false} RunDescribed(clock: Clock, states: seq<State>, ops: seq<Op>, n: nat)
    requires Run(clock, states, ops) && n < |states|
    ensures AllDescribed(states[n], ops, n)
  {
    hide Apply, Attached;
    if n > 0 {
      RunDescribed(clock, states, ops, n - 1);
      StepDescribed(states[n - 1], clock, ops, n - 1);
    }
  }

  /** Over every run an attached worker is listed under each name once for every description of its attach with
      that name, in their order and with one queue, which no other attached worker has; nobody else is listed. */
  lemma ListedAsDescribed(clock: Clock, states: seq<State>, ops: seq<Op>, n: nat, worker: string) returns (queue: nat)
    requires Run(clock, states, ops) && n < |states|
    ensures var s := states[n];
            && (forall name :: Mine(SubsFor(s.workers, name), worker)
                               == if worker in s.live then Offering(worker, Described(ops, n, worker), queue, name) else [])
            && (worker in s.live ==>
                  forall name, sub :: (sub in SubsFor(s.workers, name) && sub.workerId != worker) ==>
                    Described(ops, n, worker) != [] ==> sub.queue != queue)
  {
    hide Apply, Mine, Named, Attached, Apart, SubsFor, Tasks, Balanced, PutsFit, AllPlaced;
    var s := states[n];
    RunInv(clock, states, ops, n);
    RunDescribed(clock, states, ops, n);
    if worker !in s.live {
      queue := 0;
      return;
    }
    queue :| Attached(s, worker, Described(ops, n, worker), queue);
    forall name
      ensures Mine(SubsFor(s.workers, name), worker) == Offering(worker, Described(ops, n, worker), queue, name)
    {
      AttachedNamed(s, worker, Described(ops, n, worker), queue, name);
    }
    forall name, sub | sub in SubsFor(s.workers, name) && sub.workerId != worker && Described(ops, n, worker) != []
      ensures sub.queue != queue
    {
      OtherQueue(s, worker, Described(ops, n, worker), queue, name, sub);
    }
  }

  lemma AttachedNamed(s: State, worker: string, descs: seq<Description>, queue: nat, name: string)
    requires Attached(s, worker, descs, queue)
    ensures Named(s.live[worker], name) == Offering(worker, descs, queue, name)
  {
    NamedIsOffering(s.live[worker], worker, descs, queue, name);
  }

  lemma OtherQueue(s: State, worker: string, descs: seq<Description>, queue: nat, name: string, sub: Subscription)
    requires Registered(s.workers, s.live) && Apart(s) && Attached(s, worker, descs, queue) && descs != []
    requires sub in SubsFor(s.workers, name) && sub.workerId != worker
    ensures sub.queue != queue
  {
    hide SubsFor, Mine, Named;
    MineIs(SubsFor(s.workers, name), sub.workerId);
    assert sub in Mine(SubsFor(s.workers, name), sub.workerId);
    NamedIs(s.live[sub.workerId], name);
    var i :| 0 <= i < |s.live[sub.workerId]| && s.live[sub.workerId][i] == sub;
    assert s.live[worker][0].queue == queue;
  }
}
