/** The class of resotocore/core/worker_task_queue.py with its fields updated in place.

    With unbounded queues a `put` never suspends, so every public call is one atomic step between
    taking and releasing the lock. */
module WorkerTaskQueue {
  import opened OrderedDict
  import opened WorkerTasks
  import Proofs = WorkerTaskProofs
  import Laws = WorkerTaskLaws

  class WorkerTaskQueue {
    const clock: Clock
    var workerByTaskName: map<string, seq<Subscription>>
    var workCount: map<string, int>
    var outstandingTasks: Dict<InProgress>
    var unassignedTasks: Dict<OnHold>
    // the bodies of the open `attach` calls, the queues handed out, and what the outside has seen
    var live: map<string, seq<Subscription>>
    var queues: nat
    var puts: seq<Put>
    var notes: seq<Note>
    var ticks: nat
    ghost var added: map<string, nat>
    ghost var lapsed: map<string, nat>

    ghost function Now(): State
      reads this
    {
      State(workerByTaskName, workCount, outstandingTasks, unassignedTasks, live, queues, puts, notes, ticks,
            added, lapsed)
    }

    ghost predicate Valid()
      reads this
    {
      Proofs.Inv(Now())
    }

    constructor (clock: Clock)
      ensures Valid() && Now() == Init() && this.clock == clock
    {
      this.clock := clock;
      workerByTaskName, workCount, outstandingTasks, unassignedTasks := map[], map[], Empty(), Empty();
      live, queues, puts, notes, ticks, added, lapsed := map[], 0, [], [], 0, map[], map[];
      new;
      Proofs.InitInv();
    }

    method Utc() returns (now: int)
      modifies this`ticks
      ensures now == clock(old(ticks)) && ticks == old(ticks) + 1
    {
      now := clock(ticks);
      ticks := ticks + 1;
    }

    method InternalAddTask(task: Task, retry: nat) returns (ok: bool)
      modifies this
      ensures Now() == Assign(old(Now()), clock, task, retry) && ok == Assigns(old(Now()), task)
      ensures ok == Laws.Someone(SubsFor(old(workerByTaskName), task.name), task)
      ensures ok ==> task.id in outstandingTasks.vals
      ensures ok ==>
                var sub, subs := outstandingTasks.vals[task.id].worker, SubsFor(old(workerByTaskName), task.name);
                && Laws.Best(subs, task, sub) && Laws.Least(old(workCount), subs, task, sub)
                && puts == old(puts) + [Put(sub, task)]
    {
      Laws.AssignPicksBest(Now(), clock, task, retry);
      Laws.ChosenBest(Now(), task);
      hide Laws.Someone, Laws.Best, Laws.Least;
      hide Dict.Pop, Dict.Set, CountOf, Matching, MaxFilter, OfLength, LeastLoaded, SubsFor;
      var matching := Matching(SubsFor(workerByTaskName, task.name), task);
      if matching != [] {
        MaxFilterIs(matching);
        OfLengthIs(matching, MaxFilter(matching));
        var sub := LeastLoaded(OfLength(matching, MaxFilter(matching)), workCount);
        var now := Utc();
        outstandingTasks := outstandingTasks.Set(task.id, InProgress(task, sub, retry, now + task.timeout));
        puts := puts + [Put(sub, task)];
        workCount := workCount[sub.workerId := CountOf(workCount, sub.workerId) + 1];
        ok := true;
      } else {
        outstandingTasks := outstandingTasks.Pop(task.id);
        if task.id !in unassignedTasks.vals {
          var now := Utc();
          unassignedTasks := unassignedTasks.Set(task.id, OnHold(task, retry, now + task.timeout));
        }
        ok := false;
      }
    }

    method RetryTasks(tasks: seq<InProgress>)
      modifies this
      ensures Now() == RetryAll(old(Now()), clock, tasks)
    {
      hide Assign, Lapsed, Dict.Pop, CountOf, Laws.Someone, Laws.Best, Laws.Least;
      for i := 0 to |tasks|
        invariant RetryAll(Now(), clock, tasks[i..]) == RetryAll(old(Now()), clock, tasks)
      {
        var ip := tasks[i];
        ghost var before := Now();
        if ip.retry < 3 {
          lapsed := lapsed[ip.worker.workerId := Lapsed(Now(), ip.worker.workerId) + 1];
          var _ := InternalAddTask(ip.task, ip.retry + 1);
        } else {
          outstandingTasks := outstandingTasks.Pop(ip.task.id);
          workCount := workCount[ip.worker.workerId := CountOf(workCount, ip.worker.workerId) - 1];
          notes := notes + [Note(ip.task.id, TooManyRetries)];
        }
        assert Now() == Retry(before, clock, ip);
        assert tasks[i..][0] == ip && tasks[i..][1..] == tasks[i + 1..];
      }
      assert tasks[|tasks|..] == [];
    }

    method AddTask(task: Task, retry: nat)
      requires Valid() && task.id !in added
      modifies this
      ensures Valid() && Now() == WorkerTasks.AddTask(old(Now()), clock, task, retry)
      ensures Laws.AllFated(old(Now()), clock, Proofs.DoAdd(task, retry), Now())
    {
      hide Proofs.Inv, Assign;
      Laws.AllFates(Now(), clock, Proofs.DoAdd(task, retry));
      hide Laws.AllFated;
      Proofs.AddInv(Now(), clock, task, retry);
      added := added[task.id := retry];
      var _ := InternalAddTask(task, retry);
    }

    method AcknowledgeTask(worker: string, id: string, result: string)
      requires Valid()
      modifies this
      ensures Valid() && Now() == Close(old(Now()), worker, id, Finished(result))
      ensures Laws.AllFated(old(Now()), clock, Proofs.DoAcknowledge(worker, id, result), Now())
    {
      hide Proofs.Inv, Dict.Pop;
      Laws.AllFates(Now(), clock, Proofs.DoAcknowledge(worker, id, result));
      hide Laws.AllFated;
      Proofs.CloseInv(Now(), worker, id, Finished(result));
      if id in outstandingTasks.vals {
        if outstandingTasks.vals[id].worker.workerId == worker {
          outstandingTasks := outstandingTasks.Pop(id);
          workCount := workCount[worker := CountOf(workCount, worker) - 1];
          notes := notes + [Note(id, Finished(result))];
        }
      }
    }

    method ErrorTask(worker: string, id: string, message: string)
      requires Valid()
      modifies this
      ensures Valid() && Now() == Close(old(Now()), worker, id, Failed(message))
      ensures Laws.AllFated(old(Now()), clock, Proofs.DoError(worker, id, message), Now())
    {
      hide Proofs.Inv, Dict.Pop;
      Laws.AllFates(Now(), clock, Proofs.DoError(worker, id, message));
      hide Laws.AllFated;
      Proofs.CloseInv(Now(), worker, id, Failed(message));
      if id in outstandingTasks.vals {
        if outstandingTasks.vals[id].worker.workerId == worker {
          outstandingTasks := outstandingTasks.Pop(id);
          workCount := workCount[worker := CountOf(workCount, worker) - 1];
          notes := notes + [Note(id, Failed(message))];
        }
      }
    }

    method CheckOutdatedUnassignedTasks()
      requires Valid()
      modifies this
      ensures Valid() && Now() == Check(old(Now()), clock)
      ensures Laws.AllFated(old(Now()), clock, Proofs.DoCheck, Now())
    {
      hide Proofs.Inv, Assign, RetryAll, Assigns;
      Laws.CheckFates(Now(), clock);
      hide Laws.AllFated, Laws.Someone, Laws.Best, Laws.Least, Proofs.Allowed, Proofs.Apply;
      var now := Utc();
      var outstanding := Expired(outstandingTasks.Values(), now);
      var outdated := ExpiredHolds(unassignedTasks.Values(), now);
      RetryTasks(outstanding);
      ghost var s1 := Now();
      for i := 0 to |outdated|
        invariant GiveUp(Now(), outdated[i..]) == GiveUp(s1, outdated)
      {
        notes := notes + [Note(outdated[i].task.id, NoWorker)];
        unassignedTasks := unassignedTasks.Pop(outdated[i].task.id);
        assert outdated[i..][0] == outdated[i] && outdated[i..][1..] == outdated[i + 1..];
      }
      assert outdated[|outdated|..] == [];
      ghost var s2 := Now();
      var held := unassignedTasks.Values();
      for i := 0 to |held|
        invariant AssignAllHeld(Now(), clock, held[i..]) == AssignAllHeld(s2, clock, held)
      {
        ghost var before := Now();
        var ok := InternalAddTask(held[i].task, held[i].retry);
        if ok {
          unassignedTasks := unassignedTasks.Pop(held[i].task.id);
        }
        assert Now() == AssignHeld(before, clock, held[i]);
        assert held[i..][0] == held[i] && held[i..][1..] == held[i + 1..];
      }
      assert held[|held|..] == [];
    }

    /** Entering the `attach` context; no description at all raises before anything changes. */
    method Attach(worker: string, descs: seq<Description>) returns (ok: bool)
      requires Valid() && worker !in live
      modifies this
      ensures Valid() && Now() == WorkerTasks.Attach(old(Now()), worker, descs) && ok == (descs != [])
      ensures Laws.AllFated(old(Now()), clock, Proofs.DoAttach(worker, descs), Now())
    {
      hide Proofs.Inv, SubsFor;
      Laws.AttachFates(Now(), clock, worker, descs);
      hide Laws.AllFated, Proofs.Allowed, Proofs.Apply;
      if descs == [] {
        return false;
      }
      var subs := Subscribe(worker, descs, queues);
      queues := queues + 1;
      workCount := workCount[worker := 0];
      ghost var before := workerByTaskName;
      for i := 0 to |subs|
        invariant Register(workerByTaskName, subs[i..]) == Register(before, subs)
        invariant Now() == old(Now()).(queues := old(queues) + 1, workCount := old(workCount)[worker := 0],
                                       workers := workerByTaskName)
      {
        var name := subs[i].desc.name;
        workerByTaskName := workerByTaskName[name := SubsFor(workerByTaskName, name) + [subs[i]]];
        assert subs[i..][0] == subs[i] && subs[i..][1..] == subs[i + 1..];
      }
      assert subs[|subs|..] == [];
      live := live[worker := subs];
      lapsed := lapsed[worker := 0];
      ok := true;
    }

    /** Leaving the `attach` context. */
    method Detach(worker: string)
      requires Valid() && worker in live
      modifies this
      ensures Valid() && Now() == WorkerTasks.Detach(old(Now()), clock, worker)
      ensures Laws.AllFated(old(Now()), clock, Proofs.DoDetach(worker), Now())
    {
      hide Proofs.Inv, RetryAll, SubsFor, RemoveFirst, OpenTasks;
      Laws.AllFates(Now(), clock, Proofs.DoDetach(worker));
      hide Laws.AllFated;
      Proofs.DetachInv(Now(), clock, worker);
      var subs := live[worker];
      ghost var before := workerByTaskName;
      for i := 0 to |subs|
        invariant Unregister(workerByTaskName, subs[i..]) == Unregister(before, subs)
        invariant Now() == old(Now()).(workers := workerByTaskName)
      {
        var name := subs[i].desc.name;
        workerByTaskName := workerByTaskName[name := RemoveFirst(SubsFor(workerByTaskName, name), subs[i])];
        assert subs[i..][0] == subs[i] && subs[i..][1..] == subs[i + 1..];
      }
      assert subs[|subs|..] == [];
      workCount := workCount - {worker};
      live := live - {worker};
      RetryTasks(OpenTasks(outstandingTasks.Values(), worker));
    }
  }
}
