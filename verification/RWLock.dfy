/** The readers-writer lock of resotolib/resotolib/utils.py as an interleaving transition system.

    Every acquire, release, counter update and counter test is one atomic step of one thread.
    `threading.Lock` has no owner: `Holder` records who took a lock for the proofs only, and no
    step ever looks at anything but whether the lock is free. */
module RWLock {

  /** What a thread does next. Reader phases start with R (acquire) or S (release),
      writer phases with W (acquire) or V (release). */
  datatype Pc =
    | Idle
      // reader_acquire
    | RQueue        // acquire readers_queue
    | RNoReaders    // acquire no_readers
    | RMutex        // acquire the read switch's mutex
    | RCount        // counter += 1
    | RTest         // counter == 1 ?
    | RNoWriters    // acquire no_writers
    | RUnmutex      // release the read switch's mutex
    | RFreeReaders  // release no_readers
    | RFreeQueue    // release readers_queue
    | Reading
      // reader_release
    | SMutex
    | SCount        // counter -= 1
    | STest         // counter == 0 ?
    | SFreeWriters  // release no_writers
    | SUnmutex
      // writer_acquire
    | WMutex        // acquire the write switch's mutex
    | WCount
    | WTest
    | WNoReaders    // acquire no_readers
    | WUnmutex
    | WNoWriters    // acquire no_writers
    | Writing
      // writer_release
    | VFreeWriters  // release no_writers
    | VMutex
    | VCount
    | VTest
    | VFreeReaders  // release no_readers
    | VUnmutex

  datatype Holder = Free | Thread(id: nat) | Switch

  datatype State = State(
    pcs: seq<Pc>,
    queue: Holder, noReaders: Holder, noWriters: Holder,
    readMutex: Holder, writeMutex: Holder,
    readCount: int, writeCount: int)

  /** Releasing a free `threading.Lock` raises, which is `Failed`. */
  datatype Outcome = Blocked | Failed | Moved(s: State)

  ghost predicate Init(s: State) {
    && (forall t :: 0 <= t < |s.pcs| ==> s.pcs[t] == Idle)
    && s.queue == s.noReaders == s.noWriters == s.readMutex == s.writeMutex == Free
    && s.readCount == 0 && s.writeCount == 0
  }

  /** What a thread at `pc` does to the locks and counters, and where it goes. */
  datatype Act = Wait | Raise | Go(s: State, pc: Pc)

  /** An idle thread calls writer_acquire when `write`, else reader_acquire. */
  function ActOf(s: State, me: Holder, pc: Pc, write: bool): Act {
    match pc
    case Idle => Go(s, if write then WMutex else RQueue)
    case RQueue =>
      if s.queue != Free then Wait else Go(s.(queue := me), RNoReaders)
    case RNoReaders =>
      if s.noReaders != Free then Wait else Go(s.(noReaders := me), RMutex)
    case RMutex =>
      if s.readMutex != Free then Wait else Go(s.(readMutex := me), RCount)
    case RCount => Go(s.(readCount := s.readCount + 1), RTest)
    case RTest => Go(s, if s.readCount == 1 then RNoWriters else RUnmutex)
    case RNoWriters =>
      if s.noWriters != Free then Wait else Go(s.(noWriters := Switch), RUnmutex)
    case RUnmutex =>
      if s.readMutex == Free then Raise else Go(s.(readMutex := Free), RFreeReaders)
    case RFreeReaders =>
      if s.noReaders == Free then Raise else Go(s.(noReaders := Free), RFreeQueue)
    case RFreeQueue =>
      if s.queue == Free then Raise else Go(s.(queue := Free), Reading)
    case Reading => Go(s, SMutex)
    case SMutex =>
      if s.readMutex != Free then Wait else Go(s.(readMutex := me), SCount)
    case SCount => Go(s.(readCount := s.readCount - 1), STest)
    case STest => Go(s, if s.readCount == 0 then SFreeWriters else SUnmutex)
    case SFreeWriters =>
      if s.noWriters == Free then Raise else Go(s.(noWriters := Free), SUnmutex)
    case SUnmutex =>
      if s.readMutex == Free then Raise else Go(s.(readMutex := Free), Idle)
    case WMutex =>
      if s.writeMutex != Free then Wait else Go(s.(writeMutex := me), WCount)
    case WCount => Go(s.(writeCount := s.writeCount + 1), WTest)
    case WTest => Go(s, if s.writeCount == 1 then WNoReaders else WUnmutex)
    case WNoReaders =>
      if s.noReaders != Free then Wait else Go(s.(noReaders := Switch), WUnmutex)
    case WUnmutex =>
      if s.writeMutex == Free then Raise else Go(s.(writeMutex := Free), WNoWriters)
    case WNoWriters =>
      if s.noWriters != Free then Wait else Go(s.(noWriters := me), Writing)
    case Writing => Go(s, VFreeWriters)
    case VFreeWriters =>
      if s.noWriters == Free then Raise else Go(s.(noWriters := Free), VMutex)
    case VMutex =>
      if s.writeMutex != Free then Wait else Go(s.(writeMutex := me), VCount)
    case VCount => Go(s.(writeCount := s.writeCount - 1), VTest)
    case VTest => Go(s, if s.writeCount == 0 then VFreeReaders else VUnmutex)
    case VFreeReaders =>
      if s.noReaders == Free then Raise else Go(s.(noReaders := Free), VUnmutex)
    case VUnmutex =>
      if s.writeMutex == Free then Raise else Go(s.(writeMutex := Free), Idle)
  }

  /** The step of thread `t`. */
  function Step(s: State, t: nat, write: bool): Outcome
    requires t < |s.pcs|
  {
    match ActOf(s, Thread(t), s.pcs[t], write)
    case Wait => Blocked
    case Raise => Failed
    case Go(s', pc) => Moved(s'.(pcs := s.pcs[t := pc]))
  }

  ghost predicate CanStep(s: State, t: nat)
    requires t < |s.pcs|
  {
    Step(s, t, false).Moved?
  }

  /** A finite interleaving: `run[i+1]` is a step of some thread from `run[i]`. */
  ghost predicate Run(run: seq<State>) {
    && 0 < |run|
    && forall i :: 0 <= i < |run| - 1 ==> Succ(run[i], run[i + 1])
  }

  ghost predicate Succ(s: State, s': State) {
    exists t: nat, write: bool :: t < |s.pcs| && Step(s, t, write) == Moved(s')
  }

  // ----- counting threads -----

  function Count(pcs: seq<Pc>, p: Pc -> bool): (n: nat) {
    if pcs == [] then 0 else (if p(pcs[0]) then 1 else 0) + Count(pcs[1..], p)
  }

  lemma {:induction false} CountUpdate(pcs: seq<Pc>, t: nat, pc: Pc, p: Pc -> bool)
    requires t < |pcs|
    ensures Count(pcs[t := pc], p)
         == Count(pcs, p) - (if p(pcs[t]) then 1 else 0) + (if p(pc) then 1 else 0)
  {
    if t == 0 {
      assert pcs[t := pc][1..] == pcs[1..];
    } else {
      assert pcs[t := pc][1..] == pcs[1..][t - 1 := pc];
      CountUpdate(pcs[1..], t - 1, pc, p);
    }
  }

  lemma {:induction false} CountAtLeast(pcs: seq<Pc>, t: nat, u: nat, p: Pc -> bool)
    requires !p(Idle) && t < |pcs| && u < |pcs| && p(pcs[t]) && p(pcs[u])
    ensures Count(pcs, p) >= if t == u then 1 else 2
  {
    var rest := pcs[t := Idle];
    CountUpdate(pcs, t, Idle, p);
    if t != u {
      CountUpdate(rest, u, Idle, p);
    }
  }

  lemma {:induction false} CountWitness(pcs: seq<Pc>, p: Pc -> bool) returns (t: nat)
    requires Count(pcs, p) > 0
    ensures t < |pcs| && p(pcs[t])
  {
    if p(pcs[0]) {
      t := 0;
    } else {
      t := CountWitness(pcs[1..], p);
      t := t + 1;
    }
  }

  // ----- the invariant -----

  predicate HoldsQueue(pc: Pc) {
    pc.RNoReaders? || pc.RMutex? || pc.RCount? || pc.RTest? || pc.RNoWriters? || pc.RUnmutex? || pc.RFreeReaders?
        || pc.RFreeQueue?
  }

  predicate HoldsNoReaders(pc: Pc) {
    pc.RMutex? || pc.RCount? || pc.RTest? || pc.RNoWriters? || pc.RUnmutex? || pc.RFreeReaders?
  }

  predicate HoldsReadMutex(pc: Pc) {
    pc.RCount? || pc.RTest? || pc.RNoWriters? || pc.RUnmutex? || pc.SCount? || pc.STest? || pc.SFreeWriters?
        || pc.SUnmutex?
  }

  predicate HoldsWriteMutex(pc: Pc) {
    pc.WCount? || pc.WTest? || pc.WNoReaders? || pc.WUnmutex? || pc.VCount? || pc.VTest? || pc.VFreeReaders?
        || pc.VUnmutex?
  }

  predicate HoldsNoWriters(pc: Pc) {
    pc.Writing? || pc.VFreeWriters?
  }

  predicate Read(pc: Pc) {
    pc.RTest? || pc.RNoWriters? || pc.RUnmutex? || pc.RFreeReaders? || pc.RFreeQueue? || pc.Reading?
        || pc.SMutex? || pc.SCount?
  }

  predicate Written(pc: Pc) {
    pc.WTest? || pc.WNoReaders? || pc.WUnmutex? || pc.WNoWriters? || pc.Writing? || pc.VFreeWriters?
        || pc.VMutex? || pc.VCount?
  }

  /** The read switch is on: between its first acquire of no_writers and its last release. */
  predicate ReadOn(s: State) {
    if s.readMutex.Thread? && s.readMutex.id < |s.pcs| then
      match s.pcs[s.readMutex.id]
      case RTest => s.readCount > 1
      case RNoWriters => false
      case STest => true
      case SFreeWriters => true
      case _ => s.readCount > 0
    else s.readCount > 0
  }

  predicate WriteOn(s: State) {
    if s.writeMutex.Thread? && s.writeMutex.id < |s.pcs| then
      match s.pcs[s.writeMutex.id]
      case WTest => s.writeCount > 1
      case WNoReaders => false
      case VTest => true
      case VFreeReaders => true
      case _ => s.writeCount > 0
    else s.writeCount > 0
  }

  /** `h` names thread `t` exactly when `t` is at a point where it holds the lock. */
  ghost predicate Owned(pcs: seq<Pc>, h: Holder, holds: Pc -> bool) {
    && (h.Thread? ==> h.id < |pcs| && holds(pcs[h.id]))
    && forall t: nat {:trigger pcs[t]} :: t < |pcs| ==> (h == Thread(t) <==> holds(pcs[t]))
  }

  ghost predicate Owners(s: State) {
    && Owned(s.pcs, s.queue, HoldsQueue) && s.queue != Switch
    && Owned(s.pcs, s.noReaders, HoldsNoReaders)
    && Owned(s.pcs, s.noWriters, HoldsNoWriters)
    && Owned(s.pcs, s.readMutex, HoldsReadMutex) && s.readMutex != Switch
    && Owned(s.pcs, s.writeMutex, HoldsWriteMutex) && s.writeMutex != Switch
  }

  ghost predicate ReadCounter(s: State) {
    && s.readCount == Count(s.pcs, Read)
    && (forall t {:trigger s.pcs[t]} :: 0 <= t < |s.pcs| ==>
          && (s.pcs[t] == RNoWriters ==> s.readCount == 1)
          && (s.pcs[t] == SFreeWriters ==> s.readCount == 0))
    && (s.noWriters == Switch <==> ReadOn(s))
  }

  ghost predicate WriteCounter(s: State) {
    && s.writeCount == Count(s.pcs, Written)
    && (forall t {:trigger s.pcs[t]} :: 0 <= t < |s.pcs| ==>
          && (s.pcs[t] == WNoReaders ==> s.writeCount == 1)
          && (s.pcs[t] == VFreeReaders ==> s.writeCount == 0))
    && (s.noReaders == Switch <==> WriteOn(s))
  }

  ghost predicate Inv(s: State) {
    Owners(s) && ReadCounter(s) && WriteCounter(s)
  }

  lemma {:induction false} CountIdle(pcs: seq<Pc>, p: Pc -> bool)
    requires !p(Idle) && forall t :: 0 <= t < |pcs| ==> pcs[t] == Idle
    ensures Count(pcs, p) == 0
  {
    if pcs != [] {
      CountIdle(pcs[1..], p);
    }
  }

  lemma InitInv(s: State)
    requires Init(s)
    ensures Inv(s)
  {
    CountIdle(s.pcs, Read);
    CountIdle(s.pcs, Written);
  }

  /** What a step of `t` from `pc` to `pc'` may do to a lock it holds exactly where `holds`. */
  predicate Handover(t: nat, pc: Pc, pc': Pc, h: Holder, h': Holder, holds: Pc -> bool) {
    if holds(pc') then h' == Thread(t) && (holds(pc) || !h.Thread?)
    else if holds(pc) then !h'.Thread?
    else h' == h || (!h.Thread? && !h'.Thread?)
  }

  lemma OwnedStep(pcs: seq<Pc>, t: nat, pc: Pc, h: Holder, h': Holder, holds: Pc -> bool)
    requires t < |pcs| && Owned(pcs, h, holds) && Handover(t, pcs[t], pc, h, h', holds)
    ensures Owned(pcs[t := pc], h', holds)
  {
  }

  lemma StepQueue(s: State, t: nat, write: bool)
    requires t < |s.pcs| && Step(s, t, write).Moved?
    requires (s.queue == Thread(t) <==> HoldsQueue(s.pcs[t])) && s.queue != Switch
    ensures var s' := Step(s, t, write).s;
            Handover(t, s.pcs[t], s'.pcs[t], s.queue, s'.queue, HoldsQueue) && s'.queue != Switch
  {
  }

  lemma StepReadMutex(s: State, t: nat, write: bool)
    requires t < |s.pcs| && Step(s, t, write).Moved?
    requires (s.readMutex == Thread(t) <==> HoldsReadMutex(s.pcs[t])) && s.readMutex != Switch
    ensures var s' := Step(s, t, write).s;
            Handover(t, s.pcs[t], s'.pcs[t], s.readMutex, s'.readMutex, HoldsReadMutex) && s'.readMutex != Switch
  {
  }

  lemma StepNoReaders(s: State, t: nat, write: bool)
    requires t < |s.pcs| && Step(s, t, write).Moved?
    requires s.noReaders == Thread(t) <==> HoldsNoReaders(s.pcs[t])
    requires s.pcs[t] == VFreeReaders ==> s.noReaders == Switch
    ensures var s' := Step(s, t, write).s;
            Handover(t, s.pcs[t], s'.pcs[t], s.noReaders, s'.noReaders, HoldsNoReaders)
  {
  }

  lemma StepNoWriters(s: State, t: nat, write: bool)
    requires t < |s.pcs| && Step(s, t, write).Moved?
    requires s.noWriters == Thread(t) <==> HoldsNoWriters(s.pcs[t])
    requires s.pcs[t] == SFreeWriters ==> s.noWriters == Switch
    ensures var s' := Step(s, t, write).s;
            Handover(t, s.pcs[t], s'.pcs[t], s.noWriters, s'.noWriters, HoldsNoWriters)
  {
  }

  lemma StepWriteMutex(s: State, t: nat, write: bool)
    requires t < |s.pcs| && Step(s, t, write).Moved?
    requires (s.writeMutex == Thread(t) <==> HoldsWriteMutex(s.pcs[t])) && s.writeMutex != Switch
    ensures var s' := Step(s, t, write).s;
            Handover(t, s.pcs[t], s'.pcs[t], s.writeMutex, s'.writeMutex, HoldsWriteMutex) && s'.writeMutex != Switch
  {
  }

  lemma StepFrame(s: State, t: nat, write: bool)
    requires t < |s.pcs| && Step(s, t, write).Moved?
    ensures Step(s, t, write).s.pcs == s.pcs[t := Step(s, t, write).s.pcs[t]]
  {
  }

  lemma StepOwners(s: State, t: nat, write: bool)
    requires Owners(s) && t < |s.pcs| && Step(s, t, write).Moved?
    requires s.pcs[t] == SFreeWriters ==> s.noWriters == Switch
    requires s.pcs[t] == VFreeReaders ==> s.noReaders == Switch
    ensures Owners(Step(s, t, write).s)
  {
    var s' := Step(s, t, write).s;
    StepFrame(s, t, write);
    StepQueue(s, t, write);
    StepReadMutex(s, t, write);
    StepNoReaders(s, t, write);
    StepNoWriters(s, t, write);
    StepWriteMutex(s, t, write);
    OwnedStep(s.pcs, t, s'.pcs[t], s.queue, s'.queue, HoldsQueue);
    OwnedStep(s.pcs, t, s'.pcs[t], s.noReaders, s'.noReaders, HoldsNoReaders);
    OwnedStep(s.pcs, t, s'.pcs[t], s.noWriters, s'.noWriters, HoldsNoWriters);
    OwnedStep(s.pcs, t, s'.pcs[t], s.readMutex, s'.readMutex, HoldsReadMutex);
    OwnedStep(s.pcs, t, s'.pcs[t], s.writeMutex, s'.writeMutex, HoldsWriteMutex);
  }

  /** A counter changes only under its mutex, and exactly as the thread enters or leaves. */
  lemma StepCounts(s: State, t: nat, write: bool)
    requires t < |s.pcs| && Step(s, t, write).Moved?
    ensures var s' := Step(s, t, write).s;
            && s'.readCount == (if s.pcs[t] == RCount then s.readCount + 1
                                else if s.pcs[t] == SCount then s.readCount - 1 else s.readCount)
            && s'.writeCount == (if s.pcs[t] == WCount then s.writeCount + 1
                                 else if s.pcs[t] == VCount then s.writeCount - 1 else s.writeCount)
  {
  }

  lemma StepRead(s: State, t: nat, write: bool)
    requires t < |s.pcs| && Step(s, t, write).Moved?
    ensures var pc, pc' := s.pcs[t], Step(s, t, write).s.pcs[t];
            Read(pc') <==> (Read(pc) && pc != SCount) || pc == RCount
  {
  }

  lemma StepWritten(s: State, t: nat, write: bool)
    requires t < |s.pcs| && Step(s, t, write).Moved?
    ensures var pc, pc' := s.pcs[t], Step(s, t, write).s.pcs[t];
            Written(pc') <==> (Written(pc) && pc != VCount) || pc == WCount
  {
  }

  /** The stepping thread keeps the read switch and no_writers in agreement. */
  lemma StepReadOn(s: State, t: nat, write: bool)
    requires t < |s.pcs| && Step(s, t, write).Moved?
    requires s.readMutex == Thread(t) <==> HoldsReadMutex(s.pcs[t])
    requires s.noWriters == Thread(t) <==> HoldsNoWriters(s.pcs[t])
    requires s.readMutex != Switch && (s.readMutex.Thread? ==> s.readMutex.id < |s.pcs|)
    requires s.readCount >= if Read(s.pcs[t]) then 1 else 0
    requires s.pcs[t] == RNoWriters ==> s.readCount == 1
    requires s.pcs[t] == SFreeWriters ==> s.readCount == 0
    requires s.noWriters == Switch <==> ReadOn(s)
    ensures var s' := Step(s, t, write).s;
            && (s'.noWriters == Switch <==> ReadOn(s'))
            && (s'.pcs[t] == RNoWriters ==> s'.readCount == 1)
            && (s'.pcs[t] == SFreeWriters ==> s'.readCount == 0)
  {
  }

  lemma StepReadSwitch(s: State, t: nat, write: bool)
    requires Inv(s) && t < |s.pcs| && Step(s, t, write).Moved?
    ensures ReadCounter(Step(s, t, write).s)
  {
    hide Step, ReadOn, WriteOn, WriteCounter;
    var s' := Step(s, t, write).s;
    StepFrame(s, t, write);
    CountUpdate(s.pcs, t, s'.pcs[t], Read);
    if Read(s.pcs[t]) {
      CountAtLeast(s.pcs, t, t, Read);
    }
    StepReadOn(s, t, write);
    StepCounts(s, t, write);
    StepRead(s, t, write);
  }

  /** The stepping thread keeps the write switch and no_readers in agreement. */
  lemma StepWriteOn(s: State, t: nat, write: bool)
    requires t < |s.pcs| && Step(s, t, write).Moved?
    requires s.writeMutex == Thread(t) <==> HoldsWriteMutex(s.pcs[t])
    requires s.noReaders == Thread(t) <==> HoldsNoReaders(s.pcs[t])
    requires s.writeMutex != Switch && (s.writeMutex.Thread? ==> s.writeMutex.id < |s.pcs|)
    requires s.writeCount >= if Written(s.pcs[t]) then 1 else 0
    requires s.pcs[t] == WNoReaders ==> s.writeCount == 1
    requires s.pcs[t] == VFreeReaders ==> s.writeCount == 0
    requires s.noReaders == Switch <==> WriteOn(s)
    ensures var s' := Step(s, t, write).s;
            && (s'.noReaders == Switch <==> WriteOn(s'))
            && (s'.pcs[t] == WNoReaders ==> s'.writeCount == 1)
            && (s'.pcs[t] == VFreeReaders ==> s'.writeCount == 0)
  {
  }

  lemma StepWriteSwitch(s: State, t: nat, write: bool)
    requires Inv(s) && t < |s.pcs| && Step(s, t, write).Moved?
    ensures WriteCounter(Step(s, t, write).s)
  {
    hide Step, ReadOn, WriteOn, ReadCounter;
    var s' := Step(s, t, write).s;
    StepFrame(s, t, write);
    CountUpdate(s.pcs, t, s'.pcs[t], Written);
    if Written(s.pcs[t]) {
      CountAtLeast(s.pcs, t, t, Written);
    }
    StepWriteOn(s, t, write);
    StepCounts(s, t, write);
    StepWritten(s, t, write);
  }

  /** A thread releases only locks that it or its switch holds. */
  lemma ReleasesHeld(s: State, t: nat, write: bool)
    requires t < |s.pcs|
    requires HoldsQueue(s.pcs[t]) ==> s.queue != Free
    requires HoldsNoReaders(s.pcs[t]) || s.pcs[t] == VFreeReaders ==> s.noReaders != Free
    requires HoldsNoWriters(s.pcs[t]) || s.pcs[t] == SFreeWriters ==> s.noWriters != Free
    requires HoldsReadMutex(s.pcs[t]) ==> s.readMutex != Free
    requires HoldsWriteMutex(s.pcs[t]) ==> s.writeMutex != Free
    ensures !Step(s, t, write).Failed?
  {
  }

  /** No step releases a free lock. */
  lemma StepSafe(s: State, t: nat, write: bool)
    requires Inv(s) && t < |s.pcs|
    ensures !Step(s, t, write).Failed?
  {
    hide Step, Count, HoldsQueue, HoldsNoReaders, HoldsNoWriters, HoldsWriteMutex, HoldsReadMutex;
    SwitchedOn(s, t);
    ReleasesHeld(s, t, write);
  }

  lemma SwitchedOn(s: State, t: nat)
    requires Inv(s) && t < |s.pcs|
    ensures s.pcs[t] == SFreeWriters ==> s.noWriters == Switch
    ensures s.pcs[t] == VFreeReaders ==> s.noReaders == Switch
  {
    hide Step, Count;
    if s.pcs[t] == SFreeWriters {
      assert s.readMutex == Thread(t);
    } else if s.pcs[t] == VFreeReaders {
      assert s.writeMutex == Thread(t);
    }
  }

  lemma StepInv(s: State, t: nat, write: bool)
    requires Inv(s) && t < |s.pcs| && Step(s, t, write).Moved?
    ensures Inv(Step(s, t, write).s)
  {
    hide Step, Count, ReadOn, WriteOn, Owned;
    SwitchedOn(s, t);
    StepOwners(s, t, write);
    StepReadSwitch(s, t, write);
    StepWriteSwitch(s, t, write);
  }

  // ----- what holds in every reachable state -----

  lemma SuccInv(s: State, s': State)
    requires Inv(s) && Succ(s, s')
    ensures Inv(s')
  {
    hide Step, Inv;
    var t: nat, write :| t < |s.pcs| && Step(s, t, write) == Moved(s');
    StepInv(s, t, write);
  }

  lemma {:induction false} RunInv(run: seq<State>, i: nat)
    requires Run(run) && Init(run[0]) && i < |run|
    ensures Inv(run[i])
  {
    hide Inv, Succ;
    if i == 0 {
      InitInv(run[0]);
    } else {
      RunInv(run, i - 1);
      SuccInv(run[i - 1], run[i]);
    }
  }

  /** No schedule ever releases a lock that is free, which would raise. */
  lemma NeverReleasesFree(run: seq<State>, i: nat, t: nat, write: bool)
    requires Run(run) && Init(run[0]) && i < |run| && t < |run[i].pcs|
    ensures !Step(run[i], t, write).Failed?
  {
    hide Inv, Succ, Step;
    RunInv(run, i);
    StepSafe(run[i], t, write);
  }

  /** With a thread other than the read switch's mutex holder counted, the switch is on. */
  lemma ReaderKeepsSwitch(s: State, u: nat)
    requires Inv(s) && u < |s.pcs| && s.pcs[u] == Reading
    ensures s.noWriters == Switch
  {
    CountAtLeast(s.pcs, u, u, Read);
    if s.readMutex.Thread? {
      var m := s.readMutex.id;
      if Read(s.pcs[m]) {
        CountAtLeast(s.pcs, u, m, Read);
      }
    }
  }

  /** A writer inside excludes everyone else. */
  lemma MutualExclusion(run: seq<State>, i: nat, t: nat, u: nat)
    requires Run(run) && Init(run[0]) && i < |run|
    requires t < |run[i].pcs| && u < |run[i].pcs| && t != u
    requires run[i].pcs[t] == Writing
    ensures run[i].pcs[u] != Writing && run[i].pcs[u] != Reading
  {
    RunInv(run, i);
    if run[i].pcs[u] == Reading {
      ReaderKeepsSwitch(run[i], u);
    }
  }

  /** readers_queue lets at most one reader compete with a writer for no_readers. */
  lemma OneReaderContends(run: seq<State>, i: nat, t: nat, u: nat)
    requires Run(run) && Init(run[0]) && i < |run|
    requires t < |run[i].pcs| && u < |run[i].pcs|
    requires run[i].pcs[t] == RNoReaders && run[i].pcs[u] == RNoReaders
    ensures t == u
  {
    RunInv(run, i);
  }

  // ----- no deadlock -----

  predicate Inside(pc: Pc) {
    pc != Idle && pc != Reading && pc != Writing
  }

  ghost predicate SomeoneMoves(s: State) {
    exists u: nat :: u < |s.pcs| && Inside(s.pcs[u]) && CanStep(s, u)
  }

  ghost predicate SomeoneAt(s: State, pc: Pc) {
    exists u: nat :: u < |s.pcs| && s.pcs[u] == pc
  }

  /** Someone moves, or a writer is inside, or readers are inside while a writer waits for them. */
  ghost predicate Live(s: State) {
    || SomeoneMoves(s)
    || SomeoneAt(s, Writing)
    || (SomeoneAt(s, Reading) && SomeoneAt(s, WNoWriters))
  }

  /** The thread waits for a lock that is taken. */
  predicate Waits(s: State, pc: Pc) {
    || (pc == RQueue && s.queue != Free)
    || ((pc == RNoReaders || pc == WNoReaders) && s.noReaders != Free)
    || ((pc == RMutex || pc == SMutex) && s.readMutex != Free)
    || ((pc == RNoWriters || pc == WNoWriters) && s.noWriters != Free)
    || ((pc == WMutex || pc == VMutex) && s.writeMutex != Free)
  }

  lemma MovesUnlessWaits(s: State, t: nat)
    requires Inv(s) && t < |s.pcs|
    ensures Waits(s, s.pcs[t]) || CanStep(s, t)
  {
    hide Inv;
    StepSafe(s, t, false);
  }

  lemma MoverIsLive(s: State, t: nat)
    requires t < |s.pcs| && Inside(s.pcs[t]) && CanStep(s, t)
    ensures Live(s)
  {
    hide CanStep;
  }

  lemma FirstReaderFree(s: State, t: nat)
    requires Inv(s) && t < |s.pcs| && s.pcs[t] == RNoWriters
    ensures s.noWriters == Free
  {
    if s.noWriters.Thread? {
      CountAtLeast(s.pcs, s.noWriters.id, s.noWriters.id, Written);
      if s.writeMutex.Thread? && Written(s.pcs[s.writeMutex.id]) {
        CountAtLeast(s.pcs, s.noWriters.id, s.writeMutex.id, Written);
      }
    }
  }

  /** A first reader holds no_readers, and then no writer is inside: it never waits for no_writers. */
  lemma FirstReaderNeverWaits(run: seq<State>, i: nat, t: nat)
    requires Run(run) && Init(run[0]) && i < |run|
    requires t < |run[i].pcs| && run[i].pcs[t] == RNoWriters
    ensures run[i].noWriters == Free && CanStep(run[i], t)
  {
    hide Inv, CanStep, Succ;
    RunInv(run, i);
    FirstReaderFree(run[i], t);
    MovesUnlessWaits(run[i], t);
  }

  lemma LiveReadMutex(s: State)
    requires Inv(s) && s.readMutex.Thread?
    ensures Live(s)
  {
    hide CanStep, Count;
    var m := s.readMutex.id;
    if s.pcs[m] == RNoWriters {
      FirstReaderFree(s, m);
    }
    MovesUnlessWaits(s, m);
    MoverIsLive(s, m);
  }

  lemma LiveWriter(s: State)
    requires Inv(s) && s.noWriters.Thread?
    ensures Live(s)
  {
    hide CanStep, Count;
    var w := s.noWriters.id;
    if s.pcs[w] != Writing {
      MovesUnlessWaits(s, w);
      MoverIsLive(s, w);
    }
  }

  lemma LiveNoReaders(s: State)
    requires Inv(s) && s.noReaders.Thread?
    ensures Live(s)
  {
    hide CanStep, Count, Live;
    var r := s.noReaders.id;
    if s.readMutex.Thread? {
      LiveReadMutex(s);
    } else {
      MovesUnlessWaits(s, r);
      MoverIsLive(s, r);
    }
  }

  lemma LiveWriteMutex(s: State)
    requires Inv(s) && s.writeMutex.Thread?
    ensures Live(s)
  {
    hide CanStep, Count, Live;
    var m := s.writeMutex.id;
    if s.noReaders.Thread? {
      LiveNoReaders(s);
    } else {
      MovesUnlessWaits(s, m);
      MoverIsLive(s, m);
    }
  }

  lemma LiveNoWriters(s: State, w: nat)
    requires Inv(s) && w < |s.pcs| && s.pcs[w] == WNoWriters
    ensures Live(s)
  {
    hide CanStep;
    if s.readMutex.Thread? {
      LiveReadMutex(s);
    } else if s.noWriters == Free {
      MovesUnlessWaits(s, w);
      MoverIsLive(s, w);
    } else if s.noWriters.Thread? {
      LiveWriter(s);
    } else {
      var r := CountWitness(s.pcs, Read);
      MovesUnlessWaits(s, r);
      if s.pcs[r] != Reading {
        MoverIsLive(s, r);
      }
    }
  }

  lemma LiveWriteSwitch(s: State)
    requires Inv(s) && s.noReaders == Switch
    ensures Live(s)
  {
    hide CanStep;
    if s.writeMutex.Thread? {
      LiveWriteMutex(s);
    } else {
      var w := CountWitness(s.pcs, Written);
      if s.pcs[w] == WNoWriters {
        LiveNoWriters(s, w);
      } else if s.pcs[w] != Writing {
        MovesUnlessWaits(s, w);
        MoverIsLive(s, w);
      }
    }
  }

  lemma InsideIsLive(s: State, t: nat)
    requires Inv(s) && t < |s.pcs| && Inside(s.pcs[t])
    ensures Live(s)
  {
    hide CanStep, Count, Live;
    MovesUnlessWaits(s, t);
    if s.readMutex.Thread? {
      LiveReadMutex(s);
    } else if s.writeMutex.Thread? {
      LiveWriteMutex(s);
    } else if s.noReaders.Thread? {
      LiveNoReaders(s);
    } else if s.noReaders == Switch {
      LiveWriteSwitch(s);
    } else if s.pcs[t] == WNoWriters {
      LiveNoWriters(s, t);
    } else if s.pcs[t] == RQueue && s.queue != Free {
      MovesUnlessWaits(s, s.queue.id);
      MoverIsLive(s, s.queue.id);
    } else {
      MoverIsLive(s, t);
    }
  }

  /** Whenever a thread is inside an acquire or a release, one of those threads can step, or the
      holders it waits for are inside: a writer, or readers that keep a writer waiting. So readers
      alone never keep a reader waiting, which is the first promise of the class comment. */
  lemma NoDeadlock(run: seq<State>, i: nat, t: nat)
    requires Run(run) && Init(run[0]) && i < |run|
    requires t < |run[i].pcs| && Inside(run[i].pcs[t])
    ensures Live(run[i])
  {
    hide Inv, Live, Succ;
    RunInv(run, i);
    InsideIsLive(run[i], t);
  }

  /** Steps left until the thread is idle again. */
  function Rank(pc: Pc): nat {
    match pc
    case Idle => 0
    case RQueue => 15
    case RNoReaders => 14
    case RMutex => 13
    case RCount => 12
    case RTest => 11
    case RNoWriters => 10
    case RUnmutex => 9
    case RFreeReaders => 8
    case RFreeQueue => 7
    case Reading => 6
    case SMutex => 5
    case SCount => 4
    case STest => 3
    case SFreeWriters => 2
    case SUnmutex => 1
    case WMutex => 13
    case WCount => 12
    case WTest => 11
    case WNoReaders => 10
    case WUnmutex => 9
    case WNoWriters => 8
    case Writing => 7
    case VFreeWriters => 6
    case VMutex => 5
    case VCount => 4
    case VTest => 3
    case VFreeReaders => 2
    case VUnmutex => 1
  }

  function TotalRank(pcs: seq<Pc>): nat {
    if pcs == [] then 0 else Rank(pcs[0]) + TotalRank(pcs[1..])
  }

  lemma {:induction false} TotalRankUpdate(pcs: seq<Pc>, t: nat, pc: Pc)
    requires t < |pcs|
    ensures TotalRank(pcs[t := pc]) == TotalRank(pcs) - Rank(pcs[t]) + Rank(pc)
  {
    if t == 0 {
      assert pcs[t := pc][1..] == pcs[1..];
    } else {
      assert pcs[t := pc][1..] == pcs[1..][t - 1 := pc];
      TotalRankUpdate(pcs[1..], t - 1, pc);
    }
  }

  /** A run in which no idle thread makes a new call. */
  ghost predicate Draining(run: seq<State>) {
    && 0 < |run|
    && forall i :: 0 <= i < |run| - 1 ==> DrainStep(run[i], run[i + 1])
  }

  ghost predicate DrainStep(s: State, s': State) {
    exists t: nat :: t < |s.pcs| && s.pcs[t] != Idle && Step(s, t, false) == Moved(s')
  }

  lemma DrainLowersRank(s: State, s': State)
    requires DrainStep(s, s')
    ensures TotalRank(s'.pcs) < TotalRank(s.pcs)
  {
    hide Step, Rank;
    var t: nat :| t < |s.pcs| && s.pcs[t] != Idle && Step(s, t, false) == Moved(s');
    StepFrame(s, t, false);
    StepLowersRank(s, t, false);
    TotalRankUpdate(s.pcs, t, s'.pcs[t]);
  }

  lemma StepLowersRank(s: State, t: nat, write: bool)
    requires t < |s.pcs| && s.pcs[t] != Idle && Step(s, t, write).Moved?
    ensures Rank(Step(s, t, write).s.pcs[t]) < Rank(s.pcs[t])
  {
  }

  /** Without new calls every schedule ends: no run is longer than the work left at its start. */
  lemma {:induction false} DrainEnds(run: seq<State>)
    requires Draining(run)
    ensures |run| - 1 + TotalRank(run[|run| - 1].pcs) <= TotalRank(run[0].pcs)
  {
    var n := |run| - 1;
    if n > 0 {
      DrainEnds(run[..n]);
      assert DrainStep(run[n - 1], run[n]);
      DrainLowersRank(run[n - 1], run[n]);
    }
  }

  lemma AllIdleFree(s: State)
    requires Inv(s) && forall t: nat :: t < |s.pcs| ==> s.pcs[t] == Idle
    ensures Init(s)
  {
    CountIdle(s.pcs, Read);
    CountIdle(s.pcs, Written);
  }

  lemma NotStuck(s: State, t: nat)
    requires Inv(s) && t < |s.pcs| && s.pcs[t] != Idle
    ensures exists u: nat :: u < |s.pcs| && s.pcs[u] != Idle && CanStep(s, u)
  {
    hide Inv;
    if Inside(s.pcs[t]) {
      InsideIsLive(s, t);
      var u: nat :| u < |s.pcs| && ((Inside(s.pcs[u]) && CanStep(s, u)) || s.pcs[u] == Writing || s.pcs[u] == Reading);
      assert CanStep(s, u);
    } else {
      assert CanStep(s, t);
    }
  }

  /** And it ends well: a state no schedule can leave has every thread idle and the lock as new. */
  lemma DrainEndsFree(run: seq<State>, i: nat)
    requires Run(run) && Init(run[0]) && i < |run|
    ensures Init(run[i]) || exists u: nat :: u < |run[i].pcs| && run[i].pcs[u] != Idle && CanStep(run[i], u)
  {
    hide Inv, CanStep, Succ;
    RunInv(run, i);
    if t: nat :| t < |run[i].pcs| && run[i].pcs[t] != Idle {
      NotStuck(run[i], t);
    } else {
      AllIdleFree(run[i]);
    }
  }

  // ----- writers first -----

  /** While the write switch owns no_readers, no step counts a reader in, and the switch stays on
      until its counter is 0. */
  lemma StepWriterFirst(s: State, t: nat, write: bool)
    requires Inv(s) && t < |s.pcs| && Step(s, t, write).Moved? && s.noReaders == Switch
    ensures var s' := Step(s, t, write).s;
            && s'.readCount <= s.readCount
            && (s'.writeCount > 0 ==> s'.noReaders == Switch)
            && |s'.pcs| == |s.pcs|
            && (forall u: nat :: u < |s.pcs| && Admitted(s'.pcs[u]) ==> Admitted(s.pcs[u]))
  {
    var s' := Step(s, t, write).s;
    hide Step, Admitted;
    StepCounts(s, t, write);
    StepFrame(s, t, write);
    StepInv(s, t, write);
    StepKeepsSwitch(s, t, write);
    StepAdmits(s, t, write);
  }

  lemma StepKeepsSwitch(s: State, t: nat, write: bool)
    requires t < |s.pcs| && Step(s, t, write).Moved? && s.noReaders == Switch
    requires s.pcs[t] != RFreeReaders
    ensures s.pcs[t] == VFreeReaders || Step(s, t, write).s.noReaders == Switch
  {
  }

  /** A reader that has been let in, past no_readers, and has not left the counter yet. */
  predicate Admitted(pc: Pc) {
    Read(pc) || pc == RCount || pc == RMutex
  }

  lemma StepAdmits(s: State, t: nat, write: bool)
    requires t < |s.pcs| && Step(s, t, write).Moved? && s.noReaders == Switch
    ensures Admitted(Step(s, t, write).s.pcs[t]) ==> Admitted(s.pcs[t])
  {
  }

  /** A waiting writer waits only for readers already let in and for other writers: as long as the
      write counter stays up, the readers inside at any later point were inside at the start. */
  lemma {:induction false} WriterPreference(run: seq<State>, u: nat)
    requires Run(run) && Inv(run[0]) && run[0].noReaders == Switch
    requires forall i :: 0 <= i < |run| ==> run[i].writeCount > 0
    ensures var last := run[|run| - 1];
            && Inv(last) && last.noReaders == Switch
            && |last.pcs| == |run[0].pcs|
            && last.readCount <= run[0].readCount
            && (u < |last.pcs| && Admitted(last.pcs[u]) ==> Admitted(run[0].pcs[u]))
  {
    hide Step, Inv, Admitted;
    var n := |run| - 1;
    if n > 0 {
      var s := run[n - 1];
      WriterPreference(run[..n], u);
      assert Succ(s, run[n]);
      var t: nat, write :| t < |s.pcs| && Step(s, t, write) == Moved(run[n]);
      StepInv(s, t, write);
      StepWriterFirst(s, t, write);
    }
  }

  // ----- readers together -----

  /** `n` threads of which the first `k` are reading. */
  function Readers(n: nat, k: nat): State
    requires k <= n
  {
    State(seq(n, i => if i < k then Reading else Idle),
          Free, Free, if k > 0 then Switch else Free, Free, Free, k, 0)
  }

  /** Thread `k` at `pc` on its way in, with `k` readers inside. */
  function Entering(n: nat, k: nat, pc: Pc): State
    requires k < n
  {
    State(Readers(n, k).pcs[k := pc],
          if HoldsQueue(pc) then Thread(k) else Free,
          if HoldsNoReaders(pc) then Thread(k) else Free,
          if k > 0 || pc in [RUnmutex, RFreeReaders, RFreeQueue, Reading] then Switch else Free,
          if HoldsReadMutex(pc) then Thread(k) else Free,
          Free, if Read(pc) then k + 1 else k, 0)
  }

  function WayIn(k: nat): seq<Pc> {
    [Idle, RQueue, RNoReaders, RMutex, RCount, RTest] + (if k == 0 then [RNoWriters] else [])
    + [RUnmutex, RFreeReaders, RFreeQueue, Reading]
  }

  lemma EnterStep(n: nat, k: nat, i: nat)
    requires k < n && i < |WayIn(k)| - 1
    ensures Step(Entering(n, k, WayIn(k)[i]), k, false) == Moved(Entering(n, k, WayIn(k)[i + 1]))
  {
    var s, pc := Entering(n, k, WayIn(k)[i]), WayIn(k)[i + 1];
    assert s.pcs[k := pc] == Entering(n, k, pc).pcs;
    hide Readers;
  }

  lemma Enter(n: nat, k: nat) returns (run: seq<State>)
    requires k < n
    ensures Run(run) && run[0] == Readers(n, k) && run[|run| - 1] == Readers(n, k + 1)
  {
    hide Step;
    var way := WayIn(k);
    run := seq(|way|, i requires 0 <= i < |way| => Entering(n, k, way[i]));
    forall i | 0 <= i < |run| - 1
      ensures Succ(run[i], run[i + 1])
    {
      EnterStep(n, k, i);
    }
    assert run[0].pcs == Readers(n, k).pcs;
    assert run[|run| - 1].pcs == Readers(n, k + 1).pcs;
  }

  /** Any number of readers can be inside at once. */
  lemma {:induction false} ReadersTogether(n: nat, k: nat) returns (run: seq<State>)
    requires k <= n
    ensures Run(run) && Init(run[0]) && run[|run| - 1] == Readers(n, k)
    ensures |Readers(n, k).pcs| == n && forall u :: 0 <= u < k ==> Readers(n, k).pcs[u] == Reading
  {
    if k == 0 {
      run := [Readers(n, 0)];
    } else {
      var before := ReadersTogether(n, k - 1);
      var enter := Enter(n, k - 1);
      run := before + enter[1..];
      forall i | 0 <= i < |run| - 1
        ensures Succ(run[i], run[i + 1])
      {
        if i < |before| - 1 {
          assert Succ(before[i], before[i + 1]);
        } else {
          var j := i - (|before| - 1);
          assert run[i] == enter[j] && run[i + 1] == enter[j + 1];
        }
      }
    }
  }

  // ----- what a call does -----

  /** A step of a thread; an idle thread calls writer_acquire when `write`, else reader_acquire. */
  datatype Move = Move(t: nat, write: bool)

  /** The run with the steps that lead from state to state. */
  ghost predicate Moves(run: seq<State>, moves: seq<Move>) {
    && |run| == |moves| + 1
    && forall i :: 0 <= i < |moves| ==>
         moves[i].t < |run[i].pcs| && Step(run[i], moves[i].t, moves[i].write) == Moved(run[i + 1])
  }

  lemma MovesRun(run: seq<State>, moves: seq<Move>)
    requires Moves(run, moves)
    ensures Run(run)
  {
    hide Step;
    forall i | 0 <= i < |run| - 1
      ensures Succ(run[i], run[i + 1])
    {
      assert Step(run[i], moves[i].t, moves[i].write) == Moved(run[i + 1]);
    }
  }

  /** Every run has such steps. */
  lemma {:induction false} RunMoves(run: seq<State>) returns (moves: seq<Move>)
    requires Run(run)
    ensures Moves(run, moves)
  {
    hide Step;
    var n := |run| - 1;
    if n == 0 {
      moves := [];
    } else {
      moves := RunMoves(run[..n]);
      assert Succ(run[n - 1], run[n]);
      var t: nat, write :| t < |run[n - 1].pcs| && Step(run[n - 1], t, write) == Moved(run[n]);
      moves := moves + [Move(t, write)];
    }
  }

  function At(s: State, t: nat): Pc {
    if t < |s.pcs| then s.pcs[t] else Idle
  }

  datatype Call = NoCall | ReaderCall | WriterCall

  /** What the thread called when it was idle last, unless it is idle again. */
  function CallOf(run: seq<State>, moves: seq<Move>, i: nat, t: nat): Call
    requires i < |run| <= |moves| + 1
  {
    if i == 0 || At(run[i], t) == Idle then NoCall
    else if moves[i - 1].t == t && At(run[i - 1], t) == Idle then
      if moves[i - 1].write then WriterCall else ReaderCall
    else CallOf(run, moves, i - 1, t)
  }

  predicate ReaderPhase(pc: Pc) {
    pc.RQueue? || pc.RNoReaders? || pc.RMutex? || pc.RCount? || pc.RTest? || pc.RNoWriters? || pc.RUnmutex?
    || pc.RFreeReaders? || pc.RFreeQueue? || pc.Reading? || LeavingReader(pc)
  }

  predicate LeavingReader(pc: Pc) {
    pc.SMutex? || pc.SCount? || pc.STest? || pc.SFreeWriters? || pc.SUnmutex?
  }

  predicate WriterPhase(pc: Pc) {
    pc.WMutex? || pc.WCount? || pc.WTest? || pc.WNoReaders? || pc.WUnmutex? || pc.WNoWriters? || pc.Writing?
    || LeavingWriter(pc)
  }

  predicate LeavingWriter(pc: Pc) {
    pc.VFreeWriters? || pc.VMutex? || pc.VCount? || pc.VTest? || pc.VFreeReaders? || pc.VUnmutex?
  }

  /** Where a step leads: it stays with the call, and starts to leave only from inside. */
  predicate Onward(pc: Pc, pc': Pc, write: bool) {
    && (pc == Idle ==> if write then WriterPhase(pc') else ReaderPhase(pc'))
    && (ReaderPhase(pc) ==> pc' == Idle || ReaderPhase(pc'))
    && (WriterPhase(pc) ==> pc' == Idle || WriterPhase(pc'))
    && (LeavingReader(pc') ==> pc == Reading || LeavingReader(pc))
    && (LeavingWriter(pc') ==> pc == Writing || LeavingWriter(pc))
    && (pc' == Idle ==> LeavingReader(pc) || LeavingWriter(pc))
  }

  lemma ReaderEnters(s: State, me: Holder, pc: Pc, write: bool)
    requires ReaderPhase(pc) && !LeavingReader(pc)
    ensures var act := ActOf(s, me, pc, write);
            act.Go? ==> ReaderPhase(act.pc) && (LeavingReader(act.pc) ==> pc == Reading)
  {
  }

  lemma ReaderLeaves(s: State, me: Holder, pc: Pc, write: bool)
    requires LeavingReader(pc)
    ensures var act := ActOf(s, me, pc, write); act.Go? ==> act.pc == Idle || LeavingReader(act.pc)
  {
  }

  lemma WriterEnters(s: State, me: Holder, pc: Pc, write: bool)
    requires WriterPhase(pc) && !LeavingWriter(pc)
    ensures var act := ActOf(s, me, pc, write);
            act.Go? ==> WriterPhase(act.pc) && (LeavingWriter(act.pc) ==> pc == Writing)
  {
  }

  lemma WriterLeaves(s: State, me: Holder, pc: Pc, write: bool)
    requires LeavingWriter(pc)
    ensures var act := ActOf(s, me, pc, write); act.Go? ==> act.pc == Idle || LeavingWriter(act.pc)
  {
  }

  lemma IdleEnters(s: State, me: Holder, write: bool)
    ensures var act := ActOf(s, me, Idle, write);
            act.Go? && !LeavingReader(act.pc) && !LeavingWriter(act.pc)
            && if write then WriterPhase(act.pc) else ReaderPhase(act.pc)
  {
  }

  /** Every phase is idle, a reader's or a writer's. */
  lemma PhasesApart(pc: Pc)
    ensures pc == Idle || ReaderPhase(pc) || WriterPhase(pc)
    ensures pc == Idle ==> !ReaderPhase(pc) && !WriterPhase(pc)
    ensures !(ReaderPhase(pc) && WriterPhase(pc))
    ensures (LeavingReader(pc) ==> ReaderPhase(pc)) && (LeavingWriter(pc) ==> WriterPhase(pc))
  {
  }

  lemma ActOnward(s: State, me: Holder, pc: Pc, write: bool)
    ensures var act := ActOf(s, me, pc, write); act.Go? ==> Onward(pc, act.pc, write)
  {
    hide ActOf, ReaderPhase, WriterPhase, LeavingReader, LeavingWriter;
    PhasesApart(pc);
    var act := ActOf(s, me, pc, write);
    if act.Go? {
      PhasesApart(act.pc);
    }
    if pc == Idle {
      IdleEnters(s, me, write);
    } else if LeavingReader(pc) {
      ReaderLeaves(s, me, pc, write);
    } else if ReaderPhase(pc) {
      ReaderEnters(s, me, pc, write);
    } else if LeavingWriter(pc) {
      WriterLeaves(s, me, pc, write);
    } else {
      WriterEnters(s, me, pc, write);
    }
  }

  lemma StepPhase(s: State, t: nat, write: bool, u: nat)
    requires t < |s.pcs| && Step(s, t, write).Moved?
    ensures var pc, pc' := At(s, u), At(Step(s, t, write).s, u);
            if u == t then Onward(pc, pc', write) else pc' == pc
  {
    hide ActOf, Onward;
    ActOnward(s, Thread(t), s.pcs[t], write);
  }

  /** A call of reader_acquire runs through the steps of a reader only, a call of writer_acquire through those
      of a writer, until the thread is idle again. */
  lemma {:induction false} CallKeepsProtocol(run: seq<State>, moves: seq<Move>, i: nat, t: nat)
    requires Moves(run, moves) && Init(run[0]) && i < |run|
    ensures match CallOf(run, moves, i, t)
            case NoCall => At(run[i], t) == Idle
            case ReaderCall => ReaderPhase(At(run[i], t))
            case WriterCall => WriterPhase(At(run[i], t))
  {
    hide Step, ReaderPhase, WriterPhase;
    if i > 0 {
      CallKeepsProtocol(run, moves, i - 1, t);
      StepPhase(run[i - 1], moves[i - 1].t, moves[i - 1].write, t);
    }
  }

  /** The thread was at `pc` and has not been idle since. */
  ghost predicate WasAt(run: seq<State>, i: nat, t: nat, pc: Pc)
    requires i < |run|
  {
    exists j: nat :: j <= i && At(run[j], t) == pc && forall k: nat :: j <= k <= i ==> At(run[k], t) != Idle
  }

  lemma WasAtStays(run: seq<State>, i: nat, t: nat, pc: Pc)
    requires 0 < i < |run| && At(run[i], t) != Idle && WasAt(run, i - 1, t, pc)
    ensures WasAt(run, i, t, pc)
  {
    hide At;
    var j: nat :| j <= i - 1 && At(run[j], t) == pc && forall k: nat :: j <= k <= i - 1 ==> At(run[k], t) != Idle;
    assert forall k: nat :: j <= k <= i ==> At(run[k], t) != Idle;
  }

  lemma {:induction false} LeavesFromInside(run: seq<State>, moves: seq<Move>, i: nat, t: nat)
    requires Moves(run, moves) && Init(run[0]) && i < |run|
    ensures At(run[i], t) == Reading || LeavingReader(At(run[i], t)) ==> WasAt(run, i, t, Reading)
    ensures At(run[i], t) == Writing || LeavingWriter(At(run[i], t)) ==> WasAt(run, i, t, Writing)
  {
    hide Step, WasAt;
    NowAt(run, i, t);
    if i > 0 {
      LeavesFromInside(run, moves, i - 1, t);
      StepPhase(run[i - 1], moves[i - 1].t, moves[i - 1].write, t);
      if At(run[i], t) != Idle {
        forall pc | WasAt(run, i - 1, t, pc)
          ensures WasAt(run, i, t, pc)
        {
          WasAtStays(run, i, t, pc);
        }
      }
    }
  }

  lemma NowAt(run: seq<State>, i: nat, t: nat)
    requires i < |run|
    ensures At(run[i], t) != Idle ==> WasAt(run, i, t, At(run[i], t))
  {
    hide At;
  }

  /** A call that comes to its end was inside in between: a reader was reading, a writer was writing. */
  lemma CallGetsInside(run: seq<State>, moves: seq<Move>, i: nat, t: nat)
    requires Moves(run, moves) && Init(run[0]) && i < |moves| && moves[i].t == t && At(run[i + 1], t) == Idle
    ensures CallOf(run, moves, i, t) != NoCall
    ensures WasAt(run, i, t, if CallOf(run, moves, i, t) == WriterCall then Writing else Reading)
  {
    hide Step, WasAt;
    StepPhase(run[i], t, moves[i].write, t);
    CallKeepsProtocol(run, moves, i, t);
    LeavesFromInside(run, moves, i, t);
  }

  predicate InsideNow(pc: Pc) {
    pc == Reading || pc == Writing
  }

  /** Exclusion by call: two threads that are inside together both called reader_acquire, and are reading. */
  lemma OnlyReadersTogether(run: seq<State>, moves: seq<Move>, i: nat, t: nat, u: nat)
    requires Moves(run, moves) && Init(run[0]) && i < |run| && t != u
    requires InsideNow(At(run[i], t)) && InsideNow(At(run[i], u))
    ensures CallOf(run, moves, i, t) == CallOf(run, moves, i, u) == ReaderCall
    ensures At(run[i], t) == At(run[i], u) == Reading
  {
    hide Step;
    MovesRun(run, moves);
    CallKeepsProtocol(run, moves, i, t);
    CallKeepsProtocol(run, moves, i, u);
    if At(run[i], t) == Writing {
      MutualExclusion(run, i, t, u);
    }
    if At(run[i], u) == Writing {
      MutualExclusion(run, i, u, t);
    }
  }

  /** Thread `t` of `n` at `pc` on its way to writing, all others idle. */
  function Alone(n: nat, t: nat, pc: Pc): State
    requires t < n
  {
    State(seq(n, _ => Idle)[t := pc], Free,
          if pc in [WUnmutex, WNoWriters, Writing] then Switch else Free,
          if pc == Writing then Thread(t) else Free,
          Free, if HoldsWriteMutex(pc) then Thread(t) else Free, 0, if Written(pc) then 1 else 0)
  }

  function WriterWay(): seq<Pc> {
    [Idle, WMutex, WCount, WTest, WNoReaders, WUnmutex, WNoWriters, Writing]
  }

  lemma AloneStep(n: nat, t: nat, i: nat)
    requires t < n && i < |WriterWay()| - 1
    ensures Step(Alone(n, t, WriterWay()[i]), t, true) == Moved(Alone(n, t, WriterWay()[i + 1]))
  {
    var s, pc := Alone(n, t, WriterWay()[i]), WriterWay()[i + 1];
    assert s.pcs[t := pc] == Alone(n, t, pc).pcs;
  }

  /** On a fresh lock of any number of threads, any of them gets to write by calling writer_acquire. */
  lemma WriterGetsInside(n: nat, t: nat) returns (run: seq<State>, moves: seq<Move>)
    requires t < n
    ensures Moves(run, moves) && Init(run[0]) && |run[0].pcs| == n
    ensures At(run[|run| - 1], t) == Writing && CallOf(run, moves, |run| - 1, t) == WriterCall
  {
    hide Step;
    var way := WriterWay();
    run := seq(|way|, i requires 0 <= i < |way| => Alone(n, t, way[i]));
    moves := seq(|way| - 1, _ => Move(t, true));
    forall i | 0 <= i < |moves|
      ensures Step(run[i], t, true) == Moved(run[i + 1])
    {
      AloneStep(n, t, i);
    }
    CallKeepsProtocol(run, moves, |run| - 1, t);
  }
}
