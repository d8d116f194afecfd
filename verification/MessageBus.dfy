/** The message bus of resotocore/core/message_bus.py. Queues are unbounded, so a `put` never suspends and
    entering, leaving and emitting are single steps. The class is proved equal to these steps, and over every
    run of them each queue holds exactly what was emitted for it while it was subscribed. */
module MessageBus {
  import opened Options
  import opened Messages
  import JsonParser

  /** An open subscription: what the body of `subscribe` remembers. */
  datatype Sub = Sub(id: string, channels: Option<seq<string>>, chList: seq<string>)

  /** Queues are numbered; `subs` are the subscriptions that were entered and not left. */
  datatype State = State(
    listeners: map<string, seq<nat>>, active: map<string, seq<string>>, queues: map<nat, seq<Message>>,
    subs: map<nat, Sub>)

  datatype Op = Enter(q: nat, id: string, channels: Option<seq<string>>) | Leave(left: nat) | Emit(m: Message)

  const CONNECTED := "message-listener-connected"
  const DISCONNECTED := "message-listener-disconnected"

  // ----- the steps -----

  function Strs(ss: seq<string>): seq<JsonParser.Json> {
    seq(|ss|, i requires 0 <= i < |ss| => JsonParser.Str(ss[i]))
  }

  function SubscriberEvent(messageType: string, id: string, channels: Option<seq<string>>): Message {
    Event(messageType, map["subscriber_id" := JsonParser.Str(id),
                           "channels" := if channels.Some? then JsonParser.Arr(Strs(channels.value))
                               else JsonParser.Null])
  }

  function ListOf(listeners: map<string, seq<nat>>, name: string): seq<nat> {
    if name in listeners then listeners[name] else []
  }

  function AddListener(listeners: map<string, seq<nat>>, name: string, q: nat): map<string, seq<nat>> {
    listeners[name := ListOf(listeners, name) + [q]]
  }

  /** `list.remove`: without the first occurrence. */
  function Remove(qs: seq<nat>, q: nat): seq<nat> {
    if qs == [] then [] else if qs[0] == q then qs[1..] else [qs[0]] + Remove(qs[1..], q)
  }

  function RemoveListener(listeners: map<string, seq<nat>>, name: string, q: nat): map<string, seq<nat>> {
    var rest := Remove(ListOf(listeners, name), q);
    if rest == [] then listeners - {name} else listeners[name := rest]
  }

  function AddAll(listeners: map<string, seq<nat>>, names: seq<string>, q: nat): map<string, seq<nat>>
    decreases |names|
  {
    if names == [] then listeners else AddAll(AddListener(listeners, names[0], q), names[1..], q)
  }

  function RemoveAll(listeners: map<string, seq<nat>>, names: seq<string>, q: nat): map<string, seq<nat>>
    decreases |names|
  {
    if names == [] then listeners else RemoveAll(RemoveListener(listeners, names[0], q), names[1..], q)
  }

  function Queue(queues: map<nat, seq<Message>>, q: nat): seq<Message> {
    if q in queues then queues[q] else []
  }

  function PutAll(queues: map<nat, seq<Message>>, qs: seq<nat>, m: Message): map<nat, seq<Message>>
    decreases |qs|
  {
    if qs == [] then queues else PutAll(queues[qs[0] := Queue(queues, qs[0]) + [m]], qs[1..], m)
  }

  function EmitTo(s: State, m: Message): State {
    s.(queues := PutAll(PutAll(s.queues, ListOf(s.listeners, m.messageType), m), ListOf(s.listeners, "*"), m))
  }

  function ChannelList(channels: Option<seq<string>>): seq<string> {
    if channels.None? || channels.value == [] then ["*"] else channels.value
  }

  function EnterSub(s: State, q: nat, id: string, channels: Option<seq<string>>): State {
    var chList := ChannelList(channels);
    var s1 := EmitTo(s.(queues := s.queues[q := []]), SubscriberEvent(CONNECTED, id, channels));
    s1.(active := s1.active[id := chList], listeners := AddAll(s1.listeners, chList, q),
        subs := s1.subs[q := Sub(id, channels, chList)])
  }

  function LeaveSub(s: State, q: nat): State
    requires q in s.subs
  {
    var sub := s.subs[q];
    EmitTo(s.(listeners := RemoveAll(s.listeners, sub.chList, q), active := s.active - {sub.id}, subs := s.subs - {q}),
           SubscriberEvent(DISCONNECTED, sub.id, sub.channels))
  }

  predicate Enabled(s: State, op: Op) {
    match op
    case Enter(q, _, _) => q !in s.queues
    case Leave(q) => q in s.subs
    case Emit(_) => true
  }

  function Apply(s: State, op: Op): State
    requires Enabled(s, op)
  {
    match op
    case Enter(q, id, channels) => EnterSub(s, q, id, channels)
    case Leave(q) => LeaveSub(s, q)
    case Emit(m) => EmitTo(s, m)
  }

  /** Who listens to what, as it is announced. */
  function Announced(id: string, channels: Option<seq<string>>): Data {
    map["subscriber_id" := JsonParser.Str(id),
        "channels" := match channels
                      case Some(cs) => JsonParser.Arr(seq(|cs|, i requires 0 <= i < |cs| => JsonParser.Str(cs[i])))
                      case None => JsonParser.Null]
  }

  /** Without channels a subscription is to everything. */
  function Wanted(channels: Option<seq<string>>): seq<string> {
    match channels
    case Some(cs) => if |cs| > 0 then cs else ["*"]
    case None => ["*"]
  }

  /** Every step emits one message. */
  function MessageOf(s: State, op: Op): Message
    requires Enabled(s, op)
  {
    match op
    case Enter(_, id, channels) => Event("message-listener-connected", Announced(id, channels))
    case Leave(q) => Event("message-listener-disconnected", Announced(s.subs[q].id, s.subs[q].channels))
    case Emit(m) => m
  }

  function Init(): State {
    State(map[], map[], map[], map[])
  }

  // ----- runs -----

  /** `states` are the states of the run `ops`, and `log` the messages emitted in it. */
  datatype Run = Run(ops: seq<Op>, states: seq<State>, log: seq<Message>)

  ghost predicate IsRun(r: Run) {
    && |r.states| == |r.ops| + 1 && |r.log| == |r.ops| && r.states[0] == Init()
    && forall i :: 0 <= i < |r.ops| ==>
         && Enabled(r.states[i], r.ops[i])
         && r.states[i + 1] == Apply(r.states[i], r.ops[i])
         && r.log[i] == MessageOf(r.states[i], r.ops[i])
  }

  // ----- who listens -----

  function Times(names: seq<string>, name: string): nat {
    multiset(names)[name]
  }

  /** How often a queue is listed under a name. */
  function Listed(listeners: map<string, seq<nat>>, name: string, q: nat): nat {
    multiset(ListOf(listeners, name))[q]
  }

  /** A queue is listed under a name as often as its open subscription names the channel. */
  ghost predicate Inv(s: State) {
    && (forall name, q :: Listed(s.listeners, name, q) == if q in s.subs then Times(s.subs[q].chList, name) else 0)
    && (forall q :: q in s.subs ==> q in s.queues)
    && (forall name :: name in s.listeners ==> s.listeners[name] != [])
  }

  function Repeat(m: Message, n: nat): (ms: seq<Message>)
    ensures |ms| == n
  {
    seq(n, _ => m)
  }

  lemma {:induction false} PutAllIs(queues: map<nat, seq<Message>>, qs: seq<nat>, m: Message, q: nat)
    ensures Queue(PutAll(queues, qs, m), q) == Queue(queues, q) + Repeat(m, multiset(qs)[q])
    decreases |qs|
  {
    if qs != [] {
      var more := queues[qs[0] := Queue(queues, qs[0]) + [m]];
      PutAllIs(more, qs[1..], m, q);
      assert qs == [qs[0]] + qs[1..];
      hide PutAll;
      RepeatMore(m, multiset(qs[1..])[q]);
    }
  }

  lemma RepeatMore(m: Message, n: nat)
    ensures [m] + Repeat(m, n) == Repeat(m, n + 1)
  {
  }

  lemma RepeatPlus(m: Message, a: nat, b: nat)
    ensures Repeat(m, a) + Repeat(m, b) == Repeat(m, a + b)
  {
  }

  lemma {:induction false} PutAllKeys(queues: map<nat, seq<Message>>, qs: seq<nat>, m: Message)
    ensures PutAll(queues, qs, m).Keys == queues.Keys + (set x | x in qs)
    decreases |qs|
  {
    if qs != [] {
      PutAllKeys(queues[qs[0] := Queue(queues, qs[0]) + [m]], qs[1..], m);
      assert qs == [qs[0]] + qs[1..];
    }
  }

  lemma {:induction false} AddAllIs(listeners: map<string, seq<nat>>, names: seq<string>, q: nat, name: string, x: nat)
    ensures Listed(AddAll(listeners, names, q), name, x)
         == Listed(listeners, name, x) + if x == q then Times(names, name) else 0
    decreases |names|
  {
    if names != [] {
      AddAllIs(AddListener(listeners, names[0], q), names[1..], q, name, x);
      assert names == [names[0]] + names[1..];
    }
  }

  lemma {:induction false} RemoveIs(qs: seq<nat>, q: nat, x: nat)
    ensures multiset(Remove(qs, q))[x] == multiset(qs)[x] - if x == q && q in qs then 1 else 0
  {
    if qs != [] {
      assert qs == [qs[0]] + qs[1..];
      if qs[0] != q {
        RemoveIs(qs[1..], q, x);
      }
    }
  }

  lemma RemoveListenerIs(listeners: map<string, seq<nat>>, n: string, q: nat, name: string, x: nat)
    ensures Listed(RemoveListener(listeners, n, q), name, x)
         == Listed(listeners, name, x) - if name == n && x == q && q in ListOf(listeners, n) then 1 else 0
  {
    RemoveIs(ListOf(listeners, n), q, x);
  }

  lemma {:induction false} RemoveAllIs(listeners: map<string, seq<nat>>, names: seq<string>, q: nat, name: string,
      x: nat)
    requires forall n :: Listed(listeners, n, q) >= Times(names, n)
    ensures Listed(RemoveAll(listeners, names, q), name, x)
         == Listed(listeners, name, x) - if x == q then Times(names, name) else 0
    decreases |names|
  {
    if names != [] {
      hide Listed, RemoveListener;
      assert names == [names[0]] + names[1..];
      var less := RemoveListener(listeners, names[0], q);
      assert Listed(listeners, names[0], q) >= 1;
      ListedIn(listeners, names[0], q);
      forall n
        ensures Listed(less, n, q) >= Times(names[1..], n)
      {
        RemoveListenerIs(listeners, names[0], q, n, q);
      }
      RemoveAllIs(less, names[1..], q, name, x);
      RemoveListenerIs(listeners, names[0], q, name, x);
    }
  }

  lemma ListedIn(listeners: map<string, seq<nat>>, name: string, q: nat)
    ensures Listed(listeners, name, q) >= 1 <==> q in ListOf(listeners, name)
  {
  }

  lemma {:induction false} NoneEmptied(listeners: map<string, seq<nat>>, names: seq<string>, q: nat)
    requires forall name :: name in listeners ==> listeners[name] != []
    ensures forall name :: name in AddAll(listeners, names, q) ==> AddAll(listeners, names, q)[name] != []
    ensures forall name :: name in RemoveAll(listeners, names, q) ==> RemoveAll(listeners, names, q)[name] != []
    decreases |names|
  {
    if names != [] {
      NoneEmptied(AddListener(listeners, names[0], q), names[1..], q);
      NoneEmptied(RemoveListener(listeners, names[0], q), names[1..], q);
    }
  }

  /** How many copies of a message reach a subscription: once for every time its type is named and once for
      every time everything is. */
  function Copies(chList: seq<string>, messageType: string): nat {
    Times(chList, messageType) + Times(chList, "*")
  }

  lemma EmitIs(s: State, m: Message, q: nat)
    requires forall name :: Listed(s.listeners, name, q) == if q in s.subs then Times(s.subs[q].chList, name) else 0
    ensures Queue(EmitTo(s, m).queues, q)
         == Queue(s.queues, q) + if q in s.subs then Repeat(m, Copies(s.subs[q].chList, m.messageType)) else []
    ensures s.queues.Keys <= EmitTo(s, m).queues.Keys
  {
    hide PutAll;
    var typed: seq<nat>, all: seq<nat> := ListOf(s.listeners, m.messageType), ListOf(s.listeners, "*");
    var once := PutAll(s.queues, typed, m);
    PutAllIs(s.queues, typed, m, q);
    PutAllIs(once, all, m, q);
    PutAllKeys(s.queues, typed, m);
    PutAllKeys(once, all, m);
    assert multiset(typed)[q] == Listed(s.listeners, m.messageType, q) && multiset(all)[q] == Listed(s.listeners,
        "*", q);
    RepeatPlus(m, multiset(typed)[q], multiset(all)[q]);
    if q !in s.subs {
      assert Repeat(m, 0) == [];
    }
  }

  /** Every step keeps the lists in line with the open subscriptions. */
  lemma StepInv(s: State, op: Op)
    requires Inv(s) && Enabled(s, op)
    ensures Inv(Apply(s, op)) && s.queues.Keys <= Apply(s, op).queues.Keys
  {
    hide Listed, PutAll, AddAll, RemoveAll, Times;
    var s' := Apply(s, op);
    match op
    case Enter(q, id, channels) =>
      var s0 := s.(queues := s.queues[q := []]);
      EmitKeys(s0, MessageOf(s, op));
      NoneEmptied(s.listeners, ChannelList(channels), q);
      forall name, x
        ensures Listed(s'.listeners, name, x) == if x in s'.subs then Times(s'.subs[x].chList, name) else 0
      {
        AddAllIs(s.listeners, ChannelList(channels), q, name, x);
      }
    case Leave(q) =>
      EmitKeys(s'.(queues := s.queues), MessageOf(s, op));
      NoneEmptied(s.listeners, s.subs[q].chList, q);
      forall name, x
        ensures Listed(s'.listeners, name, x) == if x in s'.subs then Times(s'.subs[x].chList, name) else 0
      {
        RemoveAllIs(s.listeners, s.subs[q].chList, q, name, x);
      }
    case Emit(m) => EmitKeys(s, m);
  }

  lemma EmitKeys(s: State, m: Message)
    ensures s.queues.Keys <= EmitTo(s, m).queues.Keys
  {
    hide PutAll;
    PutAllKeys(s.queues, ListOf(s.listeners, m.messageType), m);
    PutAllKeys(PutAll(s.queues, ListOf(s.listeners, m.messageType), m), ListOf(s.listeners, "*"), m);
  }

  /** What a step adds to a queue. */
  lemma StepQueue(s: State, op: Op, q: nat)
    requires Inv(s) && Enabled(s, op)
    ensures var s' := Apply(s, op);
            Queue(s'.queues, q)
            == if op.Enter? && op.q == q then []
               else Queue(s.queues, q)
                    + if q in s.subs && q in s'.subs then Repeat(MessageOf(s, op), Copies(s.subs[q].chList,
                        MessageOf(s, op).messageType))
                      else []
  {
    hide Listed, PutAll, AddAll, RemoveAll, Times, Copies, Repeat;
    match op
    case Enter(e, id, channels) => EmitIs(s.(queues := s.queues[e := []]), MessageOf(s, op), q);
    case Leave(e) =>
      var s0 := Apply(s, op).(queues := s.queues);
      StepInv(s, op);
      EmitIs(s0, MessageOf(s, op), q);
    case Emit(m) => EmitIs(s, m, q);
  }

  // ----- over runs -----

  lemma {:induction false} RunInv(r: Run, n: nat)
    requires IsRun(r) && n <= |r.ops|
    ensures Inv(r.states[n])
  {
    hide Apply, Enabled, MessageOf;
    if n == 0 {
      InitInv();
    } else {
      RunInv(r, n - 1);
      StepInv(r.states[n - 1], r.ops[n - 1]);
    }
  }

  lemma InitInv()
    ensures Inv(Init())
  {
  }

  /** What a subscription to these channels receives of the messages, in order. */
  function Deliver(log: seq<Message>, chList: seq<string>): seq<Message> {
    if log == [] then []
    else
      var m := log[|log| - 1];
      Deliver(log[..|log| - 1], chList) + Repeat(m, Copies(chList, m.messageType))
  }

  /** Step `k` enters the subscription with this queue and no later step before `n` leaves it. */
  predicate Open(r: Run, q: nat, k: nat, n: nat)
    requires k < n <= |r.ops|
  {
    r.ops[k].Enter? && r.ops[k].q == q && forall i :: k < i < n ==> r.ops[i] != Leave(q)
  }

  lemma StepKnown(s: State, op: Op, q: nat)
    requires Inv(s) && Enabled(s, op)
    ensures op.Enter? && op.q == q ==> q in Apply(s, op).subs && Apply(s, op).subs[q] == Sub(op.id, op.channels, Wanted(op.channels))
    ensures q in s.subs && op != Leave(q) ==>
              q in Apply(s, op).subs && Apply(s, op).subs[q] == s.subs[q] && !(op.Enter? && op.q == q)
    ensures op == Leave(q) ==> q !in Apply(s, op).subs
    ensures q !in s.subs && q in s.queues ==> q !in Apply(s, op).subs
  {
    hide PutAll, AddAll, RemoveAll;
  }

  /** While a subscription is open, its queue has received exactly what was emitted since it was entered, in
      order and in as many copies as it names the type: not its own connect event. */
  lemma {:induction false} Delivered(r: Run, q: nat, k: nat, n: nat)
    requires IsRun(r) && k < n <= |r.ops| && Open(r, q, k, n)
    ensures q in r.states[n].subs && r.states[n].subs[q] == Sub(r.ops[k].id, r.ops[k].channels, Wanted(r.ops[k].channels))
    ensures Queue(r.states[n].queues, q) == Deliver(r.log[k + 1..n], Wanted(r.ops[k].channels))
    decreases n
  {
    hide Apply, Enabled, MessageOf, Inv, Repeat, Copies, Wanted;
    var s, op := r.states[n - 1], r.ops[n - 1];
    RunInv(r, n - 1);
    StepQueue(s, op, q);
    StepKnown(s, op, q);
    if n > k + 1 {
      Delivered(r, q, k, n - 1);
      assert r.log[k + 1..n][..n - k - 2] == r.log[k + 1..n - 1];
    }
  }

  /** Once it is left, a queue receives nothing more: not its own disconnect event either. */
  lemma {:induction false} Frozen(r: Run, q: nat, k: nat, e: nat, n: nat)
    requires IsRun(r) && k < e < n <= |r.ops| && Open(r, q, k, e) && r.ops[e] == Leave(q)
    ensures Queue(r.states[n].queues, q) == Deliver(r.log[k + 1..e], Wanted(r.ops[k].channels))
    ensures q !in r.states[n].subs && q in r.states[n].queues
    decreases n
  {
    hide Apply, Enabled, MessageOf, Inv, Repeat, Copies, Wanted;
    var s, op := r.states[n - 1], r.ops[n - 1];
    RunInv(r, n - 1);
    StepQueue(s, op, q);
    StepKnown(s, op, q);
    StepInv(s, op);
    if n == e + 1 {
      Delivered(r, q, k, e);
      SubsHaveQueues(s, q);
    } else {
      Frozen(r, q, k, e, n - 1);
      EntersNew(s, op, q);
    }
  }

  lemma SubsHaveQueues(s: State, q: nat)
    requires Inv(s) && q in s.subs
    ensures q in s.queues
  {
  }

  lemma EntersNew(s: State, op: Op, q: nat)
    requires Enabled(s, op) && q in s.queues
    ensures !(op.Enter? && op.q == q)
  {
  }

  // ----- once each -----

  function Matching(log: seq<Message>, chList: seq<string>): seq<Message> {
    if log == [] then []
    else
      var m := log[|log| - 1];
      Matching(log[..|log| - 1], chList) + if m.messageType in chList || "*" in chList then [m] else []
  }

  predicate NoStar(log: seq<Message>) {
    forall m :: m in log ==> m.messageType != "*"
  }

  ghost predicate Distinct(names: seq<string>) {
    forall n :: Times(names, n) <= 1
  }

  lemma {:induction false} MatchingIs(log: seq<Message>, chList: seq<string>)
    requires Distinct(chList) && NoStar(log) && ("*" in chList ==> |chList| == 1)
    ensures Deliver(log, chList) == Matching(log, chList)
  {
    if log != [] {
      hide Copies, Distinct;
      var m := log[|log| - 1];
      MatchingIs(log[..|log| - 1], chList);
      assert m in log;
      CopiesAre(m, chList);
    }
  }

  lemma CopiesAre(m: Message, chList: seq<string>)
    requires Distinct(chList) && m.messageType != "*" && ("*" in chList ==> |chList| == 1)
    ensures Repeat(m, Copies(chList, m.messageType))
         == if m.messageType in chList || "*" in chList then [m] else []
  {
    assert Times(chList, m.messageType) <= 1 && Times(chList, "*") <= 1;
    assert multiset(chList)["*"] + multiset(chList)[m.messageType] <= |chList|;
  }

  /** With distinct channels every matching message arrives once, if and only if the channel for everything
      is not combined with another one. (A message of type `*` is always sent to it twice.) */
  lemma OnceExactly(chList: seq<string>)
    requires Distinct(chList)
    ensures (forall log :: NoStar(log) ==> Deliver(log, chList) == Matching(log, chList))
       <==> ("*" in chList ==> |chList| == 1)
  {
    if "*" in chList && |chList| != 1 {
      var t := Other(chList);
      var m := Event(t, map[]);
      var log := [m];
      assert log[..0] == [];
      assert multiset(chList)[t] >= 1 && multiset(chList)["*"] >= 1;
      assert |Deliver(log, chList)| >= 2 && |Matching(log, chList)| == 1;
      assert NoStar(log);
    } else {
      forall log | NoStar(log)
        ensures Deliver(log, chList) == Matching(log, chList)
      {
        MatchingIs(log, chList);
      }
    }
  }

  /** Some channel besides `*`. */
  ghost function Other(chList: seq<string>): (t: string)
    requires Distinct(chList) && |chList| > 1
    ensures t in chList && t != "*"
  {
    if chList[0] != "*" then chList[0]
    else
      assert Times(chList, "*") <= 1;
      assert chList == [chList[0]] + ([chList[1]] + chList[2..]);
      assert chList[1] == "*" ==> multiset(chList)["*"] >= 2;
      chList[1]
  }

  // ----- the table of active listeners -----

  /** No subscriber enters with an id that is in use. */
  ghost predicate UniqueIds(r: Run)
    requires IsRun(r)
  {
    forall i, q :: 0 <= i < |r.ops| && r.ops[i].Enter? && q in r.states[i].subs ==>
      r.states[i].subs[q].id != r.ops[i].id
  }

  /** The table holds exactly the subscriptions, by their ids. */
  ghost predicate Table(active: map<string, seq<string>>, subs: map<nat, Sub>) {
    && (forall q :: q in subs ==> subs[q].id in active && active[subs[q].id] == subs[q].chList)
    && (forall id :: id in active ==> exists q :: q in subs && subs[q].id == id)
    && (forall p, q :: p in subs && q in subs && subs[p].id == subs[q].id ==> p == q)
  }

  lemma TableEnter(active: map<string, seq<string>>, subs: map<nat, Sub>, e: nat, sub: Sub)
    requires Table(active, subs) && e !in subs && forall q :: q in subs ==> subs[q].id != sub.id
    ensures Table(active[sub.id := sub.chList], subs[e := sub])
  {
    var more, active' := subs[e := sub], active[sub.id := sub.chList];
    forall x | x in active'
      ensures exists q :: q in more && more[q].id == x
    {
      if x == sub.id {
        assert more[e].id == x;
      } else {
        var q :| q in subs && subs[q].id == x;
        assert more[q].id == x;
      }
    }
  }

  lemma TableLeave(active: map<string, seq<string>>, subs: map<nat, Sub>, e: nat)
    requires Table(active, subs) && e in subs
    ensures Table(active - {subs[e].id}, subs - {e})
  {
    forall x | x in active - {subs[e].id}
      ensures exists q :: q in subs - {e} && (subs - {e})[q].id == x
    {
      var q :| q in subs && subs[q].id == x;
      assert q in subs - {e};
    }
  }

  lemma ActiveStep(s: State, op: Op)
    requires Inv(s) && Table(s.active, s.subs) && Enabled(s, op)
    requires op.Enter? ==> forall q :: q in s.subs ==> s.subs[q].id != op.id
    ensures Table(Apply(s, op).active, Apply(s, op).subs)
  {
    hide PutAll, AddAll, RemoveAll, Listed, Times, ListOf, Table;
    SubsHaveQueuesAll(s);
    match op
    case Enter(e, id, channels) =>
      TableEnter(s.active, s.subs, e, Sub(id, channels, ChannelList(channels)));
    case Leave(e) => TableLeave(s.active, s.subs, e);
    case Emit(_) =>
  }

  lemma SubsHaveQueuesAll(s: State)
    requires Inv(s)
    ensures forall q :: q in s.subs ==> q in s.queues
  {
  }

  /** When ids are unique, active_listener lists exactly the open subscriptions with their channels. */
  lemma {:induction false} ActiveExact(r: Run, n: nat)
    requires IsRun(r) && UniqueIds(r) && n <= |r.ops|
    ensures Table(r.states[n].active, r.states[n].subs)
  {
    hide Apply, Enabled, MessageOf, Inv, Table;
    if n == 0 {
      InitActive();
    } else {
      ActiveExact(r, n - 1);
      RunInv(r, n - 1);
      ActiveStep(r.states[n - 1], r.ops[n - 1]);
    }
  }

  lemma InitActive()
    ensures Table(Init().active, Init().subs)
  {
  }

  /** Every open subscription has an entry. */
  ghost predicate AllListed(s: State) {
    forall q :: q in s.subs ==> s.subs[q].id in s.active
  }

  /** A subscriber that leaves keeps the entries of all others if and only if none of them has its id. */
  lemma LeaveKeepsEntries(s: State, p: nat)
    requires Inv(s) && AllListed(s) && p in s.subs
    ensures AllListed(Apply(s, Leave(p)))
       <==> forall q :: q in s.subs && q != p ==> s.subs[q].id != s.subs[p].id
  {
    hide PutAll, RemoveAll;
    var s' := Apply(s, Leave(p));
    forall q | q in s.subs && q != p && s.subs[q].id == s.subs[p].id
      ensures !AllListed(s')
    {
      SharedId(s, p, q);
    }
    assert forall q :: q in s'.subs <==> q in s.subs && q != p;
  }

  /** Otherwise a subscriber that leaves takes away the entry of another one with its id. */
  lemma SharedId(s: State, p: nat, q: nat)
    requires Inv(s) && p in s.subs && q in s.subs && p != q && s.subs[p].id == s.subs[q].id
    ensures var s' := Apply(s, Leave(p)); q in s'.subs && s'.subs[q].id !in s'.active
  {
    hide PutAll, RemoveAll;
  }

  // ----- the class -----

  class Bus {
    var listeners: map<string, seq<nat>>
    var activeListener: map<string, seq<string>>
    // what was put on each queue, and the bodies of `subscribe` that were entered and not left
    var queues: map<nat, seq<Message>>
    var subs: map<nat, Sub>

    ghost function Now(): State
      reads this
    {
      State(listeners, activeListener, queues, subs)
    }

    constructor ()
      ensures Now() == Init() && Inv(Now())
    {
      listeners, activeListener, queues, subs := map[], map[], map[], map[];
      new;
      InitInv();
    }

    /** emit_by */
    method EmitBy(name: string, m: Message)
      modifies this`queues
      ensures queues == PutAll(old(queues), ListOf(listeners, name), m)
    {
      var qs: seq<nat> := if name in listeners then listeners[name] else [];
      var i := 0;
      while i < |qs|
        invariant 0 <= i <= |qs| && PutAll(queues, qs[i..], m) == PutAll(old(queues), qs, m)
      {
        assert qs[i..][1..] == qs[i + 1..];
        queues := queues[qs[i] := (if qs[i] in queues then queues[qs[i]] else []) + [m]];
        i := i + 1;
      }
    }

    method Emit(m: Message)
      modifies this`queues
      ensures Now() == EmitTo(old(Now()), m)
    {
      EmitBy(m.messageType, m);
      EmitBy("*", m);
    }

    method AddListenerTo(name: string, q: nat)
      modifies this`listeners
      ensures listeners == AddListener(old(listeners), name, q)
    {
      if name !in listeners {
        assert [] + [q] == [q];
        listeners := listeners[name := [q]];
      } else {
        listeners := listeners[name := listeners[name] + [q]];
      }
    }

    /** The list has the queue, so neither the lookup nor `remove` raises. */
    method RemoveListenerFrom(name: string, q: nat)
      requires name in listeners && q in listeners[name]
      modifies this`listeners
      ensures listeners == RemoveListener(old(listeners), name, q)
    {
      listeners := listeners[name := Remove(listeners[name], q)];
      if |listeners[name]| == 0 {
        assert old(listeners) - {name} == listeners - {name};
        listeners := listeners - {name};
      }
    }

    /** Up to the `yield` of subscribe. */
    method Subscribe(q: nat, id: string, channels: Option<seq<string>>)
      requires Inv(Now()) && q !in queues
      modifies this
      ensures Now() == EnterSub(old(Now()), q, id, channels) && Inv(Now())
    {
      hide PutAll, Inv, AddListener, ListOf, SubscriberEvent, EmitTo;
      StepInv(Now(), Op.Enter(q, id, channels));
      queues := queues[q := []];
      var chList := if channels.None? || channels.value == [] then ["*"] else channels.value;
      Emit(SubscriberEvent(CONNECTED, id, channels));
      activeListener := activeListener[id := chList];
      var i := 0;
      while i < |chList|
        invariant 0 <= i <= |chList| && AddAll(listeners, chList[i..], q) == AddAll(old(listeners), chList, q)
        invariant activeListener == old(activeListener)[id := chList] && subs == old(subs)
        invariant queues == EmitTo(old(Now()).(queues := old(queues)[q := []]), SubscriberEvent(CONNECTED, id,
            channels)).queues
      {
        assert chList[i..][1..] == chList[i + 1..];
        AddListenerTo(chList[i], q);
        i := i + 1;
      }
      subs := subs[q := Sub(id, channels, chList)];
    }

    /** The `finally` of subscribe. */
    method Unsubscribe(q: nat)
      requires Inv(Now()) && q in subs
      modifies this
      ensures Now() == LeaveSub(old(Now()), q) && Inv(Now())
    {
      hide PutAll, Inv, RemoveListener, Listed, Times;
      StepInv(Now(), Op.Leave(q));
      var sub := subs[q];
      var i := 0;
      ListedEnough(Now(), q);
      while i < |sub.chList|
        invariant 0 <= i <= |sub.chList| && RemoveAll(listeners, sub.chList[i..], q) == RemoveAll(old(listeners),
            sub.chList, q)
        invariant forall n :: Listed(listeners, n, q) >= Times(sub.chList[i..], n)
        invariant activeListener == old(activeListener) && subs == old(subs) && queues == old(queues)
      {
        assert sub.chList[i..][1..] == sub.chList[i + 1..];
        StillListed(listeners, sub.chList[i..], q);
        RemoveListenerFrom(sub.chList[i], q);
        i := i + 1;
      }
      activeListener := activeListener - {sub.id};
      subs := subs - {q};
      Emit(SubscriberEvent(DISCONNECTED, sub.id, sub.channels));
    }
  }

  lemma ListedEnough(s: State, q: nat)
    requires Inv(s) && q in s.subs
    ensures forall n :: Listed(s.listeners, n, q) >= Times(s.subs[q].chList, n)
  {
  }

  lemma StillListed(listeners: map<string, seq<nat>>, names: seq<string>, q: nat)
    requires names != [] && forall n :: Listed(listeners, n, q) >= Times(names, n)
    ensures names[0] in listeners && q in listeners[names[0]]
    ensures forall n :: Listed(RemoveListener(listeners, names[0], q), n, q) >= Times(names[1..], n)
  {
    hide RemoveListener;
    assert names == [names[0]] + names[1..];
    assert Listed(listeners, names[0], q) >= 1;
    ListedIn(listeners, names[0], q);
    forall n
      ensures Listed(RemoveListener(listeners, names[0], q), n, q) >= Times(names[1..], n)
    {
      RemoveListenerIs(listeners, names[0], q, n, q);
    }
  }
}
