/** The chat hub: non-blocking fan-out into bounded buffers. */
module Chat {

  datatype Message = Message(username: string, text: string)

  /** How far a subscriber may fall behind. */
  const CHAT_BUFFER: nat := 32

  /** A subscriber's channel: what it buffers, and whether it is open. */
  datatype Chan = Chan(buf: seq<Message>, open: bool)

  /** Channel i belongs to the i-th Subscribe call; `subs` holds the registered ones. */
  datatype Hub = Hub(chans: seq<Chan>, subs: set<nat>)

  const NO_SUBSCRIBERS := Hub([], {})

  datatype Event = Subscribe | Unsubscribe(id: nat) | Publish(msg: Message) | Receive(id: nat)

  /** A non-blocking send: a full buffer drops the message. */
  function Offer(c: Chan, msg: Message): Chan {
    if |c.buf| < CHAT_BUFFER then c.(buf := c.buf + [msg]) else c
  }

  function Step(h: Hub, e: Event): Hub {
    match e
    case Subscribe => Hub(h.chans + [Chan([], true)], h.subs + {|h.chans|})
    case Unsubscribe(id) =>
      if id in h.subs && id < |h.chans| then Hub(h.chans[id := h.chans[id].(open := false)], h.subs - {id}) else h
    case Publish(msg) =>
      h.(chans := seq(|h.chans|, i requires 0 <= i < |h.chans| =>
                                   if i in h.subs then Offer(h.chans[i], msg) else h.chans[i]))
    case Receive(id) =>
      if id < |h.chans| && h.chans[id].buf != [] then
        h.(chans := h.chans[id := h.chans[id].(buf := h.chans[id].buf[1..])])
      else h
  }

  function Run(h: Hub, events: seq<Event>): Hub
    decreases |events|
  {
    if events == [] then h else Run(Step(h, events[0]), events[1..])
  }

  lemma {:induction false} RunConcat(h: Hub, a: seq<Event>, b: seq<Event>)
    ensures Run(h, a + b) == Run(Run(h, a), b)
    decreases |a|
  {
    if a == [] {
      assert a + b == b;
    } else {
      assert (a + b)[0] == a[0] && (a + b)[1..] == a[1..] + b;
      RunConcat(Step(h, a[0]), a[1..], b);
    }
  }

  lemma RunOne(h: Hub, e: Event)
    ensures Run(h, [e]) == Step(h, e)
  {
    assert [e][1..] == [];
    assert Run(Step(h, e), []) == Step(h, e);
  }

  /** Registered channels exist and are open, closed channels are not registered, and
      no buffer overflows. */
  ghost predicate Sound(h: Hub) {
    && (forall id :: id in h.subs ==> id < |h.chans|)
    && (forall id :: 0 <= id < |h.chans| ==> (h.chans[id].open <==> id in h.subs) && |h.chans[id].buf| <= CHAT_BUFFER)
  }

  lemma StepSound(h: Hub, e: Event)
    requires Sound(h)
    ensures Sound(Step(h, e))
  {
  }

  /** The hub as the object it is. */
  class ChatBroadcaster {
    var chans: seq<Chan>
    var subs: set<nat>

    ghost function State(): Hub
      reads this
    {
      Hub(chans, subs)
    }

    ghost predicate Valid()
      reads this
    {
      Sound(State())
    }

    constructor ()
      ensures Valid() && State() == NO_SUBSCRIBERS
    {
      chans, subs := [], {};
    }

    method Subscribe() returns (id: nat)
      requires Valid()
      modifies this
      ensures Valid() && State() == Step(old(State()), Event.Subscribe) && id == |old(chans)| < |chans|
    {
      id := |chans|;
      chans := chans + [Chan([], true)];
      subs := subs + {id};
    }

    /** Remove and close, the first time; nothing afterwards. */
    method Unsubscribe(id: nat)
      requires Valid() && id < |chans|
      modifies this
      ensures Valid() && State() == Step(old(State()), Event.Unsubscribe(id))
    {
      if id in subs {
        subs := subs - {id};
        assert chans[id].open; // closing a closed channel would panic
        chans := chans[id := chans[id].(open := false)];
      }
    }

    /** Offer the message to every subscriber, in whatever order the map is walked. */
    method Publish(msg: Message)
      requires Valid()
      modifies this
      ensures Valid() && State() == Step(old(State()), Event.Publish(msg)) && |chans| == |old(chans)|
    {
      var left := subs;
      while left != {}
        invariant left <= subs == old(subs) && |chans| == |old(chans)|
        invariant forall i :: 0 <= i < |chans| ==>
          chans[i] == if i in subs && i !in left then Offer(old(chans)[i], msg) else old(chans)[i]
        decreases left
      {
        var ch :| ch in left;
        assert chans[ch].open; // a send on a closed channel would panic
        if |chans[ch].buf| < CHAT_BUFFER {
          chans := chans[ch := chans[ch].(buf := chans[ch].buf + [msg])];
        }
        left := left - {ch};
      }
      StepSound(old(State()), Event.Publish(msg));
    }

    /** Other goroutines call the hub. */
    method Elapse(events: seq<Event>)
      requires Valid()
      modifies this
      ensures Valid() && State() == Run(old(State()), events) && |chans| >= |old(chans)|
    {
      for k := 0 to |events|
        invariant Valid() && |chans| >= |old(chans)|
        invariant Run(State(), events[k..]) == Run(old(State()), events)
      {
        assert events[k..][0] == events[k] && events[k..][1..] == events[k + 1..];
        match events[k]
        case Subscribe => var _ := Subscribe();
        case Unsubscribe(id) => if id < |chans| { Unsubscribe(id); }
        case Publish(msg) => Publish(msg);
        case Receive(id) => if id < |chans| && chans[id].buf != [] { var _ := Receive(id); }
      }
    }

    /** The goroutine of subscriber `id` takes one message off its channel. */
    method Receive(id: nat) returns (msg: Message)
      requires Valid() && id < |chans| && chans[id].buf != []
      modifies this
      ensures Valid() && State() == Step(old(State()), Event.Receive(id)) && msg == old(chans)[id].buf[0]
    {
      msg := chans[id].buf[0];
      chans := chans[id := chans[id].(buf := chans[id].buf[1..])];
    }
  }

  // ----- what one subscriber sees -----

  /** A message published while subscribed, and how many were buffered just then. */
  datatype Offered = Offered(msg: Message, backlog: nat)

  /** One subscriber on its own: a reference that knows of no other. */
  datatype Solo = Solo(buf: seq<Message>, live: bool, offered: seq<Offered>, received: seq<Message>)

  const FRESH := Solo([], true, [], [])

  /** The part of a run that concerns subscriber `id`. */
  predicate Concerns(id: nat, e: Event) {
    e.Publish? || e == Receive(id) || e == Unsubscribe(id)
  }

  function Mine(id: nat, events: seq<Event>): seq<Event> {
    if events == [] then []
    else (if Concerns(id, events[0]) then [events[0]] else []) + Mine(id, events[1..])
  }

  function SoloStep(s: Solo, e: Event): Solo {
    match e
    case Subscribe => s
    case Unsubscribe(_) => s.(live := false)
    case Publish(msg) =>
      if !s.live then s
      else s.(offered := s.offered + [Offered(msg, |s.buf|)],
              buf := if |s.buf| < CHAT_BUFFER then s.buf + [msg] else s.buf)
    case Receive(_) =>
      if s.buf == [] then s else s.(buf := s.buf[1..], received := s.received + [s.buf[0]])
  }

  function SoloRun(s: Solo, events: seq<Event>): Solo
    decreases |events|
  {
    if events == [] then s else SoloRun(SoloStep(s, events[0]), events[1..])
  }

  ghost predicate Shows(h: Hub, id: nat, s: Solo) {
    id < |h.chans| && h.chans[id].buf == s.buf && (id in h.subs <==> s.live)
  }

  lemma ShowsStep(h: Hub, id: nat, s: Solo, e: Event)
    requires Sound(h) && Shows(h, id, s)
    ensures Shows(Step(h, e), id, if Concerns(id, e) then SoloStep(s, e) else s)
  {
  }

  /** Isolation: in any run, what subscriber `id` has buffered is what it would have on
      its own, given the publications and its own receives; whether and how fast
      others read, subscribe or leave makes no difference. */
  lemma {:induction false} Isolation(h: Hub, id: nat, s: Solo, events: seq<Event>)
    requires Sound(h) && Shows(h, id, s)
    ensures Shows(Run(h, events), id, SoloRun(s, Mine(id, events)))
    decreases |events|
  {
    if events == [] {
    } else {
      var e := events[0];
      StepSound(h, e);
      ShowsStep(h, id, s, e);
      Isolation(Step(h, e), id, if Concerns(id, e) then SoloStep(s, e) else s, events[1..]);
      if Concerns(id, e) {
        assert Mine(id, events)[0] == e && Mine(id, events)[1..] == Mine(id, events[1..]);
      } else {
        assert Mine(id, events) == Mine(id, events[1..]);
      }
    }
  }

  /** The messages that found room. */
  function Kept(offered: seq<Offered>): seq<Message> {
    if offered == [] then []
    else
      var o := offered[|offered| - 1];
      Kept(offered[..|offered| - 1]) + if o.backlog < CHAT_BUFFER then [o.msg] else []
  }

  /** How many did not. */
  function Dropped(offered: seq<Offered>): nat {
    if offered == [] then 0
    else Dropped(offered[..|offered| - 1]) + if offered[|offered| - 1].backlog < CHAT_BUFFER then 0 else 1
  }

  /** Received, then buffered, is what found room; a message found no room only when
      exactly 32 were waiting; and every message offered is delivered or dropped. */
  ghost predicate Accounted(s: Solo) {
    && s.received + s.buf == Kept(s.offered)
    && |s.buf| <= CHAT_BUFFER
    && (forall k :: 0 <= k < |s.offered| ==> s.offered[k].backlog <= CHAT_BUFFER)
    && |s.received| + |s.buf| + Dropped(s.offered) == |s.offered|
  }

  lemma AccountedStep(s: Solo, e: Event)
    requires Accounted(s)
    ensures Accounted(SoloStep(s, e))
  {
    if e.Publish? && s.live {
      var t := SoloStep(s, e);
      assert t.offered[..|t.offered| - 1] == s.offered;
    }
  }

  lemma {:induction false} AccountedRun(s: Solo, events: seq<Event>)
    requires Accounted(s)
    ensures Accounted(SoloRun(s, events))
    decreases |events|
  {
    if events == [] {
    } else {
      AccountedStep(s, events[0]);
      AccountedRun(SoloStep(s, events[0]), events[1..]);
    }
  }

  /** The places, in the order published, of the messages that found room. */
  function KeptAt(offered: seq<Offered>): (at: seq<nat>)
    ensures forall k :: 0 <= k < |at| ==> at[k] < |offered|
  {
    if offered == [] then []
    else
      KeptAt(offered[..|offered| - 1]) + if offered[|offered| - 1].backlog < CHAT_BUFFER then [|offered| - 1] else []
  }

  /** `kept` are the messages at the places `at`, which are in order and are exactly those
      with room. */
  ghost predicate KeptFrom(kept: seq<Message>, at: seq<nat>, offered: seq<Offered>) {
    && |at| == |kept|
    && (forall k :: 0 <= k < |at| ==> at[k] < |offered| && kept[k] == offered[at[k]].msg)
    && (forall j, k :: 0 <= j < k < |at| ==> at[j] < at[k])
    && (forall i :: 0 <= i < |offered| ==> (i in at <==> offered[i].backlog < CHAT_BUFFER))
  }

  /** One more offer, kept or not. */
  lemma KeptFromSnoc(kept: seq<Message>, at: seq<nat>, offered: seq<Offered>, o: Offered)
    requires KeptFrom(kept, at, offered)
    ensures if o.backlog < CHAT_BUFFER then KeptFrom(kept + [o.msg], at + [|offered|], offered + [o])
            else KeptFrom(kept, at, offered + [o])
  {
    var next := if o.backlog < CHAT_BUFFER then at + [|offered|] else at;
    forall i | 0 <= i < |offered + [o]|
      ensures i in next <==> (offered + [o])[i].backlog < CHAT_BUFFER
    {
      assert i < |offered| ==> (offered + [o])[i] == offered[i];
    }
  }

  /** What found room is a subsequence of what was offered, in order, and it is every
      message but those offered to a full buffer. */
  lemma {:induction false} KeptIsSubsequence(offered: seq<Offered>)
    ensures KeptFrom(Kept(offered), KeptAt(offered), offered)
  {
    if offered == [] {
    } else {
      var n := |offered| - 1;
      KeptIsSubsequence(offered[..n]);
      KeptFromSnoc(Kept(offered[..n]), KeptAt(offered[..n]), offered[..n], offered[n]);
      assert offered[..n] + [offered[n]] == offered;
      hide KeptFrom;
    }
  }

  /** What was offered is what was published up to the subscriber's leaving. */
  function Published(events: seq<Event>): seq<Message> {
    if events == [] || events[0].Unsubscribe? then []
    else (if events[0].Publish? then [events[0].msg] else []) + Published(events[1..])
  }

  function Messages(offered: seq<Offered>): seq<Message> {
    seq(|offered|, k requires 0 <= k < |offered| => offered[k].msg)
  }

  lemma {:induction false} OfferedIsPublished(s: Solo, events: seq<Event>)
    ensures Messages(SoloRun(s, events).offered)
         == Messages(s.offered) + if s.live then Published(events) else []
    decreases |events|
  {
    if events == [] {
    } else {
      var e, t, rest := events[0], SoloStep(s, events[0]), Published(events[1..]);
      OfferedIsPublished(t, events[1..]);
      if e.Publish? && s.live {
        assert Messages(t.offered) == Messages(s.offered) + [e.msg];
        assert Messages(s.offered) + [e.msg] + rest == Messages(s.offered) + ([e.msg] + rest);
      } else {
        assert t.offered == s.offered;
        assert e.Unsubscribe? || Published(events) == (if e.Publish? then [e.msg] else []) + rest;
        assert [] + rest == rest;
      }
    }
  }

  /** Every subscriber, over every run from its Subscribe on: its deliveries and its
      buffer are the messages published meanwhile, in order, less exactly those that
      came when its buffer held 32. */
  lemma DeliveryExact(h: Hub, events: seq<Event>)
    requires Sound(h)
    ensures var id, end := |h.chans|, Run(Step(h, Subscribe), events);
      var s := SoloRun(FRESH, Mine(id, events));
      && id < |end.chans| && end.chans[id].buf == s.buf
      && Messages(s.offered) == Published(Mine(id, events))
      && s.received + s.buf == Kept(s.offered) && |s.buf| <= 32
      && (forall k :: 0 <= k < |s.offered| ==> (k in KeptAt(s.offered) <==> s.offered[k].backlog < 32))
      && |s.received| + |s.buf| + Dropped(s.offered) == |s.offered|
      && forall k :: 0 <= k < |s.offered| && k !in KeptAt(s.offered) ==> s.offered[k].backlog == 32
  {
    var id := |h.chans|;
    StepSound(h, Subscribe);
    Isolation(Step(h, Subscribe), id, FRESH, events);
    AccountedRun(FRESH, Mine(id, events));
    OfferedIsPublished(FRESH, Mine(id, events));
    assert Messages([]) == [];
    KeptIsSubsequence(SoloRun(FRESH, Mine(id, events)).offered);
  }
}
