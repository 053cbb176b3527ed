/** The bidirectional Chat call: one subscription, one name for the whole stream. */
module ChatHandler {
  import opened Chat
  import opened Options

  /** One message of a client's stream. */
  datatype Incoming = Incoming(token: string, text: string)

  type Auth = string -> Option<string>

  /** The name under which message k goes out, if it does: the name known by then, or
      else the one its own token resolves to. */
  function Speaker(stream: seq<Incoming>, auth: Auth, k: nat): Option<string>
    requires k < |stream|
    decreases k, 1
  {
    if k > 0 && Known(stream, auth, k) != "" then Some(Known(stream, auth, k)) else auth(stream[k].token)
  }

  /** The name known before message k; empty while there is none. */
  function Known(stream: seq<Incoming>, auth: Auth, k: nat): string
    requires k <= |stream|
    decreases k, 0
  {
    if k == 0 then ""
    else
      match Speaker(stream, auth, k - 1)
      case None => ""
      case Some(name) => name
  }

  /** Names are never empty, so everything from the first accepted token on goes out
      under that token's name, and nothing before it does. */
  lemma {:induction false} SpeakerIsFirst(stream: seq<Incoming>, auth: Auth, first: nat, k: nat)
    requires first <= |stream| && k < |stream|
    requires forall j :: 0 <= j < first ==> auth(stream[j].token).None?
    requires first < |stream| ==> auth(stream[first].token).Some? && auth(stream[first].token).value != ""
    ensures Speaker(stream, auth, k) == if k < first then None else auth(stream[first].token)
  {
    if k == 0 {
    } else {
      SpeakerIsFirst(stream, auth, first, k - 1);
    }
  }

  /** What message k makes the call publish. */
  function Said(stream: seq<Incoming>, auth: Auth, k: nat): seq<Event>
    requires k < |stream|
  {
    match Speaker(stream, auth, k)
    case None => []
    case Some(name) => [Publish(Message(name, stream[k].text))]
  }

  /** Everything from the first accepted token on is published, each message with its own
      text and under the name of that token, and nothing before. */
  lemma SaidExactly(stream: seq<Incoming>, auth: Auth, first: nat, k: nat)
    requires first <= |stream| && k < |stream|
    requires forall j :: 0 <= j < first ==> auth(stream[j].token).None?
    requires first < |stream| ==> auth(stream[first].token).Some? && auth(stream[first].token).value != ""
    ensures k < first ==> Said(stream, auth, k) == []
    ensures k >= first ==>
      && |Said(stream, auth, k)| == 1 && Said(stream, auth, k)[0].Publish?
      && var msg := Said(stream, auth, k)[0].msg;
         Some(msg.username) == auth(stream[first].token) && msg.text == stream[k].text
  {
    SpeakerIsFirst(stream, auth, first, k);
  }

  /** The first n turns of the call's loop, each after what others did meanwhile. */
  function Turns(stream: seq<Incoming>, auth: Auth, others: nat -> seq<Event>, n: nat): seq<Event>
    requires n <= |stream|
  {
    if n == 0 then [] else Turns(stream, auth, others, n - 1) + others(n - 1) + Said(stream, auth, n - 1)
  }

  lemma TurnsStep(done: seq<Event>, stream: seq<Incoming>, auth: Auth, others: nat -> seq<Event>, k: nat)
    requires k < |stream| && done == [Event.Subscribe] + Turns(stream, auth, others, k)
    ensures done + others(k) + Said(stream, auth, k) == [Event.Subscribe] + Turns(stream, auth, others, k + 1)
  {
    assert Turns(stream, auth, others, k + 1) == Turns(stream, auth, others, k) + others(k) + Said(stream, auth, k);
    hide Turns, Said;
  }

  lemma RunSnoc(h: Hub, events: seq<Event>, e: Event)
    ensures Run(h, events + [e]) == Step(Run(h, events), e)
  {
    RunConcat(h, events, [e]);
    RunOne(Run(h, events), e);
  }

  lemma NoTurns(stream: seq<Incoming>, auth: Auth, others: nat -> seq<Event>)
    ensures Turns(stream, auth, others, 0) == []
  {
  }

  /** What message k publishes, and the name known afterwards. */
  lemma SaidBy(stream: seq<Incoming>, auth: Auth, k: nat)
    requires k < |stream|
    ensures var known, resolved := Known(stream, auth, k), auth(stream[k].token);
      if known == "" && resolved.None? then Said(stream, auth, k) == [] && Known(stream, auth, k + 1) == ""
      else
        var name := if known != "" then known else resolved.value;
        Said(stream, auth, k) == [Event.Publish(Message(name, stream[k].text))] && Known(stream, auth, k + 1) == name
  {
  }

  /** `Chat`: subscribe, publish each message under the name of the first accepted
      token, ignoring messages until there is one, and unsubscribe when the stream
      ends; others act before each message and before the end. */
  method ChatCall(hub: ChatBroadcaster, stream: seq<Incoming>, auth: Auth, others: nat -> seq<Event>) returns (id: nat)
    requires hub.Valid()
    modifies hub
    ensures hub.Valid() && id == |old(hub.chans)|
    ensures hub.State() == Run(old(hub.State()),
      [Event.Subscribe] + Turns(stream, auth, others, |stream|) + others(|stream|) + [Event.Unsubscribe(id)])
  {
    hide Run, Step, Turns, Said;
    ghost var start, done := hub.State(), [Event.Subscribe];
    id := hub.Subscribe();
    RunOne(start, Event.Subscribe);
    var username := "";
    assert Turns(stream, auth, others, 0) == [] by { NoTurns(stream, auth, others); }
    for k := 0 to |stream|
      invariant hub.Valid() && id < |hub.chans|
      invariant username == Known(stream, auth, k)
      invariant done == [Event.Subscribe] + Turns(stream, auth, others, k)
      invariant hub.State() == Run(start, done)
    {
      hub.Elapse(others(k));
      RunConcat(start, done, others(k));
      TurnsStep(done, stream, auth, others, k);
      done := done + others(k);
      SaidBy(stream, auth, k);
      if username == "" {
        var resolved := auth(stream[k].token);
        if resolved.None? {
          assert done + [] == done;
          continue;
        }
        username := resolved.value;
      }
      hub.Publish(Message(username, stream[k].text));
      RunSnoc(start, done, Event.Publish(Message(username, stream[k].text)));
      done := done + [Event.Publish(Message(username, stream[k].text))];
    }
    hub.Elapse(others(|stream|));
    RunConcat(start, done, others(|stream|));
    done := done + others(|stream|);
    hub.Unsubscribe(id);
    RunSnoc(start, done, Event.Unsubscribe(id));
  }
}
