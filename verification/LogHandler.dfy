/** The client-streamed Ingest call: authenticate once, submit in order, answer once. */
module LogHandler {
  import opened Domain
  import opened Pipeline
  import opened PipelineInvariants
  import opened PipelineTheorems
  import opened LogIngestorObject
  import opened Options

  /** One message of the stream. */
  datatype Request = Request(token: string, level: string, message: string, source: string, unixMs: int)

  /** How the stream ends: the client is done, or the transport fails. */
  datatype End = Eof | Broken

  /** `Waiting` is still inside a Submit that blocks. */
  datatype Answer =
    | Summary(accepted: int, written: int, retries: int)
    | AuthError
    | SubmitError
    | StreamError
    | Waiting

  type Auth = string -> Option<string>

  /** A timestamp that is not positive is replaced by the server's clock. */
  function LoggedAt(unixMs: int, now: int): int {
    if unixMs <= 0 then now else unixMs
  }

  function EntryFor(username: string, r: Request, now: int): LogEntry {
    LogEntry(username, r.level, r.message, r.source, LoggedAt(r.unixMs, now))
  }

  /** The name for message k: the one resolved before, or else what its own token
      resolves to; none once a token has not been accepted. */
  function Name(stream: seq<Request>, auth: Auth, k: nat): Option<string>
    requires k < |stream|
  {
    if k == 0 then auth(stream[0].token)
    else
      match Name(stream, auth, k - 1)
      case None => None
      case Some(name) => if name != "" then Some(name) else auth(stream[k].token)
  }

  /** Names are never empty, so the first token names every message, whatever tokens
      the later ones carry. */
  lemma {:induction false} NameIsFirst(stream: seq<Request>, auth: Auth, k: nat)
    requires k < |stream|
    requires auth(stream[0].token).Some? ==> auth(stream[0].token).value != ""
    ensures Name(stream, auth, k) == auth(stream[0].token)
  {
    if k == 0 {
    } else {
      NameIsFirst(stream, auth, k - 1);
    }
  }

  /** What message k is to be submitted as. */
  function EntryAt(stream: seq<Request>, auth: Auth, clock: nat -> int, k: nat): LogEntry
    requires k < |stream| && Name(stream, auth, k).Some?
  {
    EntryFor(Name(stream, auth, k).value, stream[k], clock(k))
  }

  /** Message k has been accepted by the pipeline, as call `i`, and stands at place `at`
      of the order of sends. */
  predicate Accepts(s: State, stream: seq<Request>, auth: Auth, clock: nat -> int, k: nat, i: nat, at: nat)
    requires k < |stream|
  {
    && i < |s.intake.submits| && at < |s.intake.sent|
    && Name(stream, auth, k).Some?
    && var e := EntryAt(stream, auth, clock, k);
       s.intake.submits[i].entry == e && s.intake.submits[i].phase.Accepted? && s.intake.sent[at] == e
  }

  /** The first messages of the stream, each accepted by a call of its own, one after
      the other, and sent in the order of the stream, all since state `start`. */
  ghost predicate AcceptedInOrder(s: State, stream: seq<Request>, auth: Auth, clock: nat -> int,
                                  calls: seq<nat>, places: seq<nat>, start: State)
  {
    && |places| == |calls| <= |stream|
    && (forall k :: 0 <= k < |calls| ==> Accepts(s, stream, auth, clock, k, calls[k], places[k]))
    && (forall k :: 0 <= k < |calls| ==> |start.intake.submits| <= calls[k] && |start.intake.sent| <= places[k])
    && (forall j, k :: 0 <= j < k < |calls| ==> calls[j] < calls[k])
    && (forall j, k :: 0 <= j < k < |places| ==> places[j] < places[k])
  }

  lemma StillAccepted(s: State, t: State, stream: seq<Request>, auth: Auth, clock: nat -> int,
                      calls: seq<nat>, places: seq<nat>, start: State)
    requires AcceptedInOrder(s, stream, auth, clock, calls, places, start) && Onward(s, t)
    ensures AcceptedInOrder(t, stream, auth, clock, calls, places, start)
  {
    hide Ended, EntryAt;
  }

  /** One more message, accepted by a later call and sent later. */
  lemma OneMoreAccepted(s: State, t: State, stream: seq<Request>, auth: Auth, clock: nat -> int,
                        calls: seq<nat>, places: seq<nat>, start: State, i: nat, at: nat)
    requires AcceptedInOrder(s, stream, auth, clock, calls, places, start) && Onward(start, s) && Onward(s, t)
    requires |calls| < |stream| && Accepts(t, stream, auth, clock, |calls|, i, at)
    requires |s.intake.submits| <= i && |s.intake.sent| <= at
    ensures AcceptedInOrder(t, stream, auth, clock, calls + [i], places + [at], start)
  {
    StillAccepted(s, t, stream, auth, clock, calls, places, start);
    assert |start.intake.submits| <= |s.intake.submits| && |start.intake.sent| <= |s.intake.sent|;
    hide Onward, Accepts;
    assert forall k :: 0 <= k < |calls| ==> calls[k] < i && places[k] < at by {
      Bounded(s, stream, auth, clock, calls, places, start);
    }
  }

  lemma Bounded(s: State, stream: seq<Request>, auth: Auth, clock: nat -> int,
                calls: seq<nat>, places: seq<nat>, start: State)
    requires AcceptedInOrder(s, stream, auth, clock, calls, places, start)
    ensures forall k :: 0 <= k < |calls| ==> calls[k] < |s.intake.submits| && places[k] < |s.intake.sent|
  {
    forall k | 0 <= k < |calls|
      ensures calls[k] < |s.intake.submits| && places[k] < |s.intake.sent|
    {
      assert Accepts(s, stream, auth, clock, k, calls[k], places[k]);
    }
  }

  lemma NoneYet(s: State, stream: seq<Request>, auth: Auth, clock: nat -> int, start: State)
    ensures AcceptedInOrder(s, stream, auth, clock, [], [], start)
  {
  }

  /** What the loop's `username` is before message k. */
  ghost predicate KnownBefore(stream: seq<Request>, auth: Auth, k: nat, username: string)
    requires k <= |stream|
  {
    if k == 0 then username == "" else Name(stream, auth, k - 1) == Some(username)
  }

  lemma NextName(stream: seq<Request>, auth: Auth, k: nat, username: string)
    requires k < |stream| && KnownBefore(stream, auth, k, username)
    ensures Name(stream, auth, k) == if username != "" then Some(username) else auth(stream[k].token)
    ensures Name(stream, auth, k).Some? ==> KnownBefore(stream, auth, k + 1, Name(stream, auth, k).value)
  {
  }

  function Numbers(calls: seq<nat>): set<nat> {
    set i | i in calls
  }

  /** Every call that the stream's goroutine has made since it held those in `earlier`:
      those that were accepted and at most one more, for the message after them, which
      has sent nothing. */
  ghost predicate CallsAre(submits: seq<Submit>, me: nat, earlier: set<nat>, calls: seq<nat>, tried: Option<nat>) {
    && MadeBy(submits, me) == earlier + Numbers(calls) + (if tried.Some? then {tried.value} else {})
    && (tried.Some? ==> tried.value !in calls && tried.value < |submits| && SentBy(submits[tried.value]) == [])
  }

  /** Each call so far submitted its message: under the name resolved for it, with the
      message's own level, text and source, and the client's time if that is positive,
      else the server's. */
  ghost predicate Tells(submits: seq<Submit>, stream: seq<Request>, auth: Auth, clock: nat -> int, calls: seq<nat>) {
    && |calls| <= |stream|
    && forall k :: 0 <= k < |calls| ==>
      && calls[k] < |submits|
      && var e := submits[calls[k]].entry;
         && Name(stream, auth, k) == Some(e.username)
         && e.level == stream[k].level && e.message == stream[k].message && e.source == stream[k].source
         && e.loggedAt == (if stream[k].unixMs > 0 then stream[k].unixMs else clock(k))
  }

  lemma AcceptedTells(s: State, stream: seq<Request>, auth: Auth, clock: nat -> int,
                      calls: seq<nat>, places: seq<nat>, start: State)
    requires AcceptedInOrder(s, stream, auth, clock, calls, places, start)
    ensures Tells(s.intake.submits, stream, auth, clock, calls)
  {
    forall k | 0 <= k < |calls|
      ensures Accepts(s, stream, auth, clock, k, calls[k], places[k])
    {
    }
  }

  /** The stream makes one more call. */
  lemma OneMoreCall(submits: seq<Submit>, later: seq<Submit>, me: nat, earlier: set<nat>, calls: seq<nat>, i: nat)
    requires CallsAre(submits, me, earlier, calls, None)
    requires |submits| <= i < |later| && MadeBy(later, me) == MadeBy(submits, me) + {i}
    ensures CallsAre(later, me, earlier, calls + [i], None)
    ensures SentBy(later[i]) == [] ==> CallsAre(later, me, earlier, calls, Some(i))
  {
    assert Numbers(calls + [i]) == Numbers(calls) + {i};
    assert i !in MadeBy(submits, me) && Numbers(calls) <= MadeBy(submits, me);
    assert i !in Numbers(calls);
  }

  /** The loop waits for the client while others run. */
  method Wait(ingest: LogIngestor, ghost me: nat, ghost start: State, ghost stream: seq<Request>, ghost auth: Auth,
              ghost clock: nat -> int, ghost calls: seq<nat>, ghost places: seq<nat>)
    requires ingest.Valid() && Onward(start, ingest.model)
    requires AcceptedInOrder(ingest.model, stream, auth, clock, calls, places, start)
    modifies ingest, ingest.db
    ensures ingest.Valid() && old(ingest.trace) <= ingest.trace && Onward(start, ingest.model)
    ensures AcceptedInOrder(ingest.model, stream, auth, clock, calls, places, start)
    ensures MadeBy(ingest.submits, me) == MadeBy(old(ingest.submits), me)
  {
    hide IsRun, Init, AcceptedInOrder, Holds;
    ghost var m := ingest.model;
    ingest.Others(TheClient(me));
    OnwardThen(start, m, ingest.model);
    StillAccepted(m, ingest.model, stream, auth, clock, calls, places, start);
  }

  /** Submit one message under the name known by now. */
  method SubmitNext(ingest: LogIngestor, me: nat, stream: seq<Request>, k: nat, ghost auth: Auth, clock: nat -> int,
                    username: string, cancelled: bool, patience: nat, ghost start: State,
                    ghost calls: seq<nat>, ghost places: seq<nat>, ghost earlier: set<nat>)
    returns (r: SubmitResult, ghost i: nat, ghost at: nat)
    requires ingest.Valid() && Onward(start, ingest.model)
    requires AcceptedInOrder(ingest.model, stream, auth, clock, calls, places, start)
    requires CallsAre(ingest.submits, me, earlier, calls, None)
    requires k == |calls| < |stream| && Name(stream, auth, k) == Some(username)
    modifies ingest, ingest.db
    ensures ingest.Valid() && old(ingest.trace) <= ingest.trace && Onward(start, ingest.model)
    ensures r.Ok? ==>
      && AcceptedInOrder(ingest.model, stream, auth, clock, calls + [i], places + [at], start)
      && CallsAre(ingest.submits, me, earlier, calls + [i], None)
    ensures !r.Ok? ==>
      && AcceptedInOrder(ingest.model, stream, auth, clock, calls, places, start)
      && CallsAre(ingest.submits, me, earlier, calls, Some(i))
      && (if r.Pending? then |ingest.ingest| >= ingest.cfg.queueSize && !cancelled else ingest.stopping || cancelled)
  {
    hide IsRun, Init, Holds, Onward, AcceptedInOrder, CallsAre, MadeBy, Name, EntryFor;
    ghost var m := ingest.model;
    var entry := EntryFor(username, stream[k], clock(k));
    var j;
    r, j, at := ingest.Submit(me, entry, cancelled, patience);
    i := j;
    OnwardThen(start, m, ingest.model);
    OneMoreCall(m.intake.submits, ingest.submits, me, earlier, calls, i);
    if r.Ok? {
      OneMoreAccepted(m, ingest.model, stream, auth, clock, calls, places, start, i, at);
    } else {
      StillAccepted(m, ingest.model, stream, auth, clock, calls, places, start);
    }
  }

  /** The second Stats, once every message is accepted. */
  method LastStats(ingest: LogIngestor, ghost me: nat, ghost stream: seq<Request>, ghost auth: Auth,
                   ghost clock: nat -> int, ghost before: Loads, ghost calls: seq<nat>, ghost places: seq<nat>,
                   ghost earlier: set<nat>)
    returns (last: Snapshot, ghost after: Loads)
    requires ingest.Valid() && Onward(before.written, before.retries) && Onward(before.retries, ingest.model)
    requires AcceptedInOrder(ingest.model, stream, auth, clock, calls, places, before.retries)
    requires CallsAre(ingest.submits, me, earlier, calls, None)
    modifies ingest, ingest.db
    ensures ingest.Valid() && old(ingest.trace) <= ingest.trace
    ensures AcceptedInOrder(after.written, stream, auth, clock, calls, places, before.retries)
    ensures AcceptedInOrder(ingest.model, stream, auth, clock, calls, places, before.retries)
    ensures CallsAre(ingest.submits, me, earlier, calls, None)
    ensures Onward(after.written, after.retries) && Onward(after.retries, ingest.model)
    ensures last.written == after.written.pool.written >= before.written.pool.written
    ensures last.retries == after.retries.pool.retries >= before.retries.pool.retries
  {
    hide IsRun, Init, Holds, Onward, AcceptedInOrder, CallsAre, MadeBy, Unwritten, Uncounted, Quiet;
    ghost var submits, m := ingest.submits, ingest.model;
    last, after := ingest.Stats(TheClient(me));
    SameCalls(submits, ingest.submits, me, earlier, calls);
    StillAccepted(m, after.written, stream, auth, clock, calls, places, before.retries);
    Rise(before, before.retries, m, after, ingest.model);
    StillAccepted(after.written, ingest.model, stream, auth, clock, calls, places, before.retries);
  }

  /** `Ingest`, on a stream of messages with other goroutines running in between; `me` is
      its goroutine. The messages taken so far are all in the pipeline, each by exactly
      one call, in order, under the resolved name; the goroutine makes no other call but
      at most one that does not succeed and sends nothing. On end of stream that is
      every message, Accepted is their number, and Written and Retries are the rise of
      the counters of the whole server between the loads of the two Stats, the first
      before any message was sent and the second after all were, so never negative. */
  method Ingest(ingest: LogIngestor, me: nat, stream: seq<Request>, end: End, auth: Auth, clock: nat -> int,
                cancelled: bool, patience: nat)
    returns (answer: Answer, ghost calls: seq<nat>, ghost places: seq<nat>, ghost tried: Option<nat>,
             ghost before: Loads, ghost after: Loads)
    requires ingest.Valid()
    modifies ingest, ingest.db
    ensures ingest.Valid() && old(ingest.trace) <= ingest.trace
    ensures Onward(old(ingest.model), before.written) && Onward(before.written, before.retries)
    ensures AcceptedInOrder(ingest.model, stream, auth, clock, calls, places, before.retries)
    ensures Tells(ingest.submits, stream, auth, clock, calls)
    ensures CallsAre(ingest.submits, me, MadeBy(old(ingest.submits), me), calls, tried)
    ensures tried.Some? <==> answer.SubmitError? || answer.Waiting?
    ensures answer.Summary? ==>
      && end.Eof? && |calls| == |stream| == answer.accepted
      && AcceptedInOrder(after.written, stream, auth, clock, calls, places, before.retries)
      && Onward(after.written, after.retries) && Onward(after.retries, ingest.model)
      && answer.written == after.written.pool.written - before.written.pool.written >= 0
      && answer.retries == after.retries.pool.retries - before.retries.pool.retries >= 0
    ensures answer.StreamError? ==> end.Broken? && |calls| == |stream|
    ensures answer.AuthError? ==> |calls| < |stream| && Name(stream, auth, |calls|).None?
    ensures answer.SubmitError? ==> |calls| < |stream| && (ingest.stopping || cancelled)
    ensures answer.Waiting? ==> |calls| < |stream| && |ingest.ingest| >= ingest.cfg.queueSize && !cancelled
  {
    hide IsRun, Init, Holds, Onward, AcceptedInOrder, Tells, CallsAre, MadeBy, Name, Unwritten, Uncounted, Quiet;
    var username := "";
    var accepted := 0;
    tried, calls, places := None, [], [];
    ghost var earlier := MadeBy(ingest.submits, me);
    var first;
    first, before := ingest.Stats(TheClient(me));
    after := before;
    ghost var start := before.retries;
    OnwardThen(before.written, before.batches, before.retries);
    NoneYet(ingest.model, stream, auth, clock, start);
    NoCallYet(ingest.submits, me);
    for k := 0 to |stream|
      invariant ingest.Valid() && old(ingest.trace) <= ingest.trace && Onward(start, ingest.model)
      invariant accepted == k == |calls|
      invariant AcceptedInOrder(ingest.model, stream, auth, clock, calls, places, start)
      invariant CallsAre(ingest.submits, me, earlier, calls, None)
      invariant KnownBefore(stream, auth, k, username)
    {
      ghost var submits := ingest.submits;
      Wait(ingest, me, start, stream, auth, clock, calls, places);
      SameCalls(submits, ingest.submits, me, earlier, calls);
      NextName(stream, auth, k, username);
      if username == "" {
        var resolved := auth(stream[k].token);
        if resolved.None? {
          answer := AuthError;
          AcceptedTells(ingest.model, stream, auth, clock, calls, places, start);
          return;
        }
        username := resolved.value;
      }
      ghost var i, at;
      var r;
      r, i, at := SubmitNext(ingest, me, stream, k, auth, clock, username, cancelled, patience,
                             start, calls, places, earlier);
      if !r.Ok? {
        tried := Some(i);
        AcceptedTells(ingest.model, stream, auth, clock, calls, places, start);
        answer := if r.Pending? then Answer.Waiting else SubmitError;
        return;
      }
      calls, places := calls + [i], places + [at];
      accepted := accepted + 1;
    }
    ghost var submits := ingest.submits;
    Wait(ingest, me, start, stream, auth, clock, calls, places);
    SameCalls(submits, ingest.submits, me, earlier, calls);
    if end.Broken? {
      AcceptedTells(ingest.model, stream, auth, clock, calls, places, start);
      answer := StreamError;
      return;
    }
    var last;
    last, after := LastStats(ingest, me, stream, auth, clock, before, calls, places, earlier);
    AcceptedTells(ingest.model, stream, auth, clock, calls, places, start);
    answer := Summary(accepted, last.written - first.written, last.retries - first.retries);
  }

  lemma NoCallYet(submits: seq<Submit>, me: nat)
    ensures CallsAre(submits, me, MadeBy(submits, me), [], None)
  {
  }

  lemma SameCalls(submits: seq<Submit>, later: seq<Submit>, me: nat, earlier: set<nat>, calls: seq<nat>)
    requires CallsAre(submits, me, earlier, calls, None) && MadeBy(later, me) == MadeBy(submits, me)
    ensures CallsAre(later, me, earlier, calls, None)
  {
  }

  /** The second Stats loads what is no less than the first loaded. */
  lemma Rise(before: Loads, start: State, m: State, after: Loads, end: State)
    requires Onward(before.written, before.retries) && before.retries == start && Onward(start, m)
    requires Onward(m, after.written) && Onward(after.written, after.batches)
    requires Onward(after.batches, after.retries) && Onward(after.retries, end)
    ensures Onward(after.written, after.retries) && Onward(after.written, end)
    ensures before.written.pool.written <= after.written.pool.written
    ensures before.retries.pool.retries <= after.retries.pool.retries
  {
    OnwardThen(after.written, after.batches, after.retries);
    OnwardThen(after.written, after.retries, end);
    hide Ended;
  }
}
