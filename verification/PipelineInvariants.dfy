/** What holds in every reachable state of the pipeline, one concern at a time. */
module PipelineInvariants {
  import opened Domain
  import opened Sequences
  import opened Pipeline
  import Backoff

  // ----- what each goroutine holds -----

  /** The batch the dispatcher is trying to hand over. */
  function Out(p: Phase): seq<Batch> {
    if p.Handing? then [p.out] else []
  }

  /** The batch a worker has received and not yet disposed of. */
  function HeldBy(w: Worker): seq<Batch> {
    match w
    case Attempting(b, _, _) => [b]
    case Failed(b, _, _) => [b]
    case Retrying(b, _, _) => [b]
    case Waiting(b, _, _) => [b]
    case _ => []
  }

  /** The batch a worker has inserted but not yet added to `written`. */
  function UnwrittenBy(w: Worker): seq<Batch> {
    if w.Landed? then [w.batch] else []
  }

  /** A batch inserted but not yet added to `batchCnt`. */
  function UncountedBy(w: Worker): seq<Batch> {
    if w.Landed? || w.Tallied? then [w.batch] else []
  }

  /** A failed attempt not yet added to `retries`. */
  function UnjudgedBy(w: Worker): seq<Batch> {
    if w.Failed? || w.Retrying? then [w.batch] else []
  }

  /** What a Submit call has put into `ingest`. */
  function SentBy(c: Submit): seq<LogEntry> {
    if c.phase.Sent? || c.phase.Accepted? then [c.entry] else []
  }

  /** A send not yet added to `accepted`. */
  function UnacceptedBy(c: Submit): seq<LogEntry> {
    if c.phase.Sent? then [c.entry] else []
  }

  /** A worker with a batch in its hands, inserted or not. */
  predicate Busy(w: Worker) {
    w.Attempting? || w.Failed? || w.Retrying? || w.Waiting? || w.Landed? || w.Tallied?
  }

  // ----- the invariant -----

  /** The dispatcher has seen `ingest` empty while draining. */
  predicate PastDrain(p: Phase) {
    p.Closing? || p.Exited? || (p.Handing? && p.after.ToClose?)
  }

  /** The dispatcher: `batches` closed exactly when it has exited, never sent to or
      closed again, every batch cut within bounds, and the shutdown order. */
  ghost predicate DispatcherShape(cfg: Config, d: Dispatcher, stopping: bool, aborted: bool) {
    && (d.closed <==> d.phase.Exited?)
    && !d.panicked
    && |d.batch| < cfg.batchSize
    && (d.batch != [] ==> d.phase.Looping? || d.phase.Finishing?)
    && (forall b :: b in d.cuts ==> 1 <= |b| <= cfg.batchSize)
    && (d.phase.Handing? ==> 1 <= |d.phase.out| <= cfg.batchSize)
    && (!stopping && !aborted ==>
          d.phase.Unstarted? || d.phase.Looping? || (d.phase.Handing? && d.phase.after.ToLoop?))
    && (!aborted && PastDrain(d.phase) ==> stopping)
  }

  /** The channel of batches and the life of the workers. */
  ghost predicate PoolShape(cfg: Config, p: Phase, batches: seq<Batch>, workers: seq<Worker>) {
    && |batches| <= Slots(cfg)
    && (forall b :: b in batches ==> 1 <= |b| <= cfg.batchSize)
    && (forall w :: 0 <= w < |workers| && Busy(workers[w]) ==> 1 <= |workers[w].batch| <= cfg.batchSize)
    && (p.Unstarted? ==> batches == [])
    && |workers| == cfg.workers
    && (forall w :: 0 <= w < |workers| ==> (workers[w].Asleep? <==> p.Unstarted?))
    && (forall w :: 0 <= w < |workers| && workers[w].Gone? ==> p.Exited? && batches == [])
  }

  /** Order: what was sent is what was cut, then the batch in the making, then
      what still waits in `ingest`. */
  ghost predicate Ordered(sent: seq<LogEntry>, queue: seq<LogEntry>, cuts: seq<Batch>, batch: Batch) {
    sent == Flatten(cuts) + batch + queue
  }

  /** Every batch cut was received by a worker, waits for one, is being handed
      over, or was given up; without an abort nothing is given up and batches
      arrive in order. */
  ghost predicate CutFates(cuts: seq<Batch>, drops: seq<Batch>, out: seq<Batch>, batches: seq<Batch>,
                           taken: seq<Batch>, aborted: bool)
  {
    && multiset(cuts) == multiset(taken) + multiset(batches) + multiset(out) + multiset(drops)
    && (!aborted ==> drops == [] && cuts == taken + batches + out)
  }

  /** Every batch received is held, inserted, or given up. */
  ghost predicate WorkFates(held: seq<Batch>, taken: seq<Batch>, acked: seq<Batch>, drops: seq<Batch>, aborted: bool) {
    && multiset(taken) == multiset(held) + multiset(acked) + multiset(drops)
    && (!aborted ==> drops == [])
  }

  /** The table is the inserted batches, each contiguous; every insertion is one
      attempt, and only lost acknowledgements insert without saying so. */
  ghost predicate Stored(cfg: Config, r: Repo) {
    && r.table == Flatten(r.stored)
    && multiset(r.stored) == multiset(r.acked) + multiset(r.unacked)
    && multiset(r.stored) <= multiset(r.attempted)
    && |r.attempted| == |r.acked| + r.failures
    && |r.unacked| <= r.failures
    && (r.unacked == [] ==> r.stored == r.acked)
    && (forall b :: b in r.stored ==> 1 <= |b| <= cfg.batchSize)
  }

  /** `accepted` lags the sends by the calls between send and count, and nothing
      is sent that no Submit call was given. */
  ghost predicate IntakeCounts(cfg: Config, k: Intake) {
    && |k.queue| <= cfg.queueSize
    && k.accepted + |Gather(k.submits, UnacceptedBy)| == |k.sent|
    && SentFrom(k.sent, k.submits)
  }

  ghost predicate SentFrom(sent: seq<LogEntry>, submits: seq<Submit>) {
    multiset(sent) == multiset(Gather(submits, SentBy))
  }

  /** `written` lags by the rows inserted and not yet added. */
  ghost predicate RowCount(written: int, workers: seq<Worker>, acked: seq<Batch>) {
    written + |Flatten(Gather(workers, UnwrittenBy))| == |Flatten(acked)|
  }

  /** `batchCnt` lags by the batches inserted and not yet added. */
  ghost predicate BatchTally(batchCount: int, workers: seq<Worker>, acked: seq<Batch>) {
    batchCount + |Gather(workers, UncountedBy)| == |acked|
  }

  /** `retries` lags by the failures not yet counted; an abort leaves some out. */
  ghost predicate RetryCount(retries: int, workers: seq<Worker>, failures: nat, aborted: bool) {
    && retries + |Gather(workers, UnjudgedBy)| <= failures
    && (!aborted ==> retries + |Gather(workers, UnjudgedBy)| == failures)
  }

  ghost predicate PoolCounts(p: Pool, acked: seq<Batch>, failures: nat, aborted: bool) {
    && RowCount(p.written, p.workers, acked)
    && BatchTally(p.batchCount, p.workers, acked)
    && RetryCount(p.retries, p.workers, failures, aborted)
  }

  /** Everything sent before Stop is received before the drain ends. */
  ghost predicate Marks(k: Intake, d: Dispatcher, stopping: bool, aborted: bool, stopAt: nat) {
    && (stopping ==> stopAt <= |k.sent|)
    && (PastDrain(d.phase) && !aborted ==> stopAt <= d.drainAt <= |k.sent| && k.queue == k.sent[d.drainAt..])
  }

  /** Each worker's delay is the one its attempt number calls for. */
  ghost predicate Delays(cfg: Config, workers: seq<Worker>) {
    forall w :: 0 <= w < |workers| && |HeldBy(workers[w])| > 0 ==>
      && workers[w].attempt >= 1
      && workers[w].backoff == Backoff.Delay(cfg.minBackoff, cfg.maxBackoff, workers[w].attempt - 1)
  }

  /** BulkInsert is only ever called on a batch that a worker has received. */
  ghost predicate Tried(attempted: seq<Batch>, taken: seq<Batch>) {
    forall b :: b in attempted ==> b in taken
  }

  ghost predicate Inv(cfg: Config, s: State) {
    && Usable(cfg)
    && DispatcherShape(cfg, s.disp, s.stopping, s.aborted)
    && PoolShape(cfg, s.disp.phase, s.batches, s.pool.workers)
    && Ordered(s.intake.sent, s.intake.queue, s.disp.cuts, s.disp.batch)
    && CutFates(s.disp.cuts, s.disp.drops, Out(s.disp.phase), s.batches, s.pool.taken, s.aborted)
    && WorkFates(Gather(s.pool.workers, HeldBy), s.pool.taken, s.repo.acked, s.pool.drops, s.aborted)
    && Stored(cfg, s.repo)
    && IntakeCounts(cfg, s.intake)
    && PoolCounts(s.pool, s.repo.acked, s.repo.failures, s.aborted)
    && Marks(s.intake, s.disp, s.stopping, s.aborted, s.stopAt)
    && Delays(cfg, s.pool.workers)
    && Tried(s.repo.attempted, s.pool.taken)
  }

  // ----- it holds at the start -----

  lemma NothingHeld(workers: seq<Worker>)
    requires forall w :: w in workers ==> w.Asleep? || w.Idle? || w.Gone?
    ensures Gather(workers, HeldBy) == []
    ensures Gather(workers, UnwrittenBy) == []
    ensures Gather(workers, UncountedBy) == []
    ensures Gather(workers, UnjudgedBy) == []
  {
    GatherNothing(workers, HeldBy);
    GatherNothing(workers, UnwrittenBy);
    GatherNothing(workers, UncountedBy);
    GatherNothing(workers, UnjudgedBy);
  }

  lemma InitInv(cfg: Config)
    requires Usable(cfg)
    ensures Inv(cfg, Init(cfg))
  {
    InitFates(cfg);
    InitCounts(cfg);
    InitShapes(cfg);
    hide CutFates, WorkFates, Stored, IntakeCounts, PoolCounts, DispatcherShape, PoolShape, Delays, Gather;
  }

  lemma InitShapes(cfg: Config)
    requires Usable(cfg)
    ensures var s := Init(cfg);
      && DispatcherShape(cfg, s.disp, s.stopping, s.aborted)
      && PoolShape(cfg, s.disp.phase, s.batches, s.pool.workers)
      && Delays(cfg, s.pool.workers)
  {
  }

  lemma InitFates(cfg: Config)
    requires Usable(cfg)
    ensures var s := Init(cfg);
      && CutFates([], [], [], [], [], false)
      && WorkFates(Gather(s.pool.workers, HeldBy), [], [], [], false)
      && Stored(cfg, s.repo)
  {
    NothingHeld(Init(cfg).pool.workers);
  }

  lemma InitCounts(cfg: Config)
    requires Usable(cfg)
    ensures var s := Init(cfg);
      && IntakeCounts(cfg, s.intake)
      && PoolCounts(s.pool, [], 0, false)
  {
    NothingHeld(Init(cfg).pool.workers);
  }

  // ----- kept by Submit -----

  lemma CallKept(cfg: Config, s: State, caller: nat, entry: LogEntry)
    requires Inv(cfg, s)
    ensures Inv(cfg, Step(cfg, s, Call(caller, entry)))
  {
    hide CutFates, WorkFates, Stored, PoolCounts, DispatcherShape, PoolShape, Delays, Tried;
    GatherSnoc(s.intake.submits, Submit(caller, entry, Called), UnacceptedBy);
    GatherSnoc(s.intake.submits, Submit(caller, entry, Called), SentBy);
  }

  lemma IntakeKept(cfg: Config, k: Intake, stopping: bool, i: nat, a: SubmitAct)
    requires IntakeCounts(cfg, k) && SubmitEnabled(cfg, k, stopping, i, a)
    ensures IntakeCounts(cfg, SubmitStep(k, stopping, i, a))
  {
    hide Gather, SentFrom;
    var after := SubmitStep(k, stopping, i, a);
    assert after.submits == k.submits[i := after.submits[i]];
    UnacceptedChange(k.submits, i, after.submits[i]);
    SentChange(k.sent, k.submits, i, after.submits[i]);
  }

  lemma UnacceptedChange(submits: seq<Submit>, i: nat, c: Submit)
    requires i < |submits|
    ensures |Gather(submits[i := c], UnacceptedBy)| - |UnacceptedBy(c)|
         == |Gather(submits, UnacceptedBy)| - |UnacceptedBy(submits[i])|
  {
    GatherSplit(submits, i, c, UnacceptedBy);
  }

  lemma SentChange(sent: seq<LogEntry>, submits: seq<Submit>, i: nat, c: Submit)
    requires i < |submits| && SentFrom(sent, submits)
    ensures SentBy(c) == SentBy(submits[i]) ==> SentFrom(sent, submits[i := c])
    ensures SentBy(submits[i]) == [] && SentBy(c) == [c.entry] ==> SentFrom(sent + [c.entry], submits[i := c])
  {
    GatherSplit(submits, i, c, SentBy);
  }

  lemma SubmitKept(cfg: Config, s: State, i: nat, a: SubmitAct)
    requires Inv(cfg, s) && SubmitEnabled(cfg, s.intake, s.stopping, i, a)
    ensures Inv(cfg, Step(cfg, s, Submitting(i, a)))
  {
    hide CutFates, WorkFates, Stored, IntakeCounts, PoolCounts, DispatcherShape, PoolShape, Delays, Tried;
    IntakeKept(cfg, s.intake, s.stopping, i, a);
  }

  // ----- kept by the lifecycle -----

  lemma StartKept(cfg: Config, s: State)
    requires Inv(cfg, s) && s.disp.phase.Unstarted?
    ensures Inv(cfg, ControlStep(s, Start))
  {
    hide Stored, IntakeCounts, CutFates, WorkFates, Ordered, Gather;
    NothingHeld(s.pool.workers);
    NothingHeld(ControlStep(s, Start).pool.workers);
  }

  lemma StopKept(cfg: Config, s: State)
    requires Inv(cfg, s) && !s.stopping
    ensures Inv(cfg, ControlStep(s, Stop))
  {
    hide Stored, IntakeCounts, PoolCounts, CutFates, WorkFates, Ordered, PoolShape, Delays, Tried;
  }

  lemma AbortFates(cuts: seq<Batch>, drops: seq<Batch>, out: seq<Batch>, batches: seq<Batch>, taken: seq<Batch>,
                   held: seq<Batch>, acked: seq<Batch>, workDrops: seq<Batch>)
    requires CutFates(cuts, drops, out, batches, taken, false) && WorkFates(held, taken, acked, workDrops, false)
    ensures CutFates(cuts, drops, out, batches, taken, true) && WorkFates(held, taken, acked, workDrops, true)
  {
  }

  lemma AbortKept(cfg: Config, s: State)
    requires Inv(cfg, s) && !s.aborted
    ensures Inv(cfg, ControlStep(s, Abort))
  {
    hide Stored, IntakeCounts, CutFates, WorkFates, Ordered, PoolShape, Delays, Tried;
    AbortFates(s.disp.cuts, s.disp.drops, Out(s.disp.phase), s.batches, s.pool.taken,
               Gather(s.pool.workers, HeldBy), s.repo.acked, s.pool.drops);
  }

  lemma ControlKept(cfg: Config, s: State, a: ControlAct)
    requires Inv(cfg, s) && ControlEnabled(s, a)
    ensures Inv(cfg, ControlStep(s, a))
  {
    hide Inv;
    match a
    case Start => StartKept(cfg, s);
    case Stop => StopKept(cfg, s);
    case Abort => AbortKept(cfg, s);
  }

  // ----- kept by the dispatcher -----

  /** Cutting a batch makes it the one to hand over. */
  lemma CutFate(cuts: seq<Batch>, b: Batch, drops: seq<Batch>, batches: seq<Batch>, taken: seq<Batch>, aborted: bool)
    requires CutFates(cuts, drops, [], batches, taken, aborted)
    ensures CutFates(cuts + [b], drops, [b], batches, taken, aborted)
    ensures aborted ==> CutFates(cuts + [b], drops + [b], [], batches, taken, aborted)
  {
    assert taken + batches + [] + [b] == taken + batches + [b];
  }

  lemma FlushKept(d: Dispatcher, after: After, queue: seq<LogEntry>, sent: seq<LogEntry>,
                  batches: seq<Batch>, taken: seq<Batch>, aborted: bool)
    requires Ordered(sent, queue, d.cuts, d.batch) && !d.phase.Handing?
    requires CutFates(d.cuts, d.drops, [], batches, taken, aborted)
    ensures var e := Flush(d, after);
      Ordered(sent, queue, e.cuts, e.batch) && CutFates(e.cuts, e.drops, Out(e.phase), batches, taken, aborted)
  {
    hide CutFates;
    FlattenSnoc(d.cuts, d.batch);
    CutFate(d.cuts, d.batch, d.drops, batches, taken, aborted);
  }

  lemma AbandonKept(d: Dispatcher, queue: seq<LogEntry>, sent: seq<LogEntry>, batches: seq<Batch>, taken: seq<Batch>)
    requires Ordered(sent, queue, d.cuts, d.batch) && d.phase.Looping?
    requires CutFates(d.cuts, d.drops, [], batches, taken, true)
    ensures var e := Abandon(d);
      Ordered(sent, queue, e.cuts, e.batch) && CutFates(e.cuts, e.drops, Out(e.phase), batches, taken, true)
  {
    hide CutFates;
    FlattenSnoc(d.cuts, d.batch);
    CutFate(d.cuts, d.batch, d.drops, batches, taken, true);
  }

  lemma ReceiveOrdered(sent: seq<LogEntry>, queue: seq<LogEntry>, cuts: seq<Batch>, batch: Batch)
    requires queue != [] && Ordered(sent, queue, cuts, batch)
    ensures Ordered(sent, queue[1..], cuts, batch + [queue[0]])
  {
    assert queue == [queue[0]] + queue[1..];
  }

  lemma AppendShape(cfg: Config, d: Dispatcher, entry: LogEntry, after: After, stopping: bool, aborted: bool)
    requires DispatcherShape(cfg, d, stopping, aborted) && d.phase == Return(after) && !after.ToClose?
    ensures DispatcherShape(cfg, Append(cfg, d, entry, after), stopping, aborted)
    ensures !PastDrain(Append(cfg, d, entry, after).phase)
  {
  }

  lemma QueueShrinks(cfg: Config, k: Intake)
    requires IntakeCounts(cfg, k) && k.queue != []
    ensures IntakeCounts(cfg, k.(queue := k.queue[1..]))
  {
  }

  lemma AppendKept(cfg: Config, s: State, after: After)
    requires Inv(cfg, s) && s.intake.queue != []
    requires s.disp.phase == Return(after) && !after.ToClose?
    ensures Inv(cfg, Advance(s, Append(cfg, s.disp, s.intake.queue[0], after)))
  {
    hide CutFates, WorkFates, Stored, PoolCounts, IntakeCounts, Delays, Tried, Ordered, DispatcherShape;
    AppendShape(cfg, s.disp, s.intake.queue[0], after, s.stopping, s.aborted);
    QueueShrinks(cfg, s.intake);
    var k, e := s.intake, s.disp.(batch := s.disp.batch + [s.intake.queue[0]]);
    ReceiveOrdered(k.sent, k.queue, s.disp.cuts, s.disp.batch);
    FlushKept(e, after, k.queue[1..], k.sent, s.batches, s.pool.taken, s.aborted);
  }

  lemma TickKept(cfg: Config, s: State)
    requires Inv(cfg, s) && s.disp.phase.Looping?
    ensures Inv(cfg, DispatchStep(cfg, s, Tick))
  {
    hide CutFates, Ordered, WorkFates, Stored, PoolCounts, IntakeCounts, Delays, Tried;
    FlushKept(s.disp, ToLoop, s.intake.queue, s.intake.sent, s.batches, s.pool.taken, s.aborted);
  }

  lemma DrainedKept(cfg: Config, s: State)
    requires Inv(cfg, s) && s.disp.phase.Finishing? && s.intake.queue == []
    ensures Inv(cfg, DispatchStep(cfg, s, Drained))
  {
    hide Ordered, CutFates, WorkFates, Stored, PoolCounts, IntakeCounts, Delays, Tried;
    var d := s.disp.(drainAt := |s.intake.sent|);
    FlushKept(d, ToClose, s.intake.queue, s.intake.sent, s.batches, s.pool.taken, s.aborted);
  }

  lemma SeeAbortKept(cfg: Config, s: State)
    requires Inv(cfg, s) && s.disp.phase.Looping? && s.aborted
    ensures Inv(cfg, DispatchStep(cfg, s, SeeAbort))
  {
    hide CutFates, Ordered, WorkFates, Stored, PoolCounts, IntakeCounts, Delays, Tried;
    AbandonKept(s.disp, s.intake.queue, s.intake.sent, s.batches, s.pool.taken);
  }

  /** The batch being handed over goes into the channel, or is given up. */
  lemma OutFate(cuts: seq<Batch>, drops: seq<Batch>, out: Batch, batches: seq<Batch>, taken: seq<Batch>, aborted: bool)
    requires CutFates(cuts, drops, [out], batches, taken, aborted)
    ensures CutFates(cuts, drops, [], batches + [out], taken, aborted)
    ensures aborted ==> CutFates(cuts, drops + [out], [], batches, taken, aborted)
  {
    assert taken + (batches + [out]) + [] == taken + batches + [out];
  }

  lemma HandOverKept(cfg: Config, s: State)
    requires Inv(cfg, s) && DispatchEnabled(cfg, s, HandOver)
    ensures Inv(cfg, DispatchStep(cfg, s, HandOver))
  {
    hide Ordered, CutFates, WorkFates, Stored, PoolCounts, IntakeCounts, Delays, Tried;
    OutFate(s.disp.cuts, s.disp.drops, s.disp.phase.out, s.batches, s.pool.taken, s.aborted);
  }

  lemma GiveUpKept(cfg: Config, s: State)
    requires Inv(cfg, s) && DispatchEnabled(cfg, s, GiveUp)
    ensures Inv(cfg, DispatchStep(cfg, s, GiveUp))
  {
    hide Ordered, CutFates, WorkFates, Stored, PoolCounts, IntakeCounts, Delays, Tried;
    OutFate(s.disp.cuts, s.disp.drops, s.disp.phase.out, s.batches, s.pool.taken, s.aborted);
  }

  /** Moving on without cutting, handing over or giving up a batch. */
  lemma PassKept(cfg: Config, s: State, a: DispatchAct)
    requires Inv(cfg, s) && DispatchEnabled(cfg, s, a) && (a.SeeStop? || a.Close?)
    ensures Inv(cfg, DispatchStep(cfg, s, a))
  {
    hide Ordered, CutFates, WorkFates, Stored, PoolCounts, IntakeCounts, Delays, Tried;
  }

  lemma DispatchKept(cfg: Config, s: State, a: DispatchAct)
    requires Inv(cfg, s) && DispatchEnabled(cfg, s, a)
    ensures Inv(cfg, DispatchStep(cfg, s, a))
  {
    hide Inv;
    match a
    case Take => AppendKept(cfg, s, ToLoop);
    case Drain => AppendKept(cfg, s, ToFinish);
    case Tick => TickKept(cfg, s);
    case Drained => DrainedKept(cfg, s);
    case SeeAbort => SeeAbortKept(cfg, s);
    case HandOver => HandOverKept(cfg, s);
    case GiveUp => GiveUpKept(cfg, s);
    case SeeStop => PassKept(cfg, s, a);
    case Close => PassKept(cfg, s, a);
  }

  // ----- kept by the workers -----

  /** A worker's change moves only what that worker holds. */
  lemma HeldChange(workers: seq<Worker>, w: nat, worker: Worker, b: Batch)
    requires w < |workers|
    ensures var held, next := multiset(Gather(workers, HeldBy)), multiset(Gather(workers[w := worker], HeldBy));
      && (HeldBy(workers[w]) == HeldBy(worker) ==> next == held)
      && (HeldBy(workers[w]) == [] && HeldBy(worker) == [b] ==> next == held + multiset{b})
      && (HeldBy(workers[w]) == [b] && HeldBy(worker) == [] ==> next + multiset{b} == held)
  {
    GatherSplit(workers, w, worker, HeldBy);
  }

  /** The batches held may be reordered; a received batch joins them; a batch that
      is inserted, or after an abort given up, leaves them. */
  lemma HeldFates(held: seq<Batch>, next: seq<Batch>, taken: seq<Batch>, acked: seq<Batch>, drops: seq<Batch>,
                  b: Batch, aborted: bool)
    requires WorkFates(held, taken, acked, drops, aborted)
    ensures multiset(next) == multiset(held) ==> WorkFates(next, taken, acked, drops, aborted)
    ensures multiset(next) == multiset(held) + multiset{b} ==> WorkFates(next, taken + [b], acked, drops, aborted)
    ensures multiset(next) + multiset{b} == multiset(held) ==> WorkFates(next, taken, acked + [b], drops, aborted)
    ensures multiset(next) + multiset{b} == multiset(held) && aborted ==>
      WorkFates(next, taken, acked, drops + [b], aborted)
  {
  }

  /** The fates of the batches received, when one worker changes. */
  lemma HeldStep(workers: seq<Worker>, w: nat, worker: Worker, b: Batch,
                 taken: seq<Batch>, acked: seq<Batch>, drops: seq<Batch>, aborted: bool)
    requires w < |workers| && WorkFates(Gather(workers, HeldBy), taken, acked, drops, aborted)
    ensures var before, after, next := HeldBy(workers[w]), HeldBy(worker), Gather(workers[w := worker], HeldBy);
      && (before == after ==> WorkFates(next, taken, acked, drops, aborted))
      && (before == [] && after == [b] ==> WorkFates(next, taken + [b], acked, drops, aborted))
      && (before == [b] && after == [] ==> WorkFates(next, taken, acked + [b], drops, aborted))
      && (before == [b] && after == [] && aborted ==> WorkFates(next, taken, acked, drops + [b], aborted))
  {
    hide WorkFates, Gather;
    HeldChange(workers, w, worker, b);
    HeldFates(Gather(workers, HeldBy), Gather(workers[w := worker], HeldBy), taken, acked, drops, b, aborted);
  }

  lemma WorkFatesKept(cfg: Config, s: State, w: nat, a: WorkAct)
    requires WorkFates(Gather(s.pool.workers, HeldBy), s.pool.taken, s.repo.acked, s.pool.drops, s.aborted)
    requires WorkEnabled(s, w, a)
    ensures var t := WorkStep(cfg, s, w, a);
      WorkFates(Gather(t.pool.workers, HeldBy), t.pool.taken, t.repo.acked, t.pool.drops, t.aborted)
  {
    hide WorkFates, Gather;
    var t := WorkStep(cfg, s, w, a);
    var before, after := s.pool.workers[w], t.pool.workers[w];
    assert t.pool.workers == s.pool.workers[w := after];
    var b := if a.Receive? then after.batch else if HeldBy(before) == [] then [] else before.batch;
    HeldStep(s.pool.workers, w, after, b, s.pool.taken, s.repo.acked, s.pool.drops, s.aborted);
  }

  /** Receiving moves the head of the channel to the batches received. */
  lemma ReceiveFate(cuts: seq<Batch>, drops: seq<Batch>, out: seq<Batch>, batches: seq<Batch>,
                    taken: seq<Batch>, aborted: bool)
    requires batches != [] && CutFates(cuts, drops, out, batches, taken, aborted)
    ensures CutFates(cuts, drops, out, batches[1..], taken + [batches[0]], aborted)
  {
    assert batches == [batches[0]] + batches[1..];
    assert taken + [batches[0]] + batches[1..] == taken + batches;
  }

  lemma StoredKept(cfg: Config, r: Repo, batch: Batch, outcome: Outcome)
    requires Stored(cfg, r) && 1 <= |batch| <= cfg.batchSize
    ensures Stored(cfg, InsertInto(r, batch, outcome))
  {
    FlattenSnoc(r.stored, batch);
  }

  /** The rows a worker's change takes off, or adds to, those not yet in `written`. */
  lemma UnwrittenSplit(workers: seq<Worker>, w: nat, worker: Worker)
    requires w < |workers|
    ensures |Flatten(Gather(workers[w := worker], UnwrittenBy))| - UnwrittenRows(worker)
         == |Flatten(Gather(workers, UnwrittenBy))| - UnwrittenRows(workers[w])
  {
    GatherSplit(workers, w, worker, UnwrittenBy);
    var left, right := Gather(workers[..w], UnwrittenBy), Gather(workers[w + 1..], UnwrittenBy);
    FlattenConcat(left + UnwrittenBy(worker), right);
    FlattenConcat(left, UnwrittenBy(worker));
    FlattenConcat(left + UnwrittenBy(workers[w]), right);
    FlattenConcat(left, UnwrittenBy(workers[w]));
    if worker.Landed? {
      FlattenOne(worker.batch);
    }
    if workers[w].Landed? {
      FlattenOne(workers[w].batch);
    }
  }

  function UnwrittenRows(worker: Worker): int {
    if worker.Landed? then |worker.batch| else 0
  }

  lemma RowCountKept(cfg: Config, s: State, w: nat, a: WorkAct)
    requires RowCount(s.pool.written, s.pool.workers, s.repo.acked) && WorkEnabled(s, w, a)
    ensures var t := WorkStep(cfg, s, w, a); RowCount(t.pool.written, t.pool.workers, t.repo.acked)
  {
    hide Gather, Flatten;
    var t := WorkStep(cfg, s, w, a);
    assert t.pool.workers == s.pool.workers[w := t.pool.workers[w]];
    UnwrittenSplit(s.pool.workers, w, t.pool.workers[w]);
    if a == Insert(Written) {
      FlattenSnoc(s.repo.acked, s.pool.workers[w].batch);
    }
  }

  lemma TalliesKept(cfg: Config, s: State, w: nat, a: WorkAct)
    requires BatchTally(s.pool.batchCount, s.pool.workers, s.repo.acked)
    requires RetryCount(s.pool.retries, s.pool.workers, s.repo.failures, s.aborted) && WorkEnabled(s, w, a)
    ensures var t := WorkStep(cfg, s, w, a);
      && BatchTally(t.pool.batchCount, t.pool.workers, t.repo.acked)
      && RetryCount(t.pool.retries, t.pool.workers, t.repo.failures, t.aborted)
  {
    hide Gather;
    var t := WorkStep(cfg, s, w, a);
    assert t.pool.workers == s.pool.workers[w := t.pool.workers[w]];
    GatherSplit(s.pool.workers, w, t.pool.workers[w], UncountedBy);
    GatherSplit(s.pool.workers, w, t.pool.workers[w], UnjudgedBy);
  }

  lemma PoolCountsKept(cfg: Config, s: State, w: nat, a: WorkAct)
    requires PoolCounts(s.pool, s.repo.acked, s.repo.failures, s.aborted) && WorkEnabled(s, w, a)
    ensures var t := WorkStep(cfg, s, w, a); PoolCounts(t.pool, t.repo.acked, t.repo.failures, t.aborted)
  {
    hide RowCount, BatchTally, RetryCount;
    RowCountKept(cfg, s, w, a);
    TalliesKept(cfg, s, w, a);
  }

  lemma PoolShapeKept(cfg: Config, s: State, w: nat, a: WorkAct)
    requires s.disp.closed <==> s.disp.phase.Exited?
    requires PoolShape(cfg, s.disp.phase, s.batches, s.pool.workers) && WorkEnabled(s, w, a)
    ensures var t := WorkStep(cfg, s, w, a); PoolShape(cfg, t.disp.phase, t.batches, t.pool.workers)
  {
    var t := WorkStep(cfg, s, w, a);
    var after := t.pool.workers[w];
    assert t.pool.workers == s.pool.workers[w := after];
    assert !s.pool.workers[w].Asleep? && !after.Asleep?;
    assert after.Gone? <==> a.Quit?;
  }

  lemma DelaysKept(cfg: Config, s: State, w: nat, a: WorkAct)
    requires Delays(cfg, s.pool.workers) && WorkEnabled(s, w, a)
    ensures Delays(cfg, WorkStep(cfg, s, w, a).pool.workers)
  {
    var t := WorkStep(cfg, s, w, a);
    assert t.pool.workers == s.pool.workers[w := t.pool.workers[w]];
    assert |HeldBy(s.pool.workers[w])| > 0 || !a.Wake?;
  }

  lemma TriedKept(cfg: Config, s: State, w: nat, a: WorkAct)
    requires WorkFates(Gather(s.pool.workers, HeldBy), s.pool.taken, s.repo.acked, s.pool.drops, s.aborted)
    requires Tried(s.repo.attempted, s.pool.taken) && WorkEnabled(s, w, a)
    ensures Tried(WorkStep(cfg, s, w, a).repo.attempted, WorkStep(cfg, s, w, a).pool.taken)
  {
    if a.Insert? {
      HeldWasTaken(s, w);
    }
    hide WorkFates, Gather, Tried;
    if a.Insert? {
      TriedMore(s.repo.attempted, s.pool.taken, s.pool.workers[w].batch);
    } else if a.Receive? {
      TakenMore(s.repo.attempted, s.pool.taken, s.batches[0]);
    }
  }

  lemma TriedMore(attempted: seq<Batch>, taken: seq<Batch>, b: Batch)
    requires Tried(attempted, taken) && b in taken
    ensures Tried(attempted + [b], taken)
  {
  }

  lemma TakenMore(attempted: seq<Batch>, taken: seq<Batch>, b: Batch)
    requires Tried(attempted, taken)
    ensures Tried(attempted, taken + [b])
  {
  }

  /** What a worker holds it has received. */
  lemma HeldWasTaken(s: State, w: nat)
    requires WorkFates(Gather(s.pool.workers, HeldBy), s.pool.taken, s.repo.acked, s.pool.drops, s.aborted)
    requires w < |s.pool.workers| && HeldBy(s.pool.workers[w]) != []
    ensures s.pool.workers[w].batch in s.pool.taken
  {
    var b := s.pool.workers[w].batch;
    GatherMember(s.pool.workers, HeldBy, b);
    assert b in multiset(s.pool.taken);
  }

  lemma BusySize(cfg: Config, s: State, w: nat)
    requires PoolShape(cfg, s.disp.phase, s.batches, s.pool.workers) && w < |s.pool.workers| && Busy(s.pool.workers[w])
    ensures 1 <= |s.pool.workers[w].batch| <= cfg.batchSize
  {
  }

  lemma ClosedAtExit(cfg: Config, s: State)
    requires DispatcherShape(cfg, s.disp, s.stopping, s.aborted)
    ensures s.disp.closed <==> s.disp.phase.Exited?
  {
  }

  lemma WorkKept(cfg: Config, s: State, w: nat, a: WorkAct)
    requires Inv(cfg, s) && WorkEnabled(s, w, a)
    ensures Inv(cfg, WorkStep(cfg, s, w, a))
  {
    hide Ordered, CutFates, WorkFates, Stored, PoolCounts, IntakeCounts, PoolShape, DispatcherShape;
    hide Delays, Tried, Marks;
    WorkFatesKept(cfg, s, w, a);
    PoolCountsKept(cfg, s, w, a);
    assert s.disp.closed <==> s.disp.phase.Exited? by { ClosedAtExit(cfg, s); }
    PoolShapeKept(cfg, s, w, a);
    DelaysKept(cfg, s, w, a);
    TriedKept(cfg, s, w, a);
    if a.Insert? {
      BusySize(cfg, s, w);
      StoredKept(cfg, s.repo, s.pool.workers[w].batch, a.outcome);
    }
    if a.Receive? {
      ReceiveFate(s.disp.cuts, s.disp.drops, Out(s.disp.phase), s.batches, s.pool.taken, s.aborted);
    }
  }

  /** The invariant is kept by every action of every goroutine. */
  lemma StepInv(cfg: Config, s: State, l: Label)
    requires Inv(cfg, s) && Enabled(cfg, s, l)
    ensures Inv(cfg, Step(cfg, s, l))
  {
    match l
    case Call(caller, entry) => CallKept(cfg, s, caller, entry);
    case Submitting(i, a) => SubmitKept(cfg, s, i, a);
    case Controlling(a) => ControlKept(cfg, s, a);
    case Dispatching(a) => DispatchKept(cfg, s, a);
    case Working(w, a) => WorkKept(cfg, s, w, a);
  }

  lemma {:induction false} RunInv(cfg: Config, s: State, labels: seq<Label>, t: State)
    requires Inv(cfg, s) && IsRun(cfg, s, labels, t)
    ensures Inv(cfg, t)
    decreases |labels|
  {
    if labels == [] {
    } else {
      StepInv(cfg, s, labels[0]);
      RunInv(cfg, Step(cfg, s, labels[0]), labels[1..], t);
    }
  }

  /** A state some run from the start leads to. */
  ghost predicate Reachable(cfg: Config, s: State) {
    Usable(cfg) && exists labels :: IsRun(cfg, Init(cfg), labels, s)
  }

  lemma ReachableInv(cfg: Config, s: State)
    requires Reachable(cfg, s)
    ensures Inv(cfg, s)
  {
    var labels :| IsRun(cfg, Init(cfg), labels, s);
    InitInv(cfg);
    RunInv(cfg, Init(cfg), labels, s);
  }
}
