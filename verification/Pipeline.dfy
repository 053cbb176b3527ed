/** The log-ingestion pipeline as a transition system: any number of Submit
    calls, the dispatcher, the workers, Stop and the hard abort, interleaved one
    atomic action at a time. A channel is its buffer; a `select` is a choice among
    the actions that are enabled. */
module Pipeline {
  import opened Domain
  import Backoff

  /** The tuning of the pipeline; durations are int64 nanoseconds. */
  datatype Config = Config(
    batchSize: int, flushWindow: int, workers: int, queueSize: int, minBackoff: int, maxBackoff: int)

  const SECOND: int := 1_000_000_000

  const DEFAULT_CONFIG := Config(500, 2 * SECOND, 4, 8192, 100_000_000, 2 * SECOND)

  /** What the pipeline relies on. */
  predicate Usable(cfg: Config) {
    && 1 <= cfg.batchSize <= cfg.queueSize
    && 1 <= cfg.workers
    && 1 <= cfg.flushWindow
    && 1 <= cfg.minBackoff <= cfg.maxBackoff
  }

  /** No size in `a` is above its counterpart in `b`. */
  predicate SizesWithin(a: Config, b: Config) {
    a.batchSize <= b.batchSize && a.workers <= b.workers && a.queueSize <= b.queueSize
  }

  /** What the constructor makes of a requested configuration: the sizes of the least
      usable one that is no smaller; durations as requested if positive, else one
      second or 100 milliseconds; and a usable request is left as it is. */
  function Normalise(cfg: Config): (r: Config)
    ensures Usable(r)
    ensures Usable(cfg) <==> r == cfg
    ensures SizesWithin(cfg, r) && forall u :: Usable(u) && SizesWithin(cfg, u) ==> SizesWithin(r, u)
    ensures r.flushWindow == (if 1 <= cfg.flushWindow then cfg.flushWindow else 1_000_000_000)
    ensures r.minBackoff == (if 1 <= cfg.minBackoff then cfg.minBackoff else 100_000_000)
    ensures r.maxBackoff == cfg.maxBackoff || cfg.maxBackoff < r.maxBackoff == r.minBackoff
  {
    var batchSize := if cfg.batchSize <= 0 then 1 else cfg.batchSize;
    var minBackoff := if cfg.minBackoff <= 0 then 100_000_000 else cfg.minBackoff;
    Config(
      batchSize,
      if cfg.flushWindow <= 0 then SECOND else cfg.flushWindow,
      if cfg.workers <= 0 then 1 else cfg.workers,
      if cfg.queueSize < batchSize then batchSize else cfg.queueSize,
      minBackoff,
      if cfg.maxBackoff < minBackoff then minBackoff else cfg.maxBackoff)
  }

  /** The capacity of the channel of batches. */
  function Slots(cfg: Config): int {
    cfg.workers * 2
  }

  // ----- the state, one record per owner -----

  /** Where one Submit call stands. `Sent` is between the send and the counter. */
  datatype SubmitPhase = Called | Checked | Sent | Accepted | Stopped | Cancelled

  /** One Submit call; `caller` records which goroutine made it. */
  datatype Submit = Submit(caller: nat, entry: LogEntry, phase: SubmitPhase)

  /** The Submit calls, the channel `ingest` they send to and the counter they
      raise; `sent` records every entry sent, in order. */
  datatype Intake = Intake(queue: seq<LogEntry>, submits: seq<Submit>, accepted: int, sent: seq<LogEntry>)

  /** Where the dispatcher goes once `flush` has returned true. */
  datatype After = ToLoop | ToFinish | ToClose

  datatype Phase =
    | Unstarted
    | Looping
    | Handing(out: Batch, after: After)
    | Finishing
    | Closing
    | Exited

  /** The dispatcher and the closing of `batches`; `panicked` is a send on a closed
      channel or a second close. Recorded: the batches cut, those given up, and how
      many entries had been sent when the drain saw `ingest` empty. */
  datatype Dispatcher = Dispatcher(
    phase: Phase, batch: Batch, closed: bool, panicked: bool,
    cuts: seq<Batch>, drops: seq<Batch>, drainAt: nat)

  /** Where one worker stands; `Landed` and `Tallied` are before the first and
      before the second of its two counter updates, `Failed` is before the check of
      the hard context and `Retrying` between that check and the retry counter. */
  datatype Worker =
    | Asleep
    | Idle
    | Attempting(batch: Batch, attempt: nat, backoff: int)
    | Failed(batch: Batch, attempt: nat, backoff: int)
    | Retrying(batch: Batch, attempt: nat, backoff: int)
    | Waiting(batch: Batch, attempt: nat, backoff: int)
    | Landed(batch: Batch)
    | Tallied(batch: Batch)
    | Gone

  /** The workers and their counters. Recorded: the batches received, in order,
      and those given up. */
  datatype Pool = Pool(
    workers: seq<Worker>, written: int, batchCount: int, retries: int,
    taken: seq<Batch>, drops: seq<Batch>)

  /** The repository. Recorded: the batches inserted in table order, split into the
      acknowledged and the others, the batch of every BulkInsert call, and how many
      calls returned an error. */
  datatype Repo = Repo(
    table: seq<LogEntry>,
    stored: seq<Batch>, acked: seq<Batch>, unacked: seq<Batch>, attempted: seq<Batch>, failures: nat)

  /** `stopAt` records how many entries had been sent when Stop was called. */
  datatype State = State(
    intake: Intake, batches: seq<Batch>, disp: Dispatcher, pool: Pool, repo: Repo,
    stopping: bool, aborted: bool, stopAt: nat)

  function Init(cfg: Config): State
    requires Usable(cfg)
  {
    State(Intake([], [], 0, []), [], Dispatcher(Unstarted, [], false, false, [], [], 0),
          Pool(seq(cfg.workers, _ => Asleep), 0, 0, 0, [], []), Repo([], [], [], [], [], 0),
          false, false, 0)
  }

  // ----- the actions -----

  datatype SubmitAct = Check | Send | Count | SeeStopping | CtxDone

  datatype ControlAct = Start | Stop | Abort

  datatype DispatchAct = Take | Tick | SeeStop | SeeAbort | HandOver | GiveUp | Drain | Drained | Close

  datatype WorkAct =
    | Receive
    | Quit
    | Insert(outcome: Outcome)
    | AddWritten
    | AddBatch
    | Judge
    | AddRetry
    | Wake
    | WakeAborted

  /** One atomic action: a new Submit call, or a step of Submit call `i`, of the
      lifecycle, of the dispatcher, or of worker `w`. */
  datatype Label =
    | Call(caller: nat, entry: LogEntry)
    | Submitting(i: nat, s: SubmitAct)
    | Controlling(c: ControlAct)
    | Dispatching(d: DispatchAct)
    | Working(w: nat, a: WorkAct)

  // ----- Submit -----

  predicate SubmitEnabled(cfg: Config, k: Intake, stopping: bool, i: nat, a: SubmitAct) {
    && i < |k.submits|
    && match a
       case Check => k.submits[i].phase.Called?
       case Send => k.submits[i].phase.Checked? && |k.queue| < cfg.queueSize
       case Count => k.submits[i].phase.Sent?
       case SeeStopping => k.submits[i].phase.Checked? && stopping
       case CtxDone => k.submits[i].phase.Checked?
  }

  function Move(k: Intake, i: nat, phase: SubmitPhase): Intake
    requires i < |k.submits|
  {
    k.(submits := k.submits[i := k.submits[i].(phase := phase)])
  }

  function SubmitStep(k: Intake, stopping: bool, i: nat, a: SubmitAct): Intake
    requires i < |k.submits|
  {
    match a
    case Check => Move(k, i, if stopping then Stopped else Checked)
    case Send => Move(k, i, Sent).(queue := k.queue + [k.submits[i].entry], sent := k.sent + [k.submits[i].entry])
    case Count => Move(k, i, Accepted).(accepted := k.accepted + 1)
    case SeeStopping => Move(k, i, Stopped)
    case CtxDone => Move(k, i, Cancelled)
  }

  // ----- Start, Stop, abort -----

  predicate ControlEnabled(s: State, a: ControlAct) {
    match a
    case Start => s.disp.phase.Unstarted?
    case Stop => !s.stopping
    case Abort => !s.aborted
  }

  function ControlStep(s: State, a: ControlAct): State {
    match a
    case Start =>
      s.(disp := s.disp.(phase := Looping), pool := s.pool.(workers := seq(|s.pool.workers|, _ => Idle)))
    case Stop => s.(stopping := true, stopAt := |s.intake.sent|)
    case Abort => s.(aborted := true)
  }

  // ----- the dispatcher -----

  function Return(after: After): Phase {
    match after
    case ToLoop => Looping
    case ToFinish => Finishing
    case ToClose => Closing
  }

  /** The entry of `flush`: an empty batch returns at once, any other becomes the
      batch to hand over and leaves `batch` empty. */
  function Flush(d: Dispatcher, after: After): Dispatcher {
    if d.batch == [] then d.(phase := Return(after))
    else d.(phase := Handing(d.batch, after), batch := [], cuts := d.cuts + [d.batch])
  }

  /** Append one entry; flush if that completes a batch. */
  function Append(cfg: Config, d: Dispatcher, entry: LogEntry, after: After): Dispatcher {
    var e := d.(batch := d.batch + [entry]);
    if |e.batch| >= cfg.batchSize then Flush(e, after) else e
  }

  /** The batch in the making goes down with the dispatcher. */
  function Abandon(d: Dispatcher): Dispatcher {
    if d.batch == [] then d.(phase := Closing)
    else d.(phase := Closing, batch := [], cuts := d.cuts + [d.batch], drops := d.drops + [d.batch])
  }

  predicate DispatchEnabled(cfg: Config, s: State, a: DispatchAct) {
    var p := s.disp.phase;
    match a
    case Take => p.Looping? && s.intake.queue != []
    case Tick => p.Looping?
    case SeeStop => p.Looping? && s.stopping
    case SeeAbort => p.Looping? && s.aborted
    case HandOver => p.Handing? && |s.batches| < Slots(cfg)
    case GiveUp => p.Handing? && s.aborted
    case Drain => p.Finishing? && s.intake.queue != []
    case Drained => p.Finishing? && s.intake.queue == []
    case Close => p.Closing?
  }

  function DispatchStep(cfg: Config, s: State, a: DispatchAct): State
    requires DispatchEnabled(cfg, s, a)
  {
    var d := s.disp;
    match a
    case Take => Advance(s, Append(cfg, d, s.intake.queue[0], ToLoop))
    case Tick => s.(disp := Flush(d, ToLoop))
    case SeeStop => s.(disp := d.(phase := Finishing))
    case SeeAbort => s.(disp := Abandon(d))
    case HandOver =>
      s.(batches := s.batches + [d.phase.out],
         disp := d.(phase := Return(d.phase.after), panicked := d.panicked || d.closed))
    case GiveUp =>
      s.(disp := d.(phase := if d.phase.after.ToLoop? then Finishing else Closing, drops := d.drops + [d.phase.out]))
    case Drain => Advance(s, Append(cfg, d, s.intake.queue[0], ToFinish))
    case Drained => s.(disp := Flush(d.(drainAt := |s.intake.sent|), ToClose))
    case Close => s.(disp := d.(phase := Exited, closed := true, panicked := d.panicked || d.closed))
  }

  /** The dispatcher has received the head of `ingest`. */
  function Advance(s: State, d: Dispatcher): State
    requires s.intake.queue != []
  {
    s.(intake := s.intake.(queue := s.intake.queue[1..]), disp := d)
  }

  // ----- the workers -----

  predicate WorkEnabled(s: State, w: nat, a: WorkAct) {
    && w < |s.pool.workers|
    && match a
       case Receive => s.pool.workers[w].Idle? && s.batches != []
       case Quit => s.pool.workers[w].Idle? && s.batches == [] && s.disp.closed
       case Insert(_) => s.pool.workers[w].Attempting?
       case AddWritten => s.pool.workers[w].Landed?
       case AddBatch => s.pool.workers[w].Tallied?
       case Judge => s.pool.workers[w].Failed?
       case AddRetry => s.pool.workers[w].Retrying?
       case Wake => s.pool.workers[w].Waiting?
       case WakeAborted => s.pool.workers[w].Waiting? && s.aborted
  }

  function Become(p: Pool, w: nat, worker: Worker): Pool
    requires w < |p.workers|
  {
    p.(workers := p.workers[w := worker])
  }

  function WorkStep(cfg: Config, s: State, w: nat, a: WorkAct): State
    requires WorkEnabled(s, w, a)
  {
    var p := s.pool;
    var wk := p.workers[w];
    match a
    case Receive =>
      var batch := s.batches[0];
      s.(batches := s.batches[1..],
         pool := Become(p, w, Attempting(batch, 1, cfg.minBackoff)).(taken := p.taken + [batch]))
    case Quit => s.(pool := Become(p, w, Gone))
    case Insert(outcome) =>
      s.(pool := Become(p, w, if outcome.Written? then Landed(wk.batch) else Failed(wk.batch, wk.attempt, wk.backoff)),
         repo := InsertInto(s.repo, wk.batch, outcome))
    case AddWritten => s.(pool := Become(p, w, Tallied(wk.batch)).(written := p.written + |wk.batch|))
    case AddBatch => s.(pool := Become(p, w, Idle).(batchCount := p.batchCount + 1))
    case Judge =>
      if s.aborted then s.(pool := Become(p, w, Idle).(drops := p.drops + [wk.batch]))
      else s.(pool := Become(p, w, Retrying(wk.batch, wk.attempt, wk.backoff)))
    case AddRetry =>
      s.(pool := Become(p, w, Waiting(wk.batch, wk.attempt, wk.backoff)).(retries := p.retries + 1))
    case Wake =>
      s.(pool := Become(p, w, Attempting(wk.batch, wk.attempt + 1, Backoff.Next(wk.backoff, cfg.maxBackoff))))
    case WakeAborted => s.(pool := Become(p, w, Idle).(drops := p.drops + [wk.batch]))
  }

  /** One BulkInsert call: all of the batch or none of it reaches the table. */
  function InsertInto(r: Repo, batch: Batch, outcome: Outcome): Repo {
    var tried := r.(attempted := r.attempted + [batch]);
    match outcome
    case Written =>
      tried.(table := r.table + batch, stored := r.stored + [batch], acked := r.acked + [batch])
    case Refused => tried.(failures := r.failures + 1)
    case LostAck =>
      tried.(table := r.table + batch, stored := r.stored + [batch], unacked := r.unacked + [batch],
             failures := r.failures + 1)
  }

  // ----- steps and runs -----

  predicate Enabled(cfg: Config, s: State, l: Label) {
    match l
    case Call(_, _) => true
    case Submitting(i, a) => SubmitEnabled(cfg, s.intake, s.stopping, i, a)
    case Controlling(a) => ControlEnabled(s, a)
    case Dispatching(a) => DispatchEnabled(cfg, s, a)
    case Working(w, a) => WorkEnabled(s, w, a)
  }

  function Step(cfg: Config, s: State, l: Label): State
    requires Enabled(cfg, s, l)
  {
    match l
    case Call(caller, entry) =>
      s.(intake := s.intake.(submits := s.intake.submits + [Submit(caller, entry, Called)]))
    case Submitting(i, a) => s.(intake := SubmitStep(s.intake, s.stopping, i, a))
    case Controlling(a) => ControlStep(s, a)
    case Dispatching(a) => DispatchStep(cfg, s, a)
    case Working(w, a) => WorkStep(cfg, s, w, a)
  }

  /** `labels` is a run from `s` to `t`. */
  ghost predicate IsRun(cfg: Config, s: State, labels: seq<Label>, t: State)
    decreases |labels|
  {
    if labels == [] then s == t
    else Enabled(cfg, s, labels[0]) && IsRun(cfg, Step(cfg, s, labels[0]), labels[1..], t)
  }

  lemma {:induction false} RunConcat(cfg: Config, s: State, a: seq<Label>, m: State, b: seq<Label>, t: State)
    requires IsRun(cfg, s, a, m) && IsRun(cfg, m, b, t)
    ensures IsRun(cfg, s, a + b, t)
    decreases |a|
  {
    if a == [] {
      assert a + b == b;
    } else {
      assert (a + b)[0] == a[0] && (a + b)[1..] == a[1..] + b;
      RunConcat(cfg, Step(cfg, s, a[0]), a[1..], m, b, t);
    }
  }

  /** Every goroutine of the pipeline has ended or was never launched: what Stop's
      WaitGroup waits for. */
  predicate Quiet(s: State) {
    && (s.disp.phase.Unstarted? || s.disp.phase.Exited?)
    && (forall w :: 0 <= w < |s.pool.workers| ==> s.pool.workers[w].Asleep? || s.pool.workers[w].Gone?)
  }
}
