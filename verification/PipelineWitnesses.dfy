/** Runs that exist: the backpressure bound is reached, and Queued goes negative. */
module PipelineWitnesses {
  import opened Domain
  import opened Sequences
  import opened Pipeline
  import opened PipelineInvariants
  import opened PipelineTheorems
  import opened PipelineProgress

  /** During an outage: open for sends, no row in the table and no send counted. */
  predicate Outage(cfg: Config, s: State) {
    && Usable(cfg) && |s.pool.workers| == cfg.workers
    && !s.stopping && !s.aborted && s.repo.table == [] && s.intake.accepted == 0 && s.pool.written == 0
  }

  /** The dispatcher is in its select with nothing to do. */
  predicate Looking(cfg: Config, s: State) {
    Outage(cfg, s) && s.disp.phase.Looping? && s.intake.queue == [] && s.disp.batch == []
  }

  /** Two runs in a row. */
  lemma Then(cfg: Config, s: State, a: seq<Label>, m: State, b: seq<Label>, t: State) returns (labels: seq<Label>)
    requires IsRun(cfg, s, a, m) && IsRun(cfg, m, b, t)
    ensures IsRun(cfg, s, labels, t)
  {
    RunConcat(cfg, s, a, m, b, t);
    labels := a + b;
  }

  /** The state after one more entry has been sent and not counted. */
  function AfterSend(s: State, e: LogEntry): State {
    s.(intake := Intake(
      s.intake.queue + [e], s.intake.submits + [Submit(0, e, Sent)], s.intake.accepted, s.intake.sent + [e]))
  }

  lemma SendOne(cfg: Config, s: State, e: LogEntry) returns (labels: seq<Label>)
    requires !s.stopping && |s.intake.queue| < cfg.queueSize
    ensures IsRun(cfg, s, labels, AfterSend(s, e))
  {
    var i := |s.intake.submits|;
    var s1 := Step(cfg, s, Call(0, e));
    var s2 := Step(cfg, s1, Submitting(i, Check));
    var s3 := Step(cfg, s2, Submitting(i, Send));
    assert s3 == AfterSend(s, e);
    OneStep(cfg, s, Call(0, e));
    OneStep(cfg, s1, Submitting(i, Check));
    OneStep(cfg, s2, Submitting(i, Send));
    hide Step, Enabled, IsRun;
    labels := Then(cfg, s, [Call(0, e)], s1, [Submitting(i, Check)], s2);
    labels := Then(cfg, s, labels, s2, [Submitting(i, Send)], s3);
  }

  /** Fill `ingest` up. */
  lemma {:induction false} FillQueue(cfg: Config, s: State, e: LogEntry) returns (labels: seq<Label>, t: State)
    requires !s.stopping && |s.intake.queue| <= cfg.queueSize
    ensures IsRun(cfg, s, labels, t) && t == s.(intake := t.intake) && |t.intake.queue| == cfg.queueSize
    ensures |t.intake.sent| == |s.intake.sent| + cfg.queueSize - |s.intake.queue|
    decreases cfg.queueSize - |s.intake.queue|
  {
    if |s.intake.queue| == cfg.queueSize {
      labels, t := [], s;
    } else {
      var a := SendOne(cfg, s, e);
      var b;
      b, t := FillQueue(cfg, AfterSend(s, e), e);
      labels := Then(cfg, s, a, AfterSend(s, e), b, t);
    }
  }

  /** What stays while the dispatcher assembles a batch. */
  predicate SameBehind(s: State, t: State) {
    && t.batches == s.batches && t.pool == s.pool && t.repo == s.repo
    && t.stopping == s.stopping && t.aborted == s.aborted && t.intake.accepted == s.intake.accepted
  }

  /** Send and take until the batch is full and has to be handed over. */
  lemma {:induction false} FillBatch(cfg: Config, s: State, e: LogEntry) returns (labels: seq<Label>, t: State)
    requires Outage(cfg, s) && s.disp.phase.Looping? && s.intake.queue == [] && |s.disp.batch| < cfg.batchSize
    ensures IsRun(cfg, s, labels, t) && Outage(cfg, t) && SameBehind(s, t)
    ensures t.disp.phase.Handing? && t.disp.phase.after.ToLoop? && t.intake.queue == [] && t.disp.batch == []
    ensures |t.intake.sent| == |s.intake.sent| + cfg.batchSize - |s.disp.batch|
    ensures |t.disp.phase.out| == cfg.batchSize
    decreases cfg.batchSize - |s.disp.batch|
  {
    var a := SendOne(cfg, s, e);
    var m := AfterSend(s, e);
    var l := Dispatching(Take);
    var n := Step(cfg, m, l);
    OneStep(cfg, m, l);
    assert n.intake.queue == [] && |n.intake.sent| == |s.intake.sent| + 1 && SameBehind(s, n);
    labels := Then(cfg, s, a, m, [l], n);
    if |s.disp.batch| + 1 == cfg.batchSize {
      t := n;
    } else {
      assert n.disp.phase.Looping? && n.disp.batch == s.disp.batch + [e];
      hide IsRun, Step, Enabled;
      var rest;
      rest, t := FillBatch(cfg, n, e);
      labels := Then(cfg, s, labels, n, rest, t);
    }
  }

  /** Fill a batch and put it into the channel. */
  lemma PushBatch(cfg: Config, s: State, e: LogEntry) returns (labels: seq<Label>, t: State)
    requires Looking(cfg, s) && |s.batches| < Slots(cfg)
    ensures IsRun(cfg, s, labels, t) && Looking(cfg, t) && t.pool == s.pool
    ensures |t.batches| == |s.batches| + 1 && |t.intake.sent| == |s.intake.sent| + cfg.batchSize
    ensures s.batches == [] ==> |t.batches[0]| == cfg.batchSize
  {
    var a, m := FillBatch(cfg, s, e);
    var l := Dispatching(HandOver);
    t := Step(cfg, m, l);
    OneStep(cfg, m, l);
    labels := Then(cfg, s, a, m, [l], t);
  }

  /** Give each of the workers from number k on a batch. */
  lemma {:induction false} LoadWorkers(cfg: Config, s: State, e: LogEntry, k: nat)
    returns (labels: seq<Label>, t: State)
    requires Looking(cfg, s) && s.batches == [] && k <= cfg.workers
    requires forall w :: k <= w < |s.pool.workers| ==> s.pool.workers[w].Idle?
    requires forall w :: 0 <= w < k ==> s.pool.workers[w].Attempting?
    ensures IsRun(cfg, s, labels, t) && Looking(cfg, t) && t.batches == []
    ensures forall w :: 0 <= w < |t.pool.workers| ==> t.pool.workers[w].Attempting?
    ensures |t.intake.sent| == |s.intake.sent| + (cfg.workers - k) * cfg.batchSize
    decreases cfg.workers - k
  {
    if k == cfg.workers {
      labels, t := [], s;
    } else {
      var a, m := PushBatch(cfg, s, e);
      var n := GiveTo(cfg, m, k);
      labels := Then(cfg, s, a, m, [Working(k, Receive)], n);
      hide IsRun, Step, Enabled;
      var rest;
      rest, t := LoadWorkers(cfg, n, e, k + 1);
      labels := Then(cfg, s, labels, n, rest, t);
      OneMore(cfg.workers - k - 1, cfg.batchSize);
    }
  }

  lemma GiveTo(cfg: Config, s: State, k: nat) returns (t: State)
    requires Looking(cfg, s) && |s.batches| == 1 && k < |s.pool.workers| && s.pool.workers[k].Idle?
    ensures IsRun(cfg, s, [Working(k, Receive)], t) && Looking(cfg, t) && t.batches == [] && t.intake == s.intake
    ensures |t.pool.workers| == |s.pool.workers|
    ensures t.pool.workers[k] == Attempting(s.batches[0], 1, cfg.minBackoff)
    ensures forall w :: 0 <= w < |s.pool.workers| && w != k ==> t.pool.workers[w] == s.pool.workers[w]
  {
    OneStep(cfg, s, Working(k, Receive));
    t := Step(cfg, s, Working(k, Receive));
  }

  /** Fill the channel of batches. */
  lemma {:induction false} LoadChannel(cfg: Config, s: State, e: LogEntry) returns (labels: seq<Label>, t: State)
    requires Looking(cfg, s) && |s.batches| <= Slots(cfg)
    ensures IsRun(cfg, s, labels, t) && Looking(cfg, t)
    ensures |t.intake.sent| == |s.intake.sent| + (Slots(cfg) - |s.batches|) * cfg.batchSize
    decreases Slots(cfg) - |s.batches|
  {
    if |s.batches| == Slots(cfg) {
      labels, t := [], s;
    } else {
      var a, m := PushBatch(cfg, s, e);
      hide IsRun, Step, Enabled;
      var b;
      b, t := LoadChannel(cfg, m, e);
      labels := Then(cfg, s, a, m, b, t);
      OneMore(Slots(cfg) - |s.batches| - 1, cfg.batchSize);
    }
  }

  lemma Begin(cfg: Config) returns (t: State)
    requires Usable(cfg)
    ensures IsRun(cfg, Init(cfg), [Controlling(Start)], t)
    ensures Looking(cfg, t) && t.batches == [] && t.intake.sent == []
    ensures forall w :: 0 <= w < |t.pool.workers| ==> t.pool.workers[w].Idle?
  {
    OneStep(cfg, Init(cfg), Controlling(Start));
    t := Step(cfg, Init(cfg), Controlling(Start));
  }

  /** An entry can be sent to a pipeline that is never started: Stop then returns nil at
      once with the entry left in `ingest`, accepted by all appearances. */
  lemma UnstartedKeeps(cfg: Config, e: LogEntry) returns (labels: seq<Label>, t: State)
    requires Usable(cfg)
    ensures IsRun(cfg, Init(cfg), labels, t) && t.disp.phase.Unstarted? && Quiet(t) && t.stopping
    ensures t.intake.sent == t.intake.queue == [e] && t.repo.table == [] && t.intake.accepted == 1
  {
    var s0 := Init(cfg);
    var s1 := AfterSend(s0, e);
    var s2 := Step(cfg, s1, Submitting(0, Count));
    t := Step(cfg, s2, Controlling(Stop));
    var a := SendOne(cfg, s0, e);
    OneStep(cfg, s1, Submitting(0, Count));
    OneStep(cfg, s2, Controlling(Stop));
    assert t.intake.sent == [e] && t.intake.queue == [e];
    hide IsRun, Step, Enabled;
    labels := Then(cfg, s0, a, s1, [Submitting(0, Count)], s2);
    labels := Then(cfg, s0, labels, s2, [Controlling(Stop)], t);
  }

  /** The backpressure bound is exact: for every configuration, while the database takes
      nothing, some run sends exactly `Capacity` entries. */
  lemma CapacityReached(cfg: Config, e: LogEntry) returns (labels: seq<Label>, t: State)
    requires Usable(cfg)
    ensures IsRun(cfg, Init(cfg), labels, t) && Reachable(cfg, t)
    ensures !t.aborted && t.repo.table == [] && |t.intake.sent| == Capacity(cfg)
  {
    var s0 := Begin(cfg);
    var a, s1 := LoadWorkers(cfg, s0, e, 0);
    var b, s2 := LoadChannel(cfg, s1, e);
    var c, s3 := FillBatch(cfg, s2, e);
    var d;
    d, t := FillQueue(cfg, s3, e);
    CapacitySum(cfg);
    assert |t.intake.sent| == Capacity(cfg) && !t.aborted && t.repo.table == [];
    hide IsRun, Init, Looking, Outage, Capacity, Slots, SameBehind;
    labels := Then(cfg, Init(cfg), [Controlling(Start)], s0, a, s1);
    labels := Then(cfg, Init(cfg), labels, s1, b, s2);
    labels := Then(cfg, Init(cfg), labels, s2, c, s3);
    labels := Then(cfg, Init(cfg), labels, s3, d, t);
  }

  /** Queued can be negative: for every configuration, some run writes a whole batch
      before any of its Submit calls has counted its entry. */
  lemma QueuedNegative(cfg: Config, e: LogEntry) returns (labels: seq<Label>, t: State)
    requires Usable(cfg)
    ensures IsRun(cfg, Init(cfg), labels, t) && Reachable(cfg, t)
    ensures t.intake.accepted - t.pool.written < 0
  {
    var s0 := Begin(cfg);
    var a, s1 := LoadWorkers(cfg, s0, e, 0);
    labels := Then(cfg, Init(cfg), [Controlling(Start)], s0, a, s1);
    HeldNotEmpty(cfg, s1);
    var s2;
    s2, t := WriteOne(cfg, s1);
    hide IsRun, Init;
    labels := Then(cfg, Init(cfg), labels, s1, [Working(0, Insert(Written))], s2);
    labels := Then(cfg, Init(cfg), labels, s2, [Working(0, AddWritten)], t);
  }

  /** Stats can report a negative Queued even when every send is counted at both of its
      loads: for every configuration, between the loads calls arrive, are counted, and
      have their entries written. */
  lemma NegativeBetweenLoads(cfg: Config, e: LogEntry)
    returns (before: seq<Label>, s: State, between: seq<Label>, t: State)
    requires Usable(cfg)
    ensures IsRun(cfg, Init(cfg), before, s) && IsRun(cfg, s, between, t)
    ensures Uncounted(s) == Uncounted(t) == 0
    ensures s.intake.accepted - t.pool.written < 0
  {
    before := [Controlling(Start)];
    s := Begin(cfg);
    assert Uncounted(s) == 0 by { assert s.intake.submits == []; }
    var a, s1 := LoadWorkers(cfg, s, e, 0);
    hide Uncounted;
    var labels := Then(cfg, Init(cfg), before, s, a, s1);
    HeldNotEmpty(cfg, s1);
    ReachableInv(cfg, s1);
    hide Init, Inv;
    var counts, s2 := CountAll(cfg, s1);
    var s3;
    s3, t := WriteOne(cfg, s2);
    hide IsRun;
    between := Then(cfg, s, a, s1, counts, s2);
    between := Then(cfg, s, between, s2, [Working(0, Insert(Written))], s3);
    between := Then(cfg, s, between, s3, [Working(0, AddWritten)], t);
    assert Uncounted(t) == Uncounted(s2) == 0 by { Counted(s2, t); }
  }

  lemma Counted(s: State, t: State)
    requires Gather(s.intake.submits, UnacceptedBy) == [] && t.intake == s.intake
    ensures Uncounted(t) == Uncounted(s) == 0
  {
  }

  /** A retry can duplicate a batch: for every configuration, without any abort, some run
      sends one batch and has it in the table twice, because the first insert took
      effect while its acknowledgement was lost. */
  lemma RetryDuplicates(cfg: Config, e: LogEntry) returns (labels: seq<Label>, t: State, b: Batch)
    requires Usable(cfg)
    ensures IsRun(cfg, Init(cfg), labels, t) && !t.aborted
    ensures |b| == |t.intake.sent| == cfg.batchSize && t.repo.table == b + b
  {
    hide IsRun, Init;
    var s0 := Begin(cfg);
    var a, s1 := PushBatch(cfg, s0, e);
    b := s1.batches[0];
    var s2 := GiveTo(cfg, s1, 0);
    var again;
    again, t := InsertTwice(cfg, s2);
    hide IsRun, Init, Looking;
    labels := Then(cfg, Init(cfg), [Controlling(Start)], s0, a, s1);
    labels := Then(cfg, Init(cfg), labels, s1, [Working(0, Receive)], s2);
    labels := Then(cfg, Init(cfg), labels, s2, again, t);
  }

  /** An insert whose acknowledgement is lost, and the retry. */
  lemma InsertTwice(cfg: Config, s: State) returns (labels: seq<Label>, t: State)
    requires |s.pool.workers| > 0 && s.pool.workers[0].Attempting? && !s.aborted
    ensures IsRun(cfg, s, labels, t) && t.intake == s.intake && t.aborted == s.aborted
    ensures t.repo.table == s.repo.table + s.pool.workers[0].batch + s.pool.workers[0].batch
  {
    var s1 := Step(cfg, s, Working(0, Insert(LostAck)));
    var s2 := Step(cfg, s1, Working(0, Judge));
    var s3 := Step(cfg, s2, Working(0, AddRetry));
    var s4 := Step(cfg, s3, Working(0, Wake));
    t := Step(cfg, s4, Working(0, Insert(Written)));
    OneStep(cfg, s, Working(0, Insert(LostAck)));
    OneStep(cfg, s1, Working(0, Judge));
    OneStep(cfg, s2, Working(0, AddRetry));
    OneStep(cfg, s3, Working(0, Wake));
    OneStep(cfg, s4, Working(0, Insert(Written)));
    hide Step, Enabled, IsRun;
    labels := Then(cfg, s, [Working(0, Insert(LostAck))], s1, [Working(0, Judge)], s2);
    labels := Then(cfg, s, labels, s2, [Working(0, AddRetry)], s3);
    labels := Then(cfg, s, labels, s3, [Working(0, Wake)], s4);
    labels := Then(cfg, s, labels, s4, [Working(0, Insert(Written))], t);
  }

  lemma HeldNotEmpty(cfg: Config, s: State)
    requires Reachable(cfg, s) && |s.pool.workers| > 0 && s.pool.workers[0].Attempting?
    ensures 1 <= |s.pool.workers[0].batch|
  {
    ReachableInv(cfg, s);
    hide Stored, IntakeCounts, PoolCounts, DispatcherShape, Delays, Tried, Marks, Ordered, CutFates, WorkFates;
  }

  lemma WriteOne(cfg: Config, s: State) returns (m: State, t: State)
    requires |s.pool.workers| > 0 && s.pool.workers[0].Attempting?
    ensures IsRun(cfg, s, [Working(0, Insert(Written))], m)
    ensures IsRun(cfg, m, [Working(0, AddWritten)], t)
    ensures t.intake == s.intake && t.pool.written == s.pool.written + |s.pool.workers[0].batch|
  {
    m := Step(cfg, s, Working(0, Insert(Written)));
    OneStep(cfg, s, Working(0, Insert(Written)));
    t := Step(cfg, m, Working(0, AddWritten));
    OneStep(cfg, m, Working(0, AddWritten));
  }
}
