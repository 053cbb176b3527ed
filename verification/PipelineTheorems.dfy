/** What the pipeline promises, over every interleaving. */
module PipelineTheorems {
  import opened Domain
  import opened Sequences
  import opened Pipeline
  import opened PipelineInvariants
  import Backoff

  // ----- conservation and order -----

  /** Every entry sent is in exactly one place, hard aborts included: waiting in
      `ingest`, in the batch in the making, in the batch being handed over, in the
      channel, held by a worker, acknowledged, or given up; what is acknowledged is in
      the table, which beside it holds the rows whose acknowledgement was lost; and
      nothing is given up before a hard abort. */
  lemma Conservation(cfg: Config, s: State)
    requires Reachable(cfg, s)
    ensures multiset(s.intake.sent) ==
      multiset(s.intake.queue) + multiset(s.disp.batch) + multiset(Flatten(Out(s.disp.phase)))
      + multiset(Flatten(s.batches)) + multiset(Flatten(Gather(s.pool.workers, HeldBy)))
      + multiset(Flatten(s.repo.acked)) + multiset(Flatten(s.disp.drops)) + multiset(Flatten(s.pool.drops))
    ensures multiset(s.repo.table) == multiset(Flatten(s.repo.acked)) + multiset(Flatten(s.repo.unacked))
    ensures !s.aborted ==> s.disp.drops == [] && s.pool.drops == []
  {
    ReachableInv(cfg, s);
    AckedRows(cfg, s.repo);
    hide CutFates, WorkFates, Stored, IntakeCounts, PoolCounts, DispatcherShape;
    hide PoolShape, Delays, Tried, Marks, Ordered;
    CutEntries(s.disp.cuts, s.disp.drops, Out(s.disp.phase), s.batches, s.pool.taken, s.aborted);
    TakenEntries(Gather(s.pool.workers, HeldBy), s.pool.taken, s.repo.acked, s.pool.drops, s.aborted);
    SentEntries(cfg, s);
  }

  lemma SentEntries(cfg: Config, s: State)
    requires Ordered(s.intake.sent, s.intake.queue, s.disp.cuts, s.disp.batch)
    ensures multiset(s.intake.sent)
         == multiset(Flatten(s.disp.cuts)) + multiset(s.disp.batch) + multiset(s.intake.queue)
  {
  }

  lemma CutEntries(cuts: seq<Batch>, drops: seq<Batch>, out: seq<Batch>, batches: seq<Batch>,
                   taken: seq<Batch>, aborted: bool)
    requires CutFates(cuts, drops, out, batches, taken, aborted)
    ensures multiset(Flatten(cuts)) == multiset(Flatten(taken)) + multiset(Flatten(batches))
                                       + multiset(Flatten(out)) + multiset(Flatten(drops))
    ensures |Flatten(cuts)| == |Flatten(taken)| + |Flatten(batches)| + |Flatten(out)| + |Flatten(drops)|
    ensures !aborted ==> drops == []
  {
    FlattenPermutation(cuts, taken + batches + out + drops);
    FlattenConcat(taken + batches + out, drops);
    FlattenConcat(taken + batches, out);
    FlattenConcat(taken, batches);
  }

  lemma TakenEntries(held: seq<Batch>, taken: seq<Batch>, acked: seq<Batch>, drops: seq<Batch>, aborted: bool)
    requires WorkFates(held, taken, acked, drops, aborted)
    ensures multiset(Flatten(taken)) == multiset(Flatten(held)) + multiset(Flatten(acked)) + multiset(Flatten(drops))
    ensures |Flatten(taken)| == |Flatten(held)| + |Flatten(acked)| + |Flatten(drops)|
    ensures !aborted ==> drops == []
  {
    FlattenPermutation(taken, held + acked + drops);
    FlattenConcat(held + acked, drops);
    FlattenConcat(held, acked);
  }

  /** Order: in every reachable state the sends, in order, are the batches cut, then
      the batch in the making, then `ingest`; and until a hard abort the batches cut
      are those received by workers, then the channel, then the one being handed
      over. Every entry sent was given to some Submit call. */
  lemma OrderOfSends(cfg: Config, s: State)
    requires Reachable(cfg, s)
    ensures s.intake.sent == Flatten(s.disp.cuts) + s.disp.batch + s.intake.queue
    ensures !s.aborted ==> s.disp.cuts == s.pool.taken + s.batches + Out(s.disp.phase)
    ensures multiset(s.intake.sent) == multiset(Gather(s.intake.submits, SentBy))
  {
    ReachableInv(cfg, s);
    hide Stored, PoolCounts, Delays, Tried, Marks, WorkFates, DispatcherShape, PoolShape, Gather, Flatten;
  }

  /** The table is whole batches, each contiguous and each one that the dispatcher cut,
      so every row of it was sent; if a reported error means that nothing was written,
      they are distinct batches. */
  lemma TableIsBatches(cfg: Config, s: State)
    requires Reachable(cfg, s)
    ensures s.repo.table == Flatten(s.repo.stored)
    ensures forall b :: b in s.repo.attempted ==> b in s.disp.cuts
    ensures forall b :: b in s.repo.stored ==> b in s.disp.cuts
    ensures forall e :: e in s.repo.table ==> e in s.intake.sent
    ensures s.repo.unacked == [] ==> multiset(s.repo.stored) <= multiset(s.disp.cuts)
  {
    ReachableInv(cfg, s);
    TriedWereCut(cfg, s);
    RowsWereSent(cfg, s);
    if s.repo.unacked == [] {
      AckedWereCut(cfg, s);
    }
  }

  lemma AckedWereCut(cfg: Config, s: State)
    requires Inv(cfg, s)
    ensures multiset(s.repo.acked) <= multiset(s.pool.taken) <= multiset(s.disp.cuts)
  {
    hide Stored, IntakeCounts, PoolCounts, DispatcherShape, PoolShape, Delays, Tried, Marks, Ordered;
  }

  /** Every batch that was attempted, or is in the table, was cut. */
  lemma TriedWereCut(cfg: Config, s: State)
    requires Inv(cfg, s)
    ensures forall b :: b in s.repo.attempted ==> b in s.disp.cuts
    ensures forall b :: b in s.repo.stored ==> b in s.disp.cuts
    ensures forall b :: b in s.repo.unacked ==> b in s.disp.cuts
  {
    AckedWereCut(cfg, s);
    hide IntakeCounts, PoolCounts, DispatcherShape, PoolShape, Delays, Marks, Ordered, CutFates, WorkFates;
    forall b | b in s.repo.attempted
      ensures b in s.disp.cuts
    {
      assert b in multiset(s.pool.taken);
    }
    forall b | b in s.repo.stored || b in s.repo.unacked
      ensures b in s.repo.attempted
    {
      assert b in multiset(s.repo.stored);
      assert b in multiset(s.repo.attempted);
    }
  }

  lemma RowsWereSent(cfg: Config, s: State)
    requires Inv(cfg, s)
    ensures forall e :: e in s.repo.table ==> e in s.intake.sent
  {
    TriedWereCut(cfg, s);
    hide IntakeCounts, PoolCounts, DispatcherShape, PoolShape, Delays, Tried, Marks, CutFates, WorkFates, Flatten;
    FlattenWithin(s.repo.stored, s.disp.cuts);
  }

  /** With one worker and no hard abort, batches are inserted in the order received. */
  ghost predicate InOrder(s: State) {
    && |s.pool.workers| == 1
    && (!s.aborted ==> s.pool.taken == s.repo.acked + HeldBy(s.pool.workers[0]))
  }

  lemma InOrderKept(cfg: Config, s: State, l: Label)
    requires InOrder(s) && Enabled(cfg, s, l)
    requires !s.aborted ==> s.pool.drops == []
    requires l == Controlling(Start) ==> HeldBy(s.pool.workers[0]) == []
    ensures InOrder(Step(cfg, s, l))
  {
    match l
    case Working(w, a) =>
      var t := WorkStep(cfg, s, w, a);
      assert w == 0;
      if !s.aborted && a == Insert(Written) {
        assert s.repo.acked + [s.pool.workers[0].batch] == s.pool.taken;
      }
    case Call(_, _) =>
    case Submitting(_, _) =>
    case Controlling(_) =>
    case Dispatching(_) =>
  }

  lemma {:induction false} InOrderRun(cfg: Config, s: State, labels: seq<Label>, t: State)
    requires Inv(cfg, s) && InOrder(s) && IsRun(cfg, s, labels, t)
    ensures InOrder(t)
    decreases |labels|
  {
    if labels == [] {
    } else {
      assert !s.aborted ==> s.pool.drops == [];
      assert s.disp.phase.Unstarted? ==> s.pool.workers[0].Asleep?;
      hide InOrder;
      StepInv(cfg, s, labels[0]);
      InOrderKept(cfg, s, labels[0]);
      InOrderRun(cfg, Step(cfg, s, labels[0]), labels[1..], t);
    }
  }

  /** With one worker, no hard abort and honest errors the table is a prefix of the
      sends. */
  lemma OneWorkerPrefix(cfg: Config, s: State)
    requires Reachable(cfg, s) && cfg.workers == 1
    requires !s.aborted && s.repo.unacked == []
    ensures s.repo.table <= s.intake.sent
  {
    var labels :| IsRun(cfg, Init(cfg), labels, s);
    InitInv(cfg);
    InOrderRun(cfg, Init(cfg), labels, s);
    hide Init, IsRun, Flatten;
    OrderOfSends(cfg, s);
    TableInOrder(cfg, s);
    AckedFirst(s.repo.acked, HeldBy(s.pool.workers[0]), s.batches, Out(s.disp.phase));
  }

  lemma TableInOrder(cfg: Config, s: State)
    requires Reachable(cfg, s) && s.repo.unacked == []
    ensures s.repo.table == Flatten(s.repo.acked)
  {
    ReachableInv(cfg, s);
    hide IntakeCounts, PoolCounts, Delays, Tried, Marks, WorkFates, CutFates, DispatcherShape, PoolShape, Ordered;
  }

  lemma AckedFirst(acked: seq<Batch>, held: seq<Batch>, batches: seq<Batch>, out: seq<Batch>)
    ensures Flatten(acked) <= Flatten(acked + held + batches + out)
  {
    FlattenConcat(acked + held + batches, out);
    FlattenConcat(acked + held, batches);
    FlattenConcat(acked, held);
  }

  // ----- the drain -----

  /** When Stop returns nil on a pipeline that was started and never aborted, the
      table is everything sent up to the moment the drain saw `ingest` empty, which
      is at least everything sent before Stop, each entry as often as it was sent,
      plus one copy more for each lost acknowledgement; what is left in `ingest` is
      exactly what was sent after that moment. */
  lemma DrainExact(cfg: Config, s: State)
    requires Reachable(cfg, s) && Quiet(s) && s.disp.phase.Exited? && !s.aborted
    ensures s.stopping && s.stopAt <= s.disp.drainAt <= |s.intake.sent|
    ensures multiset(s.repo.table) == multiset(s.intake.sent[..s.disp.drainAt]) + multiset(Flatten(s.repo.unacked))
    ensures forall b :: b in s.repo.unacked ==> b in s.disp.cuts
    ensures Flatten(s.disp.cuts) == s.intake.sent[..s.disp.drainAt]
    ensures forall e :: e in s.repo.table ==> e in s.intake.sent[..s.disp.drainAt]
    ensures |s.repo.unacked| <= s.repo.failures == s.pool.retries
    ensures s.intake.queue == s.intake.sent[s.disp.drainAt..]
  {
    ReachableInv(cfg, s);
    DrainRetries(cfg, s);
    DrainMarks(cfg, s);
    DrainTable(cfg, s);
    TriedWereCut(cfg, s);
    assert s.repo.table == Flatten(s.repo.stored) by { TableIsBatches(cfg, s); }
    hide Inv, Flatten;
    FlattenWithin(s.repo.stored, s.disp.cuts);
  }

  /** Every failed insert has been counted as a retry, and at most one copy more was made
      by each. */
  lemma DrainRetries(cfg: Config, s: State)
    requires Inv(cfg, s) && Quiet(s) && s.disp.phase.Exited? && !s.aborted
    ensures |s.repo.unacked| <= s.repo.failures == s.pool.retries
  {
    NothingHeld(s.pool.workers);
    hide IntakeCounts, Delays, Tried, PoolShape, DispatcherShape, Marks, Ordered, CutFates, WorkFates, Gather;
  }

  /** Where the drain ended, and what it left. */
  lemma DrainMarks(cfg: Config, s: State)
    requires Inv(cfg, s) && Quiet(s) && s.disp.phase.Exited? && !s.aborted
    ensures s.stopping && s.stopAt <= s.disp.drainAt <= |s.intake.sent|
    ensures s.intake.queue == s.intake.sent[s.disp.drainAt..]
    ensures Flatten(s.disp.cuts) == s.intake.sent[..s.disp.drainAt]
  {
    QuietIsEmpty(cfg, s);
    hide IntakeCounts, PoolCounts, Delays, Tried, PoolShape, CutFates, WorkFates, Stored, Flatten, Quiet;
    assert s.intake.sent == Flatten(s.disp.cuts) + s.intake.queue;
  }

  /** What was cut is in the table. */
  lemma DrainTable(cfg: Config, s: State)
    requires Inv(cfg, s) && Quiet(s) && s.disp.phase.Exited? && !s.aborted
    ensures multiset(s.repo.table) == multiset(Flatten(s.disp.cuts)) + multiset(Flatten(s.repo.unacked))
  {
    QuietIsEmpty(cfg, s);
    NothingHeld(s.pool.workers);
    hide IntakeCounts, PoolCounts, Delays, Tried, PoolShape, DispatcherShape, Marks, Ordered, CutFates, WorkFates;
    hide Stored, Flatten;
    QuietTable(cfg, s);
  }

  /** With nothing left on the way, the table is what was cut, and the extra copies. */
  lemma QuietTable(cfg: Config, s: State)
    requires CutFates(s.disp.cuts, s.disp.drops, [], [], s.pool.taken, false)
    requires WorkFates([], s.pool.taken, s.repo.acked, s.pool.drops, false)
    requires Stored(cfg, s.repo)
    ensures multiset(s.repo.table) == multiset(Flatten(s.disp.cuts)) + multiset(Flatten(s.repo.unacked))
  {
    CutEntries(s.disp.cuts, s.disp.drops, [], [], s.pool.taken, false);
    TakenEntries([], s.pool.taken, s.repo.acked, s.pool.drops, false);
    hide CutFates, WorkFates;
    FlattenPermutation(s.repo.stored, s.repo.acked + s.repo.unacked);
    FlattenConcat(s.repo.acked, s.repo.unacked);
  }

  lemma QuietIsEmpty(cfg: Config, s: State)
    requires Inv(cfg, s) && Quiet(s) && s.disp.phase.Exited?
    ensures s.disp.batch == [] && s.batches == []
  {
    hide Stored, IntakeCounts, PoolCounts, Delays, Tried, Marks, Ordered, CutFates, WorkFates;
    assert s.pool.workers[0].Gone?;
  }

  /** Every entry taken out of `ingest` is in the table exactly as often as it was sent
      if and only if no acknowledgement was lost. */
  lemma ExactlyOnceIff(cfg: Config, s: State)
    requires Reachable(cfg, s) && Quiet(s) && s.disp.phase.Exited? && !s.aborted
    ensures s.disp.drainAt <= |s.intake.sent|
    ensures multiset(s.repo.table) == multiset(s.intake.sent[..s.disp.drainAt]) <==> s.repo.unacked == []
  {
    DrainExact(cfg, s);
    if s.repo.unacked != [] {
      ReachableInv(cfg, s);
      hide IntakeCounts, PoolCounts, Delays, Tried, Marks, Ordered;
      hide CutFates, WorkFates, DispatcherShape, PoolShape, Quiet;
      AckedSizes(cfg, s.repo);
      FlattenAtLeast(s.repo.unacked);
      assert |multiset(Flatten(s.repo.unacked))| == |Flatten(s.repo.unacked)| > 0;
    }
  }

  /** Exactly once: with honest errors, everything sent before Stop is in the table
      exactly as often as it was sent, and the table holds nothing that was not
      submitted. */
  lemma ExactlyOnce(cfg: Config, s: State)
    requires Reachable(cfg, s) && Quiet(s) && s.disp.phase.Exited? && !s.aborted
    requires s.repo.unacked == []
    ensures s.stopAt <= |s.intake.sent|
    ensures multiset(s.intake.sent[..s.stopAt]) <= multiset(s.repo.table) <= multiset(Gather(s.intake.submits, SentBy))
    ensures multiset(s.repo.table) + multiset(s.intake.queue) == multiset(s.intake.sent)
    ensures s.intake.queue == [] <==> multiset(s.repo.table) == multiset(s.intake.sent)
  {
    DrainExact(cfg, s);
    OrderOfSends(cfg, s);
    assert Flatten(s.repo.unacked) == [];
    hide Reachable, Quiet, Gather, Flatten;
    assert multiset(s.repo.table) == multiset(s.intake.sent[..s.disp.drainAt]);
    SplitSends(s.intake.sent, s.stopAt, s.disp.drainAt, s.repo.table, s.intake.queue);
  }

  /** A table of the first n sends, and a queue of the others. */
  lemma SplitSends(sent: seq<LogEntry>, at: nat, n: nat, table: seq<LogEntry>, queue: seq<LogEntry>)
    requires at <= n <= |sent| && queue == sent[n..] && multiset(table) == multiset(sent[..n])
    ensures multiset(sent[..at]) <= multiset(table) <= multiset(sent)
    ensures multiset(table) + multiset(queue) == multiset(sent)
    ensures queue == [] <==> multiset(table) == multiset(sent)
  {
    assert sent[..n] == sent[..at] + sent[at..n];
    assert sent == sent[..n] + queue;
    if queue != [] {
      assert |multiset(queue)| == |queue|;
    }
  }

  /** Stop on a pipeline that was never started returns nil at once, with nothing
      written and everything sent still in `ingest`. */
  lemma NeverStarted(cfg: Config, s: State)
    requires Reachable(cfg, s) && s.disp.phase.Unstarted?
    ensures Quiet(s)
    ensures s.repo.table == [] && s.intake.queue == s.intake.sent
  {
    var labels :| IsRun(cfg, Init(cfg), labels, s);
    InitInv(cfg);
    RunInv(cfg, Init(cfg), labels, s);
    UntouchedRun(cfg, Init(cfg), labels, s);
  }

  lemma {:induction false} UntouchedRun(cfg: Config, s: State, labels: seq<Label>, t: State)
    requires Inv(cfg, s) && IsRun(cfg, s, labels, t) && t.disp.phase.Unstarted?
    requires s.disp.phase.Unstarted? ==> s.repo.table == [] && s.disp.cuts == []
    ensures t.repo.table == [] && t.disp.cuts == []
    decreases |labels|
  {
    if labels == [] {
    } else {
      var l := labels[0];
      StepInv(cfg, s, l);
      assert s.disp.phase.Unstarted? ==> forall w :: 0 <= w < |s.pool.workers| ==> s.pool.workers[w].Asleep?;
      StartedForGood(cfg, s, l);
      UntouchedRun(cfg, Step(cfg, s, l), labels[1..], t);
    }
  }

  lemma StartedForGood(cfg: Config, s: State, l: Label)
    requires Enabled(cfg, s, l)
    requires s.disp.phase.Unstarted? ==> forall w :: 0 <= w < |s.pool.workers| ==> s.pool.workers[w].Asleep?
    ensures var t := Step(cfg, s, l);
      t.disp.phase.Unstarted? ==>
        s.disp.phase.Unstarted? && t.repo.table == s.repo.table && t.disp.cuts == s.disp.cuts
  {
    match l
    case Dispatching(a) => DispatchingStarted(cfg, s, a); hide DispatchStep;
    case Working(w, a) =>
      assert !s.disp.phase.Unstarted?;
      assert WorkStep(cfg, s, w, a).disp == s.disp;
    case Call(_, _) =>
    case Submitting(_, _) =>
    case Controlling(_) =>
  }

  lemma DispatchingStarted(cfg: Config, s: State, a: DispatchAct)
    requires DispatchEnabled(cfg, s, a)
    ensures !DispatchStep(cfg, s, a).disp.phase.Unstarted?
  {
    if a.Take? || a.Drain? {
      assert !Append(cfg, s.disp, s.intake.queue[0], ToLoop).phase.Unstarted?;
      assert !Append(cfg, s.disp, s.intake.queue[0], ToFinish).phase.Unstarted?;
    }
    hide Append;
  }

  // ----- bounded memory -----

  /** How much can be sent and not yet acknowledged. */
  function Capacity(cfg: Config): int {
    cfg.queueSize + cfg.batchSize * (3 * cfg.workers + 1)
  }

  /** How many entries have been given up, which none is before a hard abort. */
  function GivenUp(s: State): nat {
    |Flatten(s.disp.drops)| + |Flatten(s.pool.drops)|
  }

  /** Backpressure: apart from what was given up, the entries sent and not yet written
      never exceed the queue, two batches per worker in the channel, one per worker in
      hand and one in the dispatcher, whether `written` or the table is asked. */
  lemma Backpressure(cfg: Config, s: State)
    requires Reachable(cfg, s)
    ensures |s.intake.sent| - s.pool.written <= Capacity(cfg) + GivenUp(s)
    ensures |s.intake.sent| - |s.repo.table| <= Capacity(cfg) + GivenUp(s)
    ensures GivenUp(s) == |Flatten(s.disp.drops)| + |Flatten(s.pool.drops)| && (!s.aborted ==> GivenUp(s) == 0)
  {
    ReachableInv(cfg, s);
    CutEntries(s.disp.cuts, s.disp.drops, Out(s.disp.phase), s.batches, s.pool.taken, s.aborted);
    TakenEntries(Gather(s.pool.workers, HeldBy), s.pool.taken, s.repo.acked, s.pool.drops, s.aborted);
    ChannelRows(cfg, s);
    WorkerRows(cfg, s);
    DispatcherRows(cfg, s);
    AckedRows(cfg, s.repo);
    CapacitySum(cfg);
    assert |s.intake.sent| == |Flatten(s.disp.cuts)| + |s.disp.batch| + |s.intake.queue|;
  }

  lemma CapacitySum(cfg: Config)
    ensures Capacity(cfg) ==
      cfg.queueSize + Slots(cfg) * cfg.batchSize + cfg.workers * cfg.batchSize + cfg.batchSize
  {
  }

  lemma ChannelRows(cfg: Config, s: State)
    requires Inv(cfg, s)
    ensures |Flatten(s.batches)| <= Slots(cfg) * cfg.batchSize
  {
    hide Stored, IntakeCounts, PoolCounts, Delays, Tried, Marks, Ordered, WorkFates, CutFates;
    FlattenBound(s.batches, cfg.batchSize);
    AtMost(|s.batches|, Slots(cfg), cfg.batchSize);
  }

  lemma DispatcherRows(cfg: Config, s: State)
    requires Inv(cfg, s)
    ensures |Flatten(Out(s.disp.phase))| + |s.disp.batch| <= cfg.batchSize
  {
    hide Stored, IntakeCounts, PoolCounts, Delays, Tried, Marks, Ordered, WorkFates, CutFates;
    if s.disp.phase.Handing? {
      FlattenOne(s.disp.phase.out);
    }
  }

  /** The batch a worker has in its hands, inserted or not. */
  function InHand(w: Worker): seq<Batch> {
    HeldBy(w) + UnwrittenBy(w)
  }

  lemma {:induction false} InHandSplit(workers: seq<Worker>)
    ensures |Flatten(Gather(workers, InHand))|
         == |Flatten(Gather(workers, HeldBy))| + |Flatten(Gather(workers, UnwrittenBy))|
  {
    if workers == [] {
    } else {
      InHandSplit(workers[1..]);
      FlattenConcat(InHand(workers[0]), Gather(workers[1..], InHand));
      FlattenConcat(HeldBy(workers[0]), Gather(workers[1..], HeldBy));
      FlattenConcat(UnwrittenBy(workers[0]), Gather(workers[1..], UnwrittenBy));
      FlattenConcat(HeldBy(workers[0]), UnwrittenBy(workers[0]));
    }
  }

  /** What the workers hold, inserted or not, is at most a batch each. */
  lemma WorkerRows(cfg: Config, s: State)
    requires Inv(cfg, s)
    ensures |Flatten(Gather(s.pool.workers, HeldBy))| + |Flatten(Gather(s.pool.workers, UnwrittenBy))|
         <= cfg.workers * cfg.batchSize
  {
    hide Stored, Delays, Tried, Marks, Ordered, DispatcherShape, CutFates, WorkFates, IntakeCounts, PoolCounts;
    hide Flatten, Gather;
    var all := Gather(s.pool.workers, InHand);
    GatherBound(s.pool.workers, InHand);
    InHandSplit(s.pool.workers);
    forall b | b in all
      ensures |b| <= cfg.batchSize
    {
      GatherMember(s.pool.workers, InHand, b);
    }
    FlattenBound(all, cfg.batchSize);
    AtMost(|all|, cfg.workers, cfg.batchSize);
  }

  lemma AtMost(a: nat, b: int, x: int)
    requires a <= b && 0 <= x
    ensures a * x <= b * x
  {
  }

  /** The table is the acknowledged rows and those whose acknowledgement was lost. */
  lemma AckedRows(cfg: Config, r: Repo)
    requires Stored(cfg, r)
    ensures multiset(r.table) == multiset(Flatten(r.acked)) + multiset(Flatten(r.unacked))
    ensures |r.table| == |Flatten(r.acked)| + |Flatten(r.unacked)|
  {
    FlattenPermutation(r.stored, r.acked + r.unacked);
    FlattenConcat(r.acked, r.unacked);
  }

  /** A database that never takes a row lets exactly the capacity be sent: with the
      default tuning, 14,692 entries. */
  lemma OutageBound(cfg: Config, s: State)
    requires Reachable(cfg, s) && s.repo.table == []
    ensures |s.intake.sent| <= Capacity(cfg) + GivenUp(s)
    ensures !s.aborted ==> |s.intake.sent| <= Capacity(cfg)
    ensures Capacity(DEFAULT_CONFIG) == 14692
  {
    Backpressure(cfg, s);
  }

  // ----- lost acknowledgements -----

  /** When BulkInsert may commit and still report an error: every acknowledged batch
      is in the table, no batch is there more often than it was attempted, and the
      extra rows are at most BatchSize per failed attempt. */
  lemma AtLeastOnce(cfg: Config, s: State)
    requires Reachable(cfg, s)
    ensures multiset(s.repo.acked) <= multiset(s.repo.stored) <= multiset(s.repo.attempted)
    ensures forall b :: b in s.repo.attempted ==> b in s.disp.cuts
    ensures |s.repo.attempted| == |s.repo.acked| + s.repo.failures
    ensures |s.repo.table| <= |Flatten(s.repo.acked)| + cfg.batchSize * s.repo.failures
  {
    ReachableInv(cfg, s);
    TriedWereCut(cfg, s);
    hide IntakeCounts, PoolCounts, Delays, Tried, Marks, Ordered, CutFates, WorkFates, DispatcherShape, PoolShape;
    AckedRows(cfg, s.repo);
    AckedSizes(cfg, s.repo);
    FlattenBound(s.repo.unacked, cfg.batchSize);
    AtMost(|s.repo.unacked|, s.repo.failures, cfg.batchSize);
  }

  /** Once the drain is over without an abort, every batch cut is in the table at
      least once, and the rows exceed `written` by at most BatchSize per retry. */
  lemma DrainAtLeastOnce(cfg: Config, s: State)
    requires Reachable(cfg, s) && Quiet(s) && s.disp.phase.Exited? && !s.aborted
    ensures multiset(s.disp.cuts) <= multiset(s.repo.stored)
    ensures |s.repo.table| <= s.pool.written + cfg.batchSize * s.pool.retries
  {
    AtLeastOnce(cfg, s);
    ReachableInv(cfg, s);
    hide IntakeCounts, Delays, Tried, Marks, Ordered, CutFates, WorkFates, Stored, DispatcherShape;
    QuietIsEmpty(cfg, s);
    NothingHeld(s.pool.workers);
    AllAcked(s);
  }

  lemma AllAcked(s: State)
    requires CutFates(s.disp.cuts, s.disp.drops, [], [], s.pool.taken, false)
    requires WorkFates([], s.pool.taken, s.repo.acked, s.pool.drops, false)
    ensures multiset(s.disp.cuts) == multiset(s.repo.acked)
  {
  }

  /** A worker that waits after its k-th failed attempt waits for MinBackoff doubled
      k - 1 times and capped. */
  lemma WaitIsCapped(cfg: Config, s: State, w: nat)
    requires Reachable(cfg, s) && cfg.maxBackoff < Backoff.TWO_62
    requires w < |s.pool.workers| && s.pool.workers[w].Waiting?
    ensures s.pool.workers[w].attempt >= 1
    ensures s.pool.workers[w].backoff
         == Backoff.Capped(cfg.minBackoff, cfg.maxBackoff, s.pool.workers[w].attempt - 1)
  {
    ReachableInv(cfg, s);
    hide IntakeCounts, PoolCounts, PoolShape, DispatcherShape, Marks, Ordered, CutFates, WorkFates, Stored, Tried;
    assert |HeldBy(s.pool.workers[w])| > 0;
    hide Delays, Backoff.Delay, Backoff.Capped;
    Backoff.DelayIsCapped(cfg.minBackoff, cfg.maxBackoff, s.pool.workers[w].attempt - 1);
  }

  // ----- counters -----

  /** The entries that have been sent and whose rows are not yet in `written`: on their
      way, left behind, or given up. */
  function Unwritten(s: State): nat {
    |s.intake.queue| + |s.disp.batch| + |Flatten(Out(s.disp.phase))| + |Flatten(s.batches)|
    + |Flatten(Gather(s.pool.workers, HeldBy))| + |Flatten(Gather(s.pool.workers, UnwrittenBy))|
    + GivenUp(s)
  }

  /** The sends that `accepted` does not count yet. */
  function Uncounted(s: State): nat {
    |Gather(s.intake.submits, UnacceptedBy)|
  }

  /** The difference of the two counters, in every reachable state. */
  lemma QueuedExact(cfg: Config, s: State)
    requires Reachable(cfg, s)
    ensures s.intake.accepted - s.pool.written == Unwritten(s) - Uncounted(s)
  {
    ReachableInv(cfg, s);
    hide Delays, Tried, Marks, CutFates, WorkFates, Stored;
    CutEntries(s.disp.cuts, s.disp.drops, Out(s.disp.phase), s.batches, s.pool.taken, s.aborted);
    TakenEntries(Gather(s.pool.workers, HeldBy), s.pool.taken, s.repo.acked, s.pool.drops, s.aborted);
  }

  /** What remains unwritten once every goroutine has ended without an abort. */
  lemma UnwrittenAtRest(cfg: Config, s: State)
    requires Inv(cfg, s) && Quiet(s) && s.disp.phase.Exited? && !s.aborted
    ensures Unwritten(s) == |s.intake.queue|
  {
    hide Delays, Tried, Marks, IntakeCounts, PoolCounts, Stored, Ordered;
    QuietIsEmpty(cfg, s);
    NothingHeld(s.pool.workers);
  }

  /** Queued as Stats reports it, with `accepted` loaded in state s and `written` later,
      in state t: what is unwritten at t, less the sends of s and of the time between
      the loads that the first load could not see. It is negative exactly when these
      are more, and exact at rest. */
  lemma QueuedReported(cfg: Config, s: State, labels: seq<Label>, t: State)
    requires Reachable(cfg, s) && IsRun(cfg, s, labels, t)
    ensures var late := Uncounted(t) + (t.intake.accepted - s.intake.accepted);
      && late >= 0
      && s.intake.accepted - t.pool.written == Unwritten(t) - late
      && (s.intake.accepted - t.pool.written < 0 <==> Unwritten(t) < late)
      && (Quiet(t) && t.disp.phase.Exited? && !t.aborted && late == 0 ==>
            s.intake.accepted - t.pool.written == |t.intake.queue|)
  {
    CountersRiseRun(cfg, s, labels, t);
    ReachableOn(cfg, s, labels, t);
    hide IsRun, Init, Unwritten, Uncounted, Quiet;
    QueuedExact(cfg, t);
    if Quiet(t) && t.disp.phase.Exited? && !t.aborted {
      ReachableInv(cfg, t);
      UnwrittenAtRest(cfg, t);
    }
  }

  lemma ReachableOn(cfg: Config, s: State, labels: seq<Label>, t: State)
    requires Reachable(cfg, s) && IsRun(cfg, s, labels, t)
    ensures Reachable(cfg, t)
  {
    var before :| IsRun(cfg, Init(cfg), before, s);
    RunConcat(cfg, Init(cfg), before, s, labels, t);
  }

  /** Whenever no worker is between its two counter updates, the batches counted
      account for the rows counted. */
  lemma BatchesAndRows(cfg: Config, s: State)
    requires Reachable(cfg, s)
    requires forall w :: w in s.pool.workers ==> !w.Landed? && !w.Tallied?
    ensures s.pool.batchCount <= s.pool.written <= s.pool.batchCount * cfg.batchSize
  {
    ReachableInv(cfg, s);
    hide IntakeCounts, Delays, Tried, Marks, Ordered, CutFates, WorkFates, DispatcherShape, PoolShape;
    GatherNothing(s.pool.workers, UnwrittenBy);
    GatherNothing(s.pool.workers, UncountedBy);
    AckedSizes(cfg, s.repo);
    hide Stored;
    FlattenBound(s.repo.acked, cfg.batchSize);
    FlattenAtLeast(s.repo.acked);
  }

  lemma AckedSizes(cfg: Config, r: Repo)
    requires Stored(cfg, r)
    ensures forall b :: b in r.acked ==> 1 <= |b| <= cfg.batchSize
    ensures forall b :: b in r.unacked ==> 1 <= |b| <= cfg.batchSize
  {
    forall b | b in r.acked || b in r.unacked
      ensures b in r.stored
    {
      assert b in multiset(r.stored);
    }
  }

  /** No counter ever goes down. */
  lemma CountersRise(cfg: Config, s: State, l: Label)
    requires Enabled(cfg, s, l)
    ensures var t := Step(cfg, s, l);
      && s.intake.accepted <= t.intake.accepted
      && s.pool.written <= t.pool.written
      && s.pool.batchCount <= t.pool.batchCount
      && s.pool.retries <= t.pool.retries
  {
    hide Append, Flush, Abandon, InsertInto;
  }

  lemma {:induction false} CountersRiseRun(cfg: Config, s: State, labels: seq<Label>, t: State)
    requires IsRun(cfg, s, labels, t)
    ensures s.intake.accepted <= t.intake.accepted && s.pool.written <= t.pool.written
    ensures s.pool.batchCount <= t.pool.batchCount && s.pool.retries <= t.pool.retries
    decreases |labels|
  {
    if labels == [] {
    } else {
      CountersRise(cfg, s, labels[0]);
      hide Step, Enabled;
      CountersRiseRun(cfg, Step(cfg, s, labels[0]), labels[1..], t);
    }
  }

  // ----- when batches are cut -----

  /** How many batches have fewer than `full` entries. */
  function Shorts(batches: seq<Batch>, full: int): nat {
    if batches == [] then 0
    else (if |batches[0]| < full then 1 else 0) + Shorts(batches[1..], full)
  }

  lemma {:induction false} ShortsSnoc(batches: seq<Batch>, b: Batch, full: int)
    ensures Shorts(batches + [b], full) == Shorts(batches, full) + if |b| < full then 1 else 0
  {
    if batches == [] {
      assert [b][1..] == [];
    } else {
      assert (batches + [b])[1..] == batches[1..] + [b];
      ShortsSnoc(batches[1..], b, full);
    }
  }

  /** The steps that may cut a batch before it is full. */
  predicate CutsEarly(l: Label) {
    l == Dispatching(Tick) || l == Dispatching(Drained) || l == Dispatching(SeeAbort)
  }

  function EarlyCuts(labels: seq<Label>): nat {
    if labels == [] then 0 else (if CutsEarly(labels[0]) then 1 else 0) + EarlyCuts(labels[1..])
  }

  /** A step cuts at most one batch, and one that is not full only on a tick, at the end
      of the drain or on a hard abort. */
  lemma CutStep(cfg: Config, s: State, l: Label)
    requires Usable(cfg) && Enabled(cfg, s, l)
    ensures var t := Step(cfg, s, l);
      Shorts(t.disp.cuts, cfg.batchSize) <= Shorts(s.disp.cuts, cfg.batchSize) + if CutsEarly(l) then 1 else 0
  {
    hide Shorts, WorkStep, DispatchStep;
    match l
    case Dispatching(a) => DispatchCut(cfg, s, a);
    case Working(w, a) => WorkCuts(cfg, s, w, a);
    case Call(_, _) =>
    case Submitting(_, _) =>
    case Controlling(_) =>
  }

  lemma WorkCuts(cfg: Config, s: State, w: nat, a: WorkAct)
    requires WorkEnabled(s, w, a)
    ensures WorkStep(cfg, s, w, a).disp == s.disp
  {
  }

  lemma DispatchCut(cfg: Config, s: State, a: DispatchAct)
    requires Usable(cfg) && DispatchEnabled(cfg, s, a)
    ensures Shorts(DispatchStep(cfg, s, a).disp.cuts, cfg.batchSize)
         <= Shorts(s.disp.cuts, cfg.batchSize) + if CutsEarly(Dispatching(a)) then 1 else 0
  {
    hide Shorts, Append, Flush, Abandon;
    match a
    case Take => AppendCuts(cfg, s.disp, s.intake.queue[0], ToLoop);
    case Drain => AppendCuts(cfg, s.disp, s.intake.queue[0], ToFinish);
    case Tick => FlushCuts(cfg, s.disp, ToLoop);
    case SeeAbort => FlushCuts(cfg, s.disp, ToLoop);
    case Drained => FlushCuts(cfg, s.disp.(drainAt := |s.intake.sent|), ToClose);
    case _ =>
  }

  lemma FlushCuts(cfg: Config, d: Dispatcher, after: After)
    ensures Shorts(Flush(d, after).cuts, cfg.batchSize) <= Shorts(d.cuts, cfg.batchSize) + 1
    ensures Shorts(Abandon(d).cuts, cfg.batchSize) <= Shorts(d.cuts, cfg.batchSize) + 1
  {
    hide Shorts;
    ShortsSnoc(d.cuts, d.batch, cfg.batchSize);
  }

  lemma AppendCuts(cfg: Config, d: Dispatcher, entry: LogEntry, after: After)
    requires Usable(cfg)
    ensures Shorts(Append(cfg, d, entry, after).cuts, cfg.batchSize) <= Shorts(d.cuts, cfg.batchSize)
  {
    hide Shorts;
    ShortsSnoc(d.cuts, d.batch + [entry], cfg.batchSize);
  }

  /** Over every run, hard aborts included, the batches cut before they were full are at
      most as many as the ticks, the ends of the drain and the aborts seen. */
  lemma {:induction false} ShortCuts(cfg: Config, s: State, labels: seq<Label>, t: State)
    requires Usable(cfg) && IsRun(cfg, s, labels, t)
    ensures Shorts(t.disp.cuts, cfg.batchSize) <= Shorts(s.disp.cuts, cfg.batchSize) + EarlyCuts(labels)
    decreases |labels|
  {
    if labels == [] {
    } else {
      hide Step, Enabled, CutsEarly;
      CutStep(cfg, s, labels[0]);
      ShortCuts(cfg, Step(cfg, s, labels[0]), labels[1..], t);
    }
  }

  /** Once the drain has ended, or the pipeline has been aborted past it, no drain ends
      again. */
  lemma DrainStep(cfg: Config, s: State, l: Label)
    requires Enabled(cfg, s, l)
    ensures PastDrain(s.disp.phase) ==> PastDrain(Step(cfg, s, l).disp.phase) && l != Dispatching(Drained)
    ensures l == Dispatching(Drained) ==> PastDrain(Step(cfg, s, l).disp.phase)
    ensures PastDrain(s.disp.phase) ==> l != Dispatching(Tick) && l != Dispatching(SeeAbort)
    ensures s.aborted ==> Step(cfg, s, l).aborted
    ensures l == Dispatching(SeeAbort) ==> s.aborted
  {
    hide Append, Flush, Abandon, InsertInto;
    if l.Dispatching? {
      hide WorkStep;
      FlushPhase(s.disp.(drainAt := |s.intake.sent|), ToClose);
    } else {
      hide DispatchStep;
    }
  }

  lemma FlushPhase(d: Dispatcher, after: After)
    ensures PastDrain(Flush(d, after).phase) <==> after.ToClose?
  {
  }

  /** Without ticks and aborts at most one batch is cut early, the last. */
  lemma {:induction false} EarlyOnce(cfg: Config, s: State, labels: seq<Label>, t: State)
    requires IsRun(cfg, s, labels, t) && !t.aborted
    requires Dispatching(Tick) !in labels
    ensures EarlyCuts(labels) + (if PastDrain(s.disp.phase) then 1 else 0) <= 1
    ensures !s.aborted
    decreases |labels|
  {
    if labels == [] {
    } else {
      DrainStep(cfg, s, labels[0]);
      hide Step, Enabled, PastDrain;
      assert labels[0] in labels;
      EarlyOnce(cfg, Step(cfg, s, labels[0]), labels[1..], t);
    }
  }

  /** Full batches but for at most one: all but one of them are full, and more. */
  lemma {:induction false} ManyEntries(batches: seq<Batch>, full: int)
    requires full >= 1 && forall b :: b in batches ==> 1 <= |b| <= full
    ensures |Flatten(batches)| <= |batches| * full
    ensures Shorts(batches, full) == 0 ==> |Flatten(batches)| == |batches| * full
    ensures Shorts(batches, full) <= 1 && batches != [] ==> |Flatten(batches)| > (|batches| - 1) * full
    decreases |batches|
  {
    if batches == [] {
    } else {
      ManyEntries(batches[1..], full);
      OneMore(|batches| - 1, full);
      if |batches| > 1 {
        OneMore(|batches| - 2, full);
      }
    }
  }

  /** Batching: in a run without ticks and without a hard abort, a finished drain has cut
      as few batches as the entries need. */
  lemma FewestBatches(cfg: Config, labels: seq<Label>, t: State)
    requires Usable(cfg) && IsRun(cfg, Init(cfg), labels, t)
    requires Quiet(t) && t.disp.phase.Exited? && !t.aborted && Dispatching(Tick) !in labels
    ensures |t.disp.cuts| == (t.disp.drainAt + cfg.batchSize - 1) / cfg.batchSize
  {
    DrainSizes(cfg, labels, t);
    hide *;
    Ceiling(t.disp.drainAt, cfg.batchSize, |t.disp.cuts|);
  }

  lemma DrainSizes(cfg: Config, labels: seq<Label>, t: State)
    requires Usable(cfg) && IsRun(cfg, Init(cfg), labels, t)
    requires Quiet(t) && t.disp.phase.Exited? && !t.aborted && Dispatching(Tick) !in labels
    ensures cfg.batchSize >= 1 && t.disp.drainAt <= |t.disp.cuts| * cfg.batchSize
    ensures t.disp.cuts == [] || t.disp.drainAt > (|t.disp.cuts| - 1) * cfg.batchSize
  {
    AtMostOneShort(cfg, labels, t);
    InitInv(cfg);
    RunInv(cfg, Init(cfg), labels, t);
    hide Inv, IsRun, Init, Quiet, Flatten, Shorts;
    DrainMarks(cfg, t);
    CutSizes(cfg, t);
    ManyEntries(t.disp.cuts, cfg.batchSize);
    assert |t.intake.sent[..t.disp.drainAt]| == t.disp.drainAt;
  }

  lemma AtMostOneShort(cfg: Config, labels: seq<Label>, t: State)
    requires Usable(cfg) && IsRun(cfg, Init(cfg), labels, t)
    requires !t.aborted && Dispatching(Tick) !in labels
    ensures Shorts(t.disp.cuts, cfg.batchSize) <= 1
  {
    hide IsRun;
    ShortCuts(cfg, Init(cfg), labels, t);
    EarlyOnce(cfg, Init(cfg), labels, t);
    assert Shorts([], cfg.batchSize) == 0;
  }

  lemma Ceiling(n: nat, b: int, k: nat)
    requires b >= 1 && n <= k * b && (k == 0 || n > (k - 1) * b)
    ensures k == (n + b - 1) / b
  {
    var m := n + b - 1;
    if k > 0 {
      OneMore(k - 1, b);
    }
    assert k * b <= m < k * b + b;
    Quotient(m, b, k);
  }

  lemma Quotient(m: int, b: int, k: nat)
    requires b >= 1 && k * b <= m < k * b + b
    ensures m / b == k
  {
    var q := m / b;
    assert q * b <= m < q * b + b;
    assert (q - k) * b == q * b - k * b;
    assert -b < (q - k) * b < b;
    if q - k >= 1 {
      AtMost(1, q - k, b);
    } else if k - q >= 1 {
      assert (k - q) * b == -((q - k) * b);
      AtMost(1, k - q, b);
    }
  }

  lemma CutSizes(cfg: Config, s: State)
    requires Inv(cfg, s)
    ensures forall b :: b in s.disp.cuts ==> 1 <= |b| <= cfg.batchSize
  {
    hide Stored, IntakeCounts, PoolCounts, PoolShape, Delays, Tried, Marks, Ordered, CutFates, WorkFates;
  }

  // ----- channel discipline -----

  /** In every reachable state: no send on a closed channel and no second close has
      happened, `batches` is closed exactly when the dispatcher has exited, every
      batch in it has between 1 and BatchSize entries, and `batch` is shorter than
      BatchSize. */
  lemma ChannelDiscipline(cfg: Config, s: State)
    requires Reachable(cfg, s)
    ensures !s.disp.panicked && (s.disp.closed <==> s.disp.phase.Exited?)
    ensures |s.batches| <= Slots(cfg) && forall b :: b in s.batches ==> 1 <= |b| <= cfg.batchSize
    ensures |s.disp.batch| < cfg.batchSize && |s.intake.queue| <= cfg.queueSize
  {
    ReachableInv(cfg, s);
  }

  function Closes(labels: seq<Label>): nat {
    if labels == [] then 0 else (if labels[0] == Dispatching(Close) then 1 else 0) + Closes(labels[1..])
  }

  lemma CloseStep(cfg: Config, s: State, l: Label)
    requires DispatcherShape(cfg, s.disp, s.stopping, s.aborted) && Enabled(cfg, s, l)
    ensures l == Dispatching(Close) ==> !s.disp.closed && Step(cfg, s, l).disp.closed
    ensures l != Dispatching(Close) ==> (Step(cfg, s, l).disp.closed <==> s.disp.closed)
    ensures l == Dispatching(HandOver) ==> !s.disp.closed
  {
    hide InsertInto;
  }

  /** What CloseStep says of a step from a state that satisfies the invariant. */
  lemma CloseStepInv(cfg: Config, s: State, l: Label)
    requires Inv(cfg, s) && Enabled(cfg, s, l)
    ensures var t := Step(cfg, s, l);
      && Inv(cfg, t)
      && (l == Dispatching(Close) ==> !s.disp.closed && t.disp.closed)
      && (l != Dispatching(Close) ==> (t.disp.closed <==> s.disp.closed))
      && (s.disp.closed ==> l != Dispatching(HandOver))
  {
    StepInv(cfg, s, l);
    CloseStep(cfg, s, l);
  }

  /** Over any run `batches` is closed once if the dispatcher has exited and not at
      all otherwise. */
  lemma {:induction false} ClosedOnce(cfg: Config, s: State, labels: seq<Label>, t: State)
    requires Inv(cfg, s) && IsRun(cfg, s, labels, t)
    ensures Closes(labels) + (if s.disp.closed then 1 else 0) == if t.disp.closed then 1 else 0
    decreases |labels|
  {
    if labels == [] {
    } else {
      hide Inv, Step, Enabled;
      CloseStepInv(cfg, s, labels[0]);
      ClosedOnce(cfg, Step(cfg, s, labels[0]), labels[1..], t);
    }
  }

  /** Once `batches` is closed nothing is handed over any more. */
  lemma {:induction false} NothingAfterClose(cfg: Config, s: State, labels: seq<Label>, t: State, k: nat)
    requires Inv(cfg, s) && IsRun(cfg, s, labels, t)
    requires s.disp.closed && k < |labels|
    ensures labels[k] != Dispatching(HandOver)
    decreases |labels|
  {
    hide Inv, Step, Enabled;
    CloseStepInv(cfg, s, labels[0]);
    if k > 0 {
      NothingAfterClose(cfg, Step(cfg, s, labels[0]), labels[1..], t, k - 1);
    }
  }
}
