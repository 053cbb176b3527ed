/** The drain ends, nothing deadlocks, and which Submit call can be left behind. */
module PipelineProgress {
  import opened Domain
  import opened Sequences
  import opened Pipeline
  import opened PipelineInvariants
  import opened PipelineTheorems

  // ----- a potential that every step uses up -----

  function SubmitWork(c: Submit): nat {
    match c.phase
    case Called => 10
    case Checked => 9
    case Sent => 1
    case _ => 0
  }

  function WorkerWork(w: Worker): nat {
    match w
    case Failed(_, _, _) => 7
    case Retrying(_, _, _) => 6
    case Waiting(_, _, _) => 5
    case Attempting(_, _, _) => 4
    case Landed(_) => 3
    case Tallied(_) => 2
    case Asleep => 2
    case Idle => 1
    case Gone => 0
  }

  function PhaseWork(p: Phase): nat {
    match p
    case Unstarted => 4
    case Looping => 3
    case Finishing => 2
    case Closing => 1
    case Exited => 0
    case Handing(out, after) => AfterWork(after) + 5 * |out|
  }

  function AfterWork(after: After): nat {
    match after
    case ToLoop => 3
    case ToFinish => 2
    case ToClose => 1
  }

  function DispatcherWork(d: Dispatcher): nat {
    PhaseWork(d.phase) + 6 * |d.batch|
  }

  /** The work that remains: in-flight Submit calls, entries weighted by how far they
      have come, the dispatcher's phase, the workers, and the two signals. */
  function Potential(s: State): nat {
    Sum(s.intake.submits, SubmitWork) + 7 * |s.intake.queue| + DispatcherWork(s.disp)
    + 4 * |Flatten(s.batches)| + Sum(s.pool.workers, WorkerWork)
    + (if s.stopping then 0 else 1) + (if s.aborted then 0 else 1)
  }

  /** The work that the surroundings add: a new Submit call, a failed BulkInsert. */
  function Added(l: Label): nat {
    match l
    case Call(_, _) => 11
    case Working(_, a) => if a.Insert? && !a.outcome.Written? then 4 else 0
    case _ => 0
  }

  function TotalAdded(labels: seq<Label>): nat {
    if labels == [] then 0 else Added(labels[0]) + TotalAdded(labels[1..])
  }

  /** A tick that finds no batch in the making. */
  predicate Stutters(s: State, l: Label) {
    l == Dispatching(Tick) && s.disp.batch == []
  }

  lemma StutterStays(cfg: Config, s: State, l: Label)
    requires Enabled(cfg, s, l) && Stutters(s, l)
    ensures Step(cfg, s, l) == s
  {
  }

  /** How many steps of a run are not stutters. */
  function Moves(cfg: Config, s: State, labels: seq<Label>): nat
    decreases |labels|
  {
    if labels == [] || !Enabled(cfg, s, labels[0]) then 0
    else (if Stutters(s, labels[0]) then 0 else 1) + Moves(cfg, Step(cfg, s, labels[0]), labels[1..])
  }

  lemma SubmitUsesWork(cfg: Config, s: State, i: nat, a: SubmitAct)
    requires SubmitEnabled(cfg, s.intake, s.stopping, i, a)
    ensures var k := SubmitStep(s.intake, s.stopping, i, a);
      Sum(k.submits, SubmitWork) + 7 * |k.queue| + 1 <= Sum(s.intake.submits, SubmitWork) + 7 * |s.intake.queue|
  {
    var k := SubmitStep(s.intake, s.stopping, i, a);
    SumUpdate(s.intake.submits, i, k.submits[i], SubmitWork);
    assert k.submits == s.intake.submits[i := k.submits[i]];
  }

  /** Cutting a batch, or handing it over, uses up work. */
  lemma FlushWork(d: Dispatcher, after: After)
    ensures DispatcherWork(Flush(d, after)) + |d.batch| <= AfterWork(after) + 6 * |d.batch|
  {
  }

  lemma AppendWork(cfg: Config, d: Dispatcher, entry: LogEntry, after: After)
    requires d.phase == Return(after)
    ensures DispatcherWork(Append(cfg, d, entry, after)) <= DispatcherWork(d) + 6
  {
    FlushWork(d.(batch := d.batch + [entry]), after);
    hide Flush;
  }

  /** Handing a batch over uses up work. */
  lemma HandOverUsesWork(cfg: Config, s: State)
    requires DispatchEnabled(cfg, s, HandOver)
    requires DispatcherShape(cfg, s.disp, s.stopping, s.aborted)
    ensures var t := DispatchStep(cfg, s, HandOver);
      DispatcherWork(t.disp) + 4 * |Flatten(t.batches)| + 1 <= DispatcherWork(s.disp) + 4 * |Flatten(s.batches)|
  {
    FlattenSnoc(s.batches, s.disp.phase.out);
    hide Flatten;
  }

  lemma DispatchUsesWork(cfg: Config, s: State, a: DispatchAct)
    requires Usable(cfg) && DispatcherShape(cfg, s.disp, s.stopping, s.aborted) && DispatchEnabled(cfg, s, a)
    requires !Stutters(s, Dispatching(a))
    ensures var t := DispatchStep(cfg, s, a);
      7 * |t.intake.queue| + DispatcherWork(t.disp) + 4 * |Flatten(t.batches)| + 1
      <= 7 * |s.intake.queue| + DispatcherWork(s.disp) + 4 * |Flatten(s.batches)| + Added(Dispatching(a))
  {
    hide Flatten;
    match a
    case Take => AppendWork(cfg, s.disp, s.intake.queue[0], ToLoop); hide Append, DispatcherShape, DispatcherWork;
    case Drain => AppendWork(cfg, s.disp, s.intake.queue[0], ToFinish); hide Append, DispatcherShape, DispatcherWork;
    case HandOver => HandOverUsesWork(cfg, s); hide DispatcherShape, DispatcherWork;
    case Tick => FlushWork(s.disp, ToLoop);
    case Drained => FlushWork(s.disp.(drainAt := |s.intake.sent|), ToClose);
    case _ =>
  }

  lemma ReceiveUsesWork(cfg: Config, s: State, w: nat)
    requires PoolShape(cfg, s.disp.phase, s.batches, s.pool.workers) && WorkEnabled(s, w, Receive)
    ensures 4 * |Flatten(s.batches[1..])| + 4 <= 4 * |Flatten(s.batches)|
  {
    assert s.batches[0] in s.batches;
    assert Flatten(s.batches) == s.batches[0] + Flatten(s.batches[1..]);
  }

  lemma WorkUsesWork(cfg: Config, s: State, w: nat, a: WorkAct)
    requires PoolShape(cfg, s.disp.phase, s.batches, s.pool.workers) && WorkEnabled(s, w, a)
    ensures var t := WorkStep(cfg, s, w, a);
      4 * |Flatten(t.batches)| + Sum(t.pool.workers, WorkerWork) + 1
      <= 4 * |Flatten(s.batches)| + Sum(s.pool.workers, WorkerWork) + Added(Working(w, a))
  {
    hide PoolShape, Flatten, Sum;
    var t := WorkStep(cfg, s, w, a);
    assert t.pool.workers == s.pool.workers[w := t.pool.workers[w]];
    SumUpdate(s.pool.workers, w, t.pool.workers[w], WorkerWork);
    if a.Receive? {
      ReceiveUsesWork(cfg, s, w);
    }
  }

  lemma {:induction false} AllWake(workers: seq<Worker>, woken: seq<Worker>)
    requires |workers| == |woken|
    requires forall w :: 0 <= w < |workers| ==> workers[w].Asleep? && woken[w].Idle?
    ensures Sum(woken, WorkerWork) <= Sum(workers, WorkerWork)
  {
    if workers == [] {
    } else {
      AllWake(workers[1..], woken[1..]);
    }
  }

  lemma ControlUsesWork(cfg: Config, s: State, a: ControlAct)
    requires PoolShape(cfg, s.disp.phase, s.batches, s.pool.workers) && ControlEnabled(s, a)
    requires DispatcherShape(cfg, s.disp, s.stopping, s.aborted)
    ensures Potential(ControlStep(s, a)) + 1 <= Potential(s)
  {
    if a.Start? {
      AllWake(s.pool.workers, ControlStep(s, a).pool.workers);
    }
  }

  /** Every step but a stutter uses up at least one unit of work beyond what it adds. */
  lemma StepUsesWork(cfg: Config, s: State, l: Label)
    requires Inv(cfg, s) && Enabled(cfg, s, l) && !Stutters(s, l)
    ensures Potential(Step(cfg, s, l)) + 1 <= Potential(s) + Added(l)
  {
    hide Flatten, Sum, DispatcherWork, DispatcherShape, PoolShape, SubmitStep;
    match l
    case Call(caller, entry) => SumSnoc(s.intake.submits, Submit(caller, entry, Called), SubmitWork);
    case Submitting(i, a) => SubmitUsesWork(cfg, s, i, a);
    case Controlling(a) => ControlUsesWork(cfg, s, a);
    case Dispatching(a) => DispatchUsesWork(cfg, s, a); DispatchFrame(cfg, s, a);
    case Working(w, a) => WorkUsesWork(cfg, s, w, a); WorkFrame(cfg, s, w, a);
  }

  lemma DispatchFrame(cfg: Config, s: State, a: DispatchAct)
    requires DispatchEnabled(cfg, s, a)
    ensures var t := DispatchStep(cfg, s, a);
      && t.intake.submits == s.intake.submits && t.intake.sent == s.intake.sent
      && t.pool == s.pool && t.repo == s.repo
      && t.stopping == s.stopping && t.aborted == s.aborted && t.stopAt == s.stopAt
  {
  }

  lemma WorkFrame(cfg: Config, s: State, w: nat, a: WorkAct)
    requires WorkEnabled(s, w, a)
    ensures var t := WorkStep(cfg, s, w, a);
      && t.intake == s.intake && t.disp == s.disp
      && t.stopping == s.stopping && t.aborted == s.aborted && t.stopAt == s.stopAt
  {
  }

  lemma {:induction false} RunUsesWork(cfg: Config, s: State, labels: seq<Label>, t: State)
    requires Inv(cfg, s) && IsRun(cfg, s, labels, t)
    ensures Moves(cfg, s, labels) + Potential(t) <= Potential(s) + TotalAdded(labels)
    decreases |labels|
  {
    if labels == [] {
    } else {
      hide Inv, Step, Enabled, Potential, Added, Stutters;
      if Stutters(s, labels[0]) {
        StutterStays(cfg, s, labels[0]);
      } else {
        StepUsesWork(cfg, s, labels[0]);
      }
      StepInv(cfg, s, labels[0]);
      RunUsesWork(cfg, Step(cfg, s, labels[0]), labels[1..], t);
    }
  }

  lemma {:induction false} SleepersWork(workers: seq<Worker>)
    requires forall w :: w in workers ==> w.Asleep?
    ensures Sum(workers, WorkerWork) == 2 * |workers|
  {
    if workers == [] {
    } else {
      SleepersWork(workers[1..]);
    }
  }

  /** Termination, from any reachable state: the work that remains there and what new
      calls and failed inserts add bound the steps of every run from it, stutters aside. */
  lemma RunsEnd(cfg: Config, s: State, labels: seq<Label>, t: State)
    requires Reachable(cfg, s) && IsRun(cfg, s, labels, t)
    ensures Moves(cfg, s, labels) <= Potential(s) + TotalAdded(labels)
    ensures (forall l :: l in labels ==> Added(l) == 0) ==> Moves(cfg, s, labels) <= Potential(s)
  {
    ReachableInv(cfg, s);
    RunUsesWork(cfg, s, labels, t);
    if forall l :: l in labels ==> Added(l) == 0 {
      NothingAdded(labels);
    }
  }

  lemma {:induction false} NothingAdded(labels: seq<Label>)
    requires forall l :: l in labels ==> Added(l) == 0
    ensures TotalAdded(labels) == 0
  {
    if labels == [] {
    } else {
      assert labels[0] in labels;
      NothingAdded(labels[1..]);
    }
  }

  /** From the start: every run's steps are bounded by what the surroundings did in it. */
  lemma RunsAreShort(cfg: Config, labels: seq<Label>, t: State)
    requires Usable(cfg) && IsRun(cfg, Init(cfg), labels, t)
    ensures Moves(cfg, Init(cfg), labels) <= 2 * cfg.workers + 6 + TotalAdded(labels)
  {
    InitInv(cfg);
    RunUsesWork(cfg, Init(cfg), labels, t);
    SleepersWork(Init(cfg).pool.workers);
  }

  // ----- the drain, and what an abort is for -----

  /** What a Submit call has left to do once `stopping` is closed: one that has not
      passed its check will be refused. */
  function SubmitLeft(c: Submit): nat {
    match c.phase
    case Checked => 9
    case Sent => 1
    case _ => 0
  }

  /** What a worker has left to do once the hard context is done: a failed insert gives
      its batch up. */
  function WorkerLeft(w: Worker): nat {
    match w
    case Failed(_, _, _) => 3
    case _ => WorkerWork(w)
  }

  /** The work that remains after Stop: Submit calls past their check, entries weighted
      by how far they have come, the dispatcher's phase and the workers. */
  function DrainLeft(s: State): nat {
    Sum(s.intake.submits, SubmitLeft) + 7 * |s.intake.queue| + DispatcherWork(s.disp)
    + 4 * |Flatten(s.batches)| + Sum(s.pool.workers, WorkerWork) + (if s.aborted then 0 else 1)
  }

  /** The same once the hard context is done as well. */
  function AbortLeft(s: State): nat {
    Sum(s.intake.submits, SubmitLeft) + 7 * |s.intake.queue| + DispatcherWork(s.disp)
    + 4 * |Flatten(s.batches)| + Sum(s.pool.workers, WorkerLeft)
  }

  /** The steps of callers that a stopping pipeline refuses. */
  predicate Refusal(l: Label) {
    l.Call? || (l.Submitting? && l.s.Check?)
  }

  /** How many steps of a run are neither stutters nor refusals. */
  function Efforts(cfg: Config, s: State, labels: seq<Label>): nat
    decreases |labels|
  {
    if labels == [] || !Enabled(cfg, s, labels[0]) then 0
    else
      (if Stutters(s, labels[0]) || Refusal(labels[0]) then 0 else 1)
      + Efforts(cfg, Step(cfg, s, labels[0]), labels[1..])
  }

  function Failure(l: Label): nat {
    if l.Working? && l.a.Insert? && !l.a.outcome.Written? then 1 else 0
  }

  /** How many inserts of a run return an error. */
  function Failures(labels: seq<Label>): nat {
    if labels == [] then 0 else Failure(labels[0]) + Failures(labels[1..])
  }

  lemma SubmitUsesLeft(cfg: Config, k: Intake, i: nat, a: SubmitAct)
    requires SubmitEnabled(cfg, k, true, i, a)
    ensures var after := SubmitStep(k, true, i, a);
      Sum(after.submits, SubmitLeft) + 7 * |after.queue| + (if a.Check? then 0 else 1)
      <= Sum(k.submits, SubmitLeft) + 7 * |k.queue|
  {
    var after := SubmitStep(k, true, i, a);
    SumUpdate(k.submits, i, after.submits[i], SubmitLeft);
    assert after.submits == k.submits[i := after.submits[i]];
  }

  lemma WorkUsesLeft(cfg: Config, s: State, w: nat, a: WorkAct)
    requires PoolShape(cfg, s.disp.phase, s.batches, s.pool.workers) && WorkEnabled(s, w, a) && s.aborted
    ensures var t := WorkStep(cfg, s, w, a);
      4 * |Flatten(t.batches)| + Sum(t.pool.workers, WorkerLeft) + 1
      <= 4 * |Flatten(s.batches)| + Sum(s.pool.workers, WorkerLeft)
  {
    hide PoolShape, Flatten, Sum;
    var t := WorkStep(cfg, s, w, a);
    assert t.pool.workers == s.pool.workers[w := t.pool.workers[w]];
    SumUpdate(s.pool.workers, w, t.pool.workers[w], WorkerLeft);
    if a.Receive? {
      ReceiveUsesWork(cfg, s, w);
    }
  }

  lemma {:induction false} AllWakeLeft(workers: seq<Worker>, woken: seq<Worker>)
    requires |workers| == |woken|
    requires forall w :: 0 <= w < |workers| ==> workers[w].Asleep? && woken[w].Idle?
    ensures Sum(woken, WorkerLeft) <= Sum(workers, WorkerLeft)
  {
    if workers == [] {
    } else {
      AllWakeLeft(workers[1..], woken[1..]);
    }
  }

  /** After Stop, every step but stutters and refusals uses up work; only a failed insert
      adds some. */
  lemma StepUsesDrain(cfg: Config, s: State, l: Label)
    requires Inv(cfg, s) && Enabled(cfg, s, l) && s.stopping && !Stutters(s, l)
    ensures Step(cfg, s, l).stopping
    ensures DrainLeft(Step(cfg, s, l)) + (if Refusal(l) then 0 else 1) <= DrainLeft(s) + 4 * Failure(l)
  {
    hide Flatten, Sum, DispatcherWork, DispatcherShape, PoolShape, SubmitStep;
    match l
    case Call(caller, entry) => SumSnoc(s.intake.submits, Submit(caller, entry, Called), SubmitLeft);
    case Submitting(i, a) => SubmitUsesLeft(cfg, s.intake, i, a);
    case Controlling(a) => ControlUsesWork(cfg, s, a);
    case Dispatching(a) => DispatchUsesWork(cfg, s, a); DispatchFrame(cfg, s, a);
    case Working(w, a) => WorkUsesWork(cfg, s, w, a); WorkFrame(cfg, s, w, a);
  }

  /** After Stop and a hard abort, every step but stutters and refusals uses up work,
      whatever the inserts do. */
  lemma StepUsesAbort(cfg: Config, s: State, l: Label)
    requires Inv(cfg, s) && Enabled(cfg, s, l) && s.stopping && s.aborted && !Stutters(s, l)
    ensures Step(cfg, s, l).stopping && Step(cfg, s, l).aborted
    ensures AbortLeft(Step(cfg, s, l)) + (if Refusal(l) then 0 else 1) <= AbortLeft(s)
  {
    hide Flatten, Sum, DispatcherShape, PoolShape, SubmitStep;
    match l
    case Call(caller, entry) => SumSnoc(s.intake.submits, Submit(caller, entry, Called), SubmitLeft);
    case Submitting(i, a) => SubmitUsesLeft(cfg, s.intake, i, a);
    case Controlling(a) =>
      assert a.Start?;
      SleepersAsleep(cfg, s);
      AllWakeLeft(s.pool.workers, ControlStep(s, a).pool.workers);
    case Dispatching(a) => DispatchUsesWork(cfg, s, a); DispatchFrame(cfg, s, a); hide DispatcherWork;
    case Working(w, a) => WorkUsesLeft(cfg, s, w, a); WorkFrame(cfg, s, w, a); hide DispatcherWork;
  }

  lemma SleepersAsleep(cfg: Config, s: State)
    requires PoolShape(cfg, s.disp.phase, s.batches, s.pool.workers) && s.disp.phase.Unstarted?
    ensures forall w :: 0 <= w < |s.pool.workers| ==> s.pool.workers[w].Asleep?
  {
  }

  lemma {:induction false} RunUsesDrain(cfg: Config, s: State, labels: seq<Label>, t: State)
    requires Inv(cfg, s) && s.stopping && IsRun(cfg, s, labels, t)
    ensures Efforts(cfg, s, labels) + DrainLeft(t) <= DrainLeft(s) + 4 * Failures(labels)
    decreases |labels|
  {
    if labels == [] {
    } else {
      hide Inv, Step, Enabled, DrainLeft, Failure, Stutters, Refusal;
      if Stutters(s, labels[0]) {
        StutterStays(cfg, s, labels[0]);
      } else {
        StepUsesDrain(cfg, s, labels[0]);
      }
      StepInv(cfg, s, labels[0]);
      RunUsesDrain(cfg, Step(cfg, s, labels[0]), labels[1..], t);
    }
  }

  lemma {:induction false} RunUsesAbort(cfg: Config, s: State, labels: seq<Label>, t: State)
    requires Inv(cfg, s) && s.stopping && s.aborted && IsRun(cfg, s, labels, t)
    ensures Efforts(cfg, s, labels) + AbortLeft(t) <= AbortLeft(s)
    decreases |labels|
  {
    if labels == [] {
    } else {
      hide Inv, Step, Enabled, AbortLeft, Stutters, Refusal;
      if Stutters(s, labels[0]) {
        StutterStays(cfg, s, labels[0]);
      } else {
        StepUsesAbort(cfg, s, labels[0]);
      }
      StepInv(cfg, s, labels[0]);
      RunUsesAbort(cfg, Step(cfg, s, labels[0]), labels[1..], t);
    }
  }

  /** The drain ends: from any reachable state after Stop, every run has at most as many
      steps as there is work left, and four more for each failed insert, however many
      callers keep being refused meanwhile. */
  lemma DrainIsShort(cfg: Config, s: State, labels: seq<Label>, t: State)
    requires Reachable(cfg, s) && s.stopping && IsRun(cfg, s, labels, t)
    ensures Efforts(cfg, s, labels) <= DrainLeft(s) + 4 * Failures(labels)
  {
    ReachableInv(cfg, s);
    RunUsesDrain(cfg, s, labels, t);
  }

  /** A hard abort ends it even with a dead database: from any reachable state after Stop
      and the abort, every run has at most as many steps as there is work left, whatever
      the inserts do and however many callers are refused. */
  lemma AbortIsShort(cfg: Config, s: State, labels: seq<Label>, t: State)
    requires Reachable(cfg, s) && s.stopping && s.aborted && IsRun(cfg, s, labels, t)
    ensures Efforts(cfg, s, labels) <= AbortLeft(s)
  {
    ReachableInv(cfg, s);
    RunUsesAbort(cfg, s, labels, t);
  }

  // ----- some goroutine can always go on -----

  /** A step the pipeline itself can take while it shuts down. */
  function NextWork(s: State, w: nat): WorkAct
    requires w < |s.pool.workers|
  {
    match s.pool.workers[w]
    case Attempting(_, _, _) => Insert(Written)
    case Failed(_, _, _) => Judge
    case Retrying(_, _, _) => AddRetry
    case Waiting(_, _, _) => Wake
    case Landed(_) => AddWritten
    case Tallied(_) => AddBatch
    case _ => if s.batches != [] then Receive else Quit
  }

  function NextDispatch(cfg: Config, s: State): DispatchAct {
    match s.disp.phase
    case Looping => if s.stopping then SeeStop else SeeAbort
    case Handing(_, _) => HandOver
    case Finishing => if s.intake.queue != [] then Drain else Drained
    case _ => Close
  }

  predicate WorkerReady(s: State) {
    exists w :: 0 <= w < |s.pool.workers| && WorkEnabled(s, w, NextWork(s, w))
  }

  /** Workers first; the dispatcher when no worker can go on. */
  ghost function Next(cfg: Config, s: State): Label {
    if WorkerReady(s) then
      var w :| 0 <= w < |s.pool.workers| && WorkEnabled(s, w, NextWork(s, w));
      Working(w, NextWork(s, w))
    else
      Dispatching(NextDispatch(cfg, s))
  }

  /** No deadlock: once the pipeline is stopping or aborted, as long as any of its
      goroutines is alive a step is enabled that adds no work and needs no Submit
      call, no failing insert and no tick. */
  lemma Progress(cfg: Config, s: State)
    requires Inv(cfg, s) && (s.stopping || s.aborted)
    requires !s.disp.phase.Unstarted? && !Quiet(s)
    ensures Enabled(cfg, s, Next(cfg, s)) && Added(Next(cfg, s)) == 0
    ensures !Stutters(s, Next(cfg, s))
    ensures Next(cfg, s).Working? || Next(cfg, s).Dispatching?
  {
    hide Stored, IntakeCounts, PoolCounts, Delays, Tried, Marks, Ordered, CutFates, WorkFates;
    if s.batches != [] || s.disp.phase.Exited? {
      SomeWorkerReady(cfg, s);
    }
  }

  /** A worker can go on while batches wait, and while any worker is left after the
      dispatcher has exited. */
  lemma SomeWorkerReady(cfg: Config, s: State)
    requires Inv(cfg, s) && !s.disp.phase.Unstarted?
    requires s.batches != [] || (s.disp.phase.Exited? && !Quiet(s))
    ensures WorkerReady(s)
  {
    hide Stored, IntakeCounts, PoolCounts, Delays, Tried, Marks, Ordered, CutFates, WorkFates;
    var w :| 0 <= w < |s.pool.workers| && !s.pool.workers[w].Gone?;
    assert WorkEnabled(s, w, NextWork(s, w));
  }

  /** A run of the pipeline on its own, from any shutdown state to the end: no
      Submit call moves, every insert succeeds, and nothing is aborted. */
  lemma {:induction false} DrainRun(cfg: Config, s: State) returns (labels: seq<Label>, t: State)
    requires Inv(cfg, s) && (s.stopping || s.aborted) && !s.disp.phase.Unstarted?
    ensures IsRun(cfg, s, labels, t) && Inv(cfg, t) && Quiet(t) && t.disp.phase.Exited?
    ensures t.intake.submits == s.intake.submits && t.intake.sent == s.intake.sent
    ensures t.aborted == s.aborted && TotalAdded(labels) == 0
    ensures !s.aborted && !(PastDrain(s.disp.phase) && s.intake.queue != []) ==> t.intake.queue == []
    decreases Potential(s)
  {
    if Quiet(s) {
      labels, t := [], s;
    } else {
      hide Inv, Potential, Step, Enabled;
      Progress(cfg, s);
      var l := Next(cfg, s);
      hide Next;
      OwnStep(cfg, s, l);
      var rest;
      rest, t := DrainRun(cfg, Step(cfg, s, l));
      labels := [l] + rest;
      assert labels[1..] == rest;
    }
  }

  /** What a step of the pipeline itself leaves alone. */
  lemma OwnStep(cfg: Config, s: State, l: Label)
    requires Inv(cfg, s) && Enabled(cfg, s, l) && Added(l) == 0 && (l.Working? || l.Dispatching?)
    requires !Stutters(s, l)
    requires !s.disp.phase.Unstarted?
    ensures var t := Step(cfg, s, l);
      && Inv(cfg, t) && Potential(t) < Potential(s)
      && t.intake.submits == s.intake.submits && t.intake.sent == s.intake.sent
      && t.aborted == s.aborted && t.stopping == s.stopping
      && !t.disp.phase.Unstarted?
      && (!s.aborted && !(PastDrain(s.disp.phase) && s.intake.queue != []) ==>
            !(PastDrain(t.disp.phase) && t.intake.queue != []))
  {
    hide Inv, Potential, DispatchStep, WorkStep, DispatchEnabled, WorkEnabled, Quiet;
    StepInv(cfg, s, l);
    StepUsesWork(cfg, s, l);
    if l.Working? {
      WorkFrame(cfg, s, l.w, l.a);
    } else {
      DispatchFrame(cfg, s, l.d);
      DispatchDrain(cfg, s, l.d);
    }
  }

  /** The dispatcher ends its drain only on an empty `ingest`. */
  lemma DispatchDrain(cfg: Config, s: State, a: DispatchAct)
    requires DispatchEnabled(cfg, s, a)
    ensures var t := DispatchStep(cfg, s, a);
      && !t.disp.phase.Unstarted?
      && (!s.aborted && !(PastDrain(s.disp.phase) && s.intake.queue != []) ==>
            !(PastDrain(t.disp.phase) && t.intake.queue != []))
  {
  }

  // ----- the entry that can be left behind -----

  /** Some Submit call is between its two selects: past the check of `stopping`, not
      yet sent. */
  predicate Straddling(s: State) {
    exists i :: 0 <= i < |s.intake.submits| && s.intake.submits[i].phase.Checked?
  }

  /** Stop has returned nil, yet Stats reports entries as queued: more Submit calls
      have returned nil than entries have been written. */
  predicate LeftBehind(s: State) {
    Quiet(s) && !s.aborted && s.intake.accepted > s.pool.written
  }

  ghost predicate CanLeaveBehind(cfg: Config, s: State) {
    exists labels, t :: IsRun(cfg, s, labels, t) && LeftBehind(t)
  }

  /** Once `stopping` is closed and no call is past its check, nothing is sent any more. */
  lemma NoNewSends(cfg: Config, s: State, l: Label)
    requires s.stopping && !Straddling(s) && Enabled(cfg, s, l)
    ensures var t := Step(cfg, s, l);
      t.stopping && !Straddling(t) && t.intake.sent == s.intake.sent && t.stopAt == s.stopAt
  {
    match l
    case Dispatching(a) => DispatchFrame(cfg, s, a);
    case Working(w, a) => WorkFrame(cfg, s, w, a);
    case Call(_, _) =>
    case Controlling(_) =>
    case Submitting(i, a) =>
      var k := SubmitStep(s.intake, s.stopping, i, a);
      assert forall j :: 0 <= j < |k.submits| && j != i ==> k.submits[j] == s.intake.submits[j];
  }

  lemma {:induction false} NoNewSendsRun(cfg: Config, s: State, labels: seq<Label>, t: State)
    requires s.stopping && !Straddling(s) && IsRun(cfg, s, labels, t)
    ensures t.intake.sent == s.intake.sent && t.stopAt == s.stopAt && t.stopping
    decreases |labels|
  {
    if labels == [] {
    } else {
      hide Straddling, Step, Enabled;
      NoNewSends(cfg, s, labels[0]);
      NoNewSendsRun(cfg, Step(cfg, s, labels[0]), labels[1..], t);
    }
  }

  /** The exact condition for the drain to be complete. When Stop is called on a
      running pipeline, some continuation lets Stop return nil with an accepted
      entry left behind if and only if, at that moment, some Submit call is between
      its two selects. */
  lemma StrandingExact(cfg: Config, s: State)
    requires Reachable(cfg, s) && !s.disp.phase.Unstarted? && !s.stopping && !s.aborted
    ensures CanLeaveBehind(cfg, Step(cfg, s, Controlling(Stop))) <==> Straddling(s)
  {
    ReachableInv(cfg, s);
    StepInv(cfg, s, Controlling(Stop));
    StoppedState(cfg, s);
    hide Inv, Step, Reachable, CanLeaveBehind, PastDrain, Enabled;
    if Straddling(s) {
      SomeStrands(cfg, Step(cfg, s, Controlling(Stop)));
    } else {
      NoneStrands(cfg, Step(cfg, s, Controlling(Stop)));
    }
  }

  lemma SomeStrands(cfg: Config, s: State)
    requires Inv(cfg, s) && s.stopping && !s.aborted && !s.disp.phase.Unstarted? && !PastDrain(s.disp.phase)
    requires Straddling(s)
    ensures CanLeaveBehind(cfg, s)
  {
    hide Inv, PastDrain, LeftBehind;
    var i :| 0 <= i < |s.intake.submits| && s.intake.submits[i].phase.Checked?;
    var labels, t := Strand(cfg, s, i);
  }

  lemma NoneStrands(cfg: Config, s: State)
    requires Inv(cfg, s) && s.stopping && !s.disp.phase.Unstarted? && s.stopAt == |s.intake.sent|
    requires !Straddling(s)
    ensures !CanLeaveBehind(cfg, s)
  {
    hide Inv, LeftBehind, Straddling;
    if CanLeaveBehind(cfg, s) {
      var labels, t :| IsRun(cfg, s, labels, t) && LeftBehind(t);
      NoneLeft(cfg, s, labels, t);
    }
  }

  lemma StoppedState(cfg: Config, s: State)
    requires Inv(cfg, s) && !s.disp.phase.Unstarted? && !s.stopping && !s.aborted
    ensures var t := Step(cfg, s, Controlling(Stop));
      && t.stopping && !t.aborted && !t.disp.phase.Unstarted? && !PastDrain(t.disp.phase)
      && t.intake == s.intake && t.stopAt == |t.intake.sent|
  {
    hide Stored, IntakeCounts, PoolCounts, Delays, Tried, Marks, Ordered, CutFates, WorkFates, PoolShape;
  }

  /** With a Submit call between its selects: let the pipeline drain to the end, then
      let that call send, then let every call count its send. */
  lemma Strand(cfg: Config, s: State, i: nat) returns (labels: seq<Label>, t: State)
    requires Inv(cfg, s) && s.stopping && !s.aborted && !s.disp.phase.Unstarted? && !PastDrain(s.disp.phase)
    requires i < |s.intake.submits| && s.intake.submits[i].phase.Checked?
    ensures IsRun(cfg, s, labels, t) && LeftBehind(t)
  {
    var drain, m := DrainRun(cfg, s);
    var l := Submitting(i, Send);
    LateSend(cfg, m, i);
    var sent := Step(cfg, m, l);
    OneStep(cfg, m, l);
    hide Inv, Step, Enabled, IsRun, UnacceptedBy, Gather;
    var counts;
    counts, t := CountAll(cfg, sent);
    RunConcat(cfg, m, [l], sent, counts, t);
    RunConcat(cfg, s, drain, m, [l] + counts, t);
    labels := drain + ([l] + counts);
    QuietCounters(cfg, t);
  }

  lemma OneStep(cfg: Config, s: State, l: Label)
    requires Enabled(cfg, s, l)
    ensures IsRun(cfg, s, [l], Step(cfg, s, l))
  {
    hide Step, Enabled;
    assert [l][1..] == [];
  }

  /** A call past its check can still send when every goroutine has ended. */
  lemma LateSend(cfg: Config, s: State, i: nat)
    requires Inv(cfg, s) && s.intake.queue == []
    requires i < |s.intake.submits| && s.intake.submits[i].phase.Checked?
    ensures Enabled(cfg, s, Submitting(i, Send))
    ensures var t := Step(cfg, s, Submitting(i, Send));
      && Inv(cfg, t) && |t.intake.queue| == 1
      && t.disp == s.disp && t.pool == s.pool && t.aborted == s.aborted
  {
    assert Enabled(cfg, s, Submitting(i, Send));
    StepInv(cfg, s, Submitting(i, Send));
    hide Inv;
  }

  /** With every goroutine at its end, what is written is what was taken out of
      `ingest`. */
  lemma QuietCounters(cfg: Config, s: State)
    requires Inv(cfg, s) && Quiet(s) && s.disp.phase.Exited? && !s.aborted
    ensures s.intake.accepted + |Gather(s.intake.submits, UnacceptedBy)| - s.pool.written == |s.intake.queue|
  {
    hide Delays, Tried, Marks, CutFates, WorkFates, Stored;
    CutEntries(s.disp.cuts, s.disp.drops, Out(s.disp.phase), s.batches, s.pool.taken, s.aborted);
    TakenEntries(Gather(s.pool.workers, HeldBy), s.pool.taken, s.repo.acked, s.pool.drops, s.aborted);
    QuietIsEmpty(cfg, s);
    NothingHeld(s.pool.workers);
  }

  lemma CountStep(cfg: Config, s: State, i: nat)
    requires Inv(cfg, s) && i < |s.intake.submits| && s.intake.submits[i].phase.Sent?
    ensures var l := Submitting(i, Count);
      && Enabled(cfg, s, l)
      && var t := Step(cfg, s, l);
         && Inv(cfg, t) && Potential(t) < Potential(s)
         && t.disp == s.disp && t.pool == s.pool && t.aborted == s.aborted && t.intake.queue == s.intake.queue
  {
    var l := Submitting(i, Count);
    StepInv(cfg, s, l);
    StepUsesWork(cfg, s, l);
    hide Inv, Potential;
  }

  /** Every call that has sent counts its send. */
  lemma {:induction false} CountAll(cfg: Config, s: State) returns (labels: seq<Label>, t: State)
    requires Inv(cfg, s)
    ensures IsRun(cfg, s, labels, t) && Inv(cfg, t)
    ensures Gather(t.intake.submits, UnacceptedBy) == []
    ensures t.disp == s.disp && t.pool == s.pool && t.aborted == s.aborted && t.intake.queue == s.intake.queue
    decreases Potential(s)
  {
    var uncounted := Gather(s.intake.submits, UnacceptedBy);
    if uncounted == [] {
      labels, t := [], s;
    } else {
      hide Inv, Potential, Gather;
      GatherMember(s.intake.submits, UnacceptedBy, uncounted[0]);
      var i :| 0 <= i < |s.intake.submits| && uncounted[0] in UnacceptedBy(s.intake.submits[i]);
      var l := Submitting(i, Count);
      CountStep(cfg, s, i);
      hide Step, Enabled;
      var rest;
      rest, t := CountAll(cfg, Step(cfg, s, l));
      labels := [l] + rest;
      assert labels[1..] == rest;
    }
  }

  /** With no Submit call between its selects when Stop is called, Stop's return leaves
      nothing behind, whatever happens in between. */
  lemma NoneLeft(cfg: Config, s: State, labels: seq<Label>, t: State)
    requires Inv(cfg, s) && s.stopping && !Straddling(s) && s.stopAt == |s.intake.sent|
    requires !s.disp.phase.Unstarted?
    requires IsRun(cfg, s, labels, t)
    ensures !LeftBehind(t)
  {
    RunInv(cfg, s, labels, t);
    NoNewSendsRun(cfg, s, labels, t);
    StartedRun(cfg, s, labels, t);
    if Quiet(t) && !t.aborted {
      assert PastDrain(t.disp.phase);
      assert t.intake.queue == t.intake.sent[t.disp.drainAt..] == [];
      QuietCounters(cfg, t);
    }
  }

  lemma {:induction false} StartedRun(cfg: Config, s: State, labels: seq<Label>, t: State)
    requires Inv(cfg, s) && IsRun(cfg, s, labels, t) && !s.disp.phase.Unstarted?
    ensures !t.disp.phase.Unstarted?
    decreases |labels|
  {
    if labels == [] {
    } else {
      StartedForGood(cfg, s, labels[0]);
      StepInv(cfg, s, labels[0]);
      StartedRun(cfg, Step(cfg, s, labels[0]), labels[1..], t);
    }
  }
}
