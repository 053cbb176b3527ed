/** The ingestor as the object it is: fields updated in place by the goroutines'
    loops, over a database that other sessions write to as well. Its `trace` is the run
    of the transition system that it performs, so all that is proved of reachable states
    holds of it at every moment. */
module LogIngestorObject {
  import opened Domain
  import opened Sequences
  import opened Pipeline
  import opened PipelineInvariants
  import opened PipelineTheorems
  import opened PipelineProgress
  import opened LogRepositoryObject
  import Backoff

  lemma RunSnoc(cfg: Config, s: State, labels: seq<Label>, m: State, l: Label)
    requires IsRun(cfg, s, labels, m) && Enabled(cfg, m, l)
    ensures IsRun(cfg, s, labels + [l], Step(cfg, m, l))
  {
    OneStep(cfg, m, l);
    hide IsRun, Step, Enabled;
    RunConcat(cfg, s, labels, m, [l], Step(cfg, m, l));
  }

  datatype SubmitResult = Pending | Ok | ErrIngestorStopped | CtxErr

  /** How `flush` came back; `Blocked` is not back yet. */
  datatype FlushResult = Handed | HardStopped | Blocked

  /** The goroutine on whose behalf a method runs. A caller is one of many; `TheCaller`
      is inside its call number i, `TheClient` between two of its calls. */
  datatype Role =
    | Bystander
    | TheClient(caller: nat)
    | TheCaller(caller: nat, i: nat)
    | TheDispatcher
    | TheWorker(w: nat)

  predicate PartOf(me: Role, l: Label) {
    match me
    case Bystander => false
    case TheClient(caller) => l.Call? && l.caller == caller
    case TheCaller(caller, i) => (l.Submitting? && l.i == i) || (l.Call? && l.caller == caller)
    case TheDispatcher => l.Dispatching?
    case TheWorker(w) => l.Working? && l.w == w
  }

  /** The last action was one of this goroutine. */
  ghost predicate JustActed(me: Role, trace: seq<Label>) {
    trace != [] && PartOf(me, trace[|trace| - 1])
  }

  ghost predicate ByOthers(me: Role, labels: seq<Label>) {
    forall l :: l in labels ==> !PartOf(me, l)
  }

  /** A call keeps its caller and its entry, and once it has succeeded it is over. */
  ghost predicate AcceptedStay(submits: seq<Submit>, later: seq<Submit>) {
    && |submits| <= |later|
    && (forall i :: 0 <= i < |submits| ==> later[i].caller == submits[i].caller && later[i].entry == submits[i].entry)
    && (forall i :: 0 <= i < |submits| && submits[i].phase.Accepted? ==> later[i] == submits[i])
  }

  /** The calls that one goroutine has made. */
  function MadeBy(submits: seq<Submit>, caller: nat): set<nat> {
    set i: nat | i < |submits| && submits[i].caller == caller
  }

  /** A pipeline whose goroutines have all ended. */
  predicate Ended(s: State) {
    Quiet(s) && s.disp.phase.Exited?
  }

  /** What only ever grows: the signals, the sends, the calls and those that have
      succeeded, what is acknowledged, and the counters; and what has ended stays. */
  ghost predicate Onward(s: State, t: State) {
    && (s.stopping ==> t.stopping) && (s.aborted ==> t.aborted)
    && s.intake.sent <= t.intake.sent && AcceptedStay(s.intake.submits, t.intake.submits)
    && s.repo.acked <= t.repo.acked
    && s.intake.accepted <= t.intake.accepted && s.pool.written <= t.pool.written
    && s.pool.batchCount <= t.pool.batchCount && s.pool.retries <= t.pool.retries
    && (Ended(s) ==> t.disp == s.disp && t.pool == s.pool && t.repo == s.repo)
  }

  lemma OnwardThen(s: State, m: State, t: State)
    requires Onward(s, m) && Onward(m, t)
    ensures Onward(s, t) && |s.intake.sent| <= |m.intake.sent| <= |t.intake.sent|
  {
  }

  lemma EndedStays(s: State, t: State)
    requires Ended(s) && Onward(s, t)
    ensures Ended(t) && t.pool == s.pool
  {
  }

  lemma OnwardStays(s: State)
    ensures Onward(s, s)
  {
  }

  lemma OnwardStep(cfg: Config, s: State, l: Label)
    requires Enabled(cfg, s, l)
    ensures Onward(s, Step(cfg, s, l))
  {
    CountersRise(cfg, s, l);
    match l
    case Call(_, _) =>
    case Submitting(_, _) =>
    case Controlling(_) =>
    case Dispatching(a) => DispatchFrame(cfg, s, a); hide DispatchStep;
    case Working(w, a) => WorkFrame(cfg, s, w, a); OneWorker(cfg, s, w, a); hide WorkStep;
  }

  /** What a run of the other goroutines leaves a goroutine to rely on: its own
      variables, beside what only ever grows. */
  ghost predicate Undisturbed(me: Role, s: State, t: State) {
    && Onward(s, t)
    && (!s.disp.phase.Unstarted? ==> !t.disp.phase.Unstarted?)
    && |t.pool.workers| == |s.pool.workers|
    && match me
       case Bystander => true
       case TheClient(caller) => MadeBy(t.intake.submits, caller) == MadeBy(s.intake.submits, caller)
       case TheCaller(caller, i) =>
         && MadeBy(t.intake.submits, caller) == MadeBy(s.intake.submits, caller)
         && (i < |s.intake.submits| ==> t.intake.submits[i] == s.intake.submits[i])
       case TheDispatcher => !s.disp.phase.Unstarted? ==> t.disp == s.disp
       case TheWorker(w) =>
         w < |s.pool.workers| && !s.disp.phase.Unstarted? ==> t.pool.workers[w] == s.pool.workers[w]
  }

  lemma UndisturbedStep(cfg: Config, me: Role, s: State, l: Label)
    requires Enabled(cfg, s, l) && !PartOf(me, l)
    ensures Undisturbed(me, s, Step(cfg, s, l))
  {
    OnwardStep(cfg, s, l);
    match l
    case Call(_, _) =>
    case Submitting(_, _) =>
    case Controlling(_) =>
    case Dispatching(a) => DispatchFrame(cfg, s, a); DispatchDrain(cfg, s, a); hide DispatchStep;
    case Working(w, a) => WorkFrame(cfg, s, w, a); OneWorker(cfg, s, w, a); hide WorkStep;
  }

  lemma OneWorker(cfg: Config, s: State, w: nat, a: WorkAct)
    requires WorkEnabled(s, w, a)
    ensures var before, after := s.pool.workers, WorkStep(cfg, s, w, a).pool.workers;
      && |after| == |before| && (forall v :: 0 <= v < |before| && v != w ==> after[v] == before[v])
      && s.repo.acked <= WorkStep(cfg, s, w, a).repo.acked
  {
  }

  lemma {:induction false} UndisturbedRun(cfg: Config, me: Role, s: State, labels: seq<Label>, t: State)
    requires IsRun(cfg, s, labels, t) && ByOthers(me, labels)
    ensures Undisturbed(me, s, t)
    decreases |labels|
  {
    if labels == [] {
    } else {
      assert labels[0] in labels;
      hide Step, Enabled;
      UndisturbedStep(cfg, me, s, labels[0]);
      UndisturbedRun(cfg, me, Step(cfg, s, labels[0]), labels[1..], t);
    }
  }

  predicate Newest(batches: seq<Batch>, b: Batch) {
    batches != [] && batches[|batches| - 1] == b
  }

  /** The states at the later loads of Stats; the first load is at its call. */
  datatype Loads = Loads(written: State, batches: State, retries: State)

  /** The rows marked as our own, in order. */
  ghost function Own(rows: seq<LogEntry>, marks: seq<bool>): seq<LogEntry>
    requires |rows| == |marks|
  {
    if rows == [] then []
    else
      var n := |rows| - 1;
      Own(rows[..n], marks[..n]) + if marks[n] then [rows[n]] else []
  }

  /** More rows, all of them ours or none. */
  lemma {:induction false} OwnAppend(rows: seq<LogEntry>, marks: seq<bool>, more: seq<LogEntry>, ours: bool)
    requires |rows| == |marks|
    ensures Own(rows + more, marks + seq(|more|, _ => ours)) == Own(rows, marks) + if ours then more else []
    decreases |more|
  {
    var marked := marks + seq(|more|, _ => ours);
    if more == [] {
      assert rows + more == rows && marked == marks;
    } else {
      var n := |more| - 1;
      OwnAppend(rows, marks, more[..n], ours);
      assert (rows + more)[..|rows| + n] == rows + more[..n];
      assert marked[..|rows| + n] == marks + seq(n, _ => ours);
      assert more == more[..n] + [more[n]];
    }
  }

  /** The table of the database holds our rows, in order, among those of others. */
  ghost predicate Holds(rows: seq<LogEntry>, marks: seq<bool>, ours: seq<LogEntry>) {
    |rows| == |marks| && Own(rows, marks) == ours
  }

  lemma NoneOurs(rows: seq<LogEntry>)
    ensures Holds(rows, seq(|rows|, _ => false), [])
  {
    OwnAppend([], [], rows, false);
    assert [] + rows == rows;
    assert [] + seq(|rows|, _ => false) == seq(|rows|, _ => false);
  }

  /** A BulkInsert adds rows of others, and our batch or nothing. */
  lemma InsertHolds(rows: seq<LogEntry>, marks: seq<bool>, ours: seq<LogEntry>, foreign: seq<LogEntry>, batch: Batch)
    requires Holds(rows, marks, ours)
    ensures var m := marks + seq(|foreign|, _ => false);
      && Holds(rows + foreign, m, ours)
      && Holds(rows + foreign + batch, m + seq(|batch|, _ => true), ours + batch)
  {
    OwnAppend(rows, marks, foreign, false);
    OwnAppend(rows + foreign, marks + seq(|foreign|, _ => false), batch, true);
  }

  /** The state that a run leads to. */
  function Replay(cfg: Config, s: State, labels: seq<Label>): State
    decreases |labels|
  {
    if labels == [] || !Enabled(cfg, s, labels[0]) then s
    else Replay(cfg, Step(cfg, s, labels[0]), labels[1..])
  }

  lemma {:induction false} ReplayIs(cfg: Config, s: State, labels: seq<Label>, t: State)
    requires IsRun(cfg, s, labels, t)
    ensures Replay(cfg, s, labels) == t
    decreases |labels|
  {
    if labels == [] {
    } else {
      hide Step, Enabled;
      ReplayIs(cfg, Step(cfg, s, labels[0]), labels[1..], t);
    }
  }

  /** The case that a turn of the dispatcher takes: the one picked if it is ready, or
      else the tick. */
  function Taken(cfg: Config, s: State, pick: DispatchAct): DispatchAct {
    if (pick.Take? || pick.SeeStop? || pick.SeeAbort?) && DispatchEnabled(cfg, s, pick) then pick else Tick
  }

  /** At this place of the trace the dispatcher took what the pick says. */
  predicate TookAt(cfg: Config, trace: seq<Label>, at: nat, pick: DispatchAct)
    requires Usable(cfg)
  {
    at < |trace| && trace[at] == Dispatching(Taken(cfg, Replay(cfg, Init(cfg), trace[..at]), pick))
  }

  lemma TookStays(cfg: Config, earlier: seq<Label>, trace: seq<Label>, at: nat, pick: DispatchAct)
    requires Usable(cfg) && earlier <= trace && TookAt(cfg, earlier, at, pick)
    ensures at < |earlier| && TookAt(cfg, trace, at, pick)
  {
    hide Replay, Taken;
    assert trace[..at] == earlier[..at];
  }

  lemma TookNow(cfg: Config, before: seq<Label>, trace: seq<Label>, pick: DispatchAct)
    requires Usable(cfg) && before <= trace && |before| < |trace|
    requires trace[|before|] == Dispatching(Taken(cfg, Replay(cfg, Init(cfg), before), pick))
    ensures TookAt(cfg, trace, |before|, pick)
  {
    hide Replay, Taken;
    assert trace[..|before|] == before;
  }

  /** The turns began at these places of the trace, one after the other, and each took
      what its pick says. */
  ghost predicate TurnsTaken(cfg: Config, trace: seq<Label>, picks: seq<DispatchAct>, turns: seq<nat>, from: nat)
    requires Usable(cfg)
  {
    && |turns| <= |picks|
    && (forall k :: 0 <= k < |turns| ==> from <= turns[k] && TookAt(cfg, trace, turns[k], picks[k]))
    && (forall j, k :: 0 <= j < k < |turns| ==> turns[j] < turns[k])
  }

  lemma NoTurns(cfg: Config, trace: seq<Label>, picks: seq<DispatchAct>)
    requires Usable(cfg)
    ensures TurnsTaken(cfg, trace, picks, [], |trace|)
  {
  }

  lemma OneMoreTurn(cfg: Config, earlier: seq<Label>, before: seq<Label>, trace: seq<Label>,
                    picks: seq<DispatchAct>, turns: seq<nat>, from: nat)
    requires Usable(cfg) && TurnsTaken(cfg, earlier, picks, turns, from) && |turns| < |picks| && from <= |earlier|
    requires earlier <= before <= trace && |before| < |trace|
    requires trace[|before|] == Dispatching(Taken(cfg, Replay(cfg, Init(cfg), before), picks[|turns|]))
    ensures TurnsTaken(cfg, trace, picks, turns + [|before|], from)
  {
    hide TookAt, Replay, Taken;
    var next := turns + [|before|];
    TookNow(cfg, before, trace, picks[|turns|]);
    forall k | 0 <= k < |turns|
      ensures from <= next[k] < |before| && TookAt(cfg, trace, next[k], picks[k])
    {
      TookStays(cfg, earlier, trace, turns[k], picks[k]);
    }
    forall j, k | 0 <= j < k < |next|
      ensures next[j] < next[k]
    {
    }
  }

  datatype Snapshot = Snapshot(accepted: int, written: int, batches: int, retries: int, queued: int)

  class LogIngestor {
    const cfg: Config
    const db: Database

    // the channels and signals
    var ingest: seq<LogEntry>
    var batches: seq<Batch>
    var batchesClosed: bool
    var stopping: bool
    var hardDone: bool

    // the counters
    var accepted: int
    var written: int
    var batchCnt: int
    var retries: int

    // the locals of the goroutines
    var submits: seq<Submit>
    var phase: Phase
    var batch: Batch
    var workers: seq<Worker>

    // the rows inserted so far, and which rows of the database they are
    ghost var table: seq<LogEntry>
    ghost var marks: seq<bool>

    ghost var trace: seq<Label>
    ghost var model: State

    /** The fields are those of a state of the transition system. */
    ghost predicate Matches(s: State)
      reads this
    {
      && ingest == s.intake.queue && submits == s.intake.submits && accepted == s.intake.accepted
      && batches == s.batches && batchesClosed == s.disp.closed
      && stopping == s.stopping && hardDone == s.aborted
      && written == s.pool.written && batchCnt == s.pool.batchCount && retries == s.pool.retries
      && phase == s.disp.phase && batch == s.disp.batch && workers == s.pool.workers
      && table == s.repo.table
    }

    ghost predicate Valid()
      reads this, db
    {
      && Usable(cfg)
      && Holds(db.table, marks, table)
      && IsRun(cfg, Init(cfg), trace, model)
      && Matches(model)
    }

    /** NewLogIngestor: any configuration is made usable first. */
    constructor (request: Config, db: Database)
      ensures Valid() && cfg == Normalise(request) && this.db == db && trace == []
    {
      cfg, this.db := Normalise(request), db;
      marks := seq(|db.table|, _ => false);
      ingest, batches, batchesClosed, stopping, hardDone := [], [], false, false, false;
      accepted, written, batchCnt, retries := 0, 0, 0, 0;
      submits, phase, batch, table := [], Unstarted, [], [];
      workers := seq(Normalise(request).workers, _ => Asleep);
      trace := [];
      model := Init(Normalise(request));
      new;
      NoneOurs(db.table);
    }

    /** Record that the fields have just made step `l`. */
    ghost method Record(l: Label)
      requires Usable(cfg) && Holds(db.table, marks, table)
      requires IsRun(cfg, Init(cfg), trace, model) && Enabled(cfg, model, l)
      requires Matches(Step(cfg, model, l))
      modifies this`trace, this`model
      ensures Valid() && trace == old(trace) + [l] && model == Step(cfg, old(model), l)
      ensures Onward(old(model), model)
    {
      OnwardStep(cfg, model, l);
      RunSnoc(cfg, Init(cfg), trace, model, l);
      model := Step(cfg, model, l);
      trace := trace + [l];
    }

    /** `batches` is open until the dispatcher has exited. */
    lemma StillOpen()
      requires Valid()
      ensures batchesClosed <==> phase.Exited?
    {
      InitInv(cfg);
      RunInv(cfg, Init(cfg), trace, model);
      hide IsRun, Init, PoolShape, Ordered, CutFates, WorkFates, Stored, IntakeCounts, PoolCounts, Marks, Delays, Tried;
    }

    /** The workers sleep until the pipeline is started, and no longer. */
    lemma AsleepUntilStart()
      requires Valid()
      ensures forall w :: 0 <= w < |workers| ==> (workers[w].Asleep? <==> phase.Unstarted?)
    {
      InitInv(cfg);
      RunInv(cfg, Init(cfg), trace, model);
      hide IsRun, Init, DispatcherShape, Ordered, CutFates, WorkFates;
      hide Stored, IntakeCounts, PoolCounts, Marks, Delays, Tried;
    }

    // ----- Submit -----

    /** A new call arrives. */
    method Arrive(caller: nat, entry: LogEntry) returns (i: nat)
      requires Valid()
      modifies this
      ensures Valid() && trace == old(trace) + [Call(caller, entry)]
      ensures i == |old(submits)| && submits == old(submits) + [Pipeline.Submit(caller, entry, Called)]
      ensures stopping == old(stopping)
      ensures Onward(old(model), model)
    {
      i := |submits|;
      submits := submits + [Pipeline.Submit(caller, entry, Called)];
      Record(Call(caller, entry));
    }

    /** The first select: a closed `stopping` turns the call away. */
    method FirstSelect(i: nat) returns (r: SubmitResult)
      requires Valid() && i < |submits| && submits[i].phase.Called?
      modifies this
      ensures Valid() && trace == old(trace) + [Submitting(i, Check)]
      ensures r == if old(stopping) then ErrIngestorStopped else Pending
      ensures forall c :: MadeBy(submits, c) == MadeBy(old(submits), c)
      ensures submits == old(submits)[i := old(submits)[i].(phase := if r.Pending? then Checked else Stopped)]
      ensures stopping == old(stopping)
      ensures Onward(old(model), model)
    {
      if stopping {
        submits := submits[i := submits[i].(phase := Stopped)];
        r := ErrIngestorStopped;
      } else {
        submits := submits[i := submits[i].(phase := Checked)];
        r := Pending;
      }
      Record(Submitting(i, Check));
    }

    /** The second select, when the send is the case chosen; the counter follows as a
        step of its own. */
    method SecondSelectSend(i: nat)
      requires Valid() && i < |submits| && submits[i].phase.Checked? && |ingest| < cfg.queueSize
      modifies this
      ensures Valid() && trace == old(trace) + [Submitting(i, Send)]
      ensures ingest == old(ingest) + [old(submits)[i].entry]
      ensures forall c :: MadeBy(submits, c) == MadeBy(old(submits), c)
      ensures submits == old(submits)[i := old(submits)[i].(phase := Sent)]
      ensures model.intake.sent == old(model).intake.sent + [old(submits)[i].entry] && Onward(old(model), model)
    {
      ingest := ingest + [submits[i].entry];
      submits := submits[i := submits[i].(phase := Sent)];
      Record(Submitting(i, Send));
    }

    method CountAccepted(i: nat) returns (r: SubmitResult)
      requires Valid() && i < |submits| && submits[i].phase.Sent?
      modifies this
      ensures Valid() && trace == old(trace) + [Submitting(i, Count)]
      ensures r.Ok? && accepted == old(accepted) + 1
      ensures forall c :: MadeBy(submits, c) == MadeBy(old(submits), c)
      ensures submits == old(submits)[i := old(submits)[i].(phase := Accepted)]
      ensures Onward(old(model), model)
    {
      accepted := accepted + 1;
      submits := submits[i := submits[i].(phase := Accepted)];
      Record(Submitting(i, Count));
      r := Ok;
    }

    /** The second select, when `stopping` or the caller's context is the case chosen. */
    method SecondSelectFail(i: nat, cancelled: bool) returns (r: SubmitResult)
      requires Valid() && i < |submits| && submits[i].phase.Checked? && (cancelled || stopping)
      modifies this
      ensures Valid() && trace == old(trace) + [Submitting(i, if cancelled then CtxDone else SeeStopping)]
      ensures r == if cancelled then CtxErr else ErrIngestorStopped
      ensures forall c :: MadeBy(submits, c) == MadeBy(old(submits), c)
      ensures ingest == old(ingest) && stopping == old(stopping)
      ensures submits == old(submits)[i := old(submits)[i].(phase := if cancelled then Cancelled else Stopped)]
      ensures Onward(old(model), model)
    {
      submits := submits[i := submits[i].(phase := if cancelled then Cancelled else Stopped)];
      Record(Submitting(i, if cancelled then CtxDone else SeeStopping));
      r := if cancelled then CtxErr else ErrIngestorStopped;
    }

    /** `Submit`: the first select, then the second, whichever of its ready cases is
        taken; `cancelled` is the caller's context. It waits while none is ready, for at
        most `patience` looks after the first. It is one call of its caller, and the entry has been sent, at place `at`
        of the order of sends, exactly when the answer is nil. */
    method Submit(caller: nat, entry: LogEntry, cancelled: bool, patience: nat)
      returns (r: SubmitResult, i: nat, ghost at: nat)
      requires Valid()
      modifies this, db
      ensures Valid() && old(trace) <= trace && Onward(old(model), model)
      ensures |old(submits)| <= i < |submits| && submits[i].caller == caller && submits[i].entry == entry
      ensures MadeBy(submits, caller) == MadeBy(old(submits), caller) + {i}
      ensures SentBy(submits[i]) == if r.Ok? then [entry] else []
      ensures r.Ok? <==> submits[i].phase.Accepted?
      ensures r.Ok? ==> |old(model).intake.sent| <= at < |model.intake.sent| && model.intake.sent[at] == entry
      ensures r.ErrIngestorStopped? ==> stopping
      ensures r.CtxErr? ==> cancelled
      ensures r.Pending? ==> |ingest| >= cfg.queueSize && !stopping && !cancelled
      ensures old(stopping) ==> r.ErrIngestorStopped?
    {
      hide IsRun, Init, Matches, Holds, Onward;
      at := 0;
      hide MadeBy;
      r, i := Enter(caller, entry);
      ghost var made := MadeBy(submits, caller);
      if r.ErrIngestorStopped? {
        return;
      }
      for n := 0 to patience + 1
        invariant n > 0 ==> |ingest| >= cfg.queueSize && !stopping && !cancelled
        invariant Valid() && old(trace) <= trace && |old(submits)| <= i < |submits|
        invariant submits[i] == Pipeline.Submit(caller, entry, Checked) && MadeBy(submits, caller) == made
        invariant !old(stopping) && Onward(old(model), model)
      {
        ghost var m := model;
        Others(TheCaller(caller, i));
        OnwardThen(old(model), m, model);
        m := model;
        if {
          case |ingest| < cfg.queueSize =>
            at := |model.intake.sent|;
            r := SendAndCount(i);
            OnwardThen(old(model), m, model);
            return;
          case stopping =>
            r := SecondSelectFail(i, false);
            OnwardThen(old(model), m, model);
            return;
          case cancelled =>
            r := SecondSelectFail(i, true);
            OnwardThen(old(model), m, model);
            return;
          case |ingest| >= cfg.queueSize && !stopping && !cancelled => // no case is ready
        }
      }
      r := Pending;
    }

    /** The call begins, and passes its first select or not. */
    method Enter(caller: nat, entry: LogEntry) returns (r: SubmitResult, i: nat)
      requires Valid()
      modifies this, db
      ensures Valid() && old(trace) <= trace && Onward(old(model), model)
      ensures r.Pending? || (r.ErrIngestorStopped? && stopping)
      ensures old(stopping) ==> r.ErrIngestorStopped?
      ensures |old(submits)| <= i < |submits|
      ensures submits[i] == Pipeline.Submit(caller, entry, if r.Pending? then Checked else Stopped)
      ensures MadeBy(submits, caller) == MadeBy(old(submits), caller) + {i}
    {
      hide IsRun, Init, Matches, Holds;
      i := Arrive(caller, entry);
      assert MadeBy(submits, caller) == MadeBy(old(submits), caller) + {i};
      hide MadeBy;
      Others(TheCaller(caller, i));
      r := FirstSelect(i);
    }

    /** The send, and after whatever others do, the counter. */
    method SendAndCount(i: nat) returns (r: SubmitResult)
      requires Valid() && i < |submits| && submits[i].phase.Checked? && |ingest| < cfg.queueSize
      modifies this, db
      ensures Valid() && old(trace) <= trace && Onward(old(model), model) && r.Ok?
      ensures |submits| >= |old(submits)| && submits[i] == old(submits)[i].(phase := Accepted)
      ensures MadeBy(submits, submits[i].caller) == MadeBy(old(submits), submits[i].caller)
      ensures var at := |old(model).intake.sent|; at < |model.intake.sent| && model.intake.sent[at] == submits[i].entry
    {
      hide IsRun, Init, Matches, Holds;
      SecondSelectSend(i);
      Others(TheCaller(submits[i].caller, i));
      r := CountAccepted(i);
    }

    /** Stats: one load per counter, others running in between. The difference is what is
        unwritten at the second load, less the sends the first could not see; it is
        negative exactly when these are more, and exact at rest. */
    method Stats(ghost me: Role) returns (s: Snapshot, ghost loads: Loads)
      requires Valid()
      modifies this, db
      ensures Valid() && old(trace) <= trace
      ensures me.TheClient? ==> MadeBy(submits, me.caller) == MadeBy(old(submits), me.caller)
      ensures Onward(old(model), loads.written) && Onward(loads.written, loads.batches)
      ensures Onward(loads.batches, loads.retries) && Onward(loads.retries, model)
      ensures s.accepted == old(accepted) && s.written == loads.written.pool.written
      ensures s.batches == loads.batches.pool.batchCount && s.retries == loads.retries.pool.retries
      ensures s.queued == s.accepted - s.written
      ensures var t := loads.written;
        var late := Uncounted(t) + (t.intake.accepted - old(accepted));
        && s.queued == Unwritten(t) - late
        && (s.queued < 0 <==> Unwritten(t) < late)
        && (Quiet(t) && t.disp.phase.Exited? && !t.aborted && late == 0 ==> s.queued == |t.intake.queue|)
    {
      hide IsRun, Init, Holds, Onward, Unwritten, Uncounted, Quiet, MadeBy;
      var a := accepted;
      Others(me);
      ghost var w := model;
      QueuedReported(cfg, old(model), trace[|old(trace)|..], w) by { assert Reachable(cfg, old(model)); }
      var b := written;
      Others(me);
      ghost var c := model;
      var batches := batchCnt;
      Others(me);
      loads := Loads(w, c, model);
      s := Snapshot(a, b, batches, retries, a - b);
      OnwardStays(model);
    }

    // ----- the dispatcher -----

    /** Time passes: any run in which this goroutine takes no part. */
    method Interleave(ghost me: Role)
      requires Valid()
      modifies this, db
      ensures Valid() && old(trace) <= trace
      ensures ByOthers(me, trace[|old(trace)|..]) && IsRun(cfg, old(model), trace[|old(trace)|..], model)
    {
    }

    /** What this goroutine finds after the others have run: its own variables as they
        were, and the signals that were up still up. */
    method Others(ghost me: Role)
      requires Valid()
      modifies this, db
      ensures Valid() && old(trace) <= trace && IsRun(cfg, old(model), trace[|old(trace)|..], model)
      ensures |workers| == |old(workers)| && |old(submits)| <= |submits|
      ensures me.TheDispatcher? && !old(phase).Unstarted? ==> phase == old(phase) && batch == old(batch)
      ensures me.TheWorker? && me.w < |workers| && !old(workers)[me.w].Asleep? ==> workers[me.w] == old(workers)[me.w]
      ensures me.TheCaller? && me.i < |old(submits)| ==> submits[me.i] == old(submits)[me.i]
      ensures me.TheCaller? || me.TheClient? ==> MadeBy(submits, me.caller) == MadeBy(old(submits), me.caller)
      ensures old(stopping) ==> stopping
      ensures old(hardDone) ==> hardDone
      ensures Onward(old(model), model)
    {
      hide IsRun, Init, ByOthers, Holds;
      AsleepUntilStart();
      Interleave(me);
      UndisturbedRun(cfg, me, old(model), trace[|old(trace)|..], model);
    }

    /** Receive one entry; the batch goes on to the hand-over exactly when it is full. */
    method TakeEntry(after: After)
      requires Valid() && ingest != [] && phase == Return(after) && !after.ToClose?
      modifies this
      ensures Valid() && trace == old(trace) + [Dispatching(if after.ToLoop? then Take else Drain)]
      ensures ingest == old(ingest)[1..]
      ensures var grown := old(batch) + [old(ingest)[0]];
        if |grown| < cfg.batchSize then phase == old(phase) && batch == grown
        else phase == Handing(grown, after) && batch == []
    {
      hide IsRun, Init, Holds;
      var entry := ingest[0];
      ingest := ingest[1..];
      batch := batch + [entry];
      if |batch| >= cfg.batchSize {
        phase, batch := Handing(batch, after), [];
      }
      Record(Dispatching(if after.ToLoop? then Take else Drain));
    }

    /** `flush`: an empty batch needs nothing; any other is copied out and either becomes
        the newest in the channel or, if the hard abort wins, is given up. It waits while
        neither can be, for at most `patience` looks after the first. */
    method Flush(after: After, patience: nat) returns (r: FlushResult)
      requires Valid()
      requires (after.ToLoop? && phase.Looping?) || (after.ToClose? && phase.Finishing? && ingest == [])
      modifies this, db
      ensures Valid() && old(trace) <= trace
      ensures r.Handed? ==> phase == Return(after)
      ensures r.Handed? && old(batch) == [] ==>
        trace == old(trace) + [Dispatching(if after.ToLoop? then Tick else Drained)]
      ensures r.Handed? && old(batch) != [] ==> Newest(batches, old(batch))
      ensures r.HardStopped? ==> hardDone && phase == if after.ToLoop? then Finishing else Closing
      ensures r.HardStopped? ==> Newest(model.disp.drops, old(batch))
      ensures r.Blocked? ==> phase == Handing(old(batch), after) && Jammed()
      ensures !r.Blocked? ==> JustActed(TheDispatcher, trace)
      ensures |old(trace)| < |trace| && trace[|old(trace)|] == Dispatching(if after.ToLoop? then Tick else Drained)
    {
      hide IsRun, Init, Holds;
      var l := if after.ToLoop? then Tick else Drained;
      if batch == [] {
        phase := Return(after);
        Record(Dispatching(l));
        return Handed;
      }
      phase, batch := Handing(batch, after), [];
      Record(Dispatching(l));
      r := HandOverOut(patience);
    }

    /** What keeps the select of `flush` waiting. */
    predicate Jammed()
      reads this
    {
      |batches| >= Slots(cfg) && !hardDone
    }

    /** The send of `flush`. */
    method PutOut()
      requires Valid() && phase.Handing? && |batches| < Slots(cfg)
      modifies this
      ensures Valid() && trace == old(trace) + [Dispatching(HandOver)]
      ensures phase == Return(old(phase).after) && batches == old(batches) + [old(phase).out]
    {
      hide IsRun, Init, Holds;
      StillOpen();
      assert !batchesClosed; // a send on a closed channel would panic
      batches := batches + [phase.out];
      phase := Return(phase.after);
      Record(Dispatching(HandOver));
    }

    /** The other case of that select. */
    method DropOut()
      requires Valid() && phase.Handing? && hardDone
      modifies this
      ensures Valid() && trace == old(trace) + [Dispatching(GiveUp)] && hardDone
      ensures phase == if old(phase).after.ToLoop? then Finishing else Closing
      ensures Newest(model.disp.drops, old(phase).out)
    {
      hide IsRun, Init, Holds;
      phase := if phase.after.ToLoop? then Finishing else Closing;
      Record(Dispatching(GiveUp));
    }

    /** The select of `flush`: a free slot in `batches` takes the batch, or a hard abort
        gives it up; until then the dispatcher keeps it. */
    method HandOverOut(patience: nat) returns (r: FlushResult)
      requires Valid() && phase.Handing?
      modifies this, db
      ensures Valid() && old(trace) <= trace
      ensures r.Handed? ==> phase == Return(old(phase).after) && Newest(batches, old(phase).out)
      ensures r.HardStopped? ==> hardDone && phase == if old(phase).after.ToLoop? then Finishing else Closing
      ensures r.HardStopped? ==> Newest(model.disp.drops, old(phase).out)
      ensures r.Blocked? ==> phase == old(phase) && Jammed()
      ensures !r.Blocked? ==> JustActed(TheDispatcher, trace)
    {
      hide IsRun, Init, Holds, Matches;
      var out, after := phase.out, phase.after;
      for n := 0 to patience + 1
        invariant Valid() && old(trace) <= trace && phase == Handing(out, after)
        invariant n > 0 ==> Jammed()
      {
        Others(TheDispatcher);
        if {
          case |batches| < Slots(cfg) =>
            PutOut();
            return Handed;
          case hardDone =>
            DropOut();
            return HardStopped;
          case Jammed() => // neither case is ready
        }
      }
      r := Blocked;
    }

    method CloseBatches()
      requires Valid() && phase.Closing?
      modifies this
      ensures Valid() && trace == old(trace) + [Dispatching(Close)]
      ensures phase.Exited? && batchesClosed && !old(batchesClosed) && hardDone == old(hardDone)
    {
      hide IsRun, Init, Holds;
      StillOpen();
      assert !batchesClosed; // a second close would panic
      batchesClosed := true;
      phase := Phase.Exited;
      Record(Dispatching(Close));
    }

    /** `finish`: drain `ingest`, flush what is left, close `batches`. */
    method Finish(patience: nat) returns (done: bool)
      requires Valid() && phase.Finishing?
      modifies this, db
      ensures Valid() && old(trace) <= trace
      ensures done ==> phase.Exited? && batchesClosed && (!hardDone ==> DrainedAtExit())
      ensures !done ==> (phase.Handing? && Jammed()) || (phase.Finishing? && JustActed(TheDispatcher, trace))
    {
      hide IsRun, Init, Matches, Holds;
      for n := 0 to patience + 1
        invariant Valid() && old(trace) <= trace && phase.Finishing?
        invariant n > 0 ==> JustActed(TheDispatcher, trace)
      {
        Others(TheDispatcher);
        if ingest != [] {
          TakeEntry(ToFinish);
          if phase.Handing? {
            var r := HandOverOut(patience);
            if r.HardStopped? {
              CloseBatches();
              assert hardDone;
              return true;
            } else if r.Blocked? {
              return false;
            }
          }
        } else {
          var r := Flush(ToClose, patience);
          if r.Blocked? {
            return false;
          }
          CloseBatches();
          if !hardDone {
            ExitIsDrained();
          }
          return true;
        }
      }
      done := false;
    }

    /** What a dispatcher that has exited without a hard abort leaves behind. */
    ghost predicate DrainedAtExit()
      reads this
    {
      && stopping && batch == []
      && model.stopAt <= model.disp.drainAt <= |model.intake.sent|
      && ingest == model.intake.sent[model.disp.drainAt..]
    }

    lemma ExitIsDrained()
      requires Valid() && phase.Exited? && !hardDone
      ensures DrainedAtExit()
    {
      InitInv(cfg);
      RunInv(cfg, Init(cfg), trace, model);
      hide IsRun, Init, PoolShape, Ordered, CutFates, WorkFates, Stored, IntakeCounts, PoolCounts, Delays, Tried;
    }

    method TurnToFinish()
      requires Valid() && phase.Looping? && stopping
      modifies this
      ensures Valid() && trace == old(trace) + [Dispatching(SeeStop)] && phase.Finishing? && batch == old(batch)
    {
      hide IsRun, Init, Holds;
      phase := Finishing;
      Record(Dispatching(SeeStop));
    }

    /** A hard abort leaves the loop at once; the batch in the making is lost. */
    method TurnToAbort()
      requires Valid() && phase.Looping? && hardDone
      modifies this
      ensures Valid() && trace == old(trace) + [Dispatching(SeeAbort)] && phase.Closing? && batch == [] && hardDone
    {
      hide IsRun, Init, Holds;
      phase, batch := Closing, [];
      Record(Dispatching(SeeAbort));
    }

    /** One turn of the dispatcher's loop; `pick` is the ready case that its select takes,
        and when that one is not ready the turn waits for the tick. */
    method Turn(pick: DispatchAct, patience: nat) returns (done: bool)
      requires Valid() && phase.Looping?
      modifies this, db
      ensures Valid() && |old(trace)| < |trace| && old(trace) <= trace
      ensures trace[|old(trace)|] == Dispatching(Taken(cfg, old(model), pick))
      ensures done ==> phase.Exited? && batchesClosed && (!hardDone ==> DrainedAtExit())
      ensures !done ==> JustActed(TheDispatcher, trace) || (phase.Handing? && Jammed())
      ensures !done ==> phase.Looping? || phase.Handing? || phase.Finishing?
    {
      hide IsRun, Init, Holds;
      var r := Handed;
      done := false;
      if pick.Take? && ingest != [] {
        TakeEntry(ToLoop);
        if phase.Handing? {
          r := HandOverOut(patience);
        }
      } else if pick.SeeStop? && stopping {
        TurnToFinish();
        done := Finish(patience);
      } else if pick.SeeAbort? && hardDone {
        TurnToAbort();
        CloseBatches();
        done := true;
      } else {
        r := Flush(ToLoop, patience);
      }
      if r.HardStopped? {
        done := Finish(patience);
      }
    }

    /** The dispatcher's loop, for as many turns as there are picks. Whatever the picks and
        the other goroutines do, it is a run of the transition system in which each turn,
        begun at the place in the trace that `turns` gives, takes the case picked if it
        is ready; when it returns `batches` is closed, and without a hard abort
        everything sent before Stop has been taken out of `ingest`. */
    method Dispatch(picks: seq<DispatchAct>, patience: nat) returns (done: bool, ghost turns: seq<nat>)
      requires Valid() && phase.Looping?
      modifies this, db
      ensures Valid() && old(trace) <= trace
      ensures done ==> phase.Exited? && batchesClosed && (!hardDone ==> DrainedAtExit())
      ensures TurnsTaken(cfg, trace, picks, turns, |old(trace)|)
      ensures !done && phase.Looping? ==> |turns| == |picks|
      ensures !done && !phase.Looping? ==> JustActed(TheDispatcher, trace) || (phase.Handing? && Jammed())
    {
      hide IsRun, Init, Matches, Holds, TurnsTaken;
      turns := [];
      NoTurns(cfg, trace, picks);
      for n := 0 to |picks|
        invariant Valid() && old(trace) <= trace && phase.Looping? && |turns| == n
        invariant TurnsTaken(cfg, trace, picks, turns, |old(trace)|)
      {
        ghost var earlier := trace;
        Others(TheDispatcher);
        ghost var before, m := trace, model;
        assert Replay(cfg, Init(cfg), before) == m by { ReplayIs(cfg, Init(cfg), before, m); }
        done := Turn(picks[n], patience);
        OneMoreTurn(cfg, earlier, before, trace, picks, turns, |old(trace)|);
        turns := turns + [|before|];
        if done || !phase.Looping? {
          return;
        }
      }
      done := false;
    }

    // ----- the workers -----

    method ReceiveBatch(w: nat) returns (b: Batch)
      requires Valid() && w < |workers| && workers[w].Idle? && batches != []
      modifies this
      ensures Valid() && trace == old(trace) + [Working(w, Receive)]
      ensures b == old(batches)[0] && batches == old(batches)[1..]
      ensures workers == old(workers)[w := Attempting(b, 1, cfg.minBackoff)]
    {
      hide IsRun, Init, Holds;
      b := batches[0];
      batches := batches[1..];
      workers := workers[w := Attempting(b, 1, cfg.minBackoff)];
      Record(Working(w, Receive));
    }

    method LeaveWork(w: nat)
      requires Valid() && w < |workers| && workers[w].Idle? && batches == [] && batchesClosed
      modifies this
      ensures Valid() && trace == old(trace) + [Working(w, Quit)] && workers == old(workers)[w := Gone]
      ensures phase == old(phase) && batches == []
    {
      hide IsRun, Init, Holds;
      workers := workers[w := Gone];
      Record(Working(w, Quit));
    }

    /** `work`: receive batches and write them until the channel is closed and empty. */
    method Work(w: nat, patience: nat) returns (done: bool)
      requires Valid() && w < |workers| && workers[w].Idle?
      modifies this, db
      ensures Valid() && old(trace) <= trace && w < |workers|
      ensures done ==> workers[w].Gone? && phase.Exited? && batches == []
      ensures !done && workers[w].Idle? ==> (batches == [] && !batchesClosed) || JustActed(TheWorker(w), trace)
    {
      hide IsRun, Init, Matches, Holds;
      for n := 0 to patience + 1
        invariant Valid() && old(trace) <= trace && w < |workers| && workers[w].Idle?
        invariant n > 0 ==> (batches == [] && !batchesClosed) || JustActed(TheWorker(w), trace)
      {
        Others(TheWorker(w));
        if batches != [] {
          var b := ReceiveBatch(w);
          var ended := WriteWithRetry(w, b, patience);
          if !ended {
            return false;
          }
        } else if batchesClosed {
          StillOpen();
          LeaveWork(w);
          return true;
        }
      }
      done := false;
    }

    /** One call of the repository's BulkInsert, whatever the database does to it: among
        the rows of others the table gets the whole batch or none of it, and the worker
        goes on to count it exactly when every call of the database worked. */
    method CallBulkInsert(w: nat) returns (ok: bool, ghost outcome: Outcome)
      requires Valid() && w < |workers| && workers[w].Attempting?
      modifies this, db
      ensures Valid() && trace == old(trace) + [Working(w, Insert(outcome))]
      ensures var b := old(workers)[w].batch;
        && (ok <==> outcome.Written?)
        && (ok <==> AllWork(db.faults, old(db.calls), old(db.calls) + CallsNeeded(|b|)))
        && old(db.calls) <= db.calls
        && db.table == old(db.table) + Foreign(db.others, old(db.calls), db.calls)
                       + (if outcome.Refused? then [] else b)
        && model.repo == InsertInto(old(model).repo, b, outcome)
        && table == old(table) + (if outcome.Refused? then [] else b)
        && workers == old(workers)[w := if ok then Landed(b)
                                        else Failed(b, old(workers)[w].attempt, old(workers)[w].backoff)]
    {
      hide IsRun, Init, Holds, AllWork;
      var wk := workers[w];
      ok, outcome := BulkInsert(db, wk.batch);
      ghost var foreign := Foreign(db.others, old(db.calls), db.calls);
      InsertHolds(old(db.table), marks, table, foreign, wk.batch);
      marks := marks + seq(|foreign|, _ => false);
      assert db.table == if outcome.Refused? then old(db.table) + foreign else old(db.table) + foreign + wk.batch;
      if !outcome.Refused? {
        table := table + wk.batch;
        marks := marks + seq(|wk.batch|, _ => true);
      }
      workers := workers[w := if ok then Landed(wk.batch) else Failed(wk.batch, wk.attempt, wk.backoff)];
      Record(Working(w, Insert(outcome)));
    }

    /** The first counter of a successful write. */
    method AddToWritten(w: nat)
      requires Valid() && w < |workers| && workers[w].Landed?
      modifies this
      ensures Valid() && trace == old(trace) + [Working(w, AddWritten)] && Onward(old(model), model)
      ensures written == old(written) + |old(workers)[w].batch| && model.repo == old(model).repo
      ensures workers == old(workers)[w := Tallied(old(workers)[w].batch)]
    {
      hide IsRun, Init, Holds;
      var b := workers[w].batch;
      written := written + |b|;
      workers := workers[w := Tallied(b)];
      Record(Working(w, AddWritten));
    }

    /** The second. */
    method AddToBatches(w: nat)
      requires Valid() && w < |workers| && workers[w].Tallied?
      modifies this
      ensures Valid() && trace == old(trace) + [Working(w, AddBatch)] && Onward(old(model), model)
      ensures batchCnt == old(batchCnt) + 1 && workers == old(workers)[w := Idle]
      ensures model.repo == old(model).repo && hardDone == old(hardDone)
    {
      hide IsRun, Init, Holds;
      batchCnt := batchCnt + 1;
      workers := workers[w := Idle];
      Record(Working(w, AddBatch));
    }

    /** After an error: only a hard abort gives the batch up. */
    method JudgeError(w: nat) returns (abandoned: bool)
      requires Valid() && w < |workers| && workers[w].Failed?
      modifies this
      ensures Valid() && trace == old(trace) + [Working(w, Judge)] && Onward(old(model), model)
      ensures abandoned == old(hardDone) == hardDone && model.repo == old(model).repo
      ensures retries == old(retries)
      ensures var wk := old(workers)[w];
        workers == old(workers)[w := if abandoned then Idle else Retrying(wk.batch, wk.attempt, wk.backoff)]
    {
      hide IsRun, Init, Holds;
      var wk := workers[w];
      abandoned := hardDone;
      workers := workers[w := if hardDone then Idle else Retrying(wk.batch, wk.attempt, wk.backoff)];
      Record(Working(w, Judge));
    }

    method CountRetry(w: nat)
      requires Valid() && w < |workers| && workers[w].Retrying?
      modifies this
      ensures Valid() && trace == old(trace) + [Working(w, AddRetry)] && Onward(old(model), model)
      ensures retries == old(retries) + 1 && model.repo == old(model).repo
      ensures var wk := old(workers)[w]; workers == old(workers)[w := Waiting(wk.batch, wk.attempt, wk.backoff)]
    {
      hide IsRun, Init, Holds;
      var wk := workers[w];
      retries := retries + 1;
      workers := workers[w := Waiting(wk.batch, wk.attempt, wk.backoff)];
      Record(Working(w, AddRetry));
    }

    /** The wait before the next attempt, cut short only by a hard abort. */
    method Pause(w: nat, backoff: int) returns (abandoned: bool, next: int)
      requires Valid() && w < |workers| && workers[w].Waiting? && workers[w].backoff == backoff
      modifies this
      ensures Valid() && old(trace) <= trace && Onward(old(model), model)
      ensures abandoned ==> hardDone && JustActed(TheWorker(w), trace)
      ensures model.repo == old(model).repo
      ensures next == Backoff.Next(backoff, cfg.maxBackoff)
      ensures var wk := old(workers)[w];
        workers == old(workers)[w := if abandoned then Idle else Attempting(wk.batch, wk.attempt + 1, next)]
    {
      hide IsRun, Init, Holds;
      var wk := workers[w];
      next := Backoff.Next(backoff, cfg.maxBackoff);
      if {
        case true =>
          abandoned := false;
          workers := workers[w := Attempting(wk.batch, wk.attempt + 1, next)];
          Record(Working(w, Wake));
        case hardDone =>
          abandoned := true;
          workers := workers[w := Idle];
          Record(Working(w, WakeAborted));
      }
    }

    /** `writeWithRetry`: insert; on success count and return; on an error under a hard
        abort give the batch up; otherwise count the retry, wait, double the delay.
        It follows the batch for at most `patience` attempts and ends with the batch
        acknowledged, or after a hard abort; if it has not, that many waits have taken
        the delay through that many steps of Backoff. */
    method WriteWithRetry(w: nat, b: Batch, patience: nat) returns (ended: bool)
      requires Valid() && w < |workers| && workers[w] == Attempting(b, 1, cfg.minBackoff)
      modifies this, db
      ensures Valid() && old(trace) <= trace && w < |workers|
      ensures ended ==> workers[w].Idle? && JustActed(TheWorker(w), trace)
      ensures old(model).repo.acked <= model.repo.acked
      ensures ended && !hardDone ==> b in model.repo.acked[|old(model).repo.acked|..]
      ensures !ended ==>
        workers[w] == Attempting(b, patience + 1, Backoff.Delay(cfg.minBackoff, cfg.maxBackoff, patience))
    {
      hide IsRun, Init, Matches, Holds;
      ghost var before := model.repo.acked;
      var backoff := cfg.minBackoff;
      for attempt := 1 to patience + 1
        invariant Valid() && old(trace) <= trace && w < |workers|
        invariant workers[w] == Attempting(b, attempt, backoff) && before <= model.repo.acked
        invariant backoff == Backoff.Delay(cfg.minBackoff, cfg.maxBackoff, attempt - 1)
      {
        Others(TheWorker(w));
        var ok, _ := CallBulkInsert(w);
        if ok {
          ghost var landed := |model.repo.acked| - 1;
          CountWrite(w);
          assert model.repo.acked[|before|..][landed - |before|] == b;
          return true;
        }
        var abandoned;
        abandoned, backoff := Retry(w, backoff);
        if abandoned {
          return true;
        }
      }
      ended := false;
    }

    /** After a success: the two counters, others running in between. */
    method CountWrite(w: nat)
      requires Valid() && w < |workers| && workers[w].Landed?
      modifies this, db
      ensures Valid() && old(trace) <= trace && Onward(old(model), model)
      ensures |workers| == |old(workers)| && workers[w].Idle? && JustActed(TheWorker(w), trace)
    {
      hide IsRun, Init, Matches, Holds;
      Others(TheWorker(w));
      AddToWritten(w);
      Others(TheWorker(w));
      AddToBatches(w);
    }

    /** After an error: check for a hard abort, count the retry, wait. */
    method Retry(w: nat, backoff: int) returns (abandoned: bool, next: int)
      requires Valid() && w < |workers| && workers[w].Failed? && workers[w].backoff == backoff
      modifies this, db
      ensures Valid() && old(trace) <= trace && Onward(old(model), model)
      ensures abandoned ==> hardDone && JustActed(TheWorker(w), trace)
      ensures !abandoned ==> next == Backoff.Next(backoff, cfg.maxBackoff)
      ensures |workers| == |old(workers)|
      ensures var wk := old(workers)[w];
        workers[w] == if abandoned then Idle else Attempting(wk.batch, wk.attempt + 1, next)
    {
      hide IsRun, Init, Matches, Holds;
      next := backoff;
      Others(TheWorker(w));
      abandoned := JudgeError(w);
      if !abandoned {
        Others(TheWorker(w));
        CountRetry(w);
        Others(TheWorker(w));
        abandoned, next := Pause(w, backoff);
      }
    }

    // ----- lifecycle -----

    method Start()
      requires Valid() && phase.Unstarted?
      modifies this
      ensures Valid() && trace == old(trace) + [Controlling(ControlAct.Start)]
    {
      phase := Looping;
      workers := seq(|workers|, _ => Idle);
      Record(Controlling(ControlAct.Start));
    }

    /** The first half of Stop: close `stopping`, once. */
    method BeginStop()
      requires Valid()
      modifies this
      ensures Valid() && stopping
      ensures trace == old(trace) + if old(stopping) then [] else [Controlling(ControlAct.Stop)]
    {
      if !stopping {
        stopping := true;
        Record(Controlling(ControlAct.Stop));
      }
    }

    /** Everything sent before Stop, and until the drain ended, is in the database, with
        one copy more for each lost acknowledgement, and what is left in `ingest` was
        sent after the drain had ended. */
    ghost predicate AllWritten()
      reads this, db
    {
      var m, n := model, model.disp.drainAt;
      && |db.table| == |marks|
      && m.stopAt <= n <= |m.intake.sent|
      && multiset(Own(db.table, marks)) == multiset(m.intake.sent[..n]) + multiset(Flatten(m.repo.unacked))
      && (forall b :: b in m.repo.unacked ==> b in m.disp.cuts) && |m.repo.unacked| <= retries
      && (forall e :: e in Own(db.table, marks) ==> e in m.intake.sent[..n])
      && ingest == m.intake.sent[n..]
    }

    lemma EndIsDrained()
      requires Valid() && Ended(model) && !hardDone
      ensures AllWritten()
      ensures accepted - written == |ingest| - Uncounted(model)
    {
      assert Reachable(cfg, model);
      hide IsRun, Init, Reachable, Unwritten, Uncounted, Inv, Flatten;
      DrainExact(cfg, model);
      QueuedExact(cfg, model);
      ReachableInv(cfg, model);
      UnwrittenAtRest(cfg, model);
    }

    /** The second half of Stop, once the WaitGroup is at zero, on a pipeline that was
        started and never aborted. What it reports is final but for calls that still
        send, and its Queued is what is left behind, less the sends not yet counted. */
    method FinishStop() returns (s: Snapshot)
      requires Valid() && Ended(model) && !hardDone
      modifies this, db
      ensures Valid() && old(AllWritten())
      ensures s == Snapshot(old(accepted), old(written), old(batchCnt), old(retries),
                            old(|ingest|) - old(Uncounted(model)))
    {
      EndIsDrained();
      hide IsRun, Init, Holds, AllWritten, Ended, Unwritten, Uncounted, Quiet;
      ghost var loads;
      s, loads := Stats(Bystander);
      EndedStays(old(model), loads.written);
      EndedStays(loads.written, loads.batches);
      EndedStays(loads.batches, loads.retries);
    }
  }
}
