/** Turns and watchers, interleaved: AddPoints, SetPoints and Notify are separate
    actions of a Play; subscribing, waking, reading and sending are separate actions
    of a watcher. */
module GameModel {
  import opened Ranking
  import opened Options

  const INT32_MIN: int := -0x8000_0000
  const INT32_MAX: int := 0x7fff_ffff

  /** Where a Play stands. `Added` is between AddPoints and SetPoints, `Mirrored`
      between SetPoints and Notify, `Signalling` inside Notify with the watchers still
      to be signalled. `at` is the place of `total` among the user's totals. */
  datatype PlayPhase = Asked | Added(total: int, at: nat) | Mirrored | Signalling(left: set<nat>) | Answered | Refused

  datatype Play = Play(user: string, delta: int, phase: PlayPhase)

  /** Where a Leaderboard stream stands: about to read the board, about to send the
      one it read, in its select, on its way out, unsubscribed. */
  datatype WatchPhase = Reading | Sending | Waiting | Leaving | Gone

  /** `slot` is the one-element buffer of the watcher's channel; `read` and `sent` are
      the last board read and the last board sent. */
  datatype Watcher = Watcher(
    topN: int, phase: WatchPhase, slot: bool, read: Option<seq<Entry>>, sent: Option<seq<Entry>>)

  /** A cached score, and which of the user's totals it is; negative for a score left
      over from before the start, under a name that then had no durable record. */
  datatype Cached = Cached(points: int, at: int)

  /** `totals` lists every total a user's durable record has held, the current one
      last; `mutex` is the play inside Notify, which holds the notifier's lock. */
  datatype State = State(
    totals: map<string, seq<int>>, cache: map<string, Cached>,
    plays: seq<Play>, mutex: Option<nat>, watchers: seq<Watcher>)

  /** How the leaderboard store ranks; nothing here depends on how. */
  type Rank = (Scores, int) -> seq<Entry>

  /** What the leaderboard store holds. */
  function Board(s: State): Scores {
    map u | u in s.cache :: s.cache[u].points
  }

  datatype Label =
    | Register(user: string)
    | Ask(user: string, delta: int)
    | AddPoints(p: nat, fails: bool)
    | SetPoints(p: nat, applied: bool)
    | Lock(p: nat)
    | Signal(p: nat, w: nat)
    | Unlock(p: nat)
    | Subscribe(topN: int)
    | Read(w: nat, fails: bool)
    | Send(w: nat, fails: bool)
    | Wake(w: nat)
    | CtxDone(w: nat)
    | Unsubscribe(w: nat)

  predicate WatcherIn(s: State, w: nat, phase: WatchPhase) {
    w < |s.watchers| && s.watchers[w].phase == phase
  }

  predicate Enabled(s: State, l: Label) {
    match l
    case Register(user) => user !in s.totals
    case Ask(_, delta) => -1 <= delta <= 1
    case AddPoints(p, _) => p < |s.plays| && s.plays[p].phase.Asked?
    case SetPoints(p, _) => p < |s.plays| && s.plays[p].phase.Added?
    case Lock(p) => p < |s.plays| && s.plays[p].phase.Mirrored? && s.mutex.None?
    case Signal(p, w) =>
      p < |s.plays| && s.plays[p].phase.Signalling? && w in s.plays[p].phase.left && w < |s.watchers|
    case Unlock(p) => p < |s.plays| && s.plays[p].phase.Signalling? && s.plays[p].phase.left == {}
    case Subscribe(_) => s.mutex.None?
    case Read(w, _) => WatcherIn(s, w, Reading)
    case Send(w, _) => WatcherIn(s, w, Sending)
    case Wake(w) => WatcherIn(s, w, Waiting) && s.watchers[w].slot
    case CtxDone(w) => WatcherIn(s, w, Waiting)
    case Unsubscribe(w) => WatcherIn(s, w, Leaving) && s.mutex.None?
  }

  function Phased(s: State, p: nat, phase: PlayPhase): State
    requires p < |s.plays|
  {
    s.(plays := s.plays[p := s.plays[p].(phase := phase)])
  }

  function Watched(s: State, w: nat, watcher: Watcher): State
    requires w < |s.watchers|
  {
    s.(watchers := s.watchers[w := watcher])
  }

  /** The watchers in the notifier's map. */
  function Subscribed(watchers: seq<Watcher>): set<nat> {
    set w: nat | w < |watchers| && !watchers[w].phase.Gone?
  }

  function Current(totals: seq<int>): int
    requires totals != []
  {
    totals[|totals| - 1]
  }

  /** AddPoints: fails for an unknown user, on a database error, and when the total
      leaves the range of an INTEGER column. */
  function AddPointsStep(s: State, p: nat, fails: bool): (t: State)
    requires p < |s.plays|
    ensures t.cache == s.cache && t.watchers == s.watchers && t.mutex == s.mutex && |t.plays| == |s.plays|
    ensures forall q :: 0 <= q < |s.plays| && q != p ==> t.plays[q] == s.plays[q]
    ensures t.plays[p].phase.Added? || t.plays[p].phase.Refused?
  {
    var user := s.plays[p].user;
    if fails || user !in s.totals || s.totals[user] == [] then Phased(s, p, Refused)
    else
      var total := Current(s.totals[user]) + s.plays[p].delta;
      if !(INT32_MIN <= total <= INT32_MAX) then Phased(s, p, Refused)
      else
        Phased(s, p, Added(total, |s.totals[user]|)).(totals := s.totals[user := s.totals[user] + [total]])
  }

  function Step(top: Rank, s: State, l: Label): State
    requires Enabled(s, l)
  {
    match l
    case Register(user) => s.(totals := s.totals[user := [0]])
    case Ask(user, delta) => s.(plays := s.plays + [Play(user, delta, Asked)])
    case AddPoints(p, fails) => AddPointsStep(s, p, fails)
    case SetPoints(p, applied) =>
      var play := s.plays[p];
      var t := Phased(s, p, Mirrored);
      if applied then t.(cache := s.cache[play.user := Cached(play.phase.total, play.phase.at)]) else t
    case Lock(p) => Phased(s, p, Signalling(Subscribed(s.watchers))).(mutex := Some(p))
    case Signal(p, w) =>
      Watched(Phased(s, p, Signalling(s.plays[p].phase.left - {w})), w, s.watchers[w].(slot := true))
    case Unlock(p) => Phased(s, p, Answered).(mutex := None)
    case Subscribe(topN) => s.(watchers := s.watchers + [Watcher(topN, Reading, false, None, None)])
    case Read(w, fails) =>
      var x := s.watchers[w];
      if fails then Watched(s, w, x.(phase := Leaving))
      else Watched(s, w, x.(phase := Sending, read := Some(top(Board(s), x.topN))))
    case Send(w, fails) =>
      var x := s.watchers[w];
      if fails then Watched(s, w, x.(phase := Leaving)) else Watched(s, w, x.(phase := Waiting, sent := x.read))
    case Wake(w) => Watched(s, w, s.watchers[w].(phase := Reading, slot := false))
    case CtxDone(w) => Watched(s, w, s.watchers[w].(phase := Leaving))
    case Unsubscribe(w) => Watched(s, w, s.watchers[w].(phase := Gone))
  }

  ghost predicate IsRun(top: Rank, s: State, labels: seq<Label>, t: State)
    decreases |labels|
  {
    if labels == [] then s == t
    else Enabled(s, labels[0]) && IsRun(top, Step(top, s, labels[0]), labels[1..], t)
  }

  /** Before any turn: each user has one total, and what is cached for users, be it
      nothing or everything, is that total; the cache may hold other names. */
  ghost predicate Initial(s: State) {
    && (forall u :: u in s.totals ==> |s.totals[u]| == 1)
    && (forall u :: u in s.cache && u in s.totals ==> s.cache[u] == Cached(s.totals[u][0], 0))
    && (forall u :: u in s.cache && u !in s.totals ==> s.cache[u].at == -1)
    && s.plays == [] && s.watchers == [] && s.mutex.None?
  }

  // ----- no update is lost to coalescing -----

  predicate Live(x: Watcher) {
    x.phase.Reading? || x.phase.Sending? || x.phase.Waiting?
  }

  /** Some Play has yet to signal watcher w for a change it made. */
  ghost predicate Owed(s: State, w: nat) {
    exists p :: 0 <= p < |s.plays| && Owes(s.plays[p], w)
  }

  predicate Owes(play: Play, w: nat) {
    play.phase.Mirrored? || (play.phase.Signalling? && w in play.phase.left)
  }

  /** Watcher w knows the board as it is, or will look at it again. */
  ghost predicate UpToDate(top: Rank, s: State, w: nat)
    requires w < |s.watchers|
  {
    var x := s.watchers[w];
    || !Live(x)
    || x.phase.Reading?
    || x.slot
    || x.read == Some(top(Board(s), x.topN))
    || Owed(s, w)
  }

  /** The bookkeeping of one watcher and of the lock. */
  ghost predicate Orderly(s: State) {
    && (forall w :: 0 <= w < |s.watchers| && s.watchers[w].phase.Waiting? ==> s.watchers[w].sent == s.watchers[w].read)
    && (forall p :: 0 <= p < |s.plays| ==> (s.plays[p].phase.Signalling? <==> s.mutex == Some(p)))
    && (s.mutex.Some? ==> s.mutex.value < |s.plays|)
  }

  ghost predicate Inv(top: Rank, s: State) {
    && Orderly(s)
    && (forall w :: 0 <= w < |s.watchers| ==> UpToDate(top, s, w))
  }

  lemma OrderlyKept(top: Rank, s: State, l: Label)
    requires Orderly(s) && Enabled(s, l)
    ensures Orderly(Step(top, s, l))
  {
    hide AddPointsStep;
  }

  /** A debt to watcher w stays until the signal for w is sent. */
  lemma OwedKept(top: Rank, s: State, l: Label, w: nat)
    requires Enabled(s, l) && w < |s.watchers| && !s.watchers[w].phase.Gone?
    requires Owed(s, w) || (l.SetPoints? && l.applied)
    ensures var t := Step(top, s, l); Owed(t, w) || t.watchers[w].slot
  {
    var t := Step(top, s, l);
    if l.SetPoints? && l.applied {
      assert Owes(t.plays[l.p], w);
    } else {
      var p :| 0 <= p < |s.plays| && Owes(s.plays[p], w);
      if !(l == Signal(p, w)) {
        assert Owes(t.plays[p], w);
      }
    }
  }

  lemma UpToDateKept(top: Rank, s: State, l: Label, w: nat)
    requires Inv(top, s) && Enabled(s, l) && w < |Step(top, s, l).watchers|
    ensures UpToDate(top, Step(top, s, l), w)
  {
    var t := Step(top, s, l);
    if w < |s.watchers| && Live(t.watchers[w]) {
      assert UpToDate(top, s, w);
      hide Owed, AddPointsStep;
      if Owed(s, w) || (l.SetPoints? && l.applied) {
        OwedKept(top, s, l, w);
      }
      if t.cache == s.cache {
        assert Board(t) == Board(s);
      }
    }
  }

  lemma StepInv(top: Rank, s: State, l: Label)
    requires Inv(top, s) && Enabled(s, l)
    ensures Inv(top, Step(top, s, l))
  {
    OrderlyKept(top, s, l);
    forall w: nat | w < |Step(top, s, l).watchers|
      ensures UpToDate(top, Step(top, s, l), w)
    {
      UpToDateKept(top, s, l, w);
    }
  }

  lemma {:induction false} RunInv(top: Rank, s: State, labels: seq<Label>, t: State)
    requires Inv(top, s) && IsRun(top, s, labels, t)
    ensures Inv(top, t)
    decreases |labels|
  {
    if labels == [] {
    } else {
      StepInv(top, s, labels[0]);
      hide Inv, Step, Enabled;
      RunInv(top, Step(top, s, labels[0]), labels[1..], t);
    }
  }

  /** No update is lost: over every interleaving, a live watcher that last read another
      board than the present one has a signal pending, is about to read, or is owed a
      signal by a Play between SetPoints and the end of Notify. So a watcher with
      nothing pending and nothing owed has sent the board as it is. */
  lemma NoUpdateLost(top: Rank, s: State, labels: seq<Label>, t: State, w: nat)
    requires Initial(s) && IsRun(top, s, labels, t) && w < |t.watchers|
    ensures Live(t.watchers[w]) && t.watchers[w].read != Some(top(Board(t), t.watchers[w].topN)) ==>
      t.watchers[w].slot || t.watchers[w].phase.Reading? || Owed(t, w)
    ensures t.watchers[w].phase.Waiting? && !t.watchers[w].slot && !Owed(t, w) ==>
      t.watchers[w].sent == Some(top(Board(t), t.watchers[w].topN))
  {
    RunInv(top, s, labels, t);
    assert UpToDate(top, t, w);
  }

  // ----- the cache and the durable scores -----

  /** Totals move by at most one point at a time. */
  ghost predicate SmallSteps(totals: seq<int>) {
    totals != [] && forall k :: 0 <= k < |totals| - 1 ==> -1 <= totals[k + 1] - totals[k] <= 1
  }

  /** Every cached score, and every total on its way to the cache, is a total the
      user's record has held. */
  ghost predicate Mirrors(s: State) {
    && (forall u :: u in s.totals ==> SmallSteps(s.totals[u]))
    && (forall u :: u in s.cache && s.cache[u].at >= 0 ==>
          u in s.totals && s.cache[u].at < |s.totals[u]| && s.cache[u].points == s.totals[u][s.cache[u].at])
    && (forall p :: 0 <= p < |s.plays| ==> -1 <= s.plays[p].delta <= 1)
    && (forall p :: 0 <= p < |s.plays| && s.plays[p].phase.Added? ==>
          && s.plays[p].user in s.totals
          && s.plays[p].phase.at < |s.totals[s.plays[p].user]|
          && s.plays[p].phase.total == s.totals[s.plays[p].user][s.plays[p].phase.at])
  }

  lemma AddPointsMirrors(s: State, p: nat, fails: bool)
    requires Mirrors(s) && p < |s.plays|
    ensures Mirrors(AddPointsStep(s, p, fails))
  {
    var t := AddPointsStep(s, p, fails);
    var user := s.plays[p].user;
    if t.totals != s.totals {
      var before, after := s.totals[user], t.totals[user];
      assert forall k :: 0 <= k < |before| ==> after[k] == before[k];
      assert SmallSteps(after);
      hide SmallSteps;
      assert forall q :: 0 <= q < |s.plays| && q != p ==> t.plays[q] == s.plays[q];
    }
  }

  lemma MirrorsKept(top: Rank, s: State, l: Label)
    requires Mirrors(s) && Enabled(s, l)
    ensures Mirrors(Step(top, s, l))
  {
    if l.AddPoints? {
      AddPointsMirrors(s, l.p, l.fails);
      hide Mirrors;
    } else {
      MirrorsOther(top, s, l);
      hide Mirrors;
    }
  }

  /** Beside AddPoints and SetPoints no step touches a total, the cache, or a turn that
      carries a total. */
  lemma CarriedFrame(top: Rank, s: State, l: Label)
    requires Enabled(s, l) && !l.AddPoints? && !l.SetPoints?
    ensures var t := Step(top, s, l);
      && t.cache == s.cache && |s.plays| <= |t.plays|
      && (forall u :: u in s.totals ==> u in t.totals && t.totals[u] == s.totals[u])
      && (forall u :: u in t.totals && u !in s.totals ==> t.totals[u] == [0])
      && (forall p :: 0 <= p < |t.plays| && t.plays[p].phase.Added? ==> p < |s.plays| && t.plays[p] == s.plays[p])
      && (forall p :: 0 <= p < |t.plays| && !(-1 <= t.plays[p].delta <= 1) ==>
            p < |s.plays| && t.plays[p].delta == s.plays[p].delta)
  {
    hide AddPointsStep;
  }

  lemma MirrorsSet(top: Rank, s: State, l: Label)
    requires Mirrors(s) && Enabled(s, l) && l.SetPoints?
    ensures Mirrors(Step(top, s, l))
  {
    hide SmallSteps, AddPointsStep;
  }

  lemma MirrorsOther(top: Rank, s: State, l: Label)
    requires Mirrors(s) && Enabled(s, l) && !l.AddPoints?
    ensures Mirrors(Step(top, s, l))
  {
    if l.SetPoints? {
      MirrorsSet(top, s, l);
    } else {
      assert SmallSteps([0]);
      CarriedFrame(top, s, l);
      hide Step, Enabled, SmallSteps;
    }
  }

  lemma {:induction false} MirrorsRun(top: Rank, s: State, labels: seq<Label>, t: State)
    requires Mirrors(s) && IsRun(top, s, labels, t)
    ensures Mirrors(t)
    decreases |labels|
  {
    if labels == [] {
    } else {
      MirrorsKept(top, s, labels[0]);
      hide Mirrors, Step, Enabled;
      MirrorsRun(top, Step(top, s, labels[0]), labels[1..], t);
    }
  }

  lemma {:induction false} Drift(totals: seq<int>, k: nat)
    requires SmallSteps(totals) && k < |totals|
    ensures -(|totals| - 1 - k) <= Current(totals) - totals[k] <= |totals| - 1 - k
    decreases |totals| - k
  {
    if k == |totals| - 1 {
    } else {
      Drift(totals, k + 1);
    }
  }

  /** No score left over from before the start is new. */
  ghost predicate LeftoversStay(s: State, t: State) {
    forall u :: u in t.cache && t.cache[u].at < 0 ==> u in s.cache && s.cache[u] == t.cache[u]
  }

  lemma LeftoversStep(top: Rank, s: State, l: Label)
    requires Mirrors(s) && Enabled(s, l)
    ensures LeftoversStay(s, Step(top, s, l))
  {
    hide AddPointsStep, SmallSteps;
  }

  lemma {:induction false} LeftoversRun(top: Rank, s: State, labels: seq<Label>, t: State)
    requires Mirrors(s) && IsRun(top, s, labels, t)
    ensures LeftoversStay(s, t)
    decreases |labels|
  {
    if labels == [] {
    } else {
      LeftoversStep(top, s, labels[0]);
      MirrorsKept(top, s, labels[0]);
      hide Mirrors, Step, Enabled;
      LeftoversRun(top, Step(top, s, labels[0]), labels[1..], t);
    }
  }

  /** Over every interleaving and every failure of SetPoints, a cached score is a total
      that the user's durable record has held, and is off the current one by at most
      the number of AddPoints that came later; or it was cached before the start, under
      a name without a durable record, and has not been touched since. */
  lemma CacheLag(top: Rank, s: State, labels: seq<Label>, t: State, u: string)
    requires Initial(s) && IsRun(top, s, labels, t) && u in t.cache
    ensures t.cache[u].at < 0 ==> u in s.cache && u !in s.totals && t.cache[u] == s.cache[u]
    ensures t.cache[u].at >= 0 ==>
      && u in t.totals && t.cache[u].at < |t.totals[u]| && t.cache[u].points == t.totals[u][t.cache[u].at]
      && var later := |t.totals[u]| - 1 - t.cache[u].at;
         -later <= Current(t.totals[u]) - t.cache[u].points <= later
  {
    MirrorsRun(top, s, labels, t);
    LeftoversRun(top, s, labels, t);
    if t.cache[u].at >= 0 {
      Drift(t.totals[u], t.cache[u].at);
    }
  }

  /** Some Play of `u` is between AddPoints and SetPoints. */
  ghost predicate MidTurn(s: State, u: string) {
    exists p :: 0 <= p < |s.plays| && Turning(s.plays[p], u)
  }

  predicate Turning(play: Play, u: string) {
    play.user == u && play.phase.Added?
  }

  /** A step that neither starts a second turn of `u` inside the first nor loses a
      SetPoints of `u`. */
  ghost predicate Serial(s: State, l: Label, u: string)
    requires Enabled(s, l)
  {
    && (l.AddPoints? && s.plays[l.p].user == u ==> !MidTurn(s, u))
    && (l.SetPoints? && s.plays[l.p].user == u ==> l.applied)
  }

  ghost predicate SerialRun(top: Rank, s: State, labels: seq<Label>, u: string)
    decreases |labels|
  {
    labels != [] ==>
      Enabled(s, labels[0]) && Serial(s, labels[0], u) && SerialRun(top, Step(top, s, labels[0]), labels[1..], u)
  }

  /** Between turns the cache is current; during one, the turn carries the newest
      total, and it is the only one. */
  ghost predicate InStep(s: State, u: string) {
    && (!MidTurn(s, u) && u in s.cache && s.cache[u].at >= 0 && u in s.totals ==> s.cache[u].at == |s.totals[u]| - 1)
    && (forall p :: 0 <= p < |s.plays| && Turning(s.plays[p], u) && u in s.totals ==>
          s.plays[p].phase.at == |s.totals[u]| - 1)
    && (forall p, q :: 0 <= p < q < |s.plays| ==> !(Turning(s.plays[p], u) && Turning(s.plays[q], u)))
  }

  lemma InStepAdd(s: State, p: nat, fails: bool, u: string)
    requires Mirrors(s) && InStep(s, u) && p < |s.plays| && s.plays[p].phase.Asked?
    requires s.plays[p].user == u ==> !MidTurn(s, u)
    ensures InStep(AddPointsStep(s, p, fails), u)
  {
    var t := AddPointsStep(s, p, fails);
    assert forall q :: 0 <= q < |s.plays| && q != p ==> t.plays[q] == s.plays[q];
    if Turning(t.plays[p], u) {
      assert MidTurn(t, u);
    }
    if MidTurn(s, u) {
      var q :| 0 <= q < |s.plays| && Turning(s.plays[q], u);
      assert Turning(t.plays[q], u);
    }
    hide SmallSteps;
  }

  lemma InStepSet(top: Rank, s: State, p: nat, applied: bool, u: string)
    requires Mirrors(s) && InStep(s, u) && Enabled(s, SetPoints(p, applied))
    requires s.plays[p].user == u ==> applied
    ensures InStep(Step(top, s, SetPoints(p, applied)), u)
  {
    hide SmallSteps;
    var t := Step(top, s, SetPoints(p, applied));
    assert forall q :: 0 <= q < |s.plays| && q != p ==> t.plays[q] == s.plays[q];
    if MidTurn(s, u) {
      var q :| 0 <= q < |s.plays| && Turning(s.plays[q], u);
      assert q != p ==> Turning(t.plays[q], u);
    }
  }

  lemma OtherFrame(top: Rank, s: State, l: Label, u: string)
    requires Enabled(s, l) && !l.AddPoints? && !l.SetPoints?
    ensures var t := Step(top, s, l);
      && |s.plays| <= |t.plays| && t.cache == s.cache
      && (u in s.totals ==> u in t.totals && t.totals[u] == s.totals[u])
      && (u !in s.totals && u in t.totals ==> t.totals[u] == [0])
      && (forall q :: 0 <= q < |s.plays| && (Turning(t.plays[q], u) || Turning(s.plays[q], u)) ==>
            t.plays[q] == s.plays[q])
      && (forall q :: |s.plays| <= q < |t.plays| ==> !Turning(t.plays[q], u))
  {
    hide AddPointsStep;
  }

  /** The other steps neither begin nor end the critical part of a turn. */
  lemma InStepOther(top: Rank, s: State, l: Label, u: string)
    requires Mirrors(s) && InStep(s, u) && Enabled(s, l) && !l.AddPoints? && !l.SetPoints?
    ensures InStep(Step(top, s, l), u)
  {
    hide SmallSteps, AddPointsStep;
    var t := Step(top, s, l);
    OtherFrame(top, s, l, u);
    hide Step, Enabled, Mirrors;
    if MidTurn(s, u) {
      var q :| 0 <= q < |s.plays| && Turning(s.plays[q], u);
      assert Turning(t.plays[q], u);
    }
  }

  lemma InStepKept(top: Rank, s: State, l: Label, u: string)
    requires Mirrors(s) && InStep(s, u) && Enabled(s, l) && Serial(s, l, u)
    ensures InStep(Step(top, s, l), u)
  {
    hide Mirrors, InStep;
    if l.AddPoints? {
      InStepAdd(s, l.p, l.fails, u);
    } else if l.SetPoints? {
      InStepSet(top, s, l.p, l.applied, u);
    } else {
      InStepOther(top, s, l, u);
    }
  }

  lemma {:induction false} InStepRun(top: Rank, s: State, labels: seq<Label>, t: State, u: string)
    requires Mirrors(s) && InStep(s, u) && IsRun(top, s, labels, t) && SerialRun(top, s, labels, u)
    ensures Mirrors(t) && InStep(t, u)
    decreases |labels|
  {
    if labels == [] {
    } else {
      MirrorsKept(top, s, labels[0]);
      InStepKept(top, s, labels[0], u);
      hide Mirrors, InStep, Step, Enabled, Serial;
      InStepRun(top, Step(top, s, labels[0]), labels[1..], t, u);
    }
  }

  /** A turn of `u` that is past its SetPoints. */
  predicate Past(play: Play, u: string) {
    play.user == u && (play.phase.Mirrored? || play.phase.Signalling? || play.phase.Answered?)
  }

  ghost predicate HasPlayed(s: State, u: string) {
    exists p :: 0 <= p < |s.plays| && Past(s.plays[p], u)
  }

  /** The names in the cache are those that were there at the start and those of turns
      past their SetPoints, which are not left over. */
  ghost predicate CachedBy(start: State, s: State, u: string) {
    && (u in s.cache <==> u in start.cache || HasPlayed(s, u))
    && (HasPlayed(s, u) ==> u in s.cache && s.cache[u].at >= 0)
  }

  lemma PastStays(top: Rank, s: State, l: Label, p: nat, u: string)
    requires Enabled(s, l) && p < |s.plays| && Past(s.plays[p], u)
    ensures p < |Step(top, s, l).plays| && Past(Step(top, s, l).plays[p], u)
  {
    hide AddPointsStep;
  }

  /** A turn gets past its SetPoints only by that step. */
  lemma PastComes(top: Rank, s: State, l: Label, p: nat, u: string)
    requires Enabled(s, l) && p < |Step(top, s, l).plays| && Past(Step(top, s, l).plays[p], u)
    ensures (p < |s.plays| && Past(s.plays[p], u)) || (l.SetPoints? && l.p == p && s.plays[p].user == u)
  {
    hide AddPointsStep;
  }

  lemma CachedByStep(top: Rank, start: State, s: State, l: Label, u: string)
    requires CachedBy(start, s, u) && Enabled(s, l) && Serial(s, l, u)
    ensures CachedBy(start, Step(top, s, l), u)
  {
    var t := Step(top, s, l);
    if HasPlayed(s, u) {
      var p :| 0 <= p < |s.plays| && Past(s.plays[p], u);
      PastStays(top, s, l, p, u);
    }
    if HasPlayed(t, u) {
      var p :| 0 <= p < |t.plays| && Past(t.plays[p], u);
      PastComes(top, s, l, p, u);
    }
    hide AddPointsStep, MidTurn;
    if l.SetPoints? && s.plays[l.p].user == u {
      assert Past(t.plays[l.p], u);
    }
  }

  lemma {:induction false} CachedByRun(top: Rank, start: State, s: State, labels: seq<Label>, t: State, u: string)
    requires CachedBy(start, s, u) && IsRun(top, s, labels, t) && SerialRun(top, s, labels, u)
    ensures CachedBy(start, t, u)
    decreases |labels|
  {
    if labels == [] {
    } else {
      hide CachedBy, Step, Enabled, Serial;
      CachedByStep(top, start, s, labels[0], u);
      CachedByRun(top, start, Step(top, s, labels[0]), labels[1..], t, u);
    }
  }

  /** When a user's turns do not overlap and no SetPoints of theirs is lost, then after
      each of their turns the user is cached, with the durable score. Before the first,
      what is cached is what was there at the start: the durable score too, or one left
      over from before the user had a record. */
  lemma CacheExact(top: Rank, s: State, labels: seq<Label>, t: State, u: string)
    requires Initial(s) && IsRun(top, s, labels, t) && SerialRun(top, s, labels, u)
    requires !MidTurn(t, u)
    ensures u in t.cache <==> u in s.cache || HasPlayed(t, u)
    ensures HasPlayed(t, u) || (u in s.cache && u in s.totals) ==>
      && u in t.cache && u in t.totals && t.totals[u] != []
      && t.cache[u].points == Current(t.totals[u])
    ensures u in t.cache && !HasPlayed(t, u) && u !in s.totals ==> t.cache[u].at < 0 && t.cache[u] == s.cache[u]
  {
    InStepRun(top, s, labels, t, u);
    CachedByRun(top, s, s, labels, t, u);
    if !HasPlayed(t, u) {
      LeftoverOnly(top, s, labels, t, u);
    }
    if u in t.cache {
      CacheLag(top, s, labels, t, u);
    }
  }

  /** A score left over stays until a turn of that user replaces it. */
  lemma {:induction false} LeftoverOnly(top: Rank, s: State, labels: seq<Label>, t: State, u: string)
    requires IsRun(top, s, labels, t) && !HasPlayed(t, u)
    ensures (u in s.cache <==> u in t.cache) && (u in s.cache ==> t.cache[u] == s.cache[u])
    decreases |labels|
  {
    if labels == [] {
    } else {
      var l, m := labels[0], Step(top, s, labels[0]);
      LeftoverOnly(top, m, labels[1..], t, u);
      if l.SetPoints? && s.plays[l.p].user == u {
        PastForGood(top, m, labels[1..], t, l.p, u);
      }
      hide AddPointsStep;
    }
  }

  lemma {:induction false} PastForGood(top: Rank, s: State, labels: seq<Label>, t: State, p: nat, u: string)
    requires IsRun(top, s, labels, t) && p < |s.plays| && Past(s.plays[p], u)
    ensures p < |t.plays| && Past(t.plays[p], u)
    decreases |labels|
  {
    if labels == [] {
    } else {
      hide Step, Enabled;
      PastStays(top, s, labels[0], p, u);
      PastForGood(top, Step(top, s, labels[0]), labels[1..], t, p, u);
    }
  }

  lemma {:induction false} RunConcat(top: Rank, s: State, a: seq<Label>, m: State, b: seq<Label>, t: State)
    requires IsRun(top, s, a, m) && IsRun(top, m, b, t)
    ensures IsRun(top, s, a + b, t)
    decreases |a|
  {
    if a == [] {
      assert a + b == b;
    } else {
      assert (a + b)[0] == a[0] && (a + b)[1..] == a[1..] + b;
      hide Step, Enabled;
      RunConcat(top, Step(top, s, a[0]), a[1..], m, b, t);
    }
  }

  lemma TwoSteps(top: Rank, s: State, a: Label, b: Label)
    requires Enabled(s, a) && Enabled(Step(top, s, a), b)
    ensures IsRun(top, s, [a, b], Step(top, Step(top, s, a), b))
  {
    hide Step, Enabled;
    var m := Step(top, s, a);
    var t := Step(top, m, b);
    assert [a, b][1..] == [b] && [b][1..] == [];
    assert IsRun(top, t, [], t);
    assert IsRun(top, m, [b], t);
  }

  /** One user with total 0, nothing cached, nothing in flight. */
  function OneUser(u: string): State {
    State(map[u := [0]], map[], [], None, [])
  }

  /** One user, and two turns of theirs at the given phases. */
  function TwoTurns(u: string, totals: seq<int>, cache: map<string, Cached>,
                    first: PlayPhase, second: PlayPhase): State {
    State(map[u := totals], cache, [Play(u, 1, first), Play(u, 1, second)], None, [])
  }

  /** A run in which every AddPoints and SetPoints succeeds and every turn is past its
      SetPoints, yet the cache says 1 where the durable score is 2. */
  ghost predicate GoesStale(top: Rank, u: string, s: State, labels: seq<Label>, t: State) {
    && Initial(s) && IsRun(top, s, labels, t)
    && (forall l :: l in labels ==> (l.SetPoints? ==> l.applied) && (l.AddPoints? ==> !l.fails))
    && (forall p :: 0 <= p < |t.plays| ==> t.plays[p].phase.Mirrored?)
    && u in t.cache && t.cache[u].points == 1 && u in t.totals && t.totals[u] == [0, 1, 2]
  }

  /** Two overlapping turns of one user can leave the cache wrong with every call a
      success and no SetPoints to come: the first to add is the last to mirror. */
  lemma OverlapLeavesStale(top: Rank, u: string)
    ensures exists s, labels, t :: GoesStale(top, u, s, labels, t)
  {
    var s := OneUser(u);
    var asked := TwoTurns(u, [0], map[], Asked, Asked);
    var added := TwoTurns(u, [0, 1, 2], map[], Added(1, 1), Added(2, 2));
    var t := TwoTurns(u, [0, 1, 2], map[u := Cached(1, 1)], Mirrored, Mirrored);
    OverlapAsks(top, u);
    OverlapAdds(top, u);
    OverlapMirrors(top, u);
    hide Step, Enabled;
    RunConcat(top, s, [Ask(u, 1), Ask(u, 1)], asked, [AddPoints(0, false), AddPoints(1, false)], added);
    RunConcat(top, s, [Ask(u, 1), Ask(u, 1)] + [AddPoints(0, false), AddPoints(1, false)], added,
              [SetPoints(1, true), SetPoints(0, true)], t);
    hide IsRun;
    var labels := [Ask(u, 1), Ask(u, 1)] + [AddPoints(0, false), AddPoints(1, false)]
      + [SetPoints(1, true), SetPoints(0, true)];
    assert GoesStale(top, u, s, labels, t);
  }

  lemma OverlapAsks(top: Rank, u: string)
    ensures IsRun(top, OneUser(u), [Ask(u, 1), Ask(u, 1)], TwoTurns(u, [0], map[], Asked, Asked))
  {
    var s := OneUser(u);
    TwoSteps(top, s, Ask(u, 1), Ask(u, 1));
    hide IsRun;
    assert Step(top, Step(top, s, Ask(u, 1)), Ask(u, 1)) == TwoTurns(u, [0], map[], Asked, Asked);
  }

  lemma OverlapAdds(top: Rank, u: string)
    ensures IsRun(top, TwoTurns(u, [0], map[], Asked, Asked), [AddPoints(0, false), AddPoints(1, false)],
                  TwoTurns(u, [0, 1, 2], map[], Added(1, 1), Added(2, 2)))
  {
    var s := TwoTurns(u, [0], map[], Asked, Asked);
    TwoSteps(top, s, AddPoints(0, false), AddPoints(1, false));
    hide IsRun;
    var m := Step(top, s, AddPoints(0, false));
    assert m.totals[u] == [0, 1];
    assert m.totals == map[u := [0, 1]] && m.plays == [Play(u, 1, Added(1, 1)), Play(u, 1, Asked)];
    var t := Step(top, m, AddPoints(1, false));
    assert t.totals[u] == [0, 1, 2];
    assert t.totals == map[u := [0, 1, 2]] && t.plays == [Play(u, 1, Added(1, 1)), Play(u, 1, Added(2, 2))];
  }

  lemma OverlapMirrors(top: Rank, u: string)
    ensures IsRun(top, TwoTurns(u, [0, 1, 2], map[], Added(1, 1), Added(2, 2)),
                  [SetPoints(1, true), SetPoints(0, true)],
                  TwoTurns(u, [0, 1, 2], map[u := Cached(1, 1)], Mirrored, Mirrored))
  {
    var s := TwoTurns(u, [0, 1, 2], map[], Added(1, 1), Added(2, 2));
    TwoSteps(top, s, SetPoints(1, true), SetPoints(0, true));
    hide IsRun;
    var m := Step(top, s, SetPoints(1, true));
    assert m.cache == map[u := Cached(2, 2)] && m.plays == [Play(u, 1, Added(1, 1)), Play(u, 1, Mirrored)];
    var t := Step(top, m, SetPoints(0, true));
    assert t.cache == map[u := Cached(1, 1)] && t.plays == [Play(u, 1, Mirrored), Play(u, 1, Mirrored)];
  }

  /** The score cached for `u` is not the durable one. */
  predicate Wrong(s: State, u: string) {
    u in s.cache && u in s.totals && s.totals[u] != [] && s.cache[u].points != Current(s.totals[u])
  }

  /** A turn of `u` that carries another score than the durable one to the cache. */
  predicate Misses(s: State, play: Play, u: string) {
    Turning(play, u) && u in s.totals && s.totals[u] != [] && play.phase.total != Current(s.totals[u])
  }

  ghost predicate CarriesWrong(s: State, u: string) {
    exists p :: 0 <= p < |s.plays| && Misses(s, s.plays[p], u)
  }

  /** The turns now under way can finish, every SetPoints a success, with a wrong score
      of `u` left in the cache. */
  ghost predicate CanEndWrong(top: Rank, s: State, u: string) {
    exists labels, t :: EndsWrong(top, s, labels, t, u)
  }

  ghost predicate EndsWrong(top: Rank, s: State, labels: seq<Label>, t: State, u: string) {
    && IsRun(top, s, labels, t)
    && (forall l :: l in labels ==> l.SetPoints? && l.applied)
    && !MidTurn(t, u) && Wrong(t, u)
  }

  /** The exact condition for a wrong score to stay: the turns of `u` under way can
      finish with one in the cache if and only if one of them carries a score that is
      not the durable one, or none is under way and the cache is wrong already. */
  lemma WrongExact(top: Rank, s: State, u: string)
    ensures CanEndWrong(top, s, u) <==> CarriesWrong(s, u) || (!MidTurn(s, u) && Wrong(s, u))
  {
    if CarriesWrong(s, u) {
      var p :| 0 <= p < |s.plays| && Misses(s, s.plays[p], u);
      var labels, t := WrongOneLast(top, s, u, p);
      assert EndsWrong(top, s, labels, t, u);
    } else if !MidTurn(s, u) && Wrong(s, u) {
      assert EndsWrong(top, s, [], s, u);
    } else if CanEndWrong(top, s, u) {
      var labels, t :| EndsWrong(top, s, labels, t, u);
      StaysRight(top, s, labels, t, u);
    }
  }

  function Turns(s: State, u: string): set<nat> {
    set p: nat | p < |s.plays| && Turning(s.plays[p], u)
  }

  /** What a successful SetPoints of one turn changes. */
  lemma MirrorStep(top: Rank, s: State, q: nat, u: string)
    requires q < |s.plays| && Turning(s.plays[q], u)
    ensures var t := Step(top, s, SetPoints(q, true));
      && Turns(t, u) == Turns(s, u) - {q} && |Turns(t, u)| < |Turns(s, u)|
      && t.totals == s.totals && |t.plays| == |s.plays|
      && u in t.cache && t.cache[u].points == s.plays[q].phase.total
      && (forall p :: 0 <= p < |s.plays| && p != q ==> t.plays[p] == s.plays[p])
  {
    var t := Step(top, s, SetPoints(q, true));
    assert q in Turns(s, u) && Turns(t, u) == Turns(s, u) - {q};
  }

  /** Let the other turns mirror first, and turn p last. */
  lemma {:induction false} WrongOneLast(top: Rank, s: State, u: string, p: nat) returns (labels: seq<Label>, t: State)
    requires p < |s.plays| && Misses(s, s.plays[p], u)
    ensures EndsWrong(top, s, labels, t, u)
    decreases |Turns(s, u)|
  {
    var q := p;
    if Turns(s, u) != {p} {
      q :| q in Turns(s, u) && q != p by { assert p in Turns(s, u); }
    }
    var l := SetPoints(q, true);
    assert Enabled(s, l);
    MirrorStep(top, s, q, u);
    hide Step, Enabled;
    var m := Step(top, s, l);
    if q == p {
      assert Turns(m, u) == {};
      assert !MidTurn(m, u) by { NoTurns(m, u); }
      labels, t := [l], m;
      assert IsRun(top, m, [l][1..], m);
    } else {
      var rest;
      rest, t := WrongOneLast(top, m, u, p);
      labels := [l] + rest;
      assert labels[1..] == rest;
    }
  }

  lemma NoTurns(s: State, u: string)
    ensures MidTurn(s, u) <==> Turns(s, u) != {}
  {
    if MidTurn(s, u) {
      var p :| 0 <= p < |s.plays| && Turning(s.plays[p], u);
      assert p in Turns(s, u);
    }
  }

  /** Turns that carry the durable score, or none over a right cache, cannot leave a
      wrong one. */
  lemma {:induction false} StaysRight(top: Rank, s: State, labels: seq<Label>, t: State, u: string)
    requires IsRun(top, s, labels, t) && forall l :: l in labels ==> l.SetPoints? && l.applied
    requires !CarriesWrong(s, u) && (MidTurn(s, u) || !Wrong(s, u))
    ensures MidTurn(t, u) || !Wrong(t, u)
    decreases |labels|
  {
    if labels == [] {
    } else {
      var l := labels[0];
      assert l in labels;
      RightKept(top, s, l, u);
      hide Step, Enabled, CarriesWrong, MidTurn, Wrong;
      StaysRight(top, Step(top, s, l), labels[1..], t, u);
    }
  }

  lemma RightKept(top: Rank, s: State, l: Label, u: string)
    requires Enabled(s, l) && l.SetPoints? && l.applied
    requires !CarriesWrong(s, u) && (MidTurn(s, u) || !Wrong(s, u))
    ensures var t := Step(top, s, l); !CarriesWrong(t, u) && (MidTurn(t, u) || !Wrong(t, u))
  {
    var t := Step(top, s, l);
    assert forall p :: 0 <= p < |s.plays| && p != l.p ==> t.plays[p] == s.plays[p];
    if Turning(s.plays[l.p], u) {
      assert !Wrong(t, u);
    } else if MidTurn(s, u) {
      var p :| 0 <= p < |s.plays| && Turning(s.plays[p], u);
      assert Turning(t.plays[p], u);
    }
  }

  /** When the turns of all users on the board are serial and between two of them, and
      the cache held no name without a record at the start, a watcher with nothing
      pending and nothing owed has sent the ranking of the durable scores of everybody
      who was cached at the start or has played. */
  lemma WatchersSeeDurable(top: Rank, s: State, labels: seq<Label>, t: State, w: nat)
    requires Initial(s) && IsRun(top, s, labels, t) && w < |t.watchers|
    requires t.watchers[w].phase.Waiting? && !t.watchers[w].slot && !Owed(t, w)
    requires s.cache.Keys <= s.totals.Keys
    requires forall u :: u in t.totals ==> SerialRun(top, s, labels, u) && !MidTurn(t, u)
    ensures forall u :: u in t.totals ==> (u in t.cache <==> u in s.cache || HasPlayed(t, u))
    ensures forall u :: u in t.cache ==> u in t.totals && t.totals[u] != []
    ensures t.watchers[w].sent == Some(top(map u | u in t.cache :: Current(t.totals[u]), t.watchers[w].topN))
  {
    NoUpdateLost(top, s, labels, t, w);
    forall u | u in t.cache
      ensures u in t.totals
    {
      CacheLag(top, s, labels, t, u);
    }
    forall u | u in t.totals
      ensures u in t.cache <==> u in s.cache || HasPlayed(t, u)
      ensures u in t.cache ==> t.totals[u] != [] && t.cache[u].points == Current(t.totals[u])
    {
      CacheExact(top, s, labels, t, u);
    }
    assert Board(t) == map u | u in t.cache :: Current(t.totals[u]);
  }
}
