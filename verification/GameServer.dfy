/** Turns, watchers and the start-up as the goroutines they are, over the stores and
    the notifier that they share. The `trace` of the server is the run of the
    transition system that it performs, so all that is proved of turns and watchers
    holds of it at every moment. */
module GameServerObject {
  import opened Ranking
  import opened GameModel
  import opened Scoring
  import opened Options

  datatype User = User(username: string, points: int)

  /** The durable scores. */
  class UserStore {
    var points: map<string, int>

    constructor (points: map<string, int>)
      ensures this.points == points
    {
      this.points := points;
    }

    /** One UPDATE ... RETURNING: the new total, or an error and no change. */
    method AddPoints(username: string, delta: int, fails: bool) returns (ok: bool, total: int)
      modifies this
      ensures ok <==> !fails && username in old(points) && -0x8000_0000 <= old(points)[username] + delta < 0x8000_0000
      ensures ok ==> total == old(points)[username] + delta && points == old(points)[username := total]
      ensures !ok ==> points == old(points)
    {
      ok, total := false, 0;
      if !fails && username in points {
        var sum := points[username] + delta;
        if INT32_MIN <= sum <= INT32_MAX {
          points := points[username := sum];
          ok, total := true, sum;
        }
      }
    }

    /** All users, in whatever order the rows come. */
    method ListAll() returns (users: seq<User>)
      ensures forall u :: u in users ==> u.username in points && u.points == points[u.username]
      ensures forall name :: name in points ==> User(name, points[name]) in users
      ensures users == [] <==> points == map[]
    {
      users := [];
      var left := points.Keys;
      while left != {}
        invariant left <= points.Keys
        invariant forall u :: u in users ==> u.username in points && u.points == points[u.username]
        invariant forall name :: name in points && name !in left ==> User(name, points[name]) in users
        invariant users == [] ==> left == points.Keys
        decreases left
      {
        var name :| name in left;
        users := users + [User(name, points[name])];
        left := left - {name};
      }
      if users == [] {
        assert points.Keys == {};
        assert points == map[];
      } else {
        assert users[0] in users;
      }
    }
  }

  /** WarmCache: afterwards the leaderboard agrees with the durable score of every
      user; entries of anybody else stay as they were, so it is the durable scores
      exactly when there was no such entry. */
  method WarmCache(users: UserStore, leaderboard: LeaderboardStore, listFails: bool, setFails: bool) returns (ok: bool)
    modifies leaderboard
    ensures ok <==> !listFails && (users.points == map[] || !setFails)
    ensures ok ==> leaderboard.points == old(leaderboard.points) + users.points
    ensures ok ==> (leaderboard.points == users.points <==> old(leaderboard.points).Keys <= users.points.Keys)
    ensures !ok ==> leaderboard.points == old(leaderboard.points)
  {
    if listFails {
      return false;
    }
    var all := users.ListAll();
    if |all| == 0 {
      return true;
    }
    var points: Scores := map[];
    for i := 0 to |all|
      invariant forall u :: u in points <==> exists k :: 0 <= k < i && all[k].username == u
      invariant forall u :: u in points ==> u in users.points && points[u] == users.points[u]
    {
      points := points[all[i].username := all[i].points];
    }
    assert points == users.points by {
      forall u | u in users.points
        ensures u in points
      {
        var k :| 0 <= k < |all| && all[k] == User(u, users.points[u]);
      }
    }
    if setFails {
      return false;
    }
    leaderboard.SetMany(points);
    ok := true;
  }

  /** Whatever the durable scores, a leaderboard that holds a name without a record still
      holds it after a successful WarmCache. */
  method WarmLeftover(points: Scores, name: string, score: int)
    returns (users: UserStore, leaderboard: LeaderboardStore)
    requires name !in points
    ensures users.points == points && leaderboard.points == points[name := score] != users.points
  {
    users := new UserStore(points);
    leaderboard := new LeaderboardStore();
    leaderboard.SetPoints(name, score);
    var ok := WarmCache(users, leaderboard, false, false);
    assert leaderboard.points == points[name := score];
    assert name in leaderboard.points;
  }

  /** The ranking that watchers are sent: the one board of the clamped size. */
  ghost function Ranked(scores: Scores, n: int): seq<Entry> {
    if exists b :: IsBoard(scores, Clamped(n), b) then
      var b :| IsBoard(scores, Clamped(n), b);
      b
    else
      []
  }

  lemma TheBoard(scores: Scores, n: int, board: seq<Entry>)
    requires IsBoard(scores, Clamped(n), board)
    ensures Ranked(scores, n) == board
  {
    BoardUnique(scores, Clamped(n), Ranked(scores, n), board);
  }

  ghost function Ranks(): Rank {
    (scores: Scores, n: int) => Ranked(scores, n)
  }

  /** The reply's text: the word's own message, or the total. */
  datatype Reply = Reply(text: string) | Status(total: int)

  /** How a turn ended; `Locked` is still waiting for the notifier's lock. */
  datatype PlayResult = Failed | Played(delta: int, total: int, message: Reply) | Locked

  /** What a turn answers to a lower-case word. */
  predicate Told(w: string, delta: int, total: int, message: Reply) {
    if w == "status" then delta == 0 && message == Status(total)
    else message.Reply? && Rule(w, delta, message.text)
  }

  lemma ToldRight(word: string, delta: int, text: string, total: int, message: Reply)
    requires ScoreWord(word) == (delta, text)
    requires message == if IsStatusWord(word) then Status(total) else Reply(text)
    ensures forall c :: Core(word, c) ==> Told(Lower(c), delta, total, message)
  {
    forall c | Core(word, c)
      ensures Told(Lower(c), delta, total, message)
    {
      ScoreIsRight(word, c);
    }
  }

  /** What a watcher's select did. */
  datatype WatchCase = Idle | Resent | Failing | Cancelled

  /** At this place of the trace watcher w took its signal, and it has sent a board since. */
  predicate SignalMet(trace: seq<Label>, look: nat, w: nat) {
    look + 1 < |trace| && trace[look] == Wake(w) && trace[|trace| - 1] == Label.Send(w, false)
  }

  /** A client's end of a Leaderboard call: the boards sent to it. */
  class Stream {
    var sent: seq<seq<Entry>>

    constructor ()
      ensures sent == []
    {
      sent := [];
    }
  }

  /** How a Leaderboard call ended; `Open` is still watching, `Queueing` still waiting
      for the notifier's lock. */
  datatype StreamEnd = Ended | Broken | Open | Queueing

  /** The goroutine on whose behalf a method runs. */
  datatype Role = Outsider | Player(p: nat) | Watching(w: nat)

  predicate PartOf(me: Role, l: Label) {
    match l
    case AddPoints(p, _) => me == Player(p)
    case SetPoints(p, _) => me == Player(p)
    case Lock(p) => me == Player(p)
    case Signal(p, _) => me == Player(p)
    case Unlock(p) => me == Player(p)
    case Read(w, _) => me == Watching(w)
    case Send(w, _) => me == Watching(w)
    case Wake(w) => me == Watching(w)
    case CtxDone(w) => me == Watching(w)
    case Unsubscribe(w) => me == Watching(w)
    case _ => false
  }

  ghost predicate ByOthers(me: Role, labels: seq<Label>) {
    forall l :: l in labels ==> !PartOf(me, l)
  }

  /** Every total that a user's record has held stays on record. */
  ghost predicate Remembered(totals: map<string, seq<int>>, later: map<string, seq<int>>) {
    forall u :: u in totals ==> u in later && totals[u] <= later[u]
  }

  /** What a run of the other goroutines leaves a goroutine to rely on: its own
      variables, and while it holds the lock the set of subscribers. */
  ghost predicate Undisturbed(me: Role, s: State, t: State) {
    && |s.plays| <= |t.plays| && |s.watchers| <= |t.watchers|
    && Remembered(s.totals, t.totals)
    && match me
       case Outsider => true
       case Player(p) =>
         && (p < |s.plays| ==> t.plays[p] == s.plays[p])
         && (s.mutex == Some(p) ==> t.mutex == Some(p) && Subscribed(t.watchers) == Subscribed(s.watchers))
       case Watching(w) => w < |s.watchers| ==> SameWatcher(s.watchers[w], t.watchers[w])
  }

  predicate SameWatcher(before: Watcher, after: Watcher) {
    after == before.(slot := after.slot) && (before.slot ==> after.slot)
  }

  lemma UndisturbedStep(top: Rank, me: Role, s: State, l: Label)
    requires Orderly(s) && Enabled(s, l) && !PartOf(me, l)
    ensures Undisturbed(me, s, Step(top, s, l))
  {
    RememberedStep(top, s, l);
    hide AddPointsStep, Remembered;
  }

  lemma RememberedStep(top: Rank, s: State, l: Label)
    requires Enabled(s, l)
    ensures Remembered(s.totals, Step(top, s, l).totals)
  {
  }

  lemma UndisturbedThen(me: Role, s: State, m: State, t: State)
    requires Undisturbed(me, s, m) && Undisturbed(me, m, t)
    ensures Undisturbed(me, s, t)
  {
  }

  lemma RememberedThen(a: map<string, seq<int>>, b: map<string, seq<int>>, c: map<string, seq<int>>)
    requires Remembered(a, b) && Remembered(b, c)
    ensures Remembered(a, c)
  {
  }

  lemma {:induction false} UndisturbedRun(top: Rank, me: Role, s: State, labels: seq<Label>, t: State)
    requires Orderly(s) && IsRun(top, s, labels, t) && ByOthers(me, labels)
    ensures Undisturbed(me, s, t)
    decreases |labels|
  {
    if labels != [] {
      assert labels[0] in labels;
      var m := Step(top, s, labels[0]);
      hide Step, Enabled, Orderly, Undisturbed;
      UndisturbedStep(top, me, s, labels[0]);
      OrderlyKept(top, s, labels[0]);
      UndisturbedRun(top, me, m, labels[1..], t);
      UndisturbedThen(me, s, m, t);
    } else {
      assert forall u :: u in s.totals ==> s.totals[u] <= t.totals[u];
    }
  }

  lemma RunSnoc(top: Rank, s: State, labels: seq<Label>, m: State, l: Label)
    requires IsRun(top, s, labels, m) && Enabled(m, l)
    ensures IsRun(top, s, labels + [l], Step(top, m, l))
  {
    hide Step, Enabled;
    assert [l][1..] == [];
    assert IsRun(top, m, [l], Step(top, m, l));
    RunConcat(top, s, labels, m, [l], Step(top, m, l));
  }

  class GameServer {
    const users: UserStore
    const leaderboard: LeaderboardStore

    // the notifier: each channel's one slot, and the lock
    var subs: map<nat, bool>
    var channels: nat
    var locked: bool

    ghost var start: State
    ghost var trace: seq<Label>
    ghost var model: State

    /** The stores and the notifier are those of a state of the transition system. */
    ghost predicate Matches(s: State)
      reads this, users, leaderboard
    {
      && users.points.Keys == s.totals.Keys
      && (forall u :: u in s.totals ==> s.totals[u] != [] && users.points[u] == Current(s.totals[u]))
      && leaderboard.points == Board(s)
      && channels == |s.watchers| && subs.Keys == Subscribed(s.watchers)
      && (forall w :: w in subs ==> subs[w] == s.watchers[w].slot)
      && (locked <==> s.mutex.Some?)
    }

    ghost predicate Valid()
      reads this, users, leaderboard
    {
      && Initial(start)
      && IsRun(Ranks(), start, trace, model)
      && Matches(model)
    }

    /** The server starts on a cache that is empty, or warm, or partly so, and that may
        hold names without a durable record. */
    constructor (users: UserStore, leaderboard: LeaderboardStore)
      requires forall u :: u in leaderboard.points && u in users.points ==> leaderboard.points[u] == users.points[u]
      ensures Valid() && this.users == users && this.leaderboard == leaderboard && trace == []
    {
      this.users, this.leaderboard := users, leaderboard;
      subs, channels, locked := map[], 0, false;
      trace := [];
      var cached := map u | u in leaderboard.points ::
        Cached(leaderboard.points[u], if u in users.points then 0 else -1);
      var s := State(map u | u in users.points :: [users.points[u]], cached, [], None, []);
      start, model := s, s;
      new;
      assert Board(model) == leaderboard.points;
    }

    /** Record that the server has just made step `l`. */
    ghost method Record(l: Label)
      requires Initial(start) && IsRun(Ranks(), start, trace, model) && Enabled(model, l)
      requires Matches(Step(Ranks(), model, l))
      modifies this`trace, this`model
      ensures Valid() && trace == old(trace) + [l] && model == Step(Ranks(), old(model), l)
    {
      RunSnoc(Ranks(), start, trace, model, l);
      model := Step(Ranks(), model, l);
      trace := trace + [l];
    }

    lemma Lawful()
      requires Valid()
      ensures Inv(Ranks(), model) && Mirrors(model)
    {
      hide IsRun;
      RunInv(Ranks(), start, trace, model);
      MirrorsRun(Ranks(), start, trace, model);
    }

    /** Time passes: any run in which this goroutine takes no part. */
    method Interleave(ghost me: Role)
      requires Valid()
      modifies this, users, leaderboard
      ensures Valid() && old(trace) <= trace
      ensures ByOthers(me, trace[|old(trace)|..]) && IsRun(Ranks(), old(model), trace[|old(trace)|..], model)
    {
    }

    /** What this goroutine finds after the others have run. */
    method Others(ghost me: Role)
      requires Valid()
      modifies this, users, leaderboard
      ensures Valid() && old(trace) <= trace
      ensures Undisturbed(me, old(model), model)
    {
      hide IsRun, Matches, Undisturbed, ByOthers;
      Lawful();
      Interleave(me);
      UndisturbedRun(Ranks(), me, old(model), trace[|old(trace)|..], model);
    }

    // ----- a turn -----

    /** A new turn arrives. */
    ghost method Arrive(username: string, delta: int) returns (p: nat)
      requires Valid() && -1 <= delta <= 1
      modifies this`trace, this`model
      ensures Valid() && trace == old(trace) + [Ask(username, delta)]
      ensures p == |old(model).plays| < |model.plays| && model.plays[p] == GameModel.Play(username, delta, Asked)
    {
      hide IsRun, Initial;
      p := |model.plays|;
      Record(Ask(username, delta));
    }

    /** The durable total is changed first. */
    method AddToTotal(ghost p: nat, username: string, delta: int, fails: bool) returns (ok: bool, total: int)
      requires Valid() && p < |model.plays| && model.plays[p] == GameModel.Play(username, delta, Asked)
      modifies this, users
      ensures Valid() && trace == old(trace) + [Label.AddPoints(p, fails)] && p < |model.plays|
      ensures ok <==> !fails && username in old(users.points)
                      && -0x8000_0000 <= old(users.points)[username] + delta < 0x8000_0000
      ensures !ok ==> model.plays[p] == GameModel.Play(username, delta, Refused)
      ensures ok ==>
        && username in old(model).totals && username in model.totals
        && var before := old(model).totals[username];
           && before != [] && total == Current(before) + delta
           && model.totals[username] == before + [total]
           && model.plays[p] == GameModel.Play(username, delta, Added(total, |before|))
    {
      hide IsRun, Initial;
      ok, total := users.AddPoints(username, delta, fails);
      Record(Label.AddPoints(p, fails));
    }

    /** Then the leaderboard, which may fail without failing the turn. */
    method Mirror(ghost p: nat, username: string, total: int, fails: bool)
      requires Valid() && p < |model.plays| && model.plays[p].user == username
      requires model.plays[p].phase.Added? && model.plays[p].phase.total == total
      modifies this, leaderboard
      ensures Valid() && trace == old(trace) + [Label.SetPoints(p, !fails)] && p < |model.plays|
      ensures model.plays[p] == old(model).plays[p].(phase := Mirrored)
      ensures model.totals == old(model).totals
      ensures leaderboard.points ==
        if fails then old(leaderboard.points) else old(leaderboard.points)[username := total]
    {
      hide IsRun, Initial;
      if !fails {
        leaderboard.SetPoints(username, total);
      }
      Record(Label.SetPoints(p, !fails));
    }

    method TakeLock(ghost p: nat)
      requires Valid() && p < |model.plays| && model.plays[p].phase.Mirrored? && !locked
      modifies this
      ensures Valid() && trace == old(trace) + [Lock(p)] && p < |model.plays|
      ensures subs == old(subs) && model.totals == old(model).totals && model.mutex == Some(p)
      ensures model.plays[p] == old(model).plays[p].(phase := Signalling(subs.Keys))
    {
      hide IsRun, Initial;
      locked := true;
      Record(Lock(p));
    }

    /** A non-blocking send: a pending signal is enough. */
    method SignalOne(ghost p: nat, ch: nat)
      requires Valid() && p < |model.plays| && model.plays[p].phase.Signalling?
      requires ch in model.plays[p].phase.left && ch in subs
      modifies this
      ensures Valid() && trace == old(trace) + [Signal(p, ch)] && p < |model.plays|
      ensures subs == old(subs)[ch := true]
      ensures model.plays[p] == old(model).plays[p].(phase := Signalling(old(model).plays[p].phase.left - {ch}))
      ensures model.totals == old(model).totals && model.mutex == old(model).mutex
    {
      hide IsRun, Initial;
      if !subs[ch] {
        subs := subs[ch := true];
      }
      Record(Signal(p, ch));
    }

    /** The next signal of the loop, after others have run; the lock keeps the map as
        it was. */
    method SignalNext(ghost p: nat, ch: nat)
      requires Valid() && p < |model.plays| && model.plays[p].phase.Signalling? && model.mutex == Some(p)
      requires ch in model.plays[p].phase.left && ch in subs
      modifies this, users, leaderboard
      ensures Valid() && old(trace) <= trace && p < |model.plays|
      ensures subs.Keys == old(subs).Keys && model.mutex == Some(p)
      ensures model.plays[p] == old(model).plays[p].(phase := Signalling(old(model).plays[p].phase.left - {ch}))
      ensures Remembered(old(model).totals, model.totals)
    {
      hide IsRun, Initial, Remembered;
      Others(Player(p));
      SignalOne(p, ch);
    }

    method ReleaseLock(ghost p: nat)
      requires Valid() && p < |model.plays| && model.plays[p].phase == Signalling({})
      modifies this
      ensures Valid() && trace == old(trace) + [Unlock(p)] && p < |model.plays|
      ensures model.plays[p] == old(model).plays[p].(phase := Answered)
      ensures model.totals == old(model).totals
    {
      hide IsRun, Initial;
      locked := false;
      Record(Unlock(p));
    }

    /** Wait while the lock is held, for at most `patience` looks after the first. */
    method AwaitLock(ghost me: Role, patience: nat) returns (free: bool)
      requires Valid()
      modifies this, users, leaderboard
      ensures Valid() && old(trace) <= trace && Undisturbed(me, old(model), model)
      ensures free <==> !locked
    {
      hide IsRun, Matches, Undisturbed;
      Others(me);
      for n := 0 to patience
        invariant Valid() && old(trace) <= trace && Undisturbed(me, old(model), model)
      {
        if !locked {
          return true;
        }
        ghost var m := model;
        Others(me);
        UndisturbedThen(me, old(model), m, model);
      }
      free := !locked;
    }

    /** `Notify`: under the lock, fill every slot that is empty, in whatever order the
        map is walked. */
    method Notify(ghost p: nat, patience: nat) returns (done: bool)
      requires Valid() && p < |model.plays| && model.plays[p].phase.Mirrored?
      modifies this, users, leaderboard
      ensures Valid() && old(trace) <= trace && p < |model.plays|
      ensures model.plays[p] == old(model).plays[p].(phase := if done then Answered else Mirrored)
      ensures !done ==> locked
      ensures Remembered(old(model).totals, model.totals)
    {
      hide IsRun, Initial, Remembered, Matches;
      var free := AwaitLock(Player(p), patience);
      if !free {
        return false;
      }
      TakeLock(p);
      var left := subs.Keys;
      ghost var play := model.plays[p];
      while left != {}
        invariant Valid() && old(trace) <= trace && p < |model.plays|
        invariant model.mutex == Some(p) && left <= subs.Keys
        invariant model.plays[p] == play.(phase := Signalling(left))
        invariant Remembered(old(model).totals, model.totals)
        decreases left
      {
        ghost var totals := model.totals;
        var ch :| ch in left;
        SignalNext(p, ch);
        RememberedThen(old(model).totals, totals, model.totals);
        left := left - {ch};
      }
      ReleaseLock(p);
      done := true;
    }

    /** The two writes of a turn. */
    method Score(ghost p: nat, username: string, delta: int, addFails: bool, setFails: bool)
      returns (ok: bool, total: int, ghost at: nat)
      requires Valid() && p < |model.plays| && model.plays[p] == GameModel.Play(username, delta, Asked)
      modifies this, users, leaderboard
      ensures Valid() && old(trace) <= trace && p < |model.plays|
      ensures addFails ==> !ok
      ensures !ok ==> model.plays[p] == GameModel.Play(username, delta, Refused)
      ensures ok ==>
        && model.plays[p] == GameModel.Play(username, delta, Mirrored)
        && |old(trace)| < |trace| && trace[|trace| - 1] == Label.SetPoints(p, !setFails)
        && username in model.totals && 0 < at < |model.totals[username]|
        && model.totals[username][at] == total == model.totals[username][at - 1] + delta
    {
      hide IsRun, Initial, Matches;
      at := 0;
      Others(Player(p));
      ok, total := AddToTotal(p, username, delta, addFails);
      if ok {
        at := |model.totals[username]| - 1;
        ghost var added := model;
        Others(Player(p));
        Mirror(p, username, total, setFails);
        assert added.totals[username] <= model.totals[username];
      }
    }

    /** `Play`: the durable total, then the leaderboard, then the watchers, with other
        turns and watchers in between; `addFails` and `setFails` are the failures of
        the two stores. A turn that fails changes nothing; any other writes the
        leaderboard, and one that succeeds answers what the rule of the game says and
        reports a total that the user's record held right after this turn's points were
        added to the total before. */
    method Play(username: string, word: string, addFails: bool, setFails: bool, patience: nat)
      returns (r: PlayResult, ghost p: nat, ghost at: nat)
      requires Valid()
      modifies this, users, leaderboard
      ensures Valid() && old(trace) <= trace
      ensures p < |model.plays| && model.plays[p].user == username && model.plays[p].delta == ScoreWord(word).0
      ensures addFails ==> r.Failed?
      ensures !r.Failed? ==> Label.SetPoints(p, !setFails) in trace[|old(trace)|..]
      ensures r.Failed? <==> model.plays[p].phase.Refused?
      ensures r.Played? <==> model.plays[p].phase.Answered?
      ensures r.Locked? ==> locked
      ensures r.Played? ==>
        && r.delta == ScoreWord(word).0
        && (forall c :: Core(word, c) ==> Told(Lower(c), r.delta, r.total, r.message))
        && username in model.totals && 0 < at < |model.totals[username]|
        && model.totals[username][at] == r.total == model.totals[username][at - 1] + r.delta
    {
      hide IsRun, Initial, Matches;
      at := 0;
      var (delta, text) := ScoreWord(word);
      var message := Reply(text);
      p := Arrive(username, delta);
      var ok, total;
      ok, total, at := Score(p, username, delta, addFails, setFails);
      if !ok {
        return Failed, p, at;
      }
      ghost var m, mirrored := model, |trace| - 1;
      if IsStatusWord(word) {
        message := Status(total);
      }
      var done := Notify(p, patience);
      assert trace[|old(trace)|..][mirrored - |old(trace)|] == Label.SetPoints(p, !setFails);
      assert m.totals[username] <= model.totals[username];
      r := if done then Played(delta, total, message) else Locked;
      ToldRight(word, delta, text, total, message);
    }

    // ----- a watcher -----

    /** `Subscribe`, under the lock: a new channel with an empty slot. */
    method Register(topN: int) returns (w: nat)
      requires Valid() && !locked
      modifies this
      ensures Valid() && trace == old(trace) + [Label.Subscribe(topN)]
      ensures w == old(channels) < |model.watchers| && model.watchers[w] == Watcher(topN, Reading, false, None, None)
      ensures subs == old(subs)[w := false]
    {
      hide IsRun, Initial;
      w := channels;
      subs, channels := subs[w := false], channels + 1;
      Record(Label.Subscribe(topN));
    }

    /** `unsubscribe`, under the lock: remove and close. */
    method Remove(w: nat)
      requires Valid() && !locked && w < |model.watchers| && model.watchers[w].phase.Leaving?
      modifies this
      ensures Valid() && trace == old(trace) + [Label.Unsubscribe(w)]
      ensures w < |model.watchers| && model.watchers[w] == old(model).watchers[w].(phase := Gone)
      ensures subs == old(subs) - {w}
    {
      hide IsRun, Initial;
      subs := subs - {w};
      Record(Label.Unsubscribe(w));
    }

    /** Read the board through the service. */
    method ReadBoard(w: nat, topN: int, fails: bool) returns (entries: seq<Entry>)
      requires Valid() && w < |model.watchers| && model.watchers[w].phase.Reading? && model.watchers[w].topN == topN
      modifies this
      ensures Valid() && trace == old(trace) + [Read(w, fails)] && w < |model.watchers|
      ensures fails ==> model.watchers[w] == old(model).watchers[w].(phase := Leaving)
      ensures !fails ==> model.watchers[w] == old(model).watchers[w].(phase := Sending, read := Some(entries))
      ensures !fails ==> IsBoard(leaderboard.points, Clamped(topN), entries)
    {
      hide IsRun, Initial, IsBoard, Ranked;
      entries := [];
      if !fails {
        entries := Top(leaderboard, topN);
        TheBoard(leaderboard.points, topN, entries);
      }
      Record(Read(w, fails));
    }

    /** Send the reply; only a send that works reaches the client. */
    method Deliver(w: nat, reply: seq<Entry>, stream: Stream, fails: bool)
      requires Valid() && w < |model.watchers|
      requires model.watchers[w].phase.Sending? && model.watchers[w].read == Some(reply)
      modifies this, stream
      ensures Valid() && trace == old(trace) + [Label.Send(w, fails)] && w < |model.watchers|
      ensures fails ==>
        model.watchers[w] == old(model).watchers[w].(phase := Leaving) && stream.sent == old(stream.sent)
      ensures !fails ==>
        && model.watchers[w] == old(model).watchers[w].(phase := Waiting, sent := Some(reply))
        && stream.sent == old(stream.sent) + [reply]
    {
      hide IsRun, Initial;
      if !fails {
        stream.sent := stream.sent + [reply];
      }
      Record(Label.Send(w, fails));
    }

    /** `sendBoard`: read, convert entry by entry, send; it works exactly when the read
        and the send do. */
    method SendBoard(w: nat, topN: int, stream: Stream, readFails: bool, sendFails: bool) returns (ok: bool)
      requires Valid() && w < |model.watchers| && model.watchers[w].phase.Reading? && model.watchers[w].topN == topN
      modifies this, users, leaderboard, stream
      ensures Valid() && old(trace) <= trace && w < |model.watchers| && model.watchers[w].topN == topN
      ensures ok <==> !readFails && !sendFails
      ensures model.watchers[w].phase == if ok then Waiting else Leaving
      ensures |stream.sent| == |old(stream.sent)| + (if ok then 1 else 0) && old(stream.sent) <= stream.sent
      ensures ok ==> model.watchers[w].sent == Some(stream.sent[|stream.sent| - 1])
      ensures ok ==> |trace| > |old(trace)| && trace[|trace| - 1] == Label.Send(w, false)
    {
      hide IsRun, Initial, Matches, IsBoard, Remembered;
      Others(Watching(w));
      var entries := ReadBoard(w, topN, readFails);
      if readFails {
        return false;
      }
      var reply: seq<Entry> := [];
      for k := 0 to |entries|
        invariant reply == entries[..k]
      {
        reply := reply + [Entry(entries[k].rank, entries[k].username, entries[k].points)];
      }
      assert reply == entries;
      Others(Watching(w));
      Deliver(w, reply, stream, sendFails);
      ok := !sendFails;
    }

    method TakeSignal(w: nat)
      requires Valid() && w in subs && subs[w] && model.watchers[w].phase.Waiting?
      modifies this
      ensures Valid() && trace == old(trace) + [Wake(w)] && w < |model.watchers|
      ensures model.watchers[w] == old(model).watchers[w].(phase := Reading, slot := false)
      ensures subs == old(subs)[w := false]
    {
      hide IsRun, Initial;
      subs := subs[w := false];
      Record(Wake(w));
    }

    ghost method SeeDone(w: nat)
      requires Valid() && w < |model.watchers| && model.watchers[w].phase.Waiting?
      modifies this`trace, this`model
      ensures Valid() && trace == old(trace) + [CtxDone(w)] && w < |model.watchers|
      ensures model.watchers[w] == old(model).watchers[w].(phase := Leaving)
    {
      hide IsRun, Initial;
      Record(CtxDone(w));
    }

    /** The client was last sent the ranking as it now is. */
    ghost predicate Shows(topN: int, stream: Stream)
      reads this, leaderboard, stream
    {
      |stream.sent| > 0 && stream.sent[|stream.sent| - 1] == Ranked(leaderboard.points, topN)
    }

    /** A watcher in its select with no signal pending and none owed is up to date. */
    lemma CaughtUp(w: nat, topN: int, stream: Stream)
      requires Valid() && w < |model.watchers| && model.watchers[w].phase.Waiting? && model.watchers[w].topN == topN
      requires |stream.sent| > 0 && model.watchers[w].sent == Some(stream.sent[|stream.sent| - 1])
      ensures w in subs
      ensures !subs[w] && !Owed(model, w) ==> Shows(topN, stream)
    {
      hide IsRun, Initial, IsBoard, Ranked, Owed;
      NoUpdateLost(Ranks(), start, trace, model, w);
    }

    /** The other goroutines leave a watcher where it is. */
    method WatcherWaits(w: nat)
      requires Valid() && w < |model.watchers|
      modifies this, users, leaderboard
      ensures Valid() && old(trace) <= trace && w < |model.watchers|
      ensures model.watchers[w] == old(model).watchers[w].(slot := model.watchers[w].slot)
    {
      hide IsRun, Initial, Matches;
      Others(Watching(w));
    }

    /** One look of the loop's select: it takes one of its ready cases and waits only when
        there is none. A signal that is taken is answered with a board, unless the read
        or the send fails. */
    method WatchTurn(w: nat, topN: int, stream: Stream, cancelled: bool, readFails: bool, sendFails: bool)
      returns (took: WatchCase)
      requires Valid() && w < |model.watchers| && model.watchers[w].topN == topN
      requires model.watchers[w].phase.Waiting? && w in subs
      modifies this, users, leaderboard, stream
      ensures Valid() && old(trace) <= trace && w < |model.watchers| && model.watchers[w].topN == topN
      ensures old(subs[w]) && !cancelled ==> took.Resent? || took.Failing?
      ensures took.Idle? ==> w in subs && !subs[w] && !cancelled && trace == old(trace) && model == old(model)
      ensures took.Cancelled? ==> cancelled && model.watchers[w].phase.Leaving?
      ensures took.Failing? ==> (readFails || sendFails) && model.watchers[w].phase.Leaving?
      ensures !took.Resent? ==> stream.sent == old(stream.sent)
      ensures took.Resent? ==> !readFails && !sendFails && SignalMet(trace, |old(trace)|, w)
      ensures took.Resent? ==> |stream.sent| == |old(stream.sent)| + 1 && old(stream.sent) <= stream.sent
      ensures took.Resent? ==> model.watchers[w].sent == Some(stream.sent[|stream.sent| - 1])
      ensures took.Resent? ==> model.watchers[w].phase.Waiting?
    {
      hide IsRun, Initial, Matches;
      if {
        case cancelled =>
          SeeDone(w);
          took := Cancelled;
        case subs[w] =>
          TakeSignal(w);
          ghost var woken := trace;
          var ok := SendBoard(w, topN, stream, readFails, sendFails);
          took := if ok then Resent else Failing;
        case !cancelled && !subs[w] => // neither case is ready
          took := Idle;
      }
    }

    /** Subscribe, and send the present board at once. */
    method Begin(topN: int, stream: Stream, readFails: bool, sendFails: bool, patience: nat)
      returns (free: bool, ok: bool, id: nat)
      requires Valid()
      modifies this, users, leaderboard, stream
      ensures Valid() && old(trace) <= trace && old(stream.sent) <= stream.sent
      ensures |stream.sent| == |old(stream.sent)| + if free && ok then 1 else 0
      ensures !free ==> locked
      ensures free ==>
        && (ok <==> !readFails && !sendFails)
        && id < |model.watchers| && model.watchers[id].topN == topN
        && model.watchers[id].phase == (if ok then Waiting else Leaving)
        && (ok ==> model.watchers[id].sent == Some(stream.sent[|stream.sent| - 1]))
    {
      hide IsRun, Initial, Matches, Undisturbed;
      ok, id := false, 0;
      free := AwaitLock(Outsider, patience);
      if free {
        id := Register(topN);
        ok := SendBoard(id, topN, stream, readFails, sendFails);
      }
    }

    /** Others run, and then the select is looked at, at the place `look` of the trace. */
    method Look(w: nat, topN: int, stream: Stream, cancelled: bool, readFails: bool, sendFails: bool)
      returns (took: WatchCase, ghost look: nat)
      requires Valid() && w < |model.watchers| && model.watchers[w].topN == topN
      requires model.watchers[w].phase.Waiting?
      requires |stream.sent| > 0 && model.watchers[w].sent == Some(stream.sent[|stream.sent| - 1])
      modifies this, users, leaderboard, stream
      ensures Valid() && old(trace) <= trace && |old(trace)| <= look <= |trace|
      ensures w < |model.watchers| && model.watchers[w].topN == topN
      ensures old(stream.sent) <= stream.sent
      ensures |stream.sent| == |old(stream.sent)| + if took.Resent? then 1 else 0
      ensures if took.Cancelled? || took.Failing? then model.watchers[w].phase.Leaving?
              else model.watchers[w].phase.Waiting? && model.watchers[w].sent == Some(stream.sent[|stream.sent| - 1])
      ensures took.Idle? ==> look == |trace| && w in subs && !subs[w] && !cancelled
      ensures took.Cancelled? ==> cancelled
      ensures took.Failing? ==> readFails || sendFails
      ensures took.Resent? ==> !readFails && !sendFails && look < |trace| && SignalMet(trace, look, w)
    {
      hide IsRun, Initial, Matches, Owed, Shows;
      WatcherWaits(w);
      CaughtUp(w, topN, stream);
      look := |trace|;
      took := WatchTurn(w, topN, stream, cancelled, readFails, sendFails);
    }

    /** `Leaderboard`: subscribe, send the board at once, then again after every signal,
        until the client leaves or a read or a send fails; `cancelled` is the client's
        context, and the k-th board fails to be read or sent as `readFails` and
        `sendFails` say. It looks at its select at most `patience` times after the first,
        the last time at the place `look` of the trace. A watcher that has left is no
        longer subscribed. One that still watches either found nothing to do at its last
        look or took a signal and sent another board; and it has sent the present
        ranking unless a signal is pending or owed to it. */
    method Leaderboard(topN: int, stream: Stream, cancelled: bool, readFails: nat -> bool, sendFails: nat -> bool,
                       patience: nat)
      returns (end: StreamEnd, ghost w: nat, ghost look: nat)
      requires Valid()
      modifies this, users, leaderboard, stream
      ensures Valid() && old(trace) <= trace && old(stream.sent) <= stream.sent
      ensures var n := |stream.sent| - |old(stream.sent)|;
        && (forall k :: 0 <= k < n ==> !readFails(k) && !sendFails(k))
        && (end.Broken? ==> readFails(n) || sendFails(n))
        && (end.Open? ==> n >= 1)
      ensures end.Ended? ==> cancelled
      ensures end.Queueing? ==> locked
      ensures end.Ended? || end.Broken? ==> w < |model.watchers| && model.watchers[w].phase.Gone? && w !in subs
      ensures end.Open? ==> w in subs && (!subs[w] && !Owed(model, w) ==> Shows(topN, stream))
      ensures end.Open? ==> |old(trace)| <= look <= |trace|
      ensures end.Open? ==>
        if look == |trace| then !subs[w] && !cancelled
        else SignalMet(trace, look, w) && |stream.sent| >= |old(stream.sent)| + 2
    {
      hide IsRun, Initial, Matches, Owed, Undisturbed, Shows, SignalMet;
      look := 0;
      ghost var sent := stream.sent;
      var free, ok, id := Begin(topN, stream, readFails(0), sendFails(0), patience);
      w := id;
      var boards: nat := 0;
      if !free {
        return Queueing, w, look;
      }
      if !ok {
        end := Leave(id, Broken, patience);
        return;
      }
      boards := 1;
      var took := Resent;
      for n := 0 to patience + 1
        invariant Valid() && old(trace) <= trace && sent <= stream.sent && |stream.sent| == |sent| + boards
        invariant boards >= 1 && forall k :: 0 <= k < boards ==> !readFails(k) && !sendFails(k)
        invariant id < |model.watchers| && model.watchers[id].topN == topN && model.watchers[id].phase.Waiting?
        invariant model.watchers[id].sent == Some(stream.sent[|stream.sent| - 1])
        invariant n > 0 ==> |old(trace)| <= look <= |trace|
        invariant n > 0 ==> if look == |trace| then id in subs && !subs[id] && !cancelled
                            else SignalMet(trace, look, id) && boards >= 2
      {
        took, look := Look(id, topN, stream, cancelled, readFails(boards), sendFails(boards));
        if took.Cancelled? {
          end := Leave(id, Ended, patience);
          return;
        } else if took.Failing? {
          end := Leave(id, Broken, patience);
          return;
        } else if took.Resent? {
          boards := boards + 1;
        }
      }
      CaughtUp(id, topN, stream);
      end := Open;
    }

    /** The deferred unsubscribe. */
    method Leave(w: nat, how: StreamEnd, patience: nat) returns (end: StreamEnd)
      requires Valid() && w < |model.watchers| && model.watchers[w].phase.Leaving?
      requires how.Ended? || how.Broken?
      modifies this, users, leaderboard
      ensures Valid() && old(trace) <= trace
      ensures end == how || end == Queueing
      ensures end == Queueing ==> locked
      ensures end != Queueing ==> w < |model.watchers| && model.watchers[w].phase.Gone? && w !in subs
    {
      hide IsRun, Initial, Matches;
      var free := AwaitLock(Watching(w), patience);
      if !free {
        return Queueing;
      }
      Remove(w);
      end := how;
    }
  }
}
