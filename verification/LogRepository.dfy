/** BulkInsert against a database that may fail at any call and that other sessions
    write to between calls: one atomic append, or nothing. */
module LogRepositoryObject {
  import opened Domain
  import opened Sequences
  import opened Sql
  import opened Options

  const MAX_PLACEHOLDERS: nat := 65535
  const MAX_ROWS: nat := MAX_PLACEHOLDERS / LOG_COLUMNS

  /** What happens to one call: it works, it fails with no effect, or it takes effect
      while the reply is lost. */
  datatype Fault = NoFault | Fails | LosesReply

  /** The rows that other sessions commit before the calls numbered `lo` to `hi - 1`. */
  function Foreign(others: nat -> seq<LogEntry>, lo: nat, hi: nat): seq<LogEntry>
    requires lo <= hi
    decreases hi
  {
    if lo == hi then [] else Foreign(others, lo, hi - 1) + others(hi - 1)
  }

  lemma ForeignStep(table: seq<LogEntry>, others: nat -> seq<LogEntry>, lo: nat, hi: nat)
    requires lo <= hi
    ensures Foreign(others, lo, lo) == []
    ensures table + Foreign(others, lo, hi) + others(hi) == table + Foreign(others, lo, hi + 1)
  {
  }

  /** The server's reading of a statement: refused over the limit on parameters. */
  function Meaning(query: string, args: seq<Arg>): Option<seq<LogEntry>> {
    if |args| > MAX_PLACEHOLDERS then None else Denote(query, args)
  }

  class Database {
    var table: seq<LogEntry>
    var calls: nat
    const faults: nat -> Fault
    const others: nat -> seq<LogEntry>

    constructor (faults: nat -> Fault, others: nat -> seq<LogEntry>)
      ensures table == [] && calls == 0 && this.faults == faults && this.others == others
    {
      this.faults, this.others := faults, others;
      table, calls := [], 0;
    }

    /** The next call begins: others have committed, and its fate is drawn. */
    method NextCall() returns (fault: Fault)
      modifies this
      ensures calls == old(calls) + 1 && fault == faults(old(calls))
      ensures table == old(table) + others(old(calls))
    {
      table := table + others(calls);
      fault := faults(calls);
      calls := calls + 1;
    }

    /** One statement outside a transaction: atomic by itself. */
    method Exec(query: string, args: seq<Arg>) returns (ok: bool)
      modifies this
      ensures calls == old(calls) + 1
      ensures var base, meaning, fault := old(table) + others(old(calls)), Meaning(query, args), faults(old(calls));
        && ok == (fault.NoFault? && meaning.Some?)
        && table == if fault.Fails? || meaning.None? then base else base + meaning.value
    {
      var fault := NextCall();
      var meaning := Meaning(query, args);
      if !fault.Fails? && meaning.Some? {
        table := table + meaning.value;
      }
      ok := fault.NoFault? && meaning.Some?;
    }

    method Begin() returns (ok: bool, tx: Tx)
      modifies this
      ensures calls == old(calls) + 1 && table == old(table) + others(old(calls))
      ensures ok == faults(old(calls)).NoFault?
      ensures fresh(tx) && tx.db == this && tx.pending == []
    {
      var fault := NextCall();
      ok := fault.NoFault?;
      tx := new Tx(this);
    }
  }

  /** A transaction: its rows are invisible until the commit. */
  class Tx {
    const db: Database
    var pending: seq<LogEntry>

    constructor (db: Database)
      ensures this.db == db && pending == []
    {
      this.db := db;
      pending := [];
    }

    method Exec(query: string, args: seq<Arg>) returns (ok: bool)
      modifies this, db
      ensures db.calls == old(db.calls) + 1 && db.table == old(db.table) + db.others(old(db.calls))
      ensures ok == (db.faults(old(db.calls)).NoFault? && Meaning(query, args).Some?)
      ensures ok ==> pending == old(pending) + Meaning(query, args).value
    {
      var fault := db.NextCall();
      var meaning := Meaning(query, args);
      ok := fault.NoFault? && meaning.Some?;
      if ok {
        pending := pending + meaning.value;
      }
    }

    method Commit() returns (ok: bool)
      modifies this, db
      ensures db.calls == old(db.calls) + 1
      ensures var base, fault := old(db.table) + db.others(old(db.calls)), db.faults(old(db.calls));
        && ok == fault.NoFault?
        && db.table == (if fault.Fails? then base else base + old(pending))
      ensures pending == []
    {
      var fault := db.NextCall();
      if !fault.Fails? {
        db.table := db.table + pending;
      }
      pending := [];
      ok := fault.NoFault?;
    }

    method Rollback()
      modifies this
      ensures pending == []
    {
      pending := [];
    }
  }

  /** The chunks that a large batch is split into. */
  function Chunks(entries: seq<LogEntry>): seq<seq<LogEntry>> {
    if entries == [] then []
    else if |entries| <= MAX_ROWS then [entries]
    else [entries[..MAX_ROWS]] + Chunks(entries[MAX_ROWS..])
  }

  function ChunkCount(n: nat): nat {
    if n == 0 then 0 else if n <= MAX_ROWS then 1 else 1 + ChunkCount(n - MAX_ROWS)
  }

  /** The chunks are the batch in order; each has a row at least and at most 13107,
      so at most 65535 placeholders; and there are as few as possible. */
  lemma {:induction false} ChunksCover(entries: seq<LogEntry>)
    ensures Flatten(Chunks(entries)) == entries
    ensures forall c :: c in Chunks(entries) ==> 1 <= |c| <= 13107 && |ArgsOf(c)| <= 65535
    ensures |Chunks(entries)| == (|entries| + 13106) / 13107
  {
    CountIsCeiling(|entries|);
    ChunkNumber(entries);
    ChunkSizes(entries);
    ChunksFlatten(entries);
    hide Chunks, ArgsOf, Flatten;
    forall c | c in Chunks(entries)
      ensures |ArgsOf(c)| <= 65535
    {
      ArgsLength(c);
    }
  }

  lemma {:induction false} CountIsCeiling(n: nat)
    ensures ChunkCount(n) == (n + 13106) / 13107
  {
    if n <= MAX_ROWS {
    } else {
      CountIsCeiling(n - MAX_ROWS);
    }
  }

  lemma {:induction false} ChunkNumber(entries: seq<LogEntry>)
    ensures |Chunks(entries)| == ChunkCount(|entries|)
  {
    if |entries| <= MAX_ROWS {
    } else {
      ChunkNumber(entries[MAX_ROWS..]);
    }
  }

  lemma {:induction false} ChunkSizes(entries: seq<LogEntry>)
    ensures forall c :: c in Chunks(entries) ==> 1 <= |c| <= MAX_ROWS
  {
    if |entries| <= MAX_ROWS {
    } else {
      ChunkSizes(entries[MAX_ROWS..]);
    }
  }

  lemma {:induction false} ChunksFlatten(entries: seq<LogEntry>)
    ensures Flatten(Chunks(entries)) == entries
  {
    if entries == [] {
    } else if |entries| <= MAX_ROWS {
      FlattenOne(entries);
    } else {
      var first, rest := entries[..MAX_ROWS], entries[MAX_ROWS..];
      ChunksFlatten(rest);
      assert Chunks(entries) == [first] + Chunks(rest);
      hide Chunks, Flatten;
      FlattenConcat([first], Chunks(rest));
      FlattenOne(first);
      assert first + rest == entries;
    }
  }

  /** How many database calls a complete insert makes. */
  function CallsNeeded(n: nat): nat {
    if n == 0 then 0 else if n <= MAX_ROWS then 1 else ChunkCount(n) + 2
  }

  /** None for the empty batch, one for a batch that fits into a statement, and else one
      for each chunk, the beginning and the commit. */
  lemma CallsOf(n: nat)
    ensures CallsNeeded(n) == if n == 0 then 0 else if n <= 13107 then 1 else (n + 13106) / 13107 + 2
  {
    CountIsCeiling(n);
  }

  predicate AllWork(faults: nat -> Fault, lo: nat, hi: nat) {
    forall k: nat :: lo <= k < hi ==> faults(k).NoFault?
  }

  /** Of `n` calls from number `lo` on, all work but the last, whose reply is lost. */
  predicate LastReplyLost(faults: nat -> Fault, lo: nat, n: nat) {
    n > 0 && AllWork(faults, lo, lo + n - 1) && faults(lo + n - 1).LosesReply?
  }

  /** BulkInsert: one statement when it fits, otherwise a transaction over chunks. For
      every pattern of faults and every activity of other sessions: the whole batch
      is appended, contiguous and in order, or nothing is; success is reported exactly
      when every call works; and the batch is there in spite of an error exactly when
      every call before the last works and the last takes effect but loses its reply. */
  method BulkInsert(db: Database, entries: seq<LogEntry>) returns (ok: bool, ghost outcome: Outcome)
    modifies db
    ensures old(db.calls) <= db.calls
    ensures db.table == old(db.table) + Foreign(db.others, old(db.calls), db.calls)
                        + (if outcome.Refused? then [] else entries)
    ensures ok <==> outcome.Written?
    ensures ok <==> AllWork(db.faults, old(db.calls), old(db.calls) + CallsNeeded(|entries|))
    ensures !outcome.Refused? ==> db.calls == old(db.calls) + CallsNeeded(|entries|)
    ensures outcome.LostAck? <==> |entries| > 0 && LastReplyLost(db.faults, old(db.calls), CallsNeeded(|entries|))
  {
    hide Denote, ArgsOf;
    if |entries| == 0 {
      return true, Written;
    }
    if |entries| <= MAX_ROWS {
      var query, args := BuildInsert(entries);
      ok := db.Exec(query, args);
      ghost var fault := db.faults(db.calls - 1);
      outcome := if fault.NoFault? then Written else if fault.Fails? then Refused else LostAck;
      ForeignStep(old(db.table), db.others, old(db.calls), old(db.calls));
      hide Foreign;
      assert old(db.table) + [] == old(db.table);
      return;
    }
    ghost var stmts;
    ok, outcome, stmts := InsertInTransaction(db, entries);
  }

  lemma NoChunks()
    ensures Chunks([]) == []
  {
  }

  /** The next statement takes the next chunk. */
  lemma NextChunk(entries: seq<LogEntry>, start: nat, end: nat)
    requires start < |entries| && end == if start + MAX_ROWS < |entries| then start + MAX_ROWS else |entries|
    ensures Chunks(entries[start..]) == [entries[start..end]] + Chunks(entries[end..])
  {
    var rest := entries[start..];
    if |rest| <= MAX_ROWS {
      assert entries[start..end] == rest && entries[end..] == [];
    } else {
      assert entries[start..end] == rest[..MAX_ROWS] && entries[end..] == rest[MAX_ROWS..];
    }
  }

  /** The transaction path; `stmts` are the rows of the statements it has executed. */
  method InsertInTransaction(db: Database, entries: seq<LogEntry>)
    returns (ok: bool, ghost outcome: Outcome, ghost stmts: seq<seq<LogEntry>>)
    requires |entries| > MAX_ROWS
    modifies db
    ensures old(db.calls) < db.calls
    ensures db.table == old(db.table) + Foreign(db.others, old(db.calls), db.calls)
                        + (if outcome.Refused? then [] else entries)
    ensures ok <==> outcome.Written?
    ensures ok <==> AllWork(db.faults, old(db.calls), old(db.calls) + CallsNeeded(|entries|))
    ensures !outcome.Refused? ==> db.calls == old(db.calls) + CallsNeeded(|entries|)
    ensures outcome.LostAck? <==> LastReplyLost(db.faults, old(db.calls), CallsNeeded(|entries|))
    ensures stmts <= Chunks(entries) && (ok ==> stmts == Chunks(entries))
  {
    hide Denote, ArgsOf, Foreign, Chunks, QueryText;
    ghost var first, table := db.calls, db.table;
    outcome, stmts := Refused, [];
    var tx;
    ForeignStep(table, db.others, first, db.calls);
    ok, tx := db.Begin();
    if !ok {
      assert !db.faults(first).NoFault?;
      return;
    }
    var start := 0;
    assert entries[0..] == entries;
    while start < |entries|
      invariant 0 <= start <= |entries|
      invariant tx.db == db && fresh(tx) && tx.pending == entries[..start]
      invariant first < db.calls && AllWork(db.faults, first, db.calls)
      invariant db.calls - first + ChunkCount(|entries| - start) == ChunkCount(|entries|) + 1
      invariant db.table == table + Foreign(db.others, first, db.calls)
      invariant Chunks(entries) == stmts + Chunks(entries[start..])
      decreases |entries| - start
    {
      var end := if start + MAX_ROWS < |entries| then start + MAX_ROWS else |entries|;
      var query, args := BuildInsert(entries[start..end]);
      ForeignStep(table, db.others, first, db.calls);
      ok := tx.Exec(query, args);
      if !ok {
        assert !db.faults(db.calls - 1).NoFault?;
        tx.Rollback();
        return;
      }
      assert entries[..start] + entries[start..end] == entries[..end];
      NextChunk(entries, start, end);
      stmts := stmts + [entries[start..end]];
      start := end;
    }
    assert entries[..start] == entries;
    assert stmts == Chunks(entries) by { assert entries[start..] == []; NoChunks(); }
    ForeignStep(table, db.others, first, db.calls);
    ok := tx.Commit();
    ghost var fault := db.faults(db.calls - 1);
    outcome := if fault.NoFault? then Written else if fault.Fails? then Refused else LostAck;
  }

  /** A retry can duplicate rows that already landed: for every non-empty batch there is
      a database on which the first call returns an error, the second succeeds, and the
      batch is there twice. */
  method InsertAgain(entries: seq<LogEntry>) returns (db: Database, first: bool, second: bool)
    requires entries != []
    ensures fresh(db) && !first && second && db.table == entries + entries
  {
    var last := CallsNeeded(|entries|) - 1;
    db := new Database((k: nat) => if k == last then LosesReply else NoFault, (k: nat) => []);
    ghost var outcome;
    first, outcome := BulkInsert(db, entries);
    assert db.faults(last) == LosesReply && outcome.LostAck?;
    NoForeign(db.others, 0, db.calls);
    ghost var between := db.calls;
    second, outcome := BulkInsert(db, entries);
    NoForeign(db.others, between, db.calls);
  }

  lemma {:induction false} NoForeign(others: nat -> seq<LogEntry>, lo: nat, hi: nat)
    requires lo <= hi && forall k: nat :: others(k) == []
    ensures Foreign(others, lo, hi) == []
  {
    if lo == hi {
    } else {
      NoForeign(others, lo, hi - 1);
    }
  }
}
