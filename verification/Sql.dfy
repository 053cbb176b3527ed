/** The text of the multi-row INSERT, and an independent reading of it: a parser for
    its VALUES clause and a binder that resolves each `$n` to an argument. */
module Sql {
  import opened Domain
  import opened Sequences
  import opened Options

  // ----- decimal numbers -----

  predicate IsDigit(c: char) {
    '0' <= c <= '9'
  }

  function Digit(d: nat): (c: char)
    requires d < 10
    ensures IsDigit(c)
  {
    ('0' as int + d) as char
  }

  /** `strconv.Itoa` on the naturals. */
  function Itoa(n: nat): (s: string)
    ensures s != [] && forall c :: c in s ==> IsDigit(c)
  {
    if n < 10 then [Digit(n)] else Itoa(n / 10) + [Digit(n % 10)]
  }

  function DigitValue(c: char): (d: nat)
    requires IsDigit(c)
    ensures d < 10 && Digit(d) == c
  {
    c as int - '0' as int
  }

  /** The number that a string of digits denotes. */
  function Value(s: string): nat
    requires forall c :: c in s ==> IsDigit(c)
  {
    if s == [] then 0
    else
      assert s[|s| - 1] in s;
      Value(s[..|s| - 1]) * 10 + DigitValue(s[|s| - 1])
  }

  lemma {:induction false} ValueOfItoa(n: nat)
    ensures Value(Itoa(n)) == n
  {
    if n < 10 {
    } else {
      var s := Itoa(n);
      assert s[..|s| - 1] == Itoa(n / 10);
      ValueOfItoa(n / 10);
    }
  }

  /** How many digits `s` starts with. */
  function DigitRun(s: string): (k: nat)
    ensures k <= |s| && forall i :: 0 <= i < k ==> IsDigit(s[i])
  {
    if s == [] || !IsDigit(s[0]) then 0 else 1 + DigitRun(s[1..])
  }

  lemma {:induction false} DigitRunOf(digits: string, rest: string)
    requires forall c :: c in digits ==> IsDigit(c)
    requires rest == [] || !IsDigit(rest[0])
    ensures DigitRun(digits + rest) == |digits|
  {
    if digits == [] {
      assert digits + rest == rest;
    } else {
      assert (digits + rest)[1..] == digits[1..] + rest;
      DigitRunOf(digits[1..], rest);
    }
  }

  // ----- the printer -----

  function RefText(n: nat): string {
    "$" + Itoa(n)
  }

  function RefsText(refs: seq<nat>): string {
    if refs == [] then ""
    else if |refs| == 1 then RefText(refs[0])
    else RefText(refs[0]) + "," + RefsText(refs[1..])
  }

  function RowText(refs: seq<nat>): string {
    "(" + RefsText(refs) + ")"
  }

  function RowsText(rows: seq<seq<nat>>): string {
    if rows == [] then ""
    else if |rows| == 1 then RowText(rows[0])
    else RowText(rows[0]) + "," + RowsText(rows[1..])
  }

  lemma {:induction false} RefsTextSnoc(refs: seq<nat>, n: nat)
    ensures RefsText(refs + [n]) == RefsText(refs) + (if refs == [] then "" else ",") + RefText(n)
  {
    if refs == [] {
      assert refs + [n] == [n];
    } else {
      assert (refs + [n])[1..] == refs[1..] + [n];
      RefsTextSnoc(refs[1..], n);
      hide RefText;
      if |refs| > 1 {
        Regroup(RefText(refs[0]) + ",", RefsText(refs[1..]), ",", RefText(n));
      }
    }
  }

  lemma {:induction false} RowsTextSnoc(rows: seq<seq<nat>>, row: seq<nat>)
    ensures RowsText(rows + [row]) == RowsText(rows) + (if rows == [] then "" else ",") + RowText(row)
  {
    hide RowText;
    if rows == [] {
      assert rows + [row] == [row];
    } else {
      assert (rows + [row])[1..] == rows[1..] + [row];
      RowsTextSnoc(rows[1..], row);
      if |rows| > 1 {
        Regroup(RowText(rows[0]) + ",", RowsText(rows[1..]), ",", RowText(row));
      }
    }
  }

  // ----- the parser -----

  function ParseRef(s: string): (r: Option<(nat, string)>)
    ensures r.Some? ==> |r.value.1| < |s|
  {
    if s == [] || s[0] != '$' then None
    else
      var k := DigitRun(s[1..]);
      if k == 0 then None else Some((Value(s[1..][..k]), s[1..][k..]))
  }

  function ParseRefs(s: string): (r: Option<(seq<nat>, string)>)
    ensures r.Some? ==> |r.value.1| < |s|
    decreases |s|
  {
    match ParseRef(s)
    case None => None
    case Some((n, rest)) =>
      if rest == [] || rest[0] != ',' then Some(([n], rest))
      else
        match ParseRefs(rest[1..])
        case None => None
        case Some((more, tail)) => Some(([n] + more, tail))
  }

  function ParseRow(s: string): (r: Option<(seq<nat>, string)>)
    ensures r.Some? ==> |r.value.1| < |s|
  {
    if s == [] || s[0] != '(' then None
    else
      match ParseRefs(s[1..])
      case None => None
      case Some((refs, rest)) =>
        if rest == [] || rest[0] != ')' then None else Some((refs, rest[1..]))
  }

  /** One row or more, separated by commas, up to the end of the text. */
  function ParseRows(s: string): Option<seq<seq<nat>>>
    decreases |s|
  {
    match ParseRow(s)
    case None => None
    case Some((row, rest)) =>
      if rest == [] then Some([row])
      else if rest[0] != ',' then None
      else
        match ParseRows(rest[1..])
        case None => None
        case Some(more) => Some([row] + more)
  }

  lemma Regroup<T>(a: seq<T>, b: seq<T>, c: seq<T>, d: seq<T>)
    ensures a + b + c + d == a + (b + (c + d))
    ensures a + b + c + d == a + (b + c + d)
  {
  }

  lemma ParseRefInverse(n: nat, rest: string)
    requires rest != [] && !IsDigit(rest[0])
    ensures ParseRef(RefText(n) + rest) == Some((n, rest))
  {
    var s := RefText(n) + rest;
    assert s[1..] == Itoa(n) + rest;
    DigitRunOf(Itoa(n), rest);
    assert s[1..][..|Itoa(n)|] == Itoa(n) && s[1..][|Itoa(n)|..] == rest;
    ValueOfItoa(n);
  }

  lemma {:induction false} ParseRefsInverse(refs: seq<nat>, rest: string)
    requires refs != [] && rest != [] && rest[0] == ')'
    ensures ParseRefs(RefsText(refs) + rest) == Some((refs, rest))
  {
    hide RefText, ParseRef;
    if |refs| == 1 {
      ParseRefInverse(refs[0], rest);
      assert [refs[0]] == refs;
    } else {
      var tail := RefsText(refs[1..]) + rest;
      Regroup(RefText(refs[0]), ",", RefsText(refs[1..]), rest);
      ParseRefInverse(refs[0], "," + tail);
      assert ("," + tail)[1..] == tail;
      ParseRefsInverse(refs[1..], rest);
      hide RefsText;
      assert [refs[0]] + refs[1..] == refs;
    }
  }

  lemma ParseRowInverse(refs: seq<nat>, rest: string)
    requires refs != []
    ensures ParseRow(RowText(refs) + rest) == Some((refs, rest))
  {
    hide RefsText, ParseRefs;
    Regroup("(", RefsText(refs), ")", rest);
    var s := "(" + (RefsText(refs) + (")" + rest));
    assert s == RowText(refs) + rest;
    assert s[1..] == RefsText(refs) + (")" + rest);
    ParseRefsInverse(refs, ")" + rest);
    assert (")" + rest)[1..] == rest;
  }

  lemma RowsTextParts(rows: seq<seq<nat>>)
    requires rows != []
    ensures RowsText(rows) == RowText(rows[0]) + if |rows| == 1 then "" else "," + RowsText(rows[1..])
  {
    hide RowText;
    if |rows| == 1 {
      assert RowText(rows[0]) + "" == RowText(rows[0]);
    }
  }

  lemma ParseRowsStep(s: string, row: seq<nat>, rest: string)
    requires ParseRow(s) == Some((row, rest))
    ensures rest == "" ==> ParseRows(s) == Some([row])
    ensures rest != "" && rest[0] == ',' && ParseRows(rest[1..]).Some? ==>
      ParseRows(s) == Some([row] + ParseRows(rest[1..]).value)
  {
    hide ParseRow;
  }

  /** Parsing what was printed gives back the rows of numbers. */
  lemma {:induction false} ParseRowsInverse(rows: seq<seq<nat>>)
    requires rows != [] && forall r :: r in rows ==> r != []
    ensures ParseRows(RowsText(rows)) == Some(rows)
    decreases |rows|
  {
    hide RowText, ParseRow, RowsText, ParseRows;
    var row := rows[0];
    assert row in rows && forall r :: r in rows[1..] ==> r in rows;
    var tail := if |rows| == 1 then "" else "," + RowsText(rows[1..]);
    RowsTextParts(rows);
    ParseRowInverse(row, tail);
    ParseRowsStep(RowsText(rows), row, tail);
    if |rows| == 1 {
      assert [row] == rows;
    } else {
      assert tail[1..] == RowsText(rows[1..]);
      ParseRowsInverse(rows[1..]);
      assert [row] + rows[1..] == rows;
    }
  }

  // ----- the meaning of a statement -----

  datatype Arg = Text(text: string) | Time(time: int)

  const LOG_COLUMNS: nat := 5

  /** Everything before the rows. */
  const HEADER: string :=
    "INSERT INTO logs (" + "username" + ", " + "level, message, source, logged_at" + ") VALUES "

  const TABLE: string := "INSERT INTO logs ("
  const VALUES: string := ") VALUES "

  /** How many characters come before the next comma or closing parenthesis. */
  function NameRun(s: string): (k: nat)
    ensures k <= |s|
  {
    if s == [] || s[0] == ',' || s[0] == ')' then 0 else 1 + NameRun(s[1..])
  }

  /** A list of names, each after a comma and a blank, up to the closing parenthesis. */
  function ParseNames(s: string): Option<(seq<string>, string)>
    decreases |s|
  {
    var k := NameRun(s);
    if k == 0 || k == |s| then None
    else if s[k] == ')' then Some(([s[..k]], s[k..]))
    else if |s| < k + 2 || s[k + 1] != ' ' then None
    else
      match ParseNames(s[k + 2..])
      case None => None
      case Some((more, rest)) => Some(([s[..k]] + more, rest))
  }

  /** The place of a name in the list of columns, or the list's length. */
  function IndexOf(columns: seq<string>, name: string): (c: nat)
    ensures c <= |columns|
  {
    if columns == [] || columns[0] == name then 0 else 1 + IndexOf(columns[1..], name)
  }

  /** The argument that a row gives to the column of this name. */
  function ArgOf(columns: seq<string>, refs: seq<nat>, args: seq<Arg>, name: string): Option<Arg>
    requires |refs| == |columns| && forall c :: 0 <= c < |refs| ==> 1 <= refs[c] <= |args|
  {
    var c := IndexOf(columns, name);
    if c == |columns| then None else Some(args[refs[c] - 1])
  }

  predicate IsText(a: Option<Arg>) {
    a.Some? && a.value.Text?
  }

  /** The row that a row of placeholders inserts: each column takes the value at the place
      where the list of columns names it. A missing column, an unbound placeholder or a
      value of the wrong type makes the statement fail. */
  function BindRow(columns: seq<string>, refs: seq<nat>, args: seq<Arg>): Option<LogEntry> {
    if |columns| != 5 || |refs| != 5 || exists c :: 0 <= c < 5 && !(1 <= refs[c] <= |args|) then None
    else
      var username, level := ArgOf(columns, refs, args, "username"), ArgOf(columns, refs, args, "level");
      var message, source := ArgOf(columns, refs, args, "message"), ArgOf(columns, refs, args, "source");
      var loggedAt := ArgOf(columns, refs, args, "logged_at");
      if IsText(username) && IsText(level) && IsText(message) && IsText(source)
         && loggedAt.Some? && loggedAt.value.Time?
      then
        Some(LogEntry(username.value.text, level.value.text, message.value.text, source.value.text,
                      loggedAt.value.time))
      else None
  }

  function BindRows(columns: seq<string>, rows: seq<seq<nat>>, args: seq<Arg>): Option<seq<LogEntry>> {
    if rows == [] then Some([])
    else
      match BindRow(columns, rows[0], args)
      case None => None
      case Some(entry) =>
        match BindRows(columns, rows[1..], args)
        case None => None
        case Some(more) => Some([entry] + more)
  }

  /** The rows that a statement with these arguments inserts, if it is valid. */
  function Denote(query: string, args: seq<Arg>): Option<seq<LogEntry>> {
    if !(TABLE <= query) then None
    else
      match ParseNames(query[|TABLE|..])
      case None => None
      case Some((columns, rest)) =>
        if !(VALUES <= rest) then None
        else
          match ParseRows(rest[|VALUES|..])
          case None => None
          case Some(rows) => BindRows(columns, rows, args)
  }

  // ----- the list of columns -----

  const COLUMNS: seq<string> := ["username", "level", "message", "source", "logged_at"]

  predicate PlainName(name: string) {
    name != "" && forall c :: c in name ==> c != ',' && c != ')'
  }

  function NamesText(names: seq<string>): string {
    if names == [] then "" else if |names| == 1 then names[0] else names[0] + ", " + NamesText(names[1..])
  }

  lemma {:induction false} NameRunOf(name: string, rest: string)
    requires forall c :: c in name ==> c != ',' && c != ')'
    requires rest != [] && (rest[0] == ',' || rest[0] == ')')
    ensures NameRun(name + rest) == |name|
  {
    if name == [] {
      assert name + rest == rest;
    } else {
      assert (name + rest)[1..] == name[1..] + rest;
      assert forall c :: c in name[1..] ==> c in name;
      assert (name + rest)[0] == name[0] && name[0] in name;
      NameRunOf(name[1..], rest);
    }
  }

  /** Parsing a printed list of names gives it back. */
  lemma {:induction false} ParseNamesInverse(names: seq<string>, rest: string)
    requires names != [] && forall n :: n in names ==> PlainName(n)
    requires rest != [] && rest[0] == ')'
    ensures ParseNames(NamesText(names) + rest) == Some((names, rest))
    decreases |names|
  {
    var name := names[0];
    assert PlainName(name);
    if |names| == 1 {
      NameRunOf(name, rest);
      assert (name + rest)[..|name|] == name && (name + rest)[|name|..] == rest;
      assert [name] == names;
    } else {
      var tail := NamesText(names[1..]) + rest;
      var s := NamesText(names) + rest;
      assert s == name + (", " + tail);
      NameRunOf(name, ", " + tail);
      assert s[..|name|] == name && s[|name| + 2..] == tail;
      ParseNamesInverse(names[1..], rest);
      assert [name] + names[1..] == names;
      hide NamesText;
    }
  }

  lemma NamesTextStep(names: seq<string>)
    requires |names| > 1
    ensures NamesText(names) == names[0] + ", " + NamesText(names[1..])
  {
  }

  lemma TwoNames()
    ensures NamesText(["source", "logged_at"]) == "source, logged_at"
  {
    var names := ["source", "logged_at"];
    NamesTextStep(names);
    assert names[1..] == ["logged_at"];
    assert "source" + ", " + "logged_at" == "source, logged_at";
  }

  lemma FourNames()
    ensures NamesText(["level", "message", "source", "logged_at"]) == "level, message, source, logged_at"
  {
    var names := ["level", "message", "source", "logged_at"];
    NamesTextStep(names);
    NamesTextStep(names[1..]);
    assert names[1..][1..] == ["source", "logged_at"];
    TwoNames();
    hide NamesText;
    assert NamesText(names) == "level" + ", " + ("message" + ", " + "source, logged_at");
    assert "level" + ", " + ("message" + ", " + "source, logged_at") == "level, message, source, logged_at";
  }

  /** The header names the five columns of the table, in this order. */
  lemma HeaderNames()
    ensures HEADER == TABLE + NamesText(COLUMNS) + VALUES
  {
    var names: seq<string> := ["username", "level", "message", "source", "logged_at"];
    NamesTextStep(names);
    assert names[1..] == ["level", "message", "source", "logged_at"];
    FourNames();
    hide NamesText;
    assert NamesText(names) == "username" + ", " + "level, message, source, logged_at";
    assert names == COLUMNS;
    Regroup(TABLE, "username", ", ", "level, message, source, logged_at");
  }

  lemma ColumnsArePlain()
    ensures forall n :: n in COLUMNS ==> PlainName(n)
  {
    assert PlainName("username") && PlainName("level") && PlainName("message");
    assert PlainName("source") && PlainName("logged_at");
  }

  /** What a statement with this header means, by its rows. */
  lemma DenoteRows(text: string, args: seq<Arg>)
    ensures Denote(HEADER + text, args) ==
      match ParseRows(text) case None => None case Some(rows) => BindRows(COLUMNS, rows, args)
  {
    HeaderNames();
    ColumnsArePlain();
    var query := HEADER + text;
    var names := NamesText(COLUMNS);
    assert query == TABLE + (names + (VALUES + text));
    assert query[|TABLE|..] == names + (VALUES + text);
    ParseNamesInverse(COLUMNS, VALUES + text);
    assert (VALUES + text)[|VALUES|..] == text;
    hide ParseNames, ParseRows, BindRows, NamesText, PlainName;
  }

  lemma Indices()
    ensures IndexOf(COLUMNS, "username") == 0 && IndexOf(COLUMNS, "level") == 1 && IndexOf(COLUMNS, "message") == 2
    ensures IndexOf(COLUMNS, "source") == 3 && IndexOf(COLUMNS, "logged_at") == 4
  {
    Skip(COLUMNS, "level");
    Skip(COLUMNS, "message");
    Skip(COLUMNS[1..], "message");
    Skip(COLUMNS, "source");
    Skip(COLUMNS[1..], "source");
    Skip(COLUMNS[2..], "source");
    Skip(COLUMNS, "logged_at");
    Skip(COLUMNS[1..], "logged_at");
    Skip(COLUMNS[2..], "logged_at");
    Skip(COLUMNS[3..], "logged_at");
  }

  lemma Skip(columns: seq<string>, name: string)
    requires columns != [] && columns[0] != name
    ensures IndexOf(columns, name) == 1 + IndexOf(columns[1..], name)
  {
  }

  // ----- what buildInsert produces -----

  /** The placeholders of row r: column c of it is `$(5r + c)`. */
  function RowRefs(r: nat): seq<nat> {
    seq(LOG_COLUMNS, c requires 0 <= c < LOG_COLUMNS => r * LOG_COLUMNS + c + 1)
  }

  function AllRefs(first: nat, count: nat): seq<seq<nat>> {
    seq(count, r requires 0 <= r < count => RowRefs(first + r))
  }

  function RowArgs(e: LogEntry): seq<Arg> {
    [Text(e.username), Text(e.level), Text(e.message), Text(e.source), Time(e.loggedAt)]
  }

  function ArgsOf(entries: seq<LogEntry>): seq<Arg> {
    Gather(entries, RowArgs)
  }

  lemma {:induction false} ArgsLength(entries: seq<LogEntry>)
    ensures |ArgsOf(entries)| == |entries| * LOG_COLUMNS
  {
    if entries == [] {
    } else {
      ArgsLength(entries[1..]);
    }
  }

  /** Argument 5r + c is column c of row r. */
  lemma ArgAt(entries: seq<LogEntry>, r: nat, c: nat)
    requires r < |entries| && c < LOG_COLUMNS
    ensures r * LOG_COLUMNS + c < |ArgsOf(entries)|
    ensures ArgsOf(entries)[r * LOG_COLUMNS + c] == RowArgs(entries[r])[c]
  {
    GatherSplit(entries, r, entries[r], RowArgs);
    ArgsLength(entries[..r]);
    ArgsLength(entries);
  }

  /** Row r of the placeholders, bound to the arguments, is entry r. */
  lemma BindRowAt(entries: seq<LogEntry>, r: nat)
    requires r < |entries|
    ensures BindRow(COLUMNS, RowRefs(r), ArgsOf(entries)) == Some(entries[r])
  {
    var refs, args := RowRefs(r), ArgsOf(entries);
    Indices();
    forall c | 0 <= c < LOG_COLUMNS
      ensures 1 <= refs[c] <= |args| && args[refs[c] - 1] == RowArgs(entries[r])[c]
    {
      ArgAt(entries, r, c);
    }
  }

  lemma AllRefsStep(first: nat, count: nat)
    ensures AllRefs(first, count + 1) == [RowRefs(first)] + AllRefs(first + 1, count)
    ensures AllRefs(first, 0) == []
  {
    hide RowRefs;
  }

  lemma {:induction false} BindRowsFrom(entries: seq<LogEntry>, first: nat)
    requires first <= |entries|
    ensures BindRows(COLUMNS, AllRefs(first, |entries| - first), ArgsOf(entries)) == Some(entries[first..])
    decreases |entries| - first
  {
    hide BindRow, ArgsOf, RowRefs, AllRefs;
    if first == |entries| {
      AllRefsStep(first, 0);
      assert entries[first..] == [];
    } else {
      var rest := AllRefs(first + 1, |entries| - first - 1);
      BindRowAt(entries, first);
      AllRefsStep(first, |entries| - first - 1);
      assert ([RowRefs(first)] + rest)[1..] == rest;
      BindRowsFrom(entries, first + 1);
      assert [entries[first]] + entries[first + 1..] == entries[first..];
    }
  }

  /** The text of the statement for `count` rows. */
  function QueryText(count: nat): string {
    HEADER + RowsText(AllRefs(0, count))
  }

  /** The statement built for a list of entries means those entries, in order and
      column for column; the empty list alone has no valid statement. */
  lemma DenoteBuilt(entries: seq<LogEntry>)
    ensures Denote(QueryText(|entries|), ArgsOf(entries)) == if entries == [] then None else Some(entries)
  {
    var rows := AllRefs(0, |entries|);
    DenoteRows(RowsText(rows), ArgsOf(entries));
    if entries != [] {
      assert forall i :: 0 <= i < |rows| ==> rows[i] == RowRefs(i) && |rows[i]| == 5;
      ParseRowsInverse(rows);
      BindRowsFrom(entries, 0);
      assert entries[0..] == entries;
    }
  }

  /** The rows of a statement for two entries, letter by letter. */
  lemma TextOfTwo()
    ensures QueryText(2) == HEADER
      + ("(" + ("$1" + "," + "$2" + "," + "$3" + "," + "$4" + "," + "$5") + ")" + ","
         + ("(" + ("$6" + "," + "$7" + "," + "$8" + "," + "$9" + "," + "$10") + ")"))
  {
    var r0, r1 := RowRefs(0), RowRefs(1);
    assert AllRefs(0, 2) == [r0, r1];
    FirstRow();
    SecondRow();
    assert [r0, r1][1..] == [r1];
    hide RowText, RowRefs, AllRefs;
    assert RowsText([r0, r1]) == RowText(r0) + "," + RowText(r1);
  }

  lemma OneDigit(n: nat)
    requires n < 10
    ensures RefText(n) == ['$', Digit(n)]
  {
  }

  lemma FirstRow()
    ensures RowText(RowRefs(0)) == "(" + ("$1" + "," + "$2" + "," + "$3" + "," + "$4" + "," + "$5") + ")"
  {
    assert RowRefs(0) == [1, 2, 3, 4, 5];
    FiveRefs(1, 2, 3, 4, 5);
    OneDigit(1);
    OneDigit(2);
    OneDigit(3);
    OneDigit(4);
    OneDigit(5);
    hide RefsText, RefText, RowRefs, Itoa;
  }

  lemma SecondRow()
    ensures RowText(RowRefs(1)) == "(" + ("$6" + "," + "$7" + "," + "$8" + "," + "$9" + "," + "$10") + ")"
  {
    assert RowRefs(1) == [6, 7, 8, 9, 10];
    FiveRefs(6, 7, 8, 9, 10);
    OneDigit(6);
    OneDigit(7);
    OneDigit(8);
    OneDigit(9);
    Ten();
    hide RefsText, RefText, RowRefs, Itoa;
  }

  lemma Ten()
    ensures RefText(10) == "$10"
  {
    assert Itoa(10) == Itoa(1) + [Digit(0)];
    assert Itoa(1) == [Digit(1)];
  }

  lemma FiveRefs(a: nat, b: nat, c: nat, d: nat, e: nat)
    ensures RefsText([a, b, c, d, e])
         == RefText(a) + "," + RefText(b) + "," + RefText(c) + "," + RefText(d) + "," + RefText(e)
  {
    hide RefText;
    RefsTextSnoc([a], b);
    RefsTextSnoc([a, b], c);
    RefsTextSnoc([a, b, c], d);
    RefsTextSnoc([a, b, c, d], e);
    assert [a] + [b] == [a, b] && [a, b] + [c] == [a, b, c];
    assert [a, b, c] + [d] == [a, b, c, d] && [a, b, c, d] + [e] == [a, b, c, d, e];
  }

  lemma NoRows()
    ensures RowsText(AllRefs(0, 0)) == "" && RefsText(RowRefs(0)[..0]) == "" && ArgsOf([]) == []
  {
    ArgsLength([]);
  }

  /** One more placeholder in a row. */
  lemma RefAppended(query: string, refs: seq<nat>, k: nat)
    requires k < |refs|
    ensures (if k > 0 then query + RefsText(refs[..k]) + "," else query + RefsText(refs[..k])) + "$" + Itoa(refs[k])
         == query + RefsText(refs[..k + 1])
  {
    RefsTextSnoc(refs[..k], refs[k]);
    assert refs[..k] + [refs[k]] == refs[..k + 1];
    hide RefsText, Itoa;
  }

  /** One more row in the statement. */
  lemma RowAppended(query: string, i: nat)
    requires query == QueryText(i)
    ensures (if i > 0 then query + "," else query) + "(" + RefsText(RowRefs(i)) + ")" == QueryText(i + 1)
  {
    var rows, refs := AllRefs(0, i), RefsText(RowRefs(i));
    RowsTextSnoc(rows, RowRefs(i));
    assert AllRefs(0, i + 1) == rows + [RowRefs(i)];
    assert RowText(RowRefs(i)) == "(" + refs + ")";
    var comma := if i > 0 then "," else "";
    assert comma == if rows == [] then "" else ",";
    assert (if i > 0 then query + "," else query) == query + comma;
    hide RowsText, RefsText, RowText, RowRefs, AllRefs;
    RowJoined(HEADER, RowsText(rows), comma, "(", refs, ")");
  }

  lemma RowJoined(head: string, text: string, comma: string, left: string, refs: string, right: string)
    ensures head + text + comma + left + refs + right == head + (text + comma + (left + refs + right))
  {
  }

  lemma EntryAppended(entries: seq<LogEntry>, i: nat)
    requires i < |entries|
    ensures ArgsOf(entries[..i + 1]) == ArgsOf(entries[..i]) + RowArgs(entries[i])
  {
    GatherSnoc(entries[..i], entries[i], RowArgs);
    assert entries[..i + 1] == entries[..i] + [entries[i]];
  }

  /** `buildInsert`: one loop over the entries, one over the columns, appending to the
      text and to the arguments. What it returns means exactly the entries. */
  method BuildInsert(entries: seq<LogEntry>) returns (query: string, args: seq<Arg>)
    ensures Denote(query, args) == if entries == [] then None else Some(entries)
    ensures |args| == |entries| * 5
    ensures query == QueryText(|entries|)
  {
    hide RowsText, RefsText, ArgsOf, Itoa, Denote;
    query := HEADER;
    args := [];
    NoRows();
    for i := 0 to |entries|
      invariant query == QueryText(i)
      invariant args == ArgsOf(entries[..i])
    {
      RowAppended(query, i);
      EntryAppended(entries, i);
      var e := entries[i];
      if i > 0 {
        query := query + ",";
      }
      var base := i * LOG_COLUMNS;
      query := query + "(";
      ghost var start := query;
      assert RowRefs(i)[..0] == RowRefs(0)[..0];
      for c := 1 to LOG_COLUMNS + 1
        invariant query == start + RefsText(RowRefs(i)[..c - 1])
      {
        RefAppended(start, RowRefs(i), c - 1);
        if c > 1 {
          query := query + ",";
        }
        query := query + "$";
        query := query + Itoa(base + c);
      }
      assert RowRefs(i)[..LOG_COLUMNS] == RowRefs(i);
      query := query + ")";
      args := args + [Text(e.username), Text(e.level), Text(e.message), Text(e.source), Time(e.loggedAt)];
    }
    assert entries[..|entries|] == entries;
    DenoteBuilt(entries);
    ArgsLength(entries);
  }
}
