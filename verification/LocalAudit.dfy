/** The on-host audit log: a trimmed file of rows, read backwards in blocks, that answers every reader
    as the never-trimmed history would. */
module LocalAudit {
  import opened Wrappers

  const MAX_LINES := 5000
  const TRIM_TRIGGER := MAX_LINES + 500
  const RETENTION_CHECK_EVERY := 100
  const SKIP_OPS := {"read_audit", "ping"}

  /** A byte; only line feeds and carriage returns are told apart from the others. */
  type Byte = char

  const LF: Byte := '\n'
  const CR: Byte := '\r'

  // ---------- lines ----------

  /** Where the first line ends: at a line feed, at a carriage return, or with the text. */
  function LineEnd(s: seq<Byte>): (e: nat)
    ensures e <= |s|
  {
    if s == [] || s[0] == LF || s[0] == CR then 0 else 1 + LineEnd(s[1..])
  }

  lemma LineEndIs(s: seq<Byte>)
    ensures LineEnd(s) < |s| ==> s[LineEnd(s)] == LF || s[LineEnd(s)] == CR
    ensures forall k | 0 <= k < LineEnd(s) :: s[k] != LF && s[k] != CR
  {
    if s != [] && s[0] != LF && s[0] != CR {
      LineEndIs(s[1..]);
    }
  }

  /** Where the second line starts: a carriage return and line feed end one line together. */
  function NextLine(s: seq<Byte>): (n: nat)
    ensures n <= |s| && (s != [] ==> n > 0)
  {
    var e := LineEnd(s);
    if e == |s| then e
    else if s[e] == CR && e + 1 < |s| && s[e + 1] == LF then e + 2
    else e + 1
  }

  /** The lines of a whole text, without their terminators. */
  function SplitLines(s: seq<Byte>): seq<seq<Byte>> {
    if s == [] then [] else [s[..LineEnd(s)]] + SplitLines(s[NextLine(s)..])
  }

  function Feeds(s: seq<Byte>): nat {
    if s == [] then 0 else (if s[0] == LF then 1 else 0) + Feeds(s[1..])
  }

  function Last<T>(s: seq<T>, k: nat): seq<T> {
    if |s| <= k then s else s[|s| - k..]
  }

  lemma {:induction false} FeedsOfConcat(a: seq<Byte>, b: seq<Byte>)
    ensures Feeds(a + b) == Feeds(a) + Feeds(b)
  {
    if a == [] {
      assert a + b == b;
    } else {
      FeedsOfConcat(a[1..], b);
      assert (a + b)[1..] == a[1..] + b;
    }
  }

  lemma {:induction false} LineEndOfConcat(a: seq<Byte>, b: seq<Byte>)
    requires LineEnd(a) < |a|
    ensures LineEnd(a + b) == LineEnd(a)
  {
    if a[0] != LF && a[0] != CR {
      LineEndOfConcat(a[1..], b);
      assert (a + b)[1..] == a[1..] + b;
    }
  }

  /** The first line of a text that holds a line feed at its end does not depend on what follows. */
  lemma FirstLineOfConcat(a: seq<Byte>, b: seq<Byte>)
    requires a != [] && a[|a| - 1] == LF
    ensures LineEnd(a + b) == LineEnd(a) && NextLine(a + b) == NextLine(a)
    ensures (a + b)[..LineEnd(a)] == a[..LineEnd(a)] && (a + b)[NextLine(a)..] == a[NextLine(a)..] + b
  {
    LineEndIs(a);
    LineEndOfConcat(a, b);
    var e := LineEnd(a);
    assert e + 1 < |a| ==> (a + b)[e + 1] == a[e + 1];
    assert (a + b)[e] == a[e];
    var n := NextLine(a);
    assert NextLine(a + b) == n && n <= |a|;
    assert (a + b)[n..] == a[n..] + b && (a + b)[..e] == a[..e];
  }

  lemma Regroup<T>(x: T, a: seq<T>, b: seq<T>)
    ensures [x] + (a + b) == [x] + a + b
  {
  }

  lemma SplitStep(s: seq<Byte>) returns (line: seq<Byte>, rest: seq<Byte>)
    requires s != []
    ensures line == s[..LineEnd(s)] && rest == s[NextLine(s)..] && |rest| < |s|
    ensures SplitLines(s) == [line] + SplitLines(rest)
  {
    line, rest := s[..LineEnd(s)], s[NextLine(s)..];
  }

  /** Cutting a text just behind a line feed cuts its lines, whatever precedes the line feed. */
  lemma {:induction false} SplitBehindFeed(a: seq<Byte>, b: seq<Byte>)
    requires a != [] && a[|a| - 1] == LF
    ensures SplitLines(a + b) == SplitLines(a) + SplitLines(b)
    decreases |a|
  {
    FirstLineOfConcat(a, b);
    var line, rest := SplitStep(a);
    var line', rest' := SplitStep(a + b);
    assert line' == line && rest' == rest + b;
    if rest == [] {
      assert rest' == b;
    } else {
      assert rest[|rest| - 1] == LF;
      SplitBehindFeed(rest, b);
      Regroup(line, SplitLines(rest), SplitLines(b));
    }
  }

  lemma {:induction false} AtLeastFeeds(s: seq<Byte>)
    ensures |SplitLines(s)| >= Feeds(s)
    decreases |s|
  {
    if s != [] {
      var n := NextLine(s);
      AtLeastFeeds(s[n..]);
      assert s == s[..n] + s[n..];
      FeedsOfConcat(s[..n], s[n..]);
      OneFeedALine(s);
    }
  }

  lemma OneFeedALine(s: seq<Byte>)
    requires s != []
    ensures Feeds(s[..NextLine(s)]) <= 1
  {
    LineEndIs(s);
    var e := LineEnd(s);
    var n := NextLine(s);
    assert s[..n] == s[..e] + s[e..n];
    FeedsOfConcat(s[..e], s[e..n]);
    NoFeeds(s[..e]);
    if n == e + 2 {
      assert s[e..n] == [CR] + [LF];
      FeedsOfConcat([CR], [LF]);
    } else if n == e + 1 {
      assert s[e..n] == [s[e]];
    }
  }

  lemma {:induction false} NoFeeds(s: seq<Byte>)
    requires forall k | 0 <= k < |s| :: s[k] != LF
    ensures Feeds(s) == 0
  {
    if s != [] {
      NoFeeds(s[1..]);
    }
  }

  lemma FirstFeed(s: seq<Byte>) returns (line: seq<Byte>, rest: seq<Byte>)
    requires Feeds(s) > 0
    ensures s == line + rest && line != [] && line[|line| - 1] == LF && Feeds(rest) == Feeds(s) - 1
  {
    if s[0] == LF {
      line, rest := [LF], s[1..];
    } else {
      line, rest := FirstFeed(s[1..]);
      line := [s[0]] + line;
      assert s == [s[0]] + s[1..];
    }
  }

  /** A tail with more than `limit` line feeds holds the last `limit` lines whole, even when it starts
      inside a record or between a carriage return and its line feed. */
  lemma {:induction false} TailHoldsLastLines(head: seq<Byte>, tail: seq<Byte>, limit: nat)
    requires Feeds(tail) > limit
    ensures Last(SplitLines(tail), limit) == Last(SplitLines(head + tail), limit)
  {
    var line, rest := FirstFeed(tail);
    AtLeastFeeds(rest);
    assert [] + (line + rest) == tail;
    LastLinesBehind([], line, rest, limit);
    LastLinesBehind(head, line, rest, limit);
  }

  lemma {:induction false} LastLinesBehind(head: seq<Byte>, line: seq<Byte>, rest: seq<Byte>, limit: nat)
    requires line != [] && line[|line| - 1] == LF && |SplitLines(rest)| >= limit
    ensures Last(SplitLines(head + (line + rest)), limit) == Last(SplitLines(rest), limit)
  {
    assert head + (line + rest) == (head + line) + rest;
    SplitBehindFeed(head + line, rest);
    LastOfConcat(SplitLines(head + line), SplitLines(rest), limit);
  }

  lemma LastOfConcat<T>(a: seq<T>, b: seq<T>, k: nat)
    requires |b| >= k
    ensures Last(a + b, k) == Last(b, k)
  {
    assert (a + b)[|a + b| - k..] == b[|b| - k..];
  }

  /** Backwards block reading. */
  method ReadTailLines(content: seq<Byte>, block: nat, limit: nat) returns (lines: seq<seq<Byte>>)
    requires block >= 1 && limit >= 1
    ensures lines == Last(SplitLines(content), limit)
  {
    var pos: nat := |content|;
    var buf: seq<Byte> := [];
    while pos > 0 && Feeds(buf) <= limit
      invariant pos <= |content| && buf == content[pos..]
    {
      var step := if block < pos then block else pos;
      pos := pos - step;
      assert content[pos..] == content[pos..pos + step] + content[pos + step..];
      buf := content[pos..pos + step] + buf;
    }
    if pos > 0 {
      TailHoldsLastLines(content[..pos], buf, limit);
      assert content == content[..pos] + buf;
    } else {
      assert buf == content;
    }
    lines := Last(SplitLines(buf), limit);
  }

  // ---------- rows ----------

  /** One serialized entry: JSON escapes every line break. */
  type Row = seq<Byte>

  predicate Unbroken(rows: seq<Row>) {
    forall row | row in rows :: LF !in row && CR !in row
  }

  predicate Terminator(eol: seq<Byte>) {
    eol == [LF] || eol == [CR, LF]
  }

  function Encode(rows: seq<Row>, eol: seq<Byte>): seq<Byte> {
    if rows == [] then [] else rows[0] + eol + Encode(rows[1..], eol)
  }

  lemma EncodeOfConcat(a: seq<Row>, b: seq<Row>, eol: seq<Byte>)
    ensures Encode(a + b, eol) == Encode(a, eol) + Encode(b, eol)
  {
    if a == [] {
      assert a + b == b;
    } else {
      assert (a + b)[1..] == a[1..] + b;
      EncodeOfConcat(a[1..], b, eol);
    }
  }

  lemma EncodeAppend(rows: seq<Row>, row: Row, eol: seq<Byte>)
    ensures Encode(rows + [row], eol) == Encode(rows, eol) + row + eol
  {
    EncodeOfConcat(rows, [row], eol);
    assert Encode([row], eol) == row + eol;
    assert Encode(rows, eol) + row + eol == Encode(rows, eol) + (row + eol);
  }

  /** The first line of a text that starts with a terminated row is that row. */
  lemma FirstRow(row: Row, eol: seq<Byte>, rest: seq<Byte>)
    requires Terminator(eol) && LF !in row && CR !in row
    ensures LineEnd(row + eol + rest) == |row| && NextLine(row + eol + rest) == |row| + |eol|
    ensures (row + eol + rest)[..|row|] == row && (row + eol + rest)[|row| + |eol|..] == rest
  {
    var s := row + eol + rest;
    assert forall k | 0 <= k < |row| :: s[k] == row[k];
    assert forall k | 0 <= k < |eol| :: s[|row| + k] == eol[k];
    assert s[|row|] == eol[0];
    LineEndIs(s);
    assert forall k | 0 <= k < |row| :: row[k] in row;
  }

  lemma FeedsOfRow(row: Row, eol: seq<Byte>)
    requires Terminator(eol) && LF !in row
    ensures Feeds(row + eol) == 1
  {
    NoFeeds(row);
    FeedsOfConcat(row, eol);
    assert eol == [CR, LF] ==> eol == [CR] + [LF];
    FeedsOfConcat([CR], [LF]);
  }

  /** The text of a row sequence splits back into it, with either terminator, and counts its rows. */
  lemma {:induction false} EncodeRoundTrip(rows: seq<Row>, eol: seq<Byte>)
    requires Terminator(eol) && Unbroken(rows)
    ensures SplitLines(Encode(rows, eol)) == rows
    ensures Feeds(Encode(rows, eol)) == |rows|
    decreases |rows|
  {
    if rows != [] {
      var rest := Encode(rows[1..], eol);
      EncodeRoundTrip(rows[1..], eol);
      FirstRow(rows[0], eol, rest);
      FeedsOfRow(rows[0], eol);
      FeedsOfConcat(rows[0] + eol, rest);
    }
  }

  // ---------- reading entries ----------

  function Clamp(limit: int): (k: nat)
    ensures 1 <= k <= MAX_LINES
    ensures 1 <= limit <= MAX_LINES ==> k == limit
    ensures limit < 1 ==> k == 1
    ensures limit > MAX_LINES ==> k == MAX_LINES
  {
    var low := if limit < MAX_LINES then limit else MAX_LINES;
    if low < 1 then 1 else low
  }

  /** The parseable rows, newest first. */
  function Parsed<E>(rows: seq<seq<Byte>>, parse: seq<Byte> -> Option<E>): seq<E> {
    if rows == [] then []
    else
      var older := Parsed(rows[..|rows| - 1], parse);
      match parse(rows[|rows| - 1]) case Some(entry) => [entry] + older case None => older
  }

  lemma ParsedStep<E>(rows: seq<seq<Byte>>, i: nat, parse: seq<Byte> -> Option<E>)
    requires i < |rows|
    ensures var older := Parsed(rows[..i], parse);
            Parsed(rows[..i + 1], parse) == match parse(rows[i]) case Some(entry) => [entry] + older case None => older
  {
    assert rows[..i + 1][..i] == rows[..i];
  }

  /** These are the indexes, newest first, of exactly the rows that parse. */
  ghost predicate Parseable<E>(rows: seq<seq<Byte>>, parse: seq<Byte> -> Option<E>, at: seq<nat>) {
    && (forall j, k | 0 <= j < k < |at| :: at[k] < at[j])
    && (forall j | 0 <= j < |at| :: at[j] < |rows| && parse(rows[at[j]]).Some?)
    && (forall i | 0 <= i < |rows| && parse(rows[i]).Some? :: exists j | 0 <= j < |at| :: at[j] == i)
  }

  /** The entries are the parses of those rows: each entry of an older row than the one before it, and no
      row that parses is missing. */
  ghost predicate NewestFirst<E>(rows: seq<seq<Byte>>, parse: seq<Byte> -> Option<E>, at: seq<nat>, entries: seq<E>) {
    && Parseable(rows, parse, at) && |entries| == |at|
    && forall j | 0 <= j < |at| :: Some(entries[j]) == parse(rows[at[j]])
  }

  lemma EntryAppended<E>(rows: seq<seq<Byte>>, row: seq<Byte>, parse: seq<Byte> -> Option<E>, at: seq<nat>)
    requires Parseable(rows, parse, at) && parse(row).Some?
    ensures Parseable(rows + [row], parse, [|rows|] + at)
  {
    forall i | 0 <= i < |rows| && parse((rows + [row])[i]).Some?
      ensures exists j | 0 <= j < |at| + 1 :: ([|rows|] + at)[j] == i {
      assert (rows + [row])[i] == rows[i];
      var j :| 0 <= j < |at| && at[j] == i;
      assert ([|rows|] + at)[j + 1] == i;
    }
    assert ([|rows|] + at)[0] == |rows|;
  }

  lemma MalformedAppended<E>(rows: seq<seq<Byte>>, row: seq<Byte>, parse: seq<Byte> -> Option<E>, at: seq<nat>)
    requires Parseable(rows, parse, at) && parse(row).None?
    ensures Parseable(rows + [row], parse, at)
  {
    assert forall i | 0 <= i < |rows| :: (rows + [row])[i] == rows[i];
  }

  lemma {:induction false} ParsedIsNewestFirst<E>(rows: seq<seq<Byte>>, parse: seq<Byte> -> Option<E>)
    returns (at: seq<nat>)
    ensures NewestFirst(rows, parse, at, Parsed(rows, parse))
    decreases |rows|
  {
    at := [];
    if rows != [] {
      var front, row := rows[..|rows| - 1], rows[|rows| - 1];
      assert rows == front + [row];
      var older := ParsedIsNewestFirst(front, parse);
      if parse(row).Some? {
        at := [|front|] + older;
        EntryAppended(front, row, parse, older);
      } else {
        at := older;
        MalformedAppended(front, row, parse, older);
      }
    }
  }

  method ParseNewestFirst<E>(rows: seq<seq<Byte>>, parse: seq<Byte> -> Option<E>) returns (entries: seq<E>)
    ensures entries == Parsed(rows, parse)
  {
    entries := [];
    var i: nat := |rows|;
    assert rows[..i] == rows;
    while i > 0
      invariant i <= |rows|
      invariant Parsed(rows, parse) == entries + Parsed(rows[..i], parse)
    {
      i := i - 1;
      ParsedStep(rows, i, parse);
      match parse(rows[i]) {
        case Some(entry) => entries := entries + [entry];
        case None =>
      }
    }
  }

  /** What a reader of the whole history would get. */
  function Recent<E>(history: seq<Row>, limit: int, parse: seq<Byte> -> Option<E>): seq<E> {
    Parsed(Last(history, Clamp(limit)), parse)
  }

  /** The file holds the newest rows: all of them, or at least as many as anyone may ask for. */
  predicate Retained(rows: seq<Row>, history: seq<Row>) {
    rows == Last(history, |rows|) && (|rows| == |history| || |rows| >= MAX_LINES)
  }

  lemma RetainedReadsTheSame(rows: seq<Row>, history: seq<Row>, k: nat)
    requires Retained(rows, history) && k <= MAX_LINES
    ensures Last(rows, k) == Last(history, k)
  {
    assert |rows| <= |history|;
  }

  lemma RetainedAppend(rows: seq<Row>, history: seq<Row>, row: Row)
    requires Retained(rows, history)
    ensures Retained(rows + [row], history + [row])
  {
    var before := |history| - |rows|;
    assert rows == history[before..];
    assert (history + [row])[before..] == history[before..] + [row];
  }

  lemma RetainedTrim(rows: seq<Row>, history: seq<Row>)
    requires Retained(rows, history)
    ensures Retained(Last(rows, MAX_LINES), history)
  {
    var kept := Last(rows, MAX_LINES);
    RetainedReadsTheSame(rows, history, |kept|);
    assert Last(rows, |kept|) == kept;
  }

  class AuditLog {
    const eol: seq<Byte>
    var content: seq<Byte>
    var writesSinceCheck: nat
    var checkedThisProcess: bool
    ghost var rows: seq<Row>
    ghost var history: seq<Row>
    ghost var lastTrimFailed: bool

    ghost predicate Valid()
      reads this
    {
      && Terminator(eol) && Unbroken(rows) && content == Encode(rows, eol) && Retained(rows, history)
      && writesSinceCheck < RETENTION_CHECK_EVERY
      && (checkedThisProcess && !lastTrimFailed ==> |rows| <= TRIM_TRIGGER + writesSinceCheck)
    }

    /** A process starts on whatever rows an earlier one has left. */
    constructor (earlier: seq<Row>, eol: seq<Byte>)
      requires Terminator(eol) && Unbroken(earlier)
      ensures Valid() && history == earlier && !checkedThisProcess
    {
      this.eol := eol;
      content, rows, history := Encode(earlier, eol), earlier, earlier;
      writesSinceCheck, checkedThisProcess, lastTrimFailed := 0, false, false;
    }

    method Restart()
      requires Valid()
      modifies this
      ensures Valid() && history == old(history) && content == old(content) && !checkedThisProcess
    {
      writesSinceCheck, checkedThisProcess := 0, false;
    }

    method ShouldCheckRetention() returns (due: bool)
      modifies `writesSinceCheck, `checkedThisProcess
      requires writesSinceCheck < RETENTION_CHECK_EVERY
      ensures checkedThisProcess && writesSinceCheck < RETENTION_CHECK_EVERY
      ensures due <==> !old(checkedThisProcess) || old(writesSinceCheck) == RETENTION_CHECK_EVERY - 1
      ensures writesSinceCheck == if due then 0 else old(writesSinceCheck) + 1
    {
      if !checkedThisProcess {
        checkedThisProcess, writesSinceCheck := true, 0;
        return true;
      }
      writesSinceCheck := writesSinceCheck + 1;
      due := writesSinceCheck >= RETENTION_CHECK_EVERY;
      if due { writesSinceCheck := 0; }
    }

    /** Rewrite an overgrown file with its newest rows, by one atomic replacement that may not happen. */
    method MaybeTrim(fails: bool)
      requires Terminator(eol) && Unbroken(rows) && content == Encode(rows, eol) && Retained(rows, history)
      modifies `content, `rows, `lastTrimFailed
      ensures Unbroken(rows) && content == Encode(rows, eol) && Retained(rows, history)
      ensures lastTrimFailed == fails
      ensures !fails ==> |rows| <= TRIM_TRIGGER
      ensures rows == if !fails && |old(rows)| > TRIM_TRIGGER then Last(old(rows), MAX_LINES) else old(rows)
    {
      lastTrimFailed := fails;
      EncodeRoundTrip(rows, eol);
      if fails || Feeds(content) <= TRIM_TRIGGER { return; }
      var keep := Last(SplitLines(content), MAX_LINES);
      RetainedTrim(rows, history);
      content := Encode(keep, eol);
      rows := keep;
    }

    method Append(row: Row)
      requires Terminator(eol) && Unbroken(rows) && content == Encode(rows, eol) && Retained(rows, history)
      requires LF !in row && CR !in row
      modifies `content, `rows, `history
      ensures rows == old(rows) + [row] && history == old(history) + [row]
      ensures Unbroken(rows) && content == Encode(rows, eol) && Retained(rows, history)
    {
      EncodeAppend(rows, row, eol);
      RetainedAppend(rows, history, row);
      content, rows, history := content + row + eol, rows + [row], history + [row];
    }

    /** Append one entry; a failed append changes nothing. */
    method Record(op: string, row: Row, appendFails: bool, trimFails: bool)
      requires Valid() && LF !in row && CR !in row
      modifies this
      ensures Valid()
      ensures history == if op in SKIP_OPS || appendFails then old(history) else old(history) + [row]
      ensures op in SKIP_OPS || appendFails ==> content == old(content)
      ensures op !in SKIP_OPS && !appendFails && !lastTrimFailed ==>
                |rows| <= TRIM_TRIGGER + RETENTION_CHECK_EVERY - 1
      ensures lastTrimFailed ==> trimFails || old(lastTrimFailed)
    {
      if op in SKIP_OPS || appendFails { return; }
      Append(row);
      var due := ShouldCheckRetention();
      if due { MaybeTrim(trimFails); }
    }

    /** The rows the bound speaks of are the lines of the file. */
    lemma RowsAreLines()
      requires Valid()
      ensures SplitLines(content) == rows && Feeds(content) == |rows|
    {
      EncodeRoundTrip(rows, eol);
    }

    /** Trimming is invisible: every read answers from the never-trimmed history. */
    method ReadRecent<E>(limit: int, block: nat, parse: seq<Byte> -> Option<E>) returns (entries: seq<E>)
      requires Valid() && block >= 1
      ensures entries == Recent(history, limit, parse)
      ensures exists at :: NewestFirst(Last(history, Clamp(limit)), parse, at, entries)
    {
      ghost var at := ParsedIsNewestFirst(Last(history, Clamp(limit)), parse);
      var k := Clamp(limit);
      var tail := ReadTailLines(content, block, k);
      EncodeRoundTrip(rows, eol);
      RetainedReadsTheSame(rows, history, k);
      entries := ParseNewestFirst(tail, parse);
    }
  }
}
