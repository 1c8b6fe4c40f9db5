/** Checking a chained command segment by segment: the quote-aware splitter, as a loop over positions,
    against a character automaton, and the first segment the allowlist does not cover. */
module SegmentCheck {
  import opened Wrappers

  const READ_ONLY_FILTERS := {
    "head", "tail", "sort", "uniq", "wc", "cut", "tr", "grep", "egrep", "fgrep",
    "awk", "sed", "jq", "rg", "cat", "tee", "column", "rev", "tac", "nl", "fold",
    "paste", "join", "comm", "xxd", "base64", "md5sum", "sha256sum", "echo",
    "printf", "true", "false", "seq", "basename", "dirname", "realpath",
    "readlink", "date"
  }

  const POSITION_FREE := {"cd"}

  /** What one check is decided by: the policy's prefix test, the whitespace, and the two concessions. */
  datatype Rules = Rules(allowed: string -> bool, space: char -> bool, free: set<string>, filters: set<string>)

  // ---------- the quote rule, one character at a time ----------

  /** Where the shell scanner stands after some text. Inside either kind of quote a backslash takes the
      next character with it. */
  datatype Lexer = Bare | BareEscape | Inside(quote: char) | InsideEscape(quote: char)

  function Step(at: Lexer, c: char): Lexer {
    match at
    case Bare => if c == '\'' || c == '"' then Inside(c) else if c == '\\' then BareEscape else Bare
    case BareEscape => Bare
    case Inside(q) => if c == '\\' then InsideEscape(q) else if c == q then Bare else at
    case InsideEscape(q) => Inside(q)
  }

  function After(at: Lexer, s: string): Lexer
    decreases |s|
  {
    if s == "" then at else After(Step(at, s[0]), s[1..])
  }

  /** The length of the separator a text starts with; a doubled one is taken whole. */
  function Separator(s: string): (n: nat)
    ensures n <= 2 && n <= |s|
  {
    if |s| >= 2 && (s[..2] == "&&" || s[..2] == "||") then 2
    else if s != "" && (s[0] == ';' || s[0] == '|') then 1
    else 0
  }

  /** The separators are a doubled `&` or `|`, and else a `;` or a single `|`; a single `&` is none. */
  lemma SeparatorIff(s: string)
    ensures Separator(s) == 2 <==> "&&" <= s || "||" <= s
    ensures Separator(s) == 1 <==> s != "" && (s[0] == ';' || (s[0] == '|' && !("||" <= s)))
  {
  }

  predicate Quote(c: char) {
    c == '\'' || c == '"'
  }

  /** The quote rule, state by state: outside quotes a quote opens and anything else stands for itself; inside,
      only the quote that opened closes; a backslash takes the character behind it in both places. */
  lemma QuoteRule(c: char, q: char)
    requires Quote(q)
    ensures Quote(c) ==> After(Bare, [c]) == Inside(c)
    ensures !Quote(c) && c != '\\' ==> After(Bare, [c]) == Bare
    ensures After(Bare, ['\\', c]) == Bare && After(Inside(q), ['\\', c]) == Inside(q)
    ensures c != '\\' ==> After(Inside(q), [c]) == if c == q then Bare else Inside(q)
  {
    assert [c][1..] == "" && ['\\', c][1..] == [c];
    assert After(Bare, ['\\', c]) == After(BareEscape, [c]) == After(Bare, "");
    assert After(Inside(q), ['\\', c]) == After(InsideEscape(q), [c]) == After(Inside(q), "");
  }

  /** Text that needs no thought inside this quote. */
  predicate Plain(body: string, q: char) {
    q !in body && '\\' !in body
  }

  lemma {:induction false} InsideIsData(body: string, q: char, i: nat)
    requires Quote(q) && Plain(body, q) && i <= |body|
    ensures After(Inside(q), body[..i]) == Inside(q)
    decreases i
  {
    if i > 0 {
      assert body[0] in body;
      assert body[..i][1..] == body[1..][..i - 1];
      assert forall c | c in body[1..] :: c in body;
      InsideIsData(body[1..], q, i - 1);
    }
  }

  /** Separators inside quotes are data: a quoted text is whole, and the scanner stands outside quotes after it. */
  lemma QuotedIsWhole(body: string, q: char)
    requires Quote(q) && Plain(body, q)
    ensures var s := [q] + body + [q]; Whole(Bare, s) && After(Bare, s) == Bare
  {
    var s := [q] + body + [q];
    var n := |body|;
    assert s[1..] == body + [q];
    InsideIsData(body, q, n);
    AfterConcat(Inside(q), body, [q]);
    assert body[..n] == body && [q][1..] == "";
    forall i | 0 <= i <= |s| ensures !TopLevel(Bare, s, i) {
      if i == 0 {
        assert s[0..] == s && s[..2][0] == q && s[0] == q;
      } else if i <= n + 1 {
        assert s[..i] == [q] + body[..i - 1] && s[..i][1..] == body[..i - 1];
        InsideIsData(body, q, i - 1);
        assert After(Bare, s[..i]) == After(Step(Bare, q), body[..i - 1]);
      } else {
        assert s[i..] == "";
        assert Separator("") == 0;
      }
    }
  }

  lemma {:induction false} AfterConcat(at: Lexer, a: string, b: string)
    ensures After(at, a + b) == After(After(at, a), b)
    decreases |a|
  {
    if a == "" {
      assert a + b == b;
    } else {
      assert (a + b)[1..] == a[1..] + b;
      AfterConcat(Step(at, a[0]), a[1..], b);
    }
  }

  /** A separator stands outside quotes at `i`. */
  predicate TopLevel(at: Lexer, s: string, i: nat)
    requires i <= |s|
  {
    After(at, s[..i]) == Bare && Separator(s[i..]) > 0
  }

  predicate Whole(at: Lexer, s: string) {
    forall i | 0 <= i <= |s| :: !TopLevel(at, s, i)
  }

  // ---------- the partition ----------

  function Pieces(at: Lexer, s: string): (pieces: seq<string>)
    ensures pieces != []
    decreases |s|
  {
    if s == "" then [""]
    else if at == Bare && Separator(s) > 0 then [""] + Pieces(Bare, s[Separator(s)..])
    else var later := Pieces(Step(at, s[0]), s[1..]); [[s[0]] + later[0]] + later[1..]
  }

  function Separators(at: Lexer, s: string): (seps: seq<string>)
    ensures |seps| + 1 == |Pieces(at, s)|
    decreases |s|
  {
    if s == "" then []
    else if at == Bare && Separator(s) > 0 then [s[..Separator(s)]] + Separators(Bare, s[Separator(s)..])
    else Separators(Step(at, s[0]), s[1..])
  }

  function Interleave(pieces: seq<string>, seps: seq<string>): string
    requires |pieces| == |seps| + 1
  {
    if seps == [] then pieces[0] else pieces[0] + seps[0] + Interleave(pieces[1..], seps[1..])
  }

  lemma InterleaveHead(c: char, pieces: seq<string>, seps: seq<string>)
    requires |pieces| == |seps| + 1
    ensures Interleave([[c] + pieces[0]] + pieces[1..], seps) == [c] + Interleave(pieces, seps)
  {
    var longer := [[c] + pieces[0]] + pieces[1..];
    assert longer[1..] == pieces[1..];
    if seps != [] {
      var rest := Interleave(pieces[1..], seps[1..]);
      assert [c] + pieces[0] + seps[0] + rest == [c] + (pieces[0] + seps[0] + rest);
    }
  }

  lemma InterleaveCut(s: string, n: nat, pieces: seq<string>, seps: seq<string>)
    requires n <= |s| && |pieces| == |seps| + 1 && Interleave(pieces, seps) == s[n..]
    ensures Interleave([""] + pieces, [s[..n]] + seps) == s
  {
    assert ([""] + pieces)[1..] == pieces && ([s[..n]] + seps)[1..] == seps;
    assert "" + s[..n] + s[n..] == s;
  }

  /** The dropped separators and the pieces rebuild the command. */
  lemma {:induction false} Rebuild(at: Lexer, s: string)
    ensures Interleave(Pieces(at, s), Separators(at, s)) == s
    decreases |s|
  {
    hide Separator, Step, Interleave;
    if s == "" {
      NothingSplit(at);
    } else if at == Bare && Separator(s) > 0 {
      var n := Separator(s);
      Rebuild(Bare, s[n..]);
      InterleaveCut(s, n, Pieces(Bare, s[n..]), Separators(Bare, s[n..]));
    } else {
      var pieces, seps := Pieces(Step(at, s[0]), s[1..]), Separators(Step(at, s[0]), s[1..]);
      Rebuild(Step(at, s[0]), s[1..]);
      InterleaveHead(s[0], pieces, seps);
      assert [s[0]] + s[1..] == s;
    }
  }

  lemma NothingSplit(at: Lexer)
    ensures Interleave(Pieces(at, ""), Separators(at, "")) == ""
  {
  }

  lemma TopLevelLater(at: Lexer, s: string, i: nat)
    requires 0 < i <= |s|
    ensures TopLevel(at, s, i) <==> TopLevel(Step(at, s[0]), s[1..], i - 1)
  {
    assert s[..i][1..] == s[1..][..i - 1];
  }

  /** Being whole, one character at a time. */
  lemma WholeSteps(at: Lexer, s: string)
    requires s != ""
    ensures Whole(at, s) <==> !(at == Bare && Separator(s) > 0) && Whole(Step(at, s[0]), s[1..])
  {
    assert s[..0] == "" && s[0..] == s;
    assert TopLevel(at, s, 0) <==> at == Bare && Separator(s) > 0;
    forall i | 0 < i <= |s| ensures TopLevel(at, s, i) <==> TopLevel(Step(at, s[0]), s[1..], i - 1) {
      TopLevelLater(at, s, i);
    }
    forall i | 0 <= i <= |s[1..]| ensures TopLevel(Step(at, s[0]), s[1..], i) <==> TopLevel(at, s, i + 1) {
      TopLevelLater(at, s, i + 1);
    }
  }

  lemma NothingIsWhole(at: Lexer)
    ensures Whole(at, "")
  {
  }

  /** A prefix holds no separator the whole text does not hold. */
  lemma SeparatorOfPrefix(s: string, n: nat)
    requires n <= |s|
    ensures Separator(s[..n]) > 0 ==> Separator(s) > 0
  {
    if n >= 2 { assert s[..n][..2] == s[..2]; }
  }

  /** No piece holds a separator outside quotes; the first one starts where the scanner stood. */
  lemma {:induction false} PiecesAreWhole(at: Lexer, s: string)
    ensures Whole(at, Pieces(at, s)[0])
    ensures forall k | 0 < k < |Pieces(at, s)| :: Whole(Bare, Pieces(at, s)[k])
    ensures Pieces(at, s)[0] <= s
    decreases |s|
  {
    if s == "" {
      NothingIsWhole(at);
    } else if at == Bare && Separator(s) > 0 {
      NothingIsWhole(at);
      PiecesAreWhole(Bare, s[Separator(s)..]);
    } else {
      PiecesAreWhole(Step(at, s[0]), s[1..]);
      var first := Pieces(at, s)[0];
      assert first[1..] == Pieces(Step(at, s[0]), s[1..])[0];
      assert first == s[..|first|];
      SeparatorOfPrefix(s, |first|);
      WholeSteps(at, first);
    }
  }

  /** A whole text is its own only piece. */
  lemma {:induction false} WholeIsOnePiece(at: Lexer, s: string)
    requires Whole(at, s)
    ensures Pieces(at, s) == [s]
    decreases |s|
  {
    if s != "" {
      WholeSteps(at, s);
      WholeIsOnePiece(Step(at, s[0]), s[1..]);
      assert [s[0]] + s[1..] == s;
    }
  }

  predicate NoneBefore(at: Lexer, s: string, n: nat)
    requires n <= |s|
  {
    forall i | 0 <= i < n :: !TopLevel(at, s, i)
  }

  lemma NoneBeforeSteps(at: Lexer, c: char, s: string, n: nat)
    requires n <= |s|
    ensures NoneBefore(at, [c] + s, n + 1) <==> !TopLevel(at, [c] + s, 0) && NoneBefore(Step(at, c), s, n)
  {
    var t := [c] + s;
    assert t[1..] == s;
    forall i | 0 < i < n + 1 ensures TopLevel(at, t, i) <==> TopLevel(Step(at, c), s, i - 1) {
      TopLevelLater(at, t, i);
    }
    forall i | 0 <= i < n ensures TopLevel(Step(at, c), s, i) <==> TopLevel(at, t, i + 1) {
      TopLevelLater(at, t, i + 1);
    }
  }

  /** Cutting always at the leftmost separator outside quotes, and taking it whole. */
  predicate Partition(at: Lexer, pieces: seq<string>, seps: seq<string>)
    requires |pieces| == |seps| + 1
    decreases |pieces|
  {
    var s := Interleave(pieces, seps);
    var n := |pieces[0]|;
    if seps == [] then Whole(at, s)
    else
      && NoneBefore(at, s, n)
      && TopLevel(at, s, n) && Separator(s[n..]) == |seps[0]|
      && Partition(Bare, pieces[1..], seps[1..])
  }

  lemma PartitionSteps(at: Lexer, c: char, pieces: seq<string>, seps: seq<string>)
    requires |pieces| == |seps| + 1
    ensures var longer := [[c] + pieces[0]] + pieces[1..];
            Partition(at, longer, seps) <==>
            Partition(Step(at, c), pieces, seps) && !TopLevel(at, [c] + Interleave(pieces, seps), 0)
  {
    InterleaveHead(c, pieces, seps);
    var s := Interleave(pieces, seps);
    var n := |pieces[0]|;
    var t := [c] + s;
    var longer := [[c] + pieces[0]] + pieces[1..];
    assert t[1..] == s && longer[1..] == pieces[1..];
    NoTopLevelAtStart(at, t);
    if seps == [] {
      WholeSteps(at, t);
    } else {
      assert n <= |s| && t[n + 1..] == s[n..];
      NoneBeforeSteps(at, c, s, n);
      TopLevelLater(at, t, n + 1);
    }
  }

  lemma NoTopLevelAtStart(at: Lexer, s: string)
    ensures TopLevel(at, s, 0) <==> at == Bare && Separator(s) > 0
  {
    assert s[..0] == "" && s[0..] == s;
  }

  lemma CutIsPartition(s: string, pieces: seq<string>, seps: seq<string>)
    requires Separator(s) > 0 && |pieces| == |seps| + 1 && Partition(Bare, pieces, seps)
    requires Interleave(pieces, seps) == s[Separator(s)..]
    ensures Partition(Bare, [""] + pieces, [s[..Separator(s)]] + seps)
  {
    hide After, Whole, Separator, TopLevel, Interleave;
    var n := Separator(s);
    var longer, more := [""] + pieces, [s[..n]] + seps;
    assert longer[1..] == pieces && more[1..] == seps;
    InterleaveCut(s, n, pieces, seps);
    NoTopLevelAtStart(Bare, s);
    assert s[0..] == s;
  }

  /** The split is such a partition ... */
  lemma {:induction false} SplitIsPartition(at: Lexer, s: string)
    ensures Partition(at, Pieces(at, s), Separators(at, s))
    decreases |s|
  {
    if s == "" {
      NothingIsWhole(at);
    } else if at == Bare && Separator(s) > 0 {
      var n := Separator(s);
      SplitIsPartition(Bare, s[n..]);
      Rebuild(Bare, s[n..]);
      CutIsPartition(s, Pieces(Bare, s[n..]), Separators(Bare, s[n..]));
    } else {
      var pieces, seps := Pieces(Step(at, s[0]), s[1..]), Separators(Step(at, s[0]), s[1..]);
      SplitIsPartition(Step(at, s[0]), s[1..]);
      Rebuild(Step(at, s[0]), s[1..]);
      assert [s[0]] + s[1..] == s;
      NoTopLevelAtStart(at, s);
      PartitionSteps(at, s[0], pieces, seps);
    }
  }

  /** ... and the only one. */
  lemma {:induction false} OnlyPartition(at: Lexer, pieces: seq<string>, seps: seq<string>)
    requires |pieces| == |seps| + 1 && Partition(at, pieces, seps)
    ensures pieces == Pieces(at, Interleave(pieces, seps)) && seps == Separators(at, Interleave(pieces, seps))
    decreases |pieces|, |pieces[0]|
  {
    var s := Interleave(pieces, seps);
    NoTopLevelAtStart(at, s);
    if seps == [] {
      WholeIsOnePiece(at, s);
      assert pieces == [s];
    } else if pieces[0] == "" {
      var n := |seps[0]|;
      var rest := Interleave(pieces[1..], seps[1..]);
      assert s[0..] == s && s == seps[0] + rest;
      assert s[..n] == seps[0] && s[n..] == rest;
      OnlyPartition(Bare, pieces[1..], seps[1..]);
      assert pieces == [""] + pieces[1..] && seps == [seps[0]] + seps[1..];
    } else {
      var c := pieces[0][0];
      var later := [pieces[0][1..]] + pieces[1..];
      assert pieces[0] == [c] + later[0] && later[1..] == pieces[1..];
      assert pieces == [[c] + later[0]] + later[1..];
      InterleaveHead(c, later, seps);
      PartitionSteps(at, c, later, seps);
      OnlyPartition(Step(at, c), later, seps);
      assert s[0] == c && s[1..] == Interleave(later, seps);
    }
  }

  // ---------- segments ----------

  /** The whitespace a caller strips is none of the characters the scanner acts on. */
  ghost predicate Harmless(space: char -> bool) {
    !space('\'') && !space('"') && !space('\\') && !space(';') && !space('|') && !space('&')
  }

  function TrimLeft(s: string, space: char -> bool): string
    decreases |s|
  {
    if s != "" && space(s[0]) then TrimLeft(s[1..], space) else s
  }

  function TrimRight(s: string, space: char -> bool): (t: string)
    ensures t <= s
    decreases |s|
  {
    if s != "" && space(s[|s| - 1]) then TrimRight(s[..|s| - 1], space) else s
  }

  function Strip(s: string, space: char -> bool): string {
    TrimRight(TrimLeft(s, space), space)
  }

  /** The stripped pieces that are not blank. */
  function Kept(pieces: seq<string>, space: char -> bool): seq<string> {
    if pieces == [] then []
    else (if Strip(pieces[0], space) == "" then [] else [Strip(pieces[0], space)]) + Kept(pieces[1..], space)
  }

  function Segments(command: string, space: char -> bool): seq<string> {
    Kept(Pieces(Bare, command), space)
  }

  predicate Increasing(at: seq<nat>) {
    forall j, k | 0 <= j < k < |at| :: at[j] < at[k]
  }

  predicate Reaches(at: seq<nat>, i: nat) {
    exists j | 0 <= j < |at| :: at[j] == i
  }

  /** These are the indexes, in increasing order, of exactly the pieces that are not blank. */
  ghost predicate NotBlank(pieces: seq<string>, space: char -> bool, at: seq<nat>) {
    && Increasing(at)
    && (forall j | 0 <= j < |at| :: at[j] < |pieces| && Strip(pieces[at[j]], space) != "")
    && (forall i | 0 <= i < |pieces| && Strip(pieces[i], space) != "" :: Reaches(at, i))
  }

  /** The segments are the stripped pieces that are not blank: each of them once, in their order, no other. */
  ghost predicate Selects(pieces: seq<string>, space: char -> bool, at: seq<nat>, segments: seq<string>) {
    && NotBlank(pieces, space, at) && |segments| == |at|
    && forall j | 0 <= j < |at| :: segments[j] == Strip(pieces[at[j]], space)
  }

  function Later(at: seq<nat>): (later: seq<nat>)
    ensures |later| == |at| && forall j | 0 <= j < |at| :: later[j] == at[j] + 1
  {
    seq(|at|, j requires 0 <= j < |at| => at[j] + 1)
  }

  lemma LaterReaches(at: seq<nat>, i: nat)
    requires Reaches(at, i)
    ensures Reaches(Later(at), i + 1) && Reaches([0] + Later(at), i + 1)
  {
    var j :| 0 <= j < |at| && at[j] == i;
    assert Later(at)[j] == i + 1 && ([0] + Later(at))[j + 1] == i + 1;
  }

  lemma BlankPrepended(piece: string, pieces: seq<string>, space: char -> bool, at: seq<nat>)
    requires NotBlank(pieces, space, at) && Strip(piece, space) == ""
    ensures NotBlank([piece] + pieces, space, Later(at))
  {
    hide Strip, Reaches;
    var more := [piece] + pieces;
    forall i | 0 <= i < |more| && Strip(more[i], space) != "" ensures Reaches(Later(at), i) {
      assert more[i] == pieces[i - 1];
      LaterReaches(at, i - 1);
    }
  }

  lemma KeptPrepended(piece: string, pieces: seq<string>, space: char -> bool, at: seq<nat>)
    requires NotBlank(pieces, space, at) && Strip(piece, space) != ""
    ensures NotBlank([piece] + pieces, space, [0] + Later(at))
  {
    hide Strip, Reaches;
    var more, all := [piece] + pieces, [0] + Later(at);
    FirstReached(at);
    forall i | 0 <= i < |more| && Strip(more[i], space) != "" ensures Reaches(all, i) {
      if i > 0 {
        assert more[i] == pieces[i - 1];
        LaterReaches(at, i - 1);
      }
    }
  }

  lemma FirstReached(at: seq<nat>)
    ensures Reaches([0] + Later(at), 0)
  {
    assert ([0] + Later(at))[0] == 0;
  }

  lemma {:induction false} KeptSelects(pieces: seq<string>, space: char -> bool) returns (at: seq<nat>)
    ensures Selects(pieces, space, at, Kept(pieces, space))
    decreases |pieces|
  {
    hide Strip, NotBlank;
    at := [];
    if pieces == [] {
      NoPieces(space);
    } else {
      var rest := KeptSelects(pieces[1..], space);
      assert [pieces[0]] + pieces[1..] == pieces;
      if Strip(pieces[0], space) == "" {
        at := Later(rest);
        BlankPrepended(pieces[0], pieces[1..], space, rest);
      } else {
        at := [0] + Later(rest);
        KeptPrepended(pieces[0], pieces[1..], space, rest);
      }
      InRange(pieces, space, at);
    }
  }

  lemma NoPieces(space: char -> bool)
    ensures NotBlank([], space, [])
  {
  }

  lemma InRange(pieces: seq<string>, space: char -> bool, at: seq<nat>)
    requires NotBlank(pieces, space, at)
    ensures forall j | 0 <= j < |at| :: at[j] < |pieces|
  {
  }

  /** Stripping takes whitespace from both ends, all of it, and nothing else. */
  lemma StripIs(s: string, space: char -> bool) returns (left: string, right: string)
    ensures s == left + Strip(s, space) + right
    ensures (forall c | c in left :: space(c)) && (forall c | c in right :: space(c))
    ensures var t := Strip(s, space); t != "" ==> !space(t[0]) && !space(t[|t| - 1])
  {
    var t := TrimLeft(s, space);
    left := TrimLeftIs(s, space);
    right := TrimRightIs(t, space);
    TrimLeftEnds(s, space);
    TrimRightEnds(t, space);
    assert s == left + (Strip(s, space) + right);
  }

  lemma {:induction false} TrimLeftIs(s: string, space: char -> bool) returns (left: string)
    ensures s == left + TrimLeft(s, space) && forall c | c in left :: space(c)
    decreases |s|
  {
    left := "";
    if s != "" && space(s[0]) {
      left := TrimLeftIs(s[1..], space);
      left := [s[0]] + left;
    }
  }

  lemma {:induction false} TrimRightIs(s: string, space: char -> bool) returns (right: string)
    ensures s == TrimRight(s, space) + right && forall c | c in right :: space(c)
    decreases |s|
  {
    right := "";
    if s != "" && space(s[|s| - 1]) {
      right := TrimRightIs(s[..|s| - 1], space);
      right := right + [s[|s| - 1]];
    }
  }

  lemma TrimLeftIsWhole(s: string, space: char -> bool)
    requires Harmless(space) && Whole(Bare, s)
    ensures Whole(Bare, TrimLeft(s, space))
    decreases |s|
  {
    if s != "" && space(s[0]) {
      WholeSteps(Bare, s);
      TrimLeftIsWhole(s[1..], space);
    }
  }

  lemma PrefixIsWhole(at: Lexer, s: string, n: nat)
    requires n <= |s| && Whole(at, s)
    ensures Whole(at, s[..n])
  {
    forall i | 0 <= i <= n ensures !TopLevel(at, s[..n], i) {
      assert s[..n][..i] == s[..i] && s[..n][i..] == s[i..][..n - i];
      SeparatorOfPrefix(s[i..], n - i);
      assert !TopLevel(at, s, i);
    }
  }

  lemma StripIsWhole(s: string, space: char -> bool)
    requires Harmless(space) && Whole(Bare, s)
    ensures Whole(Bare, Strip(s, space))
  {
    var t := TrimLeft(s, space);
    TrimLeftIsWhole(s, space);
    PrefixIsWhole(Bare, t, |TrimRight(t, space)|);
    assert t[..|TrimRight(t, space)|] == TrimRight(t, space);
  }

  lemma TrimRightEnds(s: string, space: char -> bool)
    ensures var t := TrimRight(s, space); t != "" ==> !space(t[|t| - 1]) && t[0] == s[0]
    decreases |s|
  {
    if s != "" && space(s[|s| - 1]) {
      TrimRightEnds(s[..|s| - 1], space);
    }
  }

  lemma {:induction false} TrimLeftEnds(s: string, space: char -> bool)
    ensures var t := TrimLeft(s, space); t != "" ==> !space(t[0])
    decreases |s|
  {
    if s != "" && space(s[0]) {
      TrimLeftEnds(s[1..], space);
    }
  }

  lemma StripTwice(s: string, space: char -> bool)
    ensures Strip(Strip(s, space), space) == Strip(s, space)
  {
    TrimLeftEnds(s, space);
    TrimRightEnds(TrimLeft(s, space), space);
  }

  lemma {:induction false} KeptAreStripped(pieces: seq<string>, space: char -> bool, segment: string)
    requires segment in Kept(pieces, space)
    ensures segment != "" && exists p :: p in pieces && segment == Strip(p, space)
    decreases |pieces|
  {
    if Strip(pieces[0], space) == "" || segment != Strip(pieces[0], space) {
      KeptAreStripped(pieces[1..], space, segment);
      var p :| p in pieces[1..] && segment == Strip(p, space);
      assert p in pieces;
    }
  }

  /** Every segment is, on its own, one segment: itself. */
  lemma SegmentsSplitToThemselves(command: string, space: char -> bool, segment: string)
    requires Harmless(space) && segment in Segments(command, space)
    ensures Segments(segment, space) == [segment]
  {
    KeptAreStripped(Pieces(Bare, command), space, segment);
    var p :| p in Pieces(Bare, command) && segment == Strip(p, space);
    PiecesAreWhole(Bare, command);
    StripIsWhole(p, space);
    WholeIsOnePiece(Bare, segment);
    StripTwice(p, space);
    assert Kept([segment][1..], space) == [];
  }

  // ---------- the scanner and the check, as loops ----------

  function Glue(out: seq<string>, buf: string, later: seq<string>): seq<string>
    requires later != []
  {
    out + [buf + later[0]] + later[1..]
  }

  /** How far the scanner has come: finished pieces, the current one, and what is still to split. */
  predicate Pending(out: seq<string>, buf: string, at: Lexer, command: string, i: nat)
    requires i <= |command|
  {
    Pieces(Bare, command) == Glue(out, buf, Pieces(at, command[i..]))
  }

  function Standing(quote: Option<char>): Lexer {
    match quote case None => Bare case Some(q) => Inside(q)
  }

  lemma Starts(command: string)
    ensures Pending([], "", Bare, command, 0)
  {
    var pieces := Pieces(Bare, command);
    assert command[0..] == command && "" + pieces[0] == pieces[0];
  }

  lemma Ends(out: seq<string>, buf: string, at: Lexer, command: string)
    requires Pending(out, buf, at, command, |command|)
    ensures Pieces(Bare, command) == out + [buf]
  {
    assert buf + "" == buf;
  }

  /** A backslash with nothing behind it escapes nothing. */
  lemma TrailingBackslash(out: seq<string>, buf: string, at: Lexer, to: Lexer, command: string)
    requires Pending(out, buf, at, command, |command|)
    ensures Pending(out, buf, to, command, |command|)
  {
  }

  /** The character at `i` joins the current piece. */
  lemma Joins(out: seq<string>, buf: string, at: Lexer, command: string, i: nat)
    requires i < |command| && !(at == Bare && Separator(command[i..]) > 0)
    requires Pending(out, buf, at, command, i)
    ensures Pending(out, buf + [command[i]], Step(at, command[i]), command, i + 1)
  {
    var c := command[i];
    assert command[i..][1..] == command[i + 1..];
    var later := Pieces(Step(at, c), command[i + 1..]);
    assert Pieces(at, command[i..]) == [[c] + later[0]] + later[1..];
    assert buf + ([c] + later[0]) == (buf + [c]) + later[0];
  }

  /** The separator at `i` ends the current piece. */
  lemma Cuts(out: seq<string>, buf: string, command: string, i: nat)
    requires i <= |command| && Separator(command[i..]) > 0 && Pending(out, buf, Bare, command, i)
    ensures Pending(out + [buf], "", Bare, command, i + Separator(command[i..]))
  {
    var n := Separator(command[i..]);
    assert command[i..][n..] == command[i + n..];
    GlueCut(out, buf, Pieces(Bare, command[i + n..]));
  }

  lemma GlueCut(out: seq<string>, buf: string, later: seq<string>)
    requires later != []
    ensures Glue(out, buf, [""] + later) == Glue(out + [buf], "", later)
  {
    assert "" + later[0] == later[0] && buf + "" == buf;
    assert [later[0]] + later[1..] == later;
    assert ([""] + later)[1..] == later;
  }

  lemma SeparatorAt(command: string, i: nat)
    requires i < |command|
    ensures var two := i + 1 < |command| && (command[i..i + 2] == "&&" || command[i..i + 2] == "||");
            Separator(command[i..]) == if two then 2 else if command[i] == ';' || command[i] == '|' then 1 else 0
  {
    if i + 1 < |command| {
      assert command[i..][..2] == command[i..i + 2];
    }
  }

  /** The scan: every character joins the current piece or ends it. */
  method CutPieces(command: string) returns (out: seq<string>)
    ensures out == Pieces(Bare, command)
  {
    hide Pending, Pieces, Separator, Glue;
    out := [];
    var buf := "";
    var i: nat, n := 0, |command|;
    var quote: Option<char> := None;
    Starts(command);
    while i < n
      invariant i <= n && (quote.Some? ==> quote.value == '\'' || quote.value == '"')
      invariant Pending(out, buf, Standing(quote), command, i)
    {
      var ch := command[i];
      SeparatorAt(command, i);
      if quote.Some? {
        Joins(out, buf, Standing(quote), command, i);
        buf := buf + [ch];
        if ch == '\\' && i + 1 < n {
          Joins(out, buf, InsideEscape(quote.value), command, i + 1);
          buf := buf + [command[i + 1]];
          i := i + 2;
          continue;
        }
        if i + 1 == n { TrailingBackslash(out, buf, Step(Standing(quote), ch), Standing(quote), command); }
        if Some(ch) == quote { quote := None; }
        i := i + 1;
        continue;
      }
      if ch == '\'' || ch == '"' {
        Joins(out, buf, Bare, command, i);
        quote := Some(ch);
        buf := buf + [ch];
        i := i + 1;
        continue;
      }
      if ch == '\\' && i + 1 < n {
        Joins(out, buf, Bare, command, i);
        buf := buf + [ch];
        Joins(out, buf, BareEscape, command, i + 1);
        buf := buf + [command[i + 1]];
        i := i + 2;
        continue;
      }
      if i + 1 < n && (command[i..i + 2] == "&&" || command[i..i + 2] == "||") {
        Cuts(out, buf, command, i);
        out := out + [buf];
        buf := "";
        i := i + 2;
        continue;
      }
      if ch == ';' || ch == '|' {
        Cuts(out, buf, command, i);
        out := out + [buf];
        buf := "";
        i := i + 1;
        continue;
      }
      Joins(out, buf, Bare, command, i);
      buf := buf + [ch];
      if i + 1 == n { TrailingBackslash(out, buf, Step(Bare, ch), Bare, command); }
      i := i + 1;
    }
    Ends(out, buf, Standing(quote), command);
    out := out + [buf];
  }

  method SplitTopLevel(command: string, space: char -> bool) returns (segments: seq<string>)
    ensures segments == Segments(command, space)
    ensures exists at :: Selects(Pieces(Bare, command), space, at, segments)
  {
    hide Selects, Pieces, Kept;
    var pieces := CutPieces(command);
    segments := KeepStripped(pieces, space);
    ghost var at := KeptSelects(pieces, space);
  }

  lemma KeptStep(pieces: seq<string>, space: char -> bool, k: nat)
    requires k < |pieces|
    ensures var stripped := Strip(pieces[k], space);
            Kept(pieces[k..], space) == (if stripped == "" then [] else [stripped]) + Kept(pieces[k + 1..], space)
  {
    hide Strip;
    assert pieces[k..][1..] == pieces[k + 1..];
  }

  lemma NothingKept(pieces: seq<string>, space: char -> bool)
    ensures pieces[0..] == pieces && pieces[|pieces|..] == [] && Kept([], space) == []
  {
  }

  method KeepStripped(pieces: seq<string>, space: char -> bool) returns (segments: seq<string>)
    ensures segments == Kept(pieces, space)
  {
    hide Strip, Kept;
    segments := [];
    NothingKept(pieces, space);
    for k := 0 to |pieces|
      invariant Kept(pieces, space) == segments + Kept(pieces[k..], space)
    {
      KeptStep(pieces, space, k);
      var stripped := Strip(pieces[k], space);
      ghost var rest := Kept(pieces[k + 1..], space);
      assert segments + ([stripped] + rest) == (segments + [stripped]) + rest;
      if stripped != "" { segments := segments + [stripped]; }
    }
  }

  // ---------- the allowlist ----------

  function UntilSpace(s: string, space: char -> bool): string
    decreases |s|
  {
    if s == "" || space(s[0]) then "" else [s[0]] + UntilSpace(s[1..], space)
  }

  function FirstWord(segment: string, space: char -> bool): string {
    UntilSpace(TrimLeft(segment, space), space)
  }

  /** The first word: what stands between leading whitespace and the next. */
  lemma FirstWordIs(segment: string, space: char -> bool) returns (left: string, rest: string)
    ensures segment == left + FirstWord(segment, space) + rest && forall c | c in left :: space(c)
    ensures forall c | c in FirstWord(segment, space) :: !space(c)
    ensures FirstWord(segment, space) == "" ==> rest == ""
    ensures rest != "" ==> space(rest[0])
  {
    var t := TrimLeft(segment, space);
    left := TrimLeftIs(segment, space);
    TrimLeftEnds(segment, space);
    rest := UntilSpaceIs(t, space);
    assert segment == left + (FirstWord(segment, space) + rest);
  }

  lemma {:induction false} UntilSpaceIs(s: string, space: char -> bool) returns (rest: string)
    ensures s == UntilSpace(s, space) + rest && (forall c | c in UntilSpace(s, space) :: !space(c))
    ensures rest != "" ==> space(rest[0])
    decreases |s|
  {
    if s == "" || space(s[0]) {
      rest := s;
    } else {
      rest := UntilSpaceIs(s[1..], space);
    }
  }

  /** A filter is excused only behind another segment. */
  predicate Covered(rules: Rules, segment: string, index: nat) {
    || rules.allowed(segment)
    || FirstWord(segment, rules.space) in rules.free
    || (index > 0 && FirstWord(segment, rules.space) in rules.filters)
  }

  predicate AllCovered(rules: Rules, segments: seq<string>, n: nat)
    requires n <= |segments|
  {
    forall k | 0 <= k < n :: Covered(rules, segments[k], k)
  }

  /** The first segment that is not covered, if any. */
  predicate FirstRefused(rules: Rules, segments: seq<string>, refused: Option<string>) {
    match refused
    case None => AllCovered(rules, segments, |segments|)
    case Some(segment) =>
      exists k | 0 <= k < |segments| ::
        segments[k] == segment && !Covered(rules, segment, k) && AllCovered(rules, segments, k)
  }

  /** A piece of the command is excused: it is blank, allowed, free, or a filter behind a piece that is not blank. */
  ghost predicate Excused(rules: Rules, pieces: seq<string>, i: nat)
    requires i < |pieces|
  {
    var segment := Strip(pieces[i], rules.space);
    || segment == "" || rules.allowed(segment) || FirstWord(segment, rules.space) in rules.free
    || (FirstWord(segment, rules.space) in rules.filters && exists k | 0 <= k < i :: Strip(pieces[k], rules.space) != "")
  }

  ghost predicate AllExcused(rules: Rules, pieces: seq<string>, n: nat)
    requires n <= |pieces|
  {
    forall i | 0 <= i < n :: Excused(rules, pieces, i)
  }

  /** Said of the command's own pieces: either every one is excused, or this is the first that is not. */
  ghost predicate FirstUnexcused(rules: Rules, pieces: seq<string>, refused: Option<string>) {
    match refused
    case None => AllExcused(rules, pieces, |pieces|)
    case Some(segment) =>
      exists i | 0 <= i < |pieces| ::
        segment == Strip(pieces[i], rules.space) && !Excused(rules, pieces, i) && AllExcused(rules, pieces, i)
  }

  /** A segment is covered exactly when the piece it comes from is excused. */
  lemma CoveredIff(rules: Rules, pieces: seq<string>, at: seq<nat>, segments: seq<string>, j: nat)
    requires Selects(pieces, rules.space, at, segments) && j < |at|
    ensures Covered(rules, segments[j], j) <==> Excused(rules, pieces, at[j])
  {
    hide Strip, FirstWord;
    if j > 0 {
      assert at[j - 1] < at[j] && Strip(pieces[at[j - 1]], rules.space) != "";
    } else {
      assert forall k | 0 <= k < |at| :: at[0] <= at[k];
    }
  }

  lemma BlankIsExcused(rules: Rules, pieces: seq<string>, at: seq<nat>, n: nat, i: nat)
    requires NotBlank(pieces, rules.space, at) && n <= |at| && i < |pieces|
    requires n < |at| ==> i < at[n]
    requires forall j | 0 <= j < n :: Excused(rules, pieces, at[j])
    ensures Excused(rules, pieces, i)
  {
    hide Strip, FirstWord;
    if Strip(pieces[i], rules.space) != "" {
      assert Reaches(at, i);
      var j :| 0 <= j < |at| && at[j] == i;
      assert j < n;
    }
  }

  /** The verdict on the segments is the verdict on the pieces: no piece that runs goes unchecked. */
  lemma RefusedIsUnexcused(rules: Rules, pieces: seq<string>, at: seq<nat>, segments: seq<string>, refused: Option<string>)
    requires Selects(pieces, rules.space, at, segments) && FirstRefused(rules, segments, refused)
    ensures FirstUnexcused(rules, pieces, refused)
  {
    hide Strip, FirstWord, Covered, Excused;
    forall j | 0 <= j < |at| ensures Covered(rules, segments[j], j) <==> Excused(rules, pieces, at[j]) {
      CoveredIff(rules, pieces, at, segments, j);
    }
    var n := |at|;
    if refused.Some? {
      n :| 0 <= n < |at| && segments[n] == refused.value && !Covered(rules, refused.value, n) && AllCovered(rules, segments, n);
    }
    forall i | 0 <= i < |pieces| && (n < |at| ==> i < at[n]) ensures Excused(rules, pieces, i) {
      BlankIsExcused(rules, pieces, at, n, i);
    }
  }

  method FindRefused(rules: Rules, command: string) returns (refused: Option<string>)
    ensures FirstRefused(rules, Segments(command, rules.space), refused)
  {
    hide Selects, NotBlank, Pieces, Strip, Kept;
    var segments := SplitTopLevel(command, rules.space);
    for index := 0 to |segments|
      invariant AllCovered(rules, segments, index)
    {
      if rules.allowed(segments[index]) { continue; }
      var word := FirstWord(segments[index], rules.space);
      if word in rules.free { continue; }
      if index > 0 && word in rules.filters { continue; }
      assert !Covered(rules, segments[index], index);
      return Some(segments[index]);
    }
    return None;
  }

  /** Exactly the first segment that the allowlist and the two concessions do not cover. */
  method UnauthorisedSegment(allowed: string -> bool, space: char -> bool, command: string)
    returns (refused: Option<string>)
    ensures FirstRefused(Rules(allowed, space, POSITION_FREE, READ_ONLY_FILTERS), Segments(command, space), refused)
    ensures FirstUnexcused(Rules(allowed, space, POSITION_FREE, READ_ONLY_FILTERS), Pieces(Bare, command), refused)
  {
    var rules := Rules(allowed, space, POSITION_FREE, READ_ONLY_FILTERS);
    refused := FindRefused(rules, command);
    ghost var at := KeptSelects(Pieces(Bare, command), space);
    RefusedIsUnexcused(rules, Pieces(Bare, command), at, Segments(command, space), refused);
  }
}
