/** Properties of the scanner specification: where each token sits and how
    far the column moves, how blanks count lines and columns, the shape of
    string, number and identifier literals, progress, the behaviour at and
    past the end of the input, and the token streams of concrete inputs. */
module ScannerFacts {
  import opened Options
  import opened Token
  import opened Scanner

  // ---------------------------------------------------------------------
  // Scanner position

  /** Bounds on the scanner position used by the parser: once the first
      rune is read, every token moves the position forward; no call moves it
      more than one past the end of the input, unless it moves it by at most
      one; a non-EOF token starts inside the input (after the skipped
      blanks) and ends at most one past its end; an EOF token leaves the position at the read after the NUL it
      stands for, so from at or past the end it moves the position by one. */
  lemma LexAdvances(runes: seq<char>, c: Cursor)
    requires Coherent(runes, c) && Lex(runes, c).Step?
    ensures var r := Lex(runes, c);
            (Primed(c) ==> c.position < r.next.position) &&
            (r.next.position <= c.position + 1 || r.next.position <= |runes| + 1) &&
            (r.token.kind != Eof ==> c.position < |runes| && r.next.position <= |runes| + 1)
    ensures var r := Lex(runes, c);
            r.token.kind != Eof ==> SkipBlanks(runes, c).position < |runes|
    ensures var r := Lex(runes, c);
            var s := SkipBlanks(runes, c);
            r.token.kind == Eof ==>
              At(runes, s.position) == NUL && r.next.position == s.readPosition &&
              (Primed(c) && c.position >= |runes| ==> r.next.position == c.position + 1)
  {
  }

  // ---------------------------------------------------------------------
  // Blanks

  /** The number of line breaks in a run of blanks, counted independently of
      the scanner: every carriage return and every line feed. */
  function LineBreaks(seg: string): nat {
    multiset(seg)['\r'] + multiset(seg)['\n']
  }

  /** The column after a run of blanks that started at column col, read from
      the right: the runes after the last line break, or col plus the whole
      run when there is no break. */
  function ColumnAfter(seg: string, col: int): int
    decreases |seg|
  {
    if seg == [] then col
    else if IsNewLine(seg[|seg| - 1]) then 0
    else ColumnAfter(seg[..|seg| - 1], col) + 1
  }

  lemma {:induction false} ColumnAfterCons(r: char, t: string, col: int)
    ensures ColumnAfter([r] + t, col) == ColumnAfter(t, if IsNewLine(r) then 0 else col + 1)
    decreases |t|
  {
    if t == [] {
    } else {
      var u := t[..|t| - 1];
      assert ([r] + t)[..|[r] + t| - 1] == [r] + u;
      ColumnAfterCons(r, u, col);
    }
  }

  /** The runes from i up to j, or nothing when that is not a slice. */
  function Segment(runes: seq<char>, i: nat, j: nat): string {
    if i <= j <= |runes| then runes[i..j] else []
  }

  /** skipWhitespace adds one line per line break (so a carriage return
      followed by a line feed counts two). */
  lemma {:induction false} SkipBlanksLines(runes: seq<char>, c: Cursor)
    requires Coherent(runes, c)
    ensures var s := SkipBlanks(runes, c);
            s.line == c.line + LineBreaks(Segment(runes, c.position, s.position))
    decreases |runes| - c.position
  {
    var r := At(runes, c.position);
    if IsBlank(r) {
      var d := if IsNewLine(r) then ReadRune(c).(line := c.line + 1, column := 0)
               else ReadRune(c).(column := c.column + 1);
      assert c.position < |runes| && Primed(c);
      var s := SkipBlanks(runes, d);
      assert SkipBlanks(runes, c) == s;
      SkipBlanksLines(runes, d);
      var tail := Segment(runes, d.position, s.position);
      SegmentCons(runes, c.position, s.position);
      assert multiset([r] + tail) == multiset([r]) + multiset(tail);
    }
  }

  /** skipWhitespace leaves the column at the count of blanks after the last
      line break, or advanced by every blank when there is no break. */
  lemma {:induction false} SkipBlanksColumn(runes: seq<char>, c: Cursor)
    requires Coherent(runes, c)
    ensures var s := SkipBlanks(runes, c);
            s.column == ColumnAfter(Segment(runes, c.position, s.position), c.column)
    decreases |runes| - c.position
  {
    var r := At(runes, c.position);
    if IsBlank(r) {
      var d := if IsNewLine(r) then ReadRune(c).(line := c.line + 1, column := 0)
               else ReadRune(c).(column := c.column + 1);
      assert c.position < |runes| && Primed(c);
      var s := SkipBlanks(runes, d);
      assert SkipBlanks(runes, c) == s;
      SkipBlanksColumn(runes, d);
      var tail := Segment(runes, d.position, s.position);
      SegmentCons(runes, c.position, s.position);
      ColumnAfterCons(r, tail, c.column);
    }
  }

  lemma SegmentCons(runes: seq<char>, i: nat, j: nat)
    requires i < j <= |runes|
    ensures Segment(runes, i, j) == [runes[i]] + Segment(runes, i + 1, j)
  {
    assert runes[i..j] == [runes[i]] + runes[i + 1..j];
  }

  /** A carriage return followed by a line feed advances the line by two. */
  lemma CarriageReturnLineFeed(runes: seq<char>, c: Cursor)
    requires Primed(c) && c.position + 2 <= |runes|
    requires runes[c.position] == '\r' && runes[c.position + 1] == '\n'
    requires !IsBlank(At(runes, c.position + 2))
    ensures SkipBlanks(runes, c).line == c.line + 2 && SkipBlanks(runes, c).column == 0
  {
    var c1 := ReadRune(c).(line := c.line + 1, column := 0);
    var c2 := ReadRune(c1).(line := c.line + 2, column := 0);
    assert SkipBlanks(runes, c) == SkipBlanks(runes, c1) == SkipBlanks(runes, c2) == c2;
  }

  // ---------------------------------------------------------------------
  // String literals

  /** A string literal without backslashes ends exactly at the first quote or
      NUL after the opening quote (or at the end of the input). */
  lemma PlainStringEnd(runes: seq<char>, p: nat, q: nat)
    requires p < q <= |runes|
    requires forall i | p < i < q :: runes[i] != '\\'
    ensures StringEnd(runes, p) == Some(q) <==>
            Terminates(At(runes, q)) && forall i | p < i < q :: !Terminates(runes[i])
  {
    if Terminates(At(runes, q)) && forall i | p < i < q :: !Terminates(runes[i]) {
      PlainScanFinds(runes, p + 1, q);
    }
    if StringEnd(runes, p) == Some(q) {
      PlainScanFirst(runes, p + 1, q);
    }
  }

  lemma {:induction false} PlainScanFinds(runes: seq<char>, i: nat, q: nat)
    requires i <= q <= |runes|
    requires forall k | i <= k < q :: runes[k] != '\\' && !Terminates(runes[k])
    requires Terminates(At(runes, q))
    ensures StringScan(runes, i) == Some(q)
    decreases q - i
  {
    if i < q {
      PlainScanFinds(runes, i + 1, q);
    }
  }

  lemma {:induction false} PlainScanFirst(runes: seq<char>, i: nat, q: nat)
    requires i <= q <= |runes|
    requires forall k | i <= k < q :: runes[k] != '\\'
    requires StringScan(runes, i) == Some(q)
    ensures forall k | i <= k < q :: !Terminates(runes[k])
    decreases q - i
  {
    if i < q {
      assert runes[i] != '\\';
      PlainScanFirst(runes, i + 1, q);
    }
  }

  /** A backslash followed by one of the simple escapes is skipped together
      with it, so an escaped quote or backslash never ends the literal. */
  lemma SimpleEscapeSkipped(runes: seq<char>, i: nat)
    requires i + 1 < |runes| && runes[i] == '\\' && IsSimpleEscape(runes[i + 1])
    ensures StringScan(runes, i) == StringScan(runes, i + 2)
  {
  }

  /** A backslash and 'u' at i: the four reads happen whatever the runes are
      (hex digits or not); peekRuneN goes out of range unless the escape ends
      the input or at least eight runes start at the backslash, and when the
      escape ends the input the final slice goes past its end. */
  lemma UnicodeEscape(runes: seq<char>, i: nat)
    requires i + 1 < |runes| && runes[i] == '\\' && runes[i + 1] == 'u'
    ensures UnicodePeeksInRange(|runes|, i) <==> (|runes| - i == 2 || |runes| - i >= 8)
    ensures |runes| - i <= 7 ==> StringScan(runes, i).None? || StringScan(runes, i).value > |runes|
    ensures |runes| - i >= 8 ==>
              StringScan(runes, i) == (if Terminates(runes[i + 4]) then Some(i + 4) else StringScan(runes, i + 5))
  {
  }

  // ---------------------------------------------------------------------
  // Number literals

  predicate AllDigits(s: string) {
    forall i | 0 <= i < |s| :: IsDigit(s[i])
  }

  predicate SignText(s: string) {
    s == [] || s == "-"
  }

  predicate FractionText(s: string) {
    s == [] || (s[0] == '.' && AllDigits(s[1..]))
  }

  predicate ExponentText(s: string) {
    s == [] ||
    ((s[0] == 'e' || s[0] == 'E') &&
     (AllDigits(s[1..]) || (|s| >= 2 && (s[1] == '-' || s[1] == '+') && AllDigits(s[2..]))))
  }

  /** The parts of a number literal split at i, j and k: an optional '-', the
      integer digits, an optional fraction ('.' and digits), and an optional
      exponent ('e' or 'E', an optional sign, digits); every run of digits
      may be empty. */
  predicate NumberParts(s: string, i: nat, j: nat, k: nat)
    requires i <= j <= k <= |s|
  {
    SignText(s[..i]) && AllDigits(s[i..j]) && FractionText(s[j..k]) && ExponentText(s[k..])
  }

  predicate IsNumberText(s: string) {
    exists i, j, k | 0 <= i <= j <= k <= |s| :: NumberParts(s, i, j, k)
  }

  lemma DigitsRun(runes: seq<char>, i: nat)
    requires i <= |runes|
    ensures AllDigits(runes[i..DigitsEnd(runes, i)])
  {
    var j := DigitsEnd(runes, i);
    forall k | 0 <= k < j - i
      ensures IsDigit(runes[i..j][k])
    {
      assert runes[i..j][k] == runes[i + k];
    }
  }

  lemma ExponentRun(runes: seq<char>, m: nat)
    requires m <= |runes|
    ensures ExponentText(runes[m..ExponentEnd(runes, m)])
  {
    var e := ExponentEnd(runes, m);
    var x := runes[m..e];
    if At(runes, m) == 'e' || At(runes, m) == 'E' {
      if At(runes, m + 1) == '-' || At(runes, m + 1) == '+' {
        DigitsRun(runes, m + 2);
        assert x[2..] == runes[m + 2..e];
      } else {
        DigitsRun(runes, m + 1);
        assert x[1..] == runes[m + 1..e];
      }
    }
  }

  lemma FractionRun(runes: seq<char>, b: nat)
    requires b <= |runes| && !IsDigit(At(runes, b))
    ensures FractionText(runes[b..DigitsEnd(runes, Optional(runes, b, '.'))])
  {
    var d := Optional(runes, b, '.');
    var m := DigitsEnd(runes, d);
    DigitsRun(runes, d);
    if d > b {
      assert runes[b..m][1..] == runes[d..m];
    } else {
      assert m == b;
    }
  }

  /** readNumber's literal has the shape of a number, and the rune after it
      is not a digit. */
  lemma NumberLiteralShape(runes: seq<char>, p: nat)
    requires IsDigit(At(runes, p)) || At(runes, p) == '-'
    ensures IsNumberText(runes[p..NumberEnd(runes, p)])
    ensures !IsDigit(At(runes, NumberEnd(runes, p)))
  {
    var a := Optional(runes, p, '-');
    var b := DigitsEnd(runes, a);
    var m := MantissaEnd(runes, p);
    var e := NumberEnd(runes, p);
    if a > p {
      assert runes[p..a] == "-";
    }
    DigitsRun(runes, a);
    FractionRun(runes, b);
    ExponentRun(runes, m);
    SlicedParts(runes, p, a, b, m, e);
  }

  lemma SlicedParts(runes: seq<char>, p: nat, a: nat, b: nat, m: nat, e: nat)
    requires p <= a <= b <= m <= e <= |runes|
    requires SignText(runes[p..a]) && AllDigits(runes[a..b])
    requires FractionText(runes[b..m]) && ExponentText(runes[m..e])
    ensures IsNumberText(runes[p..e])
  {
    var s := runes[p..e];
    SubSlice(runes, p, e, 0, a - p);
    SubSlice(runes, p, e, a - p, b - p);
    SubSlice(runes, p, e, b - p, m - p);
    SubSlice(runes, p, e, m - p, e - p);
    assert NumberParts(s, a - p, b - p, m - p);
  }

  lemma SubSlice(runes: seq<char>, p: nat, e: nat, x: nat, y: nat)
    requires p <= e <= |runes| && x <= y <= e - p
    ensures runes[p..e][x..y] == runes[p + x..p + y]
  {
    assert forall i | 0 <= i < y - x :: runes[p..e][x..y][i] == runes[p + x + i];
  }

  // ---------------------------------------------------------------------
  // Identifiers and other runes

  /** An identifier run at s: a letter followed by letters and digits, up to
      the first rune that is neither; its kind is the keyword table's. */
  lemma IdentifierToken(runes: seq<char>, s: Cursor)
    requires Primed(s) && IsLetter(At(runes, s.position))
    ensures var r := ScanAt(runes, s);
            var t := r.token;
            r.Step? && t.kind == LookupIdent(t.literal) &&
            |t.literal| >= 1 && IsLetter(t.literal[0]) &&
            (forall i | 0 <= i < |t.literal| :: IsLetterOrDigit(t.literal[i])) &&
            s.position + |t.literal| <= |runes| && t.literal == runes[s.position..s.position + |t.literal|] &&
            !IsLetterOrDigit(At(runes, s.position + |t.literal|))
  {
    var p := s.position;
    var e := IdentEnd(runes, p);
    assert ScanAt(runes, s) == ScanIdentifier(runes, s);
    var literal := runes[p..e];
    forall i | 0 <= i < |literal|
      ensures IsLetterOrDigit(literal[i])
    {
      assert literal[i] == runes[p + i];
    }
  }

  /** A delimiter rune at s becomes a one-rune token whose literal is its
      kind's spelling, one column wide. */
  lemma DelimiterToken(runes: seq<char>, s: Cursor, k: TokenKind)
    requires Primed(s) && k in {Colon, Comma, Dot, LBrace, RBrace, LBracket, RBracket}
    requires [At(runes, s.position)] == Spelling(k)
    ensures ScanAt(runes, s) == Step(Token(k, Spelling(k), s.line, s.column),
                                     Cursor(s.position + 1, s.position + 2, s.line, s.column + 1))
  {
  }

  /** A rune at s that starts no token becomes an ILLEGAL token of that one
      rune, one column wide. */
  lemma IllegalRune(runes: seq<char>, s: Cursor)
    requires Primed(s) && s.position < |runes|
    requires var ch := runes[s.position];
             ch != ':' && ch != ',' && ch != '.' && ch != '{' && ch != '}' && ch != '"' &&
             ch != '[' && ch != ']' && ch != NUL && !IsLetter(ch) && !IsDigit(ch) && ch != '-'
    ensures ScanAt(runes, s) == Step(Token(Illegal, [runes[s.position]], s.line, s.column),
                                     Cursor(s.position + 1, s.position + 2, s.line, s.column + 1))
  {
  }

  // ---------------------------------------------------------------------
  // End of input

  /** NextToken called k times: the k tokens, or None on an out-of-range
      index. */
  function ScanTokens(runes: seq<char>, c: Cursor, k: nat): (r: Option<seq<Token>>)
    requires Coherent(runes, c)
    ensures r.Some? ==> |r.value| == k
    decreases k
  {
    if k == 0 then Some([])
    else
      match Lex(runes, c)
      case OutOfRange => None
      case Step(t, next) =>
        match ScanTokens(runes, next, k - 1)
        case None => None
        case Some(ts) => Some([t] + ts)
  }

  /** Past the end of the input NextToken returns EOF on the same line and
      moves the column by one. */
  lemma PastEndStep(runes: seq<char>, c: Cursor)
    requires Primed(c) && c.position >= |runes|
    ensures Lex(runes, c) == Step(Token(Eof, "EOF", c.line, c.column),
                                  Cursor(c.position + 1, c.position + 2, c.line, c.column + 1))
  {
    assert SkipBlanks(runes, c) == c;
  }

  /** Past the end of the input every call returns EOF on the same line,
      the column moving one further per call. */
  lemma {:induction false} PastEnd(runes: seq<char>, c: Cursor, k: nat)
    requires Primed(c) && c.position >= |runes|
    ensures ScanTokens(runes, c, k) ==
            Some(seq(k, i => Token(Eof, "EOF", c.line, c.column + i)))
    decreases k
  {
    if k == 0 {
      assert seq(k, i => Token(Eof, "EOF", c.line, c.column + i)) == [];
    } else {
      var next := Cursor(c.position + 1, c.position + 2, c.line, c.column + 1);
      PastEndStep(runes, c);
      PastEnd(runes, next, k - 1);
      var tail := seq(k - 1, i => Token(Eof, "EOF", next.line, next.column + i));
      assert ScanTokens(runes, c, k) == Some([Token(Eof, "EOF", c.line, c.column)] + tail);
      var all := seq(k, i => Token(Eof, "EOF", c.line, c.column + i));
      assert forall i | 0 < i < k :: all[i] == tail[i - 1];
      assert all == [Token(Eof, "EOF", c.line, c.column)] + tail;
    }
  }

  /** A NUL rune inside the input reads as EOF, and scanning then resumes
      at the rune after it. */
  lemma EmbeddedNul(runes: seq<char>, s: Cursor)
    requires Primed(s) && s.position < |runes| && runes[s.position] == NUL
    ensures ScanAt(runes, s) == Step(Token(Eof, "EOF", s.line, s.column),
                                     Cursor(s.position + 1, s.position + 2, s.line, s.column + 1))
  {
  }

  /** On empty input (where NewLexer reads nothing, see Initial) NextToken
      returns EOF at line 1, column 0. */
  lemma EmptyInput(runes: seq<char>, c: Cursor)
    requires |runes| == 0 && c == Cursor(0, 0, 1, 0)
    ensures Lex(runes, c) == Step(Token(Eof, "EOF", 1, 0), Cursor(0, 1, 1, 1))
  {
    assert SkipBlanks(runes, c) == c;
  }
}
