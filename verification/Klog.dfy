/** The circular log (klog.c): it shows the end of an unbounded log wrapped into lines. */
module Klog {
  import opened Types

  const KLOG_LINES := 64
  const KLOG_LINE_SIZE := 42

  /** A paragraph cut into lines. All but the last are full; the last never is. */
  function Chunks(p: string): (ls: seq<string>)
    ensures ls != [] && forall l :: l in ls ==> |l| <= KLOG_LINE_SIZE
  {
    if |p| < KLOG_LINE_SIZE then [p] else [p[..KLOG_LINE_SIZE]] + Chunks(p[KLOG_LINE_SIZE..])
  }

  /** Where the first paragraph of t ends. */
  function ParagraphEnd(t: string): (i: nat)
    requires '\n' in t
    ensures i < |t| && t[i] == '\n' && '\n' !in t[..i]
  {
    if t[0] == '\n' then 0 else 1 + ParagraphEnd(t[1..])
  }

  /** The unbounded log: the lines of text t. */
  function Lines(t: string): (ls: seq<string>)
    ensures ls != [] && forall l :: l in ls ==> |l| <= KLOG_LINE_SIZE
    decreases |t|
  {
    if '\n' in t then
      var i := ParagraphEnd(t);
      Chunks(t[..i]) + Lines(t[i + 1..])
    else
      Chunks(t)
  }

  function Last(ls: seq<string>): string
    requires ls != []
  {
    ls[|ls| - 1]
  }

  /** ls with c at the end of its last line. */
  function Typed(ls: seq<string>, c: char): seq<string>
    requires ls != []
  {
    ls[..|ls| - 1] + [Last(ls) + [c]]
  }

  /** A full last line is followed by a new one. */
  function Wrapped(ls: seq<string>): seq<string>
    requires ls != []
  {
    if |Last(ls)| >= KLOG_LINE_SIZE then ls + [""] else ls
  }

  lemma NewLineLast(ls: seq<string>)
    ensures Last(ls + [""]) == ""
  {
  }

  lemma {:induction false} ChunksSnoc(p: string, c: char)
    ensures Chunks(p + [c]) == Wrapped(Typed(Chunks(p), c))
    ensures |Last(Chunks(p))| < KLOG_LINE_SIZE
  {
    if |p| >= KLOG_LINE_SIZE {
      var head, rest := p[..KLOG_LINE_SIZE], p[KLOG_LINE_SIZE..];
      ChunksSnoc(rest, c);
      assert (p + [c])[..KLOG_LINE_SIZE] == head && (p + [c])[KLOG_LINE_SIZE..] == rest + [c];
      AfterLines([head], Chunks(rest), c);
    } else if |p| + 1 == KLOG_LINE_SIZE {
      assert (p + [c])[..KLOG_LINE_SIZE] == p + [c] && (p + [c])[KLOG_LINE_SIZE..] == "";
      assert Chunks("") == [""];
    }
  }

  /** Typing happens in the last lines only. */
  lemma AfterLines(a: seq<string>, b: seq<string>, c: char)
    requires b != []
    ensures Wrapped(Typed(a + b, c)) == a + Wrapped(Typed(b, c))
  {
    assert (a + b)[..|a + b| - 1] == a + b[..|b| - 1];
    assert Typed(a + b, c) == a + Typed(b, c);
  }

  /** One more character of text: a new line, or a character on the last line, which may then be full. */
  lemma {:induction false} LinesSnoc(t: string, c: char)
    ensures Lines(t + [c]) == if c == '\n' then Lines(t) + [""] else Wrapped(Typed(Lines(t), c))
    ensures |Last(Lines(t))| < KLOG_LINE_SIZE
    decreases |t|
  {
    hide Chunks, Wrapped, Typed, ParagraphEnd;
    if '\n' in t {
      var i := ParagraphEnd(t);
      LaterParagraphs(t, c);
      LinesSnoc(t[i + 1..], c);
      hide Lines;
      AfterLines(Chunks(t[..i]), Lines(t[i + 1..]), c);
      assert Chunks(t[..i]) + (Lines(t[i + 1..]) + [""]) == Lines(t) + [""];
    } else {
      ChunksSnoc(t, c);
      if c == '\n' {
        ParagraphEnds(t);
      }
    }
  }

  /** A character at the end of a text of several paragraphs is at the end of the later ones. */
  lemma LaterParagraphs(t: string, c: char)
    requires '\n' in t
    ensures
      var i := ParagraphEnd(t);
      && Lines(t) == Chunks(t[..i]) + Lines(t[i + 1..])
      && Lines(t + [c]) == Chunks(t[..i]) + Lines(t[i + 1..] + [c])
  {
    hide Chunks, ParagraphEnd;
    var i := ParagraphEnd(t);
    SameEnd(t, c);
    assert (t + [c])[..i] == t[..i] && (t + [c])[i + 1..] == t[i + 1..] + [c];
  }

  lemma ParagraphEnds(t: string)
    requires '\n' !in t
    ensures Lines(t + "\n") == Chunks(t) + [""]
  {
    var u := t + "\n";
    assert u[|t|] == '\n';
    var i := ParagraphEnd(u);
    assert i == |t| && u[..i] == t && u[i + 1..] == "";
    assert Lines("") == [""];
  }

  lemma {:induction false} SameEnd(t: string, c: char)
    requires '\n' in t
    ensures '\n' in t + [c] && ParagraphEnd(t + [c]) == ParagraphEnd(t)
  {
    assert (t + [c])[0] == t[0];
    if t[0] != '\n' {
      SameEnd(t[1..], c);
      assert (t + [c])[1..] == t[1..] + [c];
    }
  }

  lemma {:induction false} ChunksAt(p: string)
    ensures |Chunks(p)| == |p| / 42 + 1
    ensures forall i :: 0 <= i < |p| / 42 ==> Chunks(p)[i] == p[42 * i..42 * i + 42]
    ensures Last(Chunks(p)) == p[|p| - |p| % 42..]
  {
    if |p| >= KLOG_LINE_SIZE {
      var rest := p[KLOG_LINE_SIZE..];
      ChunksAt(rest);
      assert |rest| % 42 == |p| % 42 && |rest| / 42 == |p| / 42 - 1;
      forall i | 0 <= i < |p| / 42
        ensures Chunks(p)[i] == p[42 * i..42 * i + 42]
      {
        if i > 0 {
          assert Chunks(p)[i] == Chunks(rest)[i - 1] == rest[42 * (i - 1)..42 * (i - 1) + 42];
        }
      }
    }
  }

  /** The log of one paragraph: line i holds its characters from 42 * i on, and no line is longer than 42. */
  lemma LinesOfParagraph(p: string)
    requires '\n' !in p
    ensures |Lines(p)| == |p| / 42 + 1
    ensures forall i :: 0 <= i < |p| / 42 ==> Lines(p)[i] == p[42 * i..42 * i + 42]
    ensures Last(Lines(p)) == p[|p| - |p| % 42..]
  {
    ChunksAt(p);
  }

  /** A line break ends the line under way, whatever its length, and what follows starts a new one. */
  lemma LinesOfText(p: string, t: string)
    requires '\n' !in p
    ensures Lines(p + "\n" + t) == Lines(p) + Lines(t)
  {
    var u := p + "\n" + t;
    assert u[|p|] == '\n';
    assert u[..|p|] == p && u[|p| + 1..] == t;
    ParagraphEndIs(u, |p|);
  }

  lemma {:induction false} ParagraphEndIs(u: string, n: nat)
    requires n < |u| && u[n] == '\n' && '\n' !in u[..n]
    ensures ParagraphEnd(u) == n
  {
    if n > 0 {
      assert u[0] in u[..n];
      assert u[..n][1..] == u[1..][..n - 1];
      ParagraphEndIs(u[1..], n - 1);
    }
  }

  function Concat(ls: seq<string>): string {
    if ls == [] then "" else ls[0] + Concat(ls[1..])
  }

  function WithoutBreaks(t: string): string {
    if t == "" then ""
    else if t[|t| - 1] == '\n' then WithoutBreaks(t[..|t| - 1])
    else WithoutBreaks(t[..|t| - 1]) + [t[|t| - 1]]
  }

  lemma {:induction false} ConcatLast(ls: seq<string>)
    requires ls != []
    ensures Concat(ls) == Concat(ls[..|ls| - 1]) + Last(ls)
  {
    if |ls| > 1 {
      ConcatLast(ls[1..]);
      assert ls[1..][..|ls| - 2] == ls[..|ls| - 1][1..];
    } else {
      assert ls[1..] == [];
    }
  }

  /** Wrapping loses, repeats and reorders nothing: line after line, the log is the text without its line breaks. */
  lemma {:induction false} NothingLost(t: string)
    ensures Concat(Lines(t)) == WithoutBreaks(t)
  {
    if t == "" {
      assert Lines(t)[1..] == [];
    } else {
      var u, c := t[..|t| - 1], t[|t| - 1];
      assert t == u + [c];
      NothingLost(u);
      LinesSnoc(u, c);
      hide Lines, Concat;
      ConcatTyped(Lines(u), c);
    }
  }

  lemma ConcatTyped(ls: seq<string>, c: char)
    requires ls != []
    ensures Concat(ls + [""]) == Concat(ls) && Concat(Wrapped(Typed(ls, c))) == Concat(ls) + [c]
  {
    var w := Typed(ls, c);
    ConcatLast(ls);
    ConcatLast(w);
    ConcatLast(ls + [""]);
    ConcatLast(w + [""]);
    hide Concat;
    assert (ls + [""])[..|ls|] == ls && (w + [""])[..|w|] == w && w[..|ls| - 1] == ls[..|ls| - 1];
  }

  /** Line j as the buffer shows it: blank-padded, but the very first line was never blanked. */
  function Padded(ls: seq<string>, j: nat): (s: string)
    requires j < |ls| && |ls[j]| <= KLOG_LINE_SIZE
    ensures |s| == KLOG_LINE_SIZE
  {
    ls[j] + Filled(if j == 0 then '\0' else ' ', KLOG_LINE_SIZE - |ls[j]|)
  }

  function Filled(c: char, n: nat): string {
    seq(n, _ => c)
  }

  ghost predicate RowIs(b: array2<char>, r: nat, s: string)
    reads b
  {
    r < b.Length0 && |s| == b.Length1 && forall i :: 0 <= i < |s| ==> b[r, i] == s[i]
  }

  lemma OtherRow(j: nat, k: nat)
    requires j < k < j + KLOG_LINES
    ensures j % KLOG_LINES != k % KLOG_LINES
  {
  }

  /** The text up to its terminator. */
  function Content(str: string): string
    requires '\0' in str
  {
    if str[0] == '\0' then "" else [str[0]] + Content(str[1..])
  }

  lemma {:induction false} ContentPrefix(str: string, i: nat)
    requires '\0' in str && i < |str| && '\0' !in str[..i]
    ensures str[i] == '\0' ==> Content(str) == str[..i]
  {
    if i > 0 {
      assert str[0] in str[..i];
      assert str[1..][..i - 1] == str[..i][1..];
      assert '\0' !in str[1..][..i - 1];
      assert str == [str[0]] + str[1..];
      ContentPrefix(str[1..], i - 1);
      assert str[..i] == [str[0]] + str[1..][..i - 1];
    }
  }

  lemma TerminatorAhead(str: string, i: nat)
    requires '\0' in str && i < |str| && '\0' !in str[..i] && str[i] != '\0'
    ensures i + 1 < |str| && '\0' !in str[..i + 1]
  {
    assert str[..i + 1] == str[..i] + [str[i]];
  }

  const DIGITS := "0123456789ABCDEF"

  type Digit = d: nat | d < 16

  /** The value of numeral s, least significant digit first. */
  function Value(s: seq<Digit>): nat {
    if s == [] then 0 else s[0] + 16 * Value(s[1..])
  }

  function Reverse(s: seq<Digit>): (r: seq<Digit>)
    ensures |r| == |s|
  {
    if s == [] then [] else Reverse(s[1..]) + [s[0]]
  }

  /** The hexadecimal numeral of n as one writes it, most significant digit first. */
  function Numeral(n: nat): seq<Digit> {
    if n < 16 then [n] else Numeral(n / 16) + [n % 16]
  }

  function Spelled(ds: seq<Digit>): (s: string)
    ensures |s| == |ds|
  {
    if ds == [] then "" else [DIGITS[ds[0]]] + Spelled(ds[1..])
  }

  lemma {:induction false} ReverseSnoc(s: seq<Digit>, d: Digit)
    ensures Reverse(s + [d]) == [d] + Reverse(s)
  {
    if s != [] {
      assert (s + [d])[1..] == s[1..] + [d];
      ReverseSnoc(s[1..], d);
    }
  }

  /** Numeral is a numeral: read from its last digit, it has value n. */
  lemma {:induction false} NumeralValue(n: nat)
    ensures Value(Reverse(Numeral(n))) == n
  {
    if n >= 16 {
      NumeralValue(n / 16);
      ReverseSnoc(Numeral(n / 16), n % 16);
      var r := Reverse(Numeral(n / 16));
      assert ([n % 16] + r)[1..] == r;
    } else {
      assert [n][1..] == [];
    }
  }

  lemma NextDigit(n: nat)
    ensures Reverse(Numeral(n)) == [n % 16] + if n / 16 > 0 then Reverse(Numeral(n / 16)) else []
  {
    if n >= 16 {
      ReverseSnoc(Numeral(n / 16), n % 16);
    } else {
      assert [n][1..] == [];
    }
  }

  lemma {:induction false} SpelledSnoc(ds: seq<Digit>, d: Digit)
    ensures Spelled(ds + [d]) == Spelled(ds) + [DIGITS[d]]
  {
    if ds != [] {
      assert (ds + [d])[1..] == ds[1..] + [d];
      SpelledSnoc(ds[1..], d);
    }
  }

  /** The digit that a character stands for in hexadecimal. */
  function Meaning(c: char): (d: Option<nat>)
    ensures d.Some? ==> d.value < 16
  {
    if '0' <= c <= '9' then Some(c as int - '0' as int)
    else if 'A' <= c <= 'F' then Some(c as int - 'A' as int + 10)
    else None
  }

  /** The number that characters stand for when the last one is the most significant. */
  function Backwards(s: string): Option<nat> {
    if s == "" then Some(0)
    else if Meaning(s[0]).Some? && Backwards(s[1..]).Some? then
      Some(Meaning(s[0]).value + 16 * Backwards(s[1..]).value)
    else None
  }

  /** The same when, as usual, the first one is. */
  function Forwards(s: string): Option<nat> {
    if s == "" then Some(0)
    else
      var n := |s| - 1;
      if Meaning(s[n]).Some? && Forwards(s[..n]).Some? then Some(Meaning(s[n]).value + 16 * Forwards(s[..n]).value)
      else None
  }

  lemma {:induction false} SpelledMeans(ds: seq<Digit>)
    ensures Backwards(Spelled(ds)) == Some(Value(ds))
    ensures ds != [] ==> Meaning(Spelled(ds)[|ds| - 1]) == Some(ds[|ds| - 1])
  {
    if ds != [] {
      SpelledMeans(ds[1..]);
      var s := Spelled(ds);
      assert s[1..] == Spelled(ds[1..]);
      DigitMeans(ds[0]);
    }
  }

  lemma DigitMeans(d: Digit)
    ensures Meaning(DIGITS[d]) == Some(d)
  {
    assert DIGITS[0] == '0' && DIGITS[1] == '1' && DIGITS[2] == '2' && DIGITS[3] == '3' && DIGITS[4] == '4';
    assert DIGITS[5] == '5' && DIGITS[6] == '6' && DIGITS[7] == '7' && DIGITS[8] == '8' && DIGITS[9] == '9';
  }

  lemma {:induction false} LeadingDigit(n: nat)
    ensures n > 0 ==> Numeral(n)[0] != 0
    ensures n == 0 ==> Numeral(n) == [0]
  {
    if n >= 16 {
      LeadingDigit(n / 16);
    }
  }

  lemma {:induction false} ReverseEnds(s: seq<Digit>)
    requires s != []
    ensures Reverse(s)[|s| - 1] == s[0]
  {
  }

  /** What klog_print_hex writes, without its table: the shortest text that says n from its last digit on. */
  lemma HexDecodes(n: nat)
    ensures
      var printed := Spelled(Reverse(Numeral(n)));
      && printed != "" && Backwards(printed) == Some(n) && (|printed| > 1 ==> printed[|printed| - 1] != '0')
  {
    var ds := Reverse(Numeral(n));
    NumeralValue(n);
    LeadingDigit(n);
    ReverseEnds(Numeral(n));
    SpelledMeans(ds);
  }

  function Mirror(s: string): (r: string)
    ensures |r| == |s|
  {
    if s == "" then "" else Mirror(s[1..]) + [s[0]]
  }

  lemma {:induction false} MirrorReads(s: string)
    ensures Forwards(Mirror(s)) == Backwards(s)
  {
    if s != "" {
      MirrorReads(s[1..]);
      var r := Mirror(s);
      assert r[..|s| - 1] == Mirror(s[1..]);
    }
  }

  lemma {:induction false} MirrorTwice(s: string)
    ensures Mirror(Mirror(s)) == s
  {
    if s != "" {
      MirrorTwice(s[1..]);
      MirrorSnoc(Mirror(s[1..]), s[0]);
    }
  }

  lemma {:induction false} MirrorSnoc(s: string, c: char)
    ensures Mirror(s + [c]) == [c] + Mirror(s)
  {
    if s != "" {
      assert (s + [c])[1..] == s[1..] + [c];
      MirrorSnoc(s[1..], c);
    }
  }

  lemma {:induction false} SameReading(s: string, t: string)
    requires |s| == |t| && Backwards(s) == Backwards(t) && Backwards(s).Some?
    ensures s == t
  {
    if s != "" {
      assert s == [s[0]] + s[1..] && t == [t[0]] + t[1..];
      SameReading(s[1..], t[1..]);
    }
  }

  /**
    klog_print_hex prints a number backwards. A reader who takes the first digit printed for the
    most significant one, as usual, reads n exactly when the print is a palindrome.
  */
  lemma HexMirrored(n: nat, printed: string)
    requires Backwards(printed) == Some(n)
    ensures Forwards(printed) == Some(n) <==> printed == Mirror(printed)
  {
    hide Forwards, Mirror;
    MirrorReads(printed);
    MirrorTwice(printed);
    MirrorReads(Mirror(printed));
    if Forwards(printed) == Some(n) {
      SameReading(printed, Mirror(printed));
    }
  }

  /** So it is for 16: the print "01" says 16, but reads 1. */
  lemma HexMirroredExample()
    ensures Backwards("01") == Some(0x10) && Forwards("01") == Some(0x01)
  {
    assert "01"[1..] == "1" && "1"[1..] == "" && "01"[..1] == "0" && "0"[..0] == "";
    assert Backwards("1") == Some(1) && Forwards("0") == Some(0);
  }

  class Log {
    const buffer: array2<char>
    var line: nat
    var column: nat
    ghost var text: string

    /** The buffer shows the last KLOG_LINES of ls; rows that no line has reached are still zero. */
    ghost predicate Rows(ls: seq<string>)
      reads this`line, buffer
    {
      && buffer.Length0 == KLOG_LINES && buffer.Length1 == KLOG_LINE_SIZE
      && ls != [] && (forall l :: l in ls ==> |l| <= KLOG_LINE_SIZE)
      && line == (|ls| - 1) % KLOG_LINES
      && (forall j: nat :: j < |ls| <= j + KLOG_LINES ==> RowIs(buffer, j % KLOG_LINES, Padded(ls, j)))
      && (forall r: nat :: |ls| <= r < KLOG_LINES ==> RowIs(buffer, r, Filled('\0', KLOG_LINE_SIZE)))
    }

    /** text is all that was ever printed. */
    ghost predicate Valid()
      reads this, buffer
    {
      Rows(Lines(text)) && column == |Last(Lines(text))| && column < KLOG_LINE_SIZE
    }

    constructor ()
      ensures Valid() && text == "" && fresh(buffer)
    {
      buffer := new char[KLOG_LINES, KLOG_LINE_SIZE]((i, j) => '\0');
      line, column, text := 0, 0, "";
      new;
      assert Lines("") == [""];
    }

    /** next_line */
    method NextLine(ghost ls: seq<string>)
      requires Rows(ls)
      modifies this`line, this`column, buffer
      ensures Rows(ls + [""]) && column == 0
      ensures line == (old(line) + 1) % 64 && (forall i :: 0 <= i < 42 ==> buffer[line, i] == ' ')
      ensures forall r, i :: 0 <= r < 64 && 0 <= i < 42 && r != line ==> buffer[r, i] == old(buffer[r, i])
    {
      ghost var n := |ls|;
      line := (line + 1) % KLOG_LINES;
      column := 0;
      assert line == n % KLOG_LINES;
      var i := 0;
      while i < KLOG_LINE_SIZE
        modifies buffer
        invariant 0 <= i <= KLOG_LINE_SIZE
        invariant forall k :: 0 <= k < i ==> buffer[line, k] == ' '
        invariant forall r, k :: 0 <= r < KLOG_LINES && 0 <= k < KLOG_LINE_SIZE && r != line ==>
                    buffer[r, k] == old(buffer[r, k])
      {
        buffer[line, i] := ' ';
        i := i + 1;
      }
      forall j: nat | j < n + 1 <= j + KLOG_LINES
        ensures RowIs(buffer, j % KLOG_LINES, Padded(ls + [""], j))
      {
        if j < n {
          OtherRow(j, n);
          assert old(RowIs(buffer, j % KLOG_LINES, Padded(ls, j)));
        }
      }
      forall r: nat | n + 1 <= r < KLOG_LINES
        ensures RowIs(buffer, r, Filled('\0', KLOG_LINE_SIZE))
      {
        assert old(RowIs(buffer, r, Filled('\0', KLOG_LINE_SIZE)));
      }
    }

    /** next_char, when the last line of ls ends in the character just written. */
    method NextChar(ghost ls: seq<string>)
      requires Rows(ls) && |Last(ls)| == column + 1
      modifies this`line, this`column, buffer
      ensures Rows(Wrapped(ls)) && column == |Last(Wrapped(ls))| < KLOG_LINE_SIZE
    {
      column := column + 1;
      if column >= KLOG_LINE_SIZE {
        column := 0;
        NextLine(ls);
      }
    }

    /** The two statements by which klog_print and klog_print_hex write a character. */
    method Put(c: char)
      requires Valid() && c != '\n'
      modifies this`line, this`column, this`text, buffer
      ensures Valid() && text == old(text) + [c]
    {
      hide Lines, Wrapped;
      ghost var ls := Lines(text);
      ghost var n := |ls| - 1;
      ghost var w := Typed(ls, c);
      LinesSnoc(text, c);
      buffer[line, column] := c;
      text := text + [c];
      forall j: nat | j <= n < j + KLOG_LINES
        ensures RowIs(buffer, j % KLOG_LINES, Padded(w, j))
      {
        assert old(RowIs(buffer, j % KLOG_LINES, Padded(ls, j)));
        if j < n {
          OtherRow(j, n);
        }
      }
      forall r: nat | n + 1 <= r < KLOG_LINES
        ensures RowIs(buffer, r, Filled('\0', KLOG_LINE_SIZE))
      {
        assert old(RowIs(buffer, r, Filled('\0', KLOG_LINE_SIZE)));
      }
      NextChar(w);
    }

    /**
      What is in the buffer, character by character: for each of the last 64 lines its text, and
      behind it blanks, or zeros behind the very first line; rows that no line has reached are zero.
    */
    lemma Shows()
      requires Valid()
      ensures buffer.Length0 == 64 && buffer.Length1 == 42
      ensures forall j: nat, i: nat :: j < |Lines(text)| <= j + 64 && i < 42 ==>
        buffer[j % 64, i] ==
          if i < |Lines(text)[j]| then Lines(text)[j][i] else if j == 0 then '\0' else ' '
      ensures forall r: nat, i: nat :: |Lines(text)| <= r < 64 && i < 42 ==> buffer[r, i] == '\0'
      ensures line == (|Lines(text)| - 1) % 64 && column == |Last(Lines(text))| < 42
    {
      var ls := Lines(text);
      forall j: nat, i: nat | j < |ls| <= j + 64 && i < 42
        ensures buffer[j % 64, i] == if i < |ls[j]| then ls[j][i] else if j == 0 then '\0' else ' '
      {
        assert RowIs(buffer, j % KLOG_LINES, Padded(ls, j));
      }
      forall r: nat, i: nat | |ls| <= r < 64 && i < 42
        ensures buffer[r, i] == '\0'
      {
        assert RowIs(buffer, r, Filled('\0', KLOG_LINE_SIZE));
      }
    }

    /** klog_print of the characters of str up to its terminator. */
    method Print(str: string)
      requires Valid() && '\0' in str
      modifies this`line, this`column, this`text, buffer
      ensures Valid() && text == old(text) + Content(str)
      ensures buffer.Length0 == 64 && buffer.Length1 == 42
      ensures forall j: nat, i: nat :: j < |Lines(text)| <= j + 64 && i < 42 ==>
        buffer[j % 64, i] ==
          if i < |Lines(text)[j]| then Lines(text)[j][i] else if j == 0 then '\0' else ' '
      ensures forall r: nat, i: nat :: |Lines(text)| <= r < 64 && i < 42 ==> buffer[r, i] == '\0'
      ensures line == (|Lines(text)| - 1) % 64 && column == |Last(Lines(text))| < 42
    {
      hide Rows, Lines, Last, Content;
      var i := 0;
      assert old(text) + str[..0] == old(text);
      while str[i] != '\0'
        invariant Valid() && i < |str| && '\0' !in str[..i] && text == old(text) + str[..i]
        decreases |str| - i
      {
        TerminatorAhead(str, i);
        assert old(text) + str[..i] + [str[i]] == old(text) + str[..i + 1];
        if str[i] == '\n' {
          LinesSnoc(text, '\n');
          NewLineLast(Lines(text));
          NextLine(Lines(text));
          text := text + "\n";
          i := i + 1;
        } else {
          Put(str[i]);
          i := i + 1;
        }
      }
      ContentPrefix(str, i);
      Shows();
    }

    /** klog_print_hex: the digits of n, the least significant first. */
    method PrintHex(n: nat)
      requires Valid()
      modifies this`line, this`column, this`text, buffer
      ensures Valid() && old(text) <= text
      ensures
        var printed := text[|old(text)|..];
        && printed != "" && Backwards(printed) == Some(n) && (|printed| > 1 ==> printed[|printed| - 1] != '0')
    {
      hide Valid, Numeral, Reverse, Spelled, Backwards;
      var num, more := n, true;
      ghost var done: seq<Digit> := [];
      while more
        invariant Valid() && text == old(text) + Spelled(done)
        invariant Reverse(Numeral(n)) == if more then done + Reverse(Numeral(num)) else done
        decreases more, num
      {
        NextDigit(num);
        SpelledSnoc(done, num % 16);
        done := done + [num % 16];
        Put(DIGITS[num % 16]);
        num := num / 16;
        more := num > 0;
      }
      HexDecodes(n);
      assert text[|old(text)|..] == Spelled(Reverse(Numeral(n)));
    }
  }
}
