/**
 * The evaluator's line reader (lib/Eval.py `load_statements`,
 * `get_next_textline`, `get_next_statement`): a stack of pending text lines,
 * a buffer for a statement that spans several lines, and the two
 * triple-quote flags. Non-interactive mode: an empty stack yields the
 * end-of-input marker instead of prompting.
 */
module Reader {
  import opened Basics
  import opened Strings
  import opened TdlTypes

  /** One pending line: its text, its line number and its file name. */
  datatype Line = Line(text: string, num: int, file: string)

  /** The reader fields of the evaluator; the top of the `text` stack is its last element. */
  datatype Reader = Reader(text: seq<Line>, lineBuff: string, nline: int, squote: bool, dquote: bool, infile: string)

  /** A statement as `get_next_statement` returns it, with its lower-case first word. */
  datatype NStep = NStep(rd: Reader, s: string, key: string)

  /** The reader of a new evaluator. */
  function Initial(): Reader {
    Reader([], "", 0, false, false, "<stdin>")
  }

  // ---------------------------------------------------------------------------
  // load_statements
  // ---------------------------------------------------------------------------

  /**
   * The lines `load_statements(t, file)` pushes, bottom first: the loop pops
   * the last given line first, strips it and numbers it 1, so the FIRST given
   * line ends on top and the numbers count from the end.
   */
  function Loaded(t: seq<string>, file: string): (r: seq<Line>)
    ensures |r| == |t|
  {
    Numbered(t, Strip, file)
  }

  /** The numbering of `Loaded`, for any clean-up `f` of the line text. */
  function Numbered(t: seq<string>, f: string -> string, file: string): (r: seq<Line>)
    ensures |r| == |t|
  {
    if t == [] then [] else Numbered(t[1..], f, file) + [Line(f(t[0]), |t|, file)]
  }

  lemma {:induction false} NumberedAt(t: seq<string>, f: string -> string, file: string, i: nat)
    requires i < |t|
    ensures Numbered(t, f, file)[|t| - 1 - i] == Line(f(t[i]), |t| - i, file)
    decreases i
  {
    assert Numbered(t, f, file) == Numbered(t[1..], f, file) + [Line(f(t[0]), |t|, file)];
    if i > 0 {
      NumberedAt(t[1..], f, file, i - 1);
      assert t[1..][i - 1] == t[i];
    }
  }

  /** `load_statements(t, file)`. */
  function LoadStatements(rd: Reader, t: seq<string>, file: string): Reader {
    rd.(infile := file, text := rd.text + Loaded(t, file))
  }

  /** The loaded lines sit above the old stack and are read back in their given order. */
  lemma LoadStatementsOrder(rd: Reader, t: seq<string>, file: string)
    ensures LoadStatements(rd, t, file).text[..|rd.text|] == rd.text
    ensures |LoadStatements(rd, t, file).text| == |rd.text| + |t|
    ensures forall i :: 0 <= i < |t| ==>
      LoadStatements(rd, t, file).text[|rd.text| + |t| - 1 - i] == Line(Strip(t[i]), |t| - i, file)
  {
    var r := LoadStatements(rd, t, file).text;
    forall i | 0 <= i < |t|
      ensures r[|rd.text| + |t| - 1 - i] == Line(Strip(t[i]), |t| - i, file)
    {
      NumberedAt(t, Strip, file, i);
    }
  }

  // ---------------------------------------------------------------------------
  // get_next_textline
  // ---------------------------------------------------------------------------

  /** `get_next_textline`: pops the top line and counts it; at the bottom, the end-of-input line. */
  function NextTextline(rd: Reader, eof: string): (r: (Reader, Line))
    ensures rd.text == [] ==> r == (rd, Line(eof, -1, ""))
    ensures rd.text != [] ==> r.1 == rd.text[|rd.text| - 1]
    ensures rd.text != [] ==> r.0 == rd.(text := rd.text[..|rd.text| - 1], nline := rd.nline + 1)
  {
    if rd.text == [] then (rd, Line(eof, -1, ""))
    else (rd.(text := rd.text[..|rd.text| - 1], nline := rd.nline + 1), rd.text[|rd.text| - 1])
  }

  /** After loading, the reader hands back the first loaded line first, whatever was pending. */
  lemma LoadThenRead(rd: Reader, t: seq<string>, file: string, eof: string)
    requires t != []
    ensures NextTextline(LoadStatements(rd, t, file), eof).1 == Line(Strip(t[0]), |t|, file)
  {
    LoadStatementsOrder(rd, t, file);
  }

  // ---------------------------------------------------------------------------
  // get_next_statement
  // ---------------------------------------------------------------------------

  /** The triple-quote bookkeeping: a line holding ''' (or """) flips that flag unless the other is set. */
  function Toggle(rd: Reader, s: string): Reader {
    if Contains(s, "'''") && !rd.dquote then rd.(squote := !rd.squote)
    else if Contains(s, "\"\"\"") && !rd.squote then rd.(dquote := !rd.dquote)
    else rd
  }

  /** Lines are joined with a newline inside triple quotes, with a blank elsewhere. */
  function JoinText(rd: Reader): string {
    if rd.squote || rd.dquote then "\n" else " "
  }

  /**
   * The continuation loop: while the brackets of `s` do not balance, park it
   * in the line buffer and append the next line; at the end of input the
   * statement becomes the end-of-input marker.
   */
  function Gather(e: Engine, rd: Reader, s: string, join: string): (Reader, string)
    decreases |rd.text|
  {
    if e.parensMatched(s) then (rd, s)
    else
      var rd1 := rd.(lineBuff := s);
      var (rd2, l) := NextTextline(rd1, e.eof);
      if l.text == e.eof then (rd2, l.text)
      else Gather(e, rd2, rd1.lineBuff + join + l.text, join)
  }

  /** A statement that starts `kw(` gets a blank after the keyword. */
  function KeywordParen(s: string, kw: string): string {
    if StartsWith(s, kw + "(") then kw + " " + s[|kw|..] else s
  }

  /** The keywords that may be followed directly by `(`, in the order they are tried. */
  const ParenKeywords: seq<string> := ["if", "elif", "while", "return", "print"]

  /** `KeywordParen` for each of `kws` in turn. */
  function SpaceKeywords(u: string, kws: seq<string>): string
  {
    if kws == [] then u else KeywordParen(SpaceKeywords(u, kws[..|kws| - 1]), kws[|kws| - 1])
  }

  /** The bare block headers that get a blank before their `:`. */
  predicate BareHeader(v: string) {
    v == "else:" || v == "try:" || v == "except:"
  }

  /** The keyword rewriting and the `else:`, `try:`, `except:` rewriting of a statement. */
  function Rewrite(u: string): (r: string)
  {
    var v := SpaceKeywords(u, ParenKeywords);
    if BareHeader(v) then v[..|v| - 1] + " :" else v
  }

  /**
   * Comment removal, statement splitting at an unquoted `;` (the rest is
   * pushed back as a line of its own) and the rewriting, for a stripped
   * statement of at least two characters.
   */
  function Tidy(e: Engine, rd: Reader, s: string): (r: (Reader, string))
  {
    var jcom := e.findUnquoted(s, '#');
    var t := SliceTo(s, jcom);
    var jsemi := e.findUnquoted(t, ';');
    if jsemi < jcom then
      (rd.(text := rd.text + [Line(SliceFrom(t, jsemi + 1), rd.nline, rd.infile)]), Rewrite(SliceTo(t, jsemi)))
    else (rd, Rewrite(t))
  }

  /** `get_next_statement(s)`: the next logical statement and its lower-case first word. */
  function NextStatement(e: Engine, rd: Reader, s: Option<string>): NStep
  {
    var (rd0, s0) := if s.None? then (var (r, l) := NextTextline(rd, e.eof); (r, l.text)) else (rd, s.value);
    var rd1 := Toggle(rd0, s0);
    var join := JoinText(rd1);
    var (rd2, s2) := Gather(e, rd1, if rd1.lineBuff != [] then rd1.lineBuff + join + s0 else s0, join);
    var rd3 := rd2.(lineBuff := [], squote := false, dquote := false);
    var s3 := Strip(s2);
    var (rd4, s4) := if |s3| > 1 then Tidy(e, rd3, s3) else (rd3, s3);
    NStep(rd4, s4, Lower(FirstWord(s4)))
  }

  /** `NextStatement` in the steps its method takes: the first line, the continuation lines, the settling. */
  lemma NextStatementSteps(e: Engine, rd: Reader, s: Option<string>)
    ensures var (rd0, s0) := FirstLine(e, rd, s);
      var rd1 := Toggle(rd0, s0);
      var join := JoinText(rd1);
      var (rd2, s2) := Gather(e, rd1, Continued(rd1, s0, join), join);
      NextStatement(e, rd, s) == Settle(e, rd2, s2)
  {
  }

  /** The line a statement starts with: `s` when given, else the next text line. */
  function FirstLine(e: Engine, rd: Reader, s: Option<string>): (Reader, string) {
    if s.None? then (var (r, l) := NextTextline(rd, e.eof); (r, l.text)) else (rd, s.value)
  }

  /** A line appended to the parked line buffer, if any. */
  function Continued(rd: Reader, s0: string, join: string): string {
    if rd.lineBuff != [] then rd.lineBuff + join + s0 else s0
  }

  /** The end of `get_next_statement`: flags reset, the statement stripped and tidied, its first word. */
  function Settle(e: Engine, rd2: Reader, s2: string): (r: NStep)
    ensures r.key == Lower(FirstWord(r.s))
    ensures r.rd.lineBuff == [] && !r.rd.squote && !r.rd.dquote
  {
    var rd3 := rd2.(lineBuff := [], squote := false, dquote := false);
    var s3 := Strip(s2);
    var (rd4, s4) := if |s3| > 1 then Tidy(e, rd3, s3) else (rd3, s3);
    NStep(rd4, s4, Lower(FirstWord(s4)))
  }

  // ---------------------------------------------------------------------------
  // Properties
  // ---------------------------------------------------------------------------

  /**
   * A `;` before the comment ends the statement there: the text between them
   * goes back on the stack, stamped with the current line number, and the
   * comment is dropped.
   */
  lemma SemicolonSplits(e: Engine, rd: Reader, s: string, jcom: int, jsemi: int)
    requires e.findUnquoted(s, '#') == jcom && 0 <= jcom <= |s|
    requires e.findUnquoted(s[..jcom], ';') == jsemi && 0 <= jsemi < jcom
    ensures Tidy(e, rd, s).0 == rd.(text := rd.text + [Line(s[jsemi + 1..jcom], rd.nline, rd.infile)])
    ensures Tidy(e, rd, s).1 == Rewrite(s[..jsemi])
  {
    var t := s[..jcom];
    assert SliceTo(s, jcom) == t;
    assert SliceTo(t, jsemi) == s[..jsemi];
    assert SliceFrom(t, jsemi + 1) == s[jsemi + 1..jcom];
  }

  /** Without a `;` before it, a comment is simply cut off and nothing is pushed back. */
  lemma CommentDropped(e: Engine, rd: Reader, s: string, jcom: int)
    requires e.findUnquoted(s, '#') == jcom && 0 <= jcom <= |s|
    requires e.findUnquoted(s[..jcom], ';') >= jcom
    ensures Tidy(e, rd, s) == (rd, Rewrite(s[..jcom]))
  {
  }

  /** `else:`, `try:` and `except:` become `else :`, `try :` and `except :`. */
  lemma BareHeaderRewritten(h: string)
    requires BareHeader(h)
    ensures Rewrite(h) == h[..|h| - 1] + " :"
  {
    assert '(' !in h;
    NoParenKeywords(h, ParenKeywords);
  }

  /** A string that contains no `(` is left alone by the keyword rewriting. */
  lemma {:induction false} NoParenKeywords(s: string, kws: seq<string>)
    requires '(' !in s
    ensures SpaceKeywords(s, kws) == s
    decreases |kws|
  {
    if kws != [] {
      NoParenKeywords(s, kws[..|kws| - 1]);
      NoKeywordParen(s, kws[|kws| - 1]);
    }
  }

  /** A string that contains no `(` does not start with `kw(`. */
  lemma NoKeywordParen(s: string, kw: string)
    requires '(' !in s
    ensures KeywordParen(s, kw) == s
  {
    if StartsWith(s, kw + "(") {
      OpenParenAt(s, kw);
      assert false;
    }
  }

  lemma OpenParenAt(s: string, kw: string)
    requires StartsWith(s, kw + "(")
    ensures |kw| < |s| && s[|kw|] == '('
  {
    assert s[|kw|] == (kw + "(")[|kw|];
  }

  /**
   * The continuation loop stops at a statement whose brackets balance (or at
   * the end-of-input marker), only pops lines off the stack and leaves the
   * quote flags and the file name alone.
   */
  lemma {:induction false} GatherBalanced(e: Engine, rd: Reader, s: string, join: string)
    ensures var r := Gather(e, rd, s, join);
      (r.1 == e.eof || e.parensMatched(r.1))
      && |r.0.text| <= |rd.text| && r.0.text == rd.text[..|r.0.text|]
      && r.0.squote == rd.squote && r.0.dquote == rd.dquote && r.0.infile == rd.infile
    decreases |rd.text|
  {
    if !e.parensMatched(s) && rd.text != [] {
      var rd1 := rd.(lineBuff := s);
      var (rd2, l) := NextTextline(rd1, e.eof);
      if l.text != e.eof {
        GatherBalanced(e, rd2, rd1.lineBuff + join + l.text, join);
        var r := Gather(e, rd2, rd1.lineBuff + join + l.text, join);
        assert rd2.text == rd.text[..|rd.text| - 1];
        assert r.0.text == rd.text[..|r.0.text|];
      }
    }
  }

  /** Every statement comes back with the line buffer empty, both flags down and its key as the lower-case first word. */
  lemma NextStatementSettled(e: Engine, rd: Reader, s: Option<string>)
    ensures var r := NextStatement(e, rd, s);
      r.key == Lower(FirstWord(r.s)) && r.rd.lineBuff == [] && !r.rd.squote && !r.rd.dquote
  {
  }

  /**
   * A line whose brackets do not balance is joined with the next one (by a
   * blank, or a newline inside triple quotes), and the first line waits in the
   * line buffer meanwhile.
   */
  lemma GatherJoinsNext(e: Engine, rd: Reader, s: string, join: string)
    requires !e.parensMatched(s) && rd.text != []
    requires rd.text[|rd.text| - 1].text != e.eof
    requires e.parensMatched(s + join + rd.text[|rd.text| - 1].text)
    ensures Gather(e, rd, s, join) ==
      (rd.(text := rd.text[..|rd.text| - 1], nline := rd.nline + 1, lineBuff := s), s + join + rd.text[|rd.text| - 1].text)
  {
  }

  /** When the input runs out inside an unbalanced statement, the statement is the end-of-input marker. */
  lemma GatherAtEnd(e: Engine, rd: Reader, s: string, join: string)
    requires !e.parensMatched(s) && rd.text == []
    ensures Gather(e, rd, s, join) == (rd.(lineBuff := s), e.eof)
  {
  }
}
