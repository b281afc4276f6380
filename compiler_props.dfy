/**
 * Properties of the statement compiler of lib/Eval.py: which first words it
 * refuses, what an `elif` contributes (as written and as intended), how a
 * `try` block collects its parts, what a
 * block without its terminator does at the end of the input, the forms
 * an assignment compiles to, and the forms the argument list of `del`,
 * `print` and `return` may take.
 */
module CompilerProps {
  import opened Basics
  import opened Strings
  import opened TdlTypes
  import opened TdlStore
  import opened Reader
  import opened Compiler

  /** A word that can only close or continue a block is refused at the start of a statement. */
  lemma TerminatorRejected(e: Engine, sto: Store, rd: Reader, s: Option<string>, fuel: nat)
    requires fuel > 0
    requires var n := NextStatement(e, rd, s); n.s != [] && n.s != "#" && n.s != e.eof && n.key in Terminators
    ensures Compile(e, sto, rd, s, fuel).res == Err(SyntaxError("syntax error: " + NextStatement(e, rd, s).key))
  {
    assert Compile(e, sto, rd, s, fuel) == CompileNext(e, sto, rd, s, fuel - 1);
  }

  /** An `elif` after the `else` of the same `if` is a syntax error. */
  lemma ElifAfterElse(e: Engine, sto: Store, rd: Reader, cond: seq<seq<Token>>, block: seq<seq<Stmt>>,
                      tmp: seq<Stmt>, fuel: nat)
    requires var n := NextStatement(e, rd, None); n.s != [] && n.key == "elif"
    ensures IfStep(e, sto, rd, cond, block, tmp, true, fuel).Finish?
    ensures IfStep(e, sto, rd, cond, block, tmp, true, fuel).step.res == Err(SyntaxError("syntax error: elif after else"))
  {
  }

  // ---------------------------------------------------------------------------
  // The elif finding
  // ---------------------------------------------------------------------------
  //
  // The fuel of a loop turn and the fuel after it are passed as two numbers,
  // `fuel == f + 1`, rather than as `fuel` and `fuel - 1`.

  /** The next line is not empty and its first word is `word`. */
  predicate LineIs(e: Engine, rd: Reader, word: string) {
    var n := NextStatement(e, rd, None);
    n.s != [] && n.key == word
  }

  /** The text `t` of an `if` line has a `:` and the condition before it compiles. */
  predicate HeadCompiles(e: Engine, t: string) {
    e.splitDelim(t, ':').status != -1 && e.compile(e.splitDelim(t, ':').left).Ok?
  }

  /** The reader after the next line. */
  function After(e: Engine, rd: Reader): Reader {
    NextStatement(e, rd, None).rd
  }

  /** The condition on an `elif` line compiles to `h2`. */
  predicate ElifCond(e: Engine, rd: Reader, h2: seq<Token>) {
    var n := NextStatement(e, rd, None);
    var sp := e.splitDelim(SliceFrom(n.s, |n.key|), ':');
    sp.status != -1 && e.compile(sp.left) == Ok(h2)
  }

  /** The next line is an ordinary statement of an `if` body and compiles, with fuel `f`, to `x`. */
  predicate StatementLine(e: Engine, sto: Store, rd: Reader, x: Stmt, f: nat) {
    var n := NextStatement(e, rd, None);
    n.s != [] && n.key != "endif" && n.key != "elif" && n.key != "else" &&
    Compile(e, sto, n.rd, Some(n.s), f).res == Ok(x) && x != Nothing
  }

  /** The reader after the statement on the next line has been compiled with fuel `f`. */
  function AfterStatement(e: Engine, sto: Store, rd: Reader, f: nat): Reader {
    var n := NextStatement(e, rd, None);
    Compile(e, sto, n.rd, Some(n.s), f).rd
  }

  /** One statement compiling to `x` with fuel `f`, then `endif`. */
  predicate StatementThenEndif(e: Engine, sto: Store, rd: Reader, x: Stmt, f: nat) {
    f > 0 && StatementLine(e, sto, rd, x, f) && LineIs(e, AfterStatement(e, sto, rd, f), "endif")
  }

  /**
   * The lines `elif <c2>:`, then one statement compiling to `x` with fuel
   * `f`, then `endif`, as the reader yields them after the first body of an
   * `if`.
   */
  predicate ElifThenEndif(e: Engine, sto: Store, rd: Reader, x: Stmt, f: nat) {
    LineIs(e, rd, "elif") && StatementThenEndif(e, sto, After(e, rd), x, f)
  }

  /**
   * As written, an `elif` records no condition: the statement under it
   * becomes a body with no condition to pair with, and the zip of
   * conditions and bodies drops it. The `if` compiles to its first branch
   * alone.
   */
  lemma ElifBodyDropped(e: Engine, sto: Store, rd: Reader, t: string, h: seq<Token>, body1: seq<Stmt>,
                        x: Stmt, f: nat)
    requires ElifThenEndif(e, sto, rd, x, f)
    requires HeadCompiles(e, t)
    ensures IfLoopAsWritten(e, sto, rd, t, [h], [], body1, false, f + 2).res == Ok(Some(Arms([h], [body1, [x]])))
    ensures Zip([h], [body1, [x]]) == [Branch(h, body1)]
  {
    Zipped(h, h, body1, x);
    Singletons(h, h, body1, x);
    ElifTurnAsWritten(e, sto, rd, t, [h], [], body1, f + 2, f + 1);
    LastBody(e, sto, After(e, rd), t, [h], [body1], x, f + 1, f);
  }

  /**
   * Recording the condition of the `elif` line keeps its statement: the `if`
   * compiles to both branches, each body under its own condition.
   */
  lemma ElifBodyKept(e: Engine, sto: Store, rd: Reader, h: seq<Token>, h2: seq<Token>, body1: seq<Stmt>,
                     x: Stmt, f: nat)
    requires ElifThenEndif(e, sto, rd, x, f) && ElifCond(e, rd, h2)
    ensures IfLoop(e, sto, rd, [h], [], body1, false, f + 2).res == Ok(Some(Arms([h, h2], [body1, [x]])))
    ensures Zip([h, h2], [body1, [x]]) == [Branch(h, body1), Branch(h2, [x])]
  {
    Zipped(h, h2, body1, x);
    Singletons(h, h2, body1, x);
    ElifTurn(e, sto, rd, [h], [], body1, h2, f + 2, f + 1);
    LastBody(e, sto, After(e, rd), "", [h, h2], [body1], x, f + 1, f);
  }

  /** A body of one statement closed by `endif` is returned as the last body, as written and as corrected. */
  lemma LastBody(e: Engine, sto: Store, rd: Reader, t: string, cond: seq<seq<Token>>, block: seq<seq<Stmt>>,
                 x: Stmt, fuel: nat, f: nat)
    requires fuel == f + 1 && StatementThenEndif(e, sto, rd, x, f)
    ensures IfLoopAsWritten(e, sto, rd, t, cond, block, [], false, fuel).res == Ok(Some(Arms(cond, block + [[x]])))
    ensures IfLoop(e, sto, rd, cond, block, [], false, fuel).res == Ok(Some(Arms(cond, block + [[x]])))
  {
    Singletons([], [], [], x);
    StatementTurn(e, sto, rd, t, cond, block, [], x, fuel, f);
    EndifTurn(e, sto, AfterStatement(e, sto, rd, f), t, cond, block, [x], f, f - 1);
  }

  /** The sequences the turns of an `if` block build, written out. */
  lemma Singletons(h: seq<Token>, h2: seq<Token>, body1: seq<Stmt>, x: Stmt)
    ensures [h] + [h2] == [h, h2]
    ensures [] + [x] == [x] && [] + [body1] == [body1] && [body1] + [[x]] == [body1, [x]]
  {
  }

  /** Zipping conditions with bodies pairs them from the front and drops a body left over. */
  lemma Zipped(h: seq<Token>, h2: seq<Token>, body1: seq<Stmt>, x: Stmt)
    ensures Zip([h], [body1, [x]]) == [Branch(h, body1)]
    ensures Zip([h, h2], [body1, [x]]) == [Branch(h, body1), Branch(h2, [x])]
  {
  }

  /** The `elif` turn as written: the body read so far is closed and no condition is added. */
  lemma ElifTurnAsWritten(e: Engine, sto: Store, rd: Reader, t: string, cond: seq<seq<Token>>,
                          block: seq<seq<Stmt>>, tmp: seq<Stmt>, fuel: nat, f: nat)
    requires fuel == f + 1 && LineIs(e, rd, "elif") && HeadCompiles(e, t)
    ensures IfLoopAsWritten(e, sto, rd, t, cond, block, tmp, false, fuel) ==
      IfLoopAsWritten(e, sto, After(e, rd), t, cond, block + [tmp], [], false, f)
  {
    AsWrittenTurn(e, sto, rd, t, cond, block, tmp, f);
  }

  /** The corrected `elif` turn: the condition on the `elif` line is added along with the closed body. */
  lemma ElifTurn(e: Engine, sto: Store, rd: Reader, cond: seq<seq<Token>>, block: seq<seq<Stmt>>,
                 tmp: seq<Stmt>, h2: seq<Token>, fuel: nat, f: nat)
    requires fuel == f + 1 && LineIs(e, rd, "elif") && ElifCond(e, rd, h2)
    ensures IfLoop(e, sto, rd, cond, block, tmp, false, fuel) ==
      IfLoop(e, sto, After(e, rd), cond + [h2], block + [tmp], [], false, f)
  {
    CorrectedTurn(e, sto, rd, cond, block, tmp, f);
  }

  /** A statement turn: the compiled statement joins the body being read, as written and as corrected. */
  lemma StatementTurn(e: Engine, sto: Store, rd: Reader, t: string, cond: seq<seq<Token>>,
                      block: seq<seq<Stmt>>, tmp: seq<Stmt>, x: Stmt, fuel: nat, f: nat)
    requires fuel == f + 1 && StatementLine(e, sto, rd, x, f)
    ensures IfLoopAsWritten(e, sto, rd, t, cond, block, tmp, false, fuel) ==
      IfLoopAsWritten(e, sto, AfterStatement(e, sto, rd, f), t, cond, block, tmp + [x], false, f)
    ensures IfLoop(e, sto, rd, cond, block, tmp, false, fuel) ==
      IfLoop(e, sto, AfterStatement(e, sto, rd, f), cond, block, tmp + [x], false, f)
  {
    AsWrittenTurn(e, sto, rd, t, cond, block, tmp, f);
    CorrectedTurn(e, sto, rd, cond, block, tmp, f);
  }

  /** The `endif` turn: the body being read is closed and the collected parts are returned. */
  lemma EndifTurn(e: Engine, sto: Store, rd: Reader, t: string, cond: seq<seq<Token>>,
                  block: seq<seq<Stmt>>, tmp: seq<Stmt>, fuel: nat, f: nat)
    requires fuel == f + 1 && LineIs(e, rd, "endif")
    ensures IfLoopAsWritten(e, sto, rd, t, cond, block, tmp, false, fuel).res == Ok(Some(Arms(cond, block + [tmp])))
    ensures IfLoop(e, sto, rd, cond, block, tmp, false, fuel).res == Ok(Some(Arms(cond, block + [tmp])))
  {
    AsWrittenTurn(e, sto, rd, t, cond, block, tmp, f);
    CorrectedTurn(e, sto, rd, cond, block, tmp, f);
  }

  /** One turn of the loop over an `if` block as written: a finished turn ends it, any other continues it. */
  lemma AsWrittenTurn(e: Engine, sto: Store, rd: Reader, t: string, cond: seq<seq<Token>>,
                      block: seq<seq<Stmt>>, tmp: seq<Stmt>, f: nat)
    ensures var a := IfStepAsWritten(e, sto, rd, t, cond, block, tmp, false, f);
      IfLoopAsWritten(e, sto, rd, t, cond, block, tmp, false, f + 1) ==
        if a.Finish? then a.step else IfLoopAsWritten(e, sto, a.rd, t, a.cond, a.block, a.tmp, a.elseSeen, f)
  {
  }

  /** One turn of the corrected loop over an `if` block. */
  lemma CorrectedTurn(e: Engine, sto: Store, rd: Reader, cond: seq<seq<Token>>,
                      block: seq<seq<Stmt>>, tmp: seq<Stmt>, f: nat)
    ensures var a := IfStep(e, sto, rd, cond, block, tmp, false, f);
      IfLoop(e, sto, rd, cond, block, tmp, false, f + 1) ==
        if a.Finish? then a.step else IfLoop(e, sto, a.rd, a.cond, a.block, a.tmp, a.elseSeen, f)
  {
  }

  // ---------------------------------------------------------------------------
  // try / except / endtry
  // ---------------------------------------------------------------------------

  /** A `try` header with text after its `:` is a syntax error. */
  lemma TryHeaderRejected(e: Engine, sto: Store, rd: Reader, st: string, key: string, fuel: nat)
    requires e.compile("1").Ok? && e.splitDelim(SliceFrom(st, |key|), ':').right != []
    ensures CompileTry(e, sto, rd, st, key, fuel) == Step(rd, Err(SyntaxError("syntax error: invalid try statement.")))
  {
  }

  /** One turn of the loop over a `try` block: a stopping turn ends it, any other continues it. */
  lemma TryTurn(e: Engine, sto: Store, rd: Reader, p: TryParts, f: nat)
    ensures var a := TryStep(e, sto, rd, p, f);
      TryLoop(e, sto, rd, p, f + 1) == if a.Stop? then a.step else TryLoop(e, sto, a.rd, a.state, f)
  {
  }

  /** `endtry` closes the part being read and pairs every part with its condition. */
  lemma EndtryTurn(e: Engine, sto: Store, rd: Reader, p: TryParts, f: nat)
    requires LineIs(e, rd, "endtry")
    ensures TryLoop(e, sto, rd, p, f + 1) == Step(After(e, rd), Ok(Try(Zip(p.cond, p.block + [p.tmp]))))
  {
    TryTurn(e, sto, rd, p, f);
  }

  /** `except` closes the part being read and opens a new one guarded by the constant `1`. */
  lemma ExceptTurn(e: Engine, sto: Store, rd: Reader, p: TryParts, one: seq<Token>, f: nat)
    requires LineIs(e, rd, "except") && e.compile("1") == Ok(one)
    ensures TryLoop(e, sto, rd, p, f + 1) ==
      TryLoop(e, sto, After(e, rd), TryParts(p.cond + [one], p.block + [p.tmp], []), f)
  {
    TryTurn(e, sto, rd, p, f);
  }

  /** The next line is an ordinary statement of a `try` part and compiles, with fuel `f`, to `x`. */
  predicate TryStatementLine(e: Engine, sto: Store, rd: Reader, x: Stmt, f: nat) {
    var n := NextStatement(e, rd, None);
    n.s != [] && n.key != "endtry" && n.key != "except" &&
    Compile(e, sto, n.rd, Some(n.s), f).res == Ok(x) && x != Nothing
  }

  /** A statement turn: the compiled statement joins the part being read. */
  lemma TryStatementTurn(e: Engine, sto: Store, rd: Reader, p: TryParts, x: Stmt, f: nat)
    requires TryStatementLine(e, sto, rd, x, f)
    ensures TryLoop(e, sto, rd, p, f + 1) ==
      TryLoop(e, sto, AfterStatement(e, sto, rd, f), TryParts(p.cond, p.block, p.tmp + [x]), f)
  {
    TryTurn(e, sto, rd, p, f);
  }

  /** A `try` header ending at its `:` starts the block loop with the one condition `1` and nothing read. */
  lemma TryHeaderAccepted(e: Engine, sto: Store, rd: Reader, st: string, key: string, one: seq<Token>, fuel: nat)
    requires e.compile("1") == Ok(one) && e.splitDelim(SliceFrom(st, |key|), ':').right == []
    ensures CompileTry(e, sto, rd, st, key, fuel) == TryLoop(e, sto, rd, TryParts([one], [], []), fuel)
  {
  }

  /**
   * The lines `x`, `except:`, `y`, `endtry` after a `try:` header: the
   * statement compiles to two parts, each guarded by the constant `1`, the
   * body before `except` first.
   */
  lemma TryExceptEndtry(e: Engine, sto: Store, rd: Reader, st: string, key: string, one: seq<Token>,
                        x: Stmt, y: Stmt, f: nat)
    requires e.compile("1") == Ok(one) && e.splitDelim(SliceFrom(st, |key|), ':').right == []
    requires TryStatementLine(e, sto, rd, x, f + 3)
    requires var rd1 := AfterStatement(e, sto, rd, f + 3);
      && LineIs(e, rd1, "except")
      && TryStatementLine(e, sto, After(e, rd1), y, f + 1)
      && LineIs(e, AfterStatement(e, sto, After(e, rd1), f + 1), "endtry")
    ensures CompileTry(e, sto, rd, st, key, f + 4).res == Ok(Try([Branch(one, [x]), Branch(one, [y])]))
  {
    TryHeaderAccepted(e, sto, rd, st, key, one, f + 4);
    TwoParts(e, sto, rd, one, x, y, f);
  }

  /** The block loop of `TryExceptEndtry`, from the state the header leaves. */
  lemma TwoParts(e: Engine, sto: Store, rd: Reader, one: seq<Token>, x: Stmt, y: Stmt, f: nat)
    requires e.compile("1") == Ok(one)
    requires TryStatementLine(e, sto, rd, x, f + 3)
    requires var rd1 := AfterStatement(e, sto, rd, f + 3);
      && LineIs(e, rd1, "except")
      && TryStatementLine(e, sto, After(e, rd1), y, f + 1)
      && LineIs(e, AfterStatement(e, sto, After(e, rd1), f + 1), "endtry")
    ensures TryLoop(e, sto, rd, TryParts([one], [], []), f + 4).res == Ok(Try([Branch(one, [x]), Branch(one, [y])]))
  {
    var rd2 := After(e, AfterStatement(e, sto, rd, f + 3));
    FirstPart(e, sto, rd, one, x, f);
    SecondPart(e, sto, rd2, one, x, y, f);
  }

  /** The statement `x` and the `except` line: the first part is closed and a second one opened. */
  lemma FirstPart(e: Engine, sto: Store, rd: Reader, one: seq<Token>, x: Stmt, f: nat)
    requires e.compile("1") == Ok(one)
    requires TryStatementLine(e, sto, rd, x, f + 3)
    requires LineIs(e, AfterStatement(e, sto, rd, f + 3), "except")
    ensures TryLoop(e, sto, rd, TryParts([one], [], []), f + 4) ==
      TryLoop(e, sto, After(e, AfterStatement(e, sto, rd, f + 3)), TryParts([one, one], [[x]], []), f + 2)
  {
    FirstStatement(e, sto, rd, one, x, f + 3);
    FirstExcept(e, sto, AfterStatement(e, sto, rd, f + 3), one, x, f + 2);
  }

  /** The first statement of a `try` block starts its first part. */
  lemma FirstStatement(e: Engine, sto: Store, rd: Reader, one: seq<Token>, x: Stmt, f: nat)
    requires TryStatementLine(e, sto, rd, x, f)
    ensures TryLoop(e, sto, rd, TryParts([one], [], []), f + 1) ==
      TryLoop(e, sto, AfterStatement(e, sto, rd, f), TryParts([one], [], [x]), f)
  {
    TryStatementTurn(e, sto, rd, TryParts([one], [], []), x, f);
    assert [] + [x] == [x];
  }

  /** The first `except` closes the first part and opens the second. */
  lemma FirstExcept(e: Engine, sto: Store, rd: Reader, one: seq<Token>, x: Stmt, f: nat)
    requires e.compile("1") == Ok(one) && LineIs(e, rd, "except")
    ensures TryLoop(e, sto, rd, TryParts([one], [], [x]), f + 1) ==
      TryLoop(e, sto, After(e, rd), TryParts([one, one], [[x]], []), f)
  {
    ExceptTurn(e, sto, rd, TryParts([one], [], [x]), one, f);
    assert [one] + [one] == [one, one] && [] + [[x]] == [[x]];
  }

  /** The statement `y` and the `endtry` line: both parts are paired with their conditions. */
  lemma SecondPart(e: Engine, sto: Store, rd: Reader, one: seq<Token>, x: Stmt, y: Stmt, f: nat)
    requires TryStatementLine(e, sto, rd, y, f + 1)
    requires LineIs(e, AfterStatement(e, sto, rd, f + 1), "endtry")
    ensures TryLoop(e, sto, rd, TryParts([one, one], [[x]], []), f + 2).res == Ok(Try([Branch(one, [x]), Branch(one, [y])]))
  {
    TryStatementTurn(e, sto, rd, TryParts([one, one], [[x]], []), y, f + 1);
    assert [] + [y] == [y];
    LastEndtry(e, sto, AfterStatement(e, sto, rd, f + 1), one, x, y, f);
  }

  /** `endtry` after the second part pairs both parts with their conditions. */
  lemma LastEndtry(e: Engine, sto: Store, rd: Reader, one: seq<Token>, x: Stmt, y: Stmt, f: nat)
    requires LineIs(e, rd, "endtry")
    ensures TryLoop(e, sto, rd, TryParts([one, one], [[x]], [y]), f + 1).res == Ok(Try([Branch(one, [x]), Branch(one, [y])]))
  {
    EndtryTurn(e, sto, rd, TryParts([one, one], [[x]], [y]), f);
    assert [[x]] + [[y]] == [[x], [y]];
    assert Zip([one, one], [[x], [y]]) == [Branch(one, [x]), Branch(one, [y])];
  }

  // ---------------------------------------------------------------------------
  // Blocks at the end of the input
  // ---------------------------------------------------------------------------

  /**
   * A reader at the end of its input: the next statement is the end-of-input
   * marker and reading it changes nothing, so it comes back for ever.
   */
  predicate AtEnd(e: Engine, rd: Reader) {
    var n := NextStatement(e, rd, None);
    var m := NextStatement(e, rd, Some(e.eof));
    n.s == e.eof && n.rd == rd && m.s == e.eof && m.rd == rd && e.eof != [] && e.eof != "#"
  }

  /** At the end of the input the marker compiles to the end-of-input statement and the reader stays put. */
  lemma CompileAtEnd(e: Engine, sto: Store, rd: Reader, fuel: nat)
    requires AtEnd(e, rd) && fuel > 0
    ensures Compile(e, sto, rd, Some(e.eof), fuel) == Step(rd, Ok(EndOfInput))
  {
    assert Compile(e, sto, rd, Some(e.eof), fuel) == CompileNext(e, sto, rd, Some(e.eof), fuel - 1);
  }

  /**
   * A `while`, `for` or `def` block whose terminator never comes does not
   * finish: at the end of the input every statement read is the
   * end-of-input marker, which is kept as a statement of the body, and the
   * loop goes on until any bound on it is used up.
   */
  lemma {:induction false} UnendedBlockDiverges(e: Engine, sto: Store, rd: Reader, end: string, tmp: seq<Stmt>, fuel: nat)
    requires AtEnd(e, rd) && Lower(FirstWord(e.eof)) != end
    ensures BlockLoop(e, sto, rd, end, tmp, fuel).res == Diverged
    decreases fuel
  {
    if fuel == 1 {
      LastBlockTurn(e, sto, rd, end, tmp);
    } else if fuel > 1 {
      BlockTurnAtEnd(e, sto, rd, end, tmp, fuel);
      UnendedBlockDiverges(e, sto, rd, end, Keep(tmp, EndOfInput), fuel - 1);
    }
  }

  /** At the end of the input a turn of a block loop keeps the marker and reads on. */
  lemma BlockTurnAtEnd(e: Engine, sto: Store, rd: Reader, end: string, tmp: seq<Stmt>, fuel: nat)
    requires AtEnd(e, rd) && Lower(FirstWord(e.eof)) != end && fuel > 1
    ensures BlockLoop(e, sto, rd, end, tmp, fuel) == BlockLoop(e, sto, rd, end, Keep(tmp, EndOfInput), fuel - 1)
  {
    BlockTurn(e, sto, rd, end, tmp, fuel);
    CompileAtEnd(e, sto, rd, fuel - 1);
  }

  /** The last turn of a block loop at the end of the input has no steps left to compile the marker. */
  lemma LastBlockTurn(e: Engine, sto: Store, rd: Reader, end: string, tmp: seq<Stmt>)
    requires AtEnd(e, rd) && Lower(FirstWord(e.eof)) != end
    ensures BlockLoop(e, sto, rd, end, tmp, 1).res == Diverged
  {
    var n := NextStatement(e, rd, None);
    assert n.rd == rd && n.s == e.eof;
    BlockTurn(e, sto, rd, end, tmp, 1);
    assert Compile(e, sto, rd, Some(e.eof), 0).res == Diverged;
  }

  /** One turn of the loop over a block, on a line that is neither empty nor its terminator. */
  lemma BlockTurn(e: Engine, sto: Store, rd: Reader, end: string, tmp: seq<Stmt>, fuel: nat)
    requires fuel > 0
    requires var n := NextStatement(e, rd, None); n.s != [] && n.key != end
    ensures var n := NextStatement(e, rd, None); var c := Compile(e, sto, n.rd, Some(n.s), fuel - 1);
      BlockLoop(e, sto, rd, end, tmp, fuel) ==
        if !c.res.Ok? then Step(c.rd, Fail(c.res)) else BlockLoop(e, sto, c.rd, end, Keep(tmp, c.res.value), fuel - 1)
  {
  }

  // ---------------------------------------------------------------------------
  // Assignments
  // ---------------------------------------------------------------------------

  /**
   * A statement that is not a command and has an `=` compiles to an
   * assignment whose target stack starts with the symbol tag, followed by
   * the dimension 0 for a plain variable; a target that is neither a
   * variable nor an array element is refused.
   */
  lemma AssignmentForms(e: Engine, sto: Store, st: string, key: string)
    requires !IsCommand(sto, key)
    requires var sp := e.splitDelim(st, '='); sp.status != -1 && sp.right != []
    ensures var sp := e.splitDelim(st, '=');
      var c := e.compile(sp.left);
      var r := CompileSimple(e, sto, st, key);
      (r.Ok? <==> c.Ok? && |c.value| >= 1 && (c.value[0] == Op(Variable) || c.value[0] == Op(Array)) &&
                  e.compile(sp.right).Ok?) &&
      (r.Ok? ==> r.value == Assign(AssignTarget(c.value), e.compile(sp.right).value, st) &&
                 r.value.lhs[0] == Op(Symbol) &&
                 (c.value[0] == Op(Variable) ==> r.value.lhs[1] == Num(0) && r.value.lhs[2..] == c.value[1..]))
  {
    var c := e.compile(e.splitDelim(st, '=').left);
    if c.Ok? && |c.value| >= 1 && c.value[0] == Op(Variable) {
      assert AssignTarget(c.value)[2..] == c.value[1..];
    }
  }

  /** Nothing after the `=` makes an expression to evaluate; a statement the split refuses (status -1) compiles to nothing. */
  lemma ExpressionForms(e: Engine, sto: Store, st: string, key: string)
    requires !IsCommand(sto, key)
    ensures var sp := e.splitDelim(st, '=');
      var r := CompileSimple(e, sto, st, key);
      (sp.status == -1 ==> r == Ok(Nothing)) &&
      (sp.status != -1 && sp.right == [] && e.compile(sp.left).Ok? ==> r == Ok(Eval(e.compile(sp.left).value, st)))
  {
  }

  // ---------------------------------------------------------------------------
  // del / print / return
  // ---------------------------------------------------------------------------

  /**
   * The argument list of `del`, `print` and `return` may be written in
   * parentheses, in brackets or bare: `del (a, b)`, `del [a, b]` and
   * `del a, b` take the same text `a, b` and compile to the same statement.
   */
  lemma ListForms(e: Engine, key: string, x: string)
    requires x != [] && !IsSpace(x[0]) && !IsSpace(x[|x| - 1])
    requires x[0] != '(' && x[0] != '['
    requires ')' !in x && ']' !in x
    ensures ListArgs(key + " (" + x + ")", key) == x
    ensures ListArgs(key + " [" + x + "]", key) == x
    ensures ListArgs(key + " " + x, key) == x
    ensures CompileList(e, key + " (" + x + ")", key) == CompileList(e, key + " " + x, key)
    ensures CompileList(e, key + " [" + x + "]", key) == CompileList(e, key + " " + x, key)
  {
    ParenArgs(key, x);
    BracketArgs(key, x);
    BareArgs(key, x);
  }

  /** `key (x)`: the parentheses are dropped. */
  lemma ParenArgs(key: string, x: string)
    requires x != [] && !IsSpace(x[0]) && !IsSpace(x[|x| - 1])
    requires x[0] != '(' && x[0] != '[' && ')' !in x
    ensures ListArgs(key + " (" + x + ")", key) == x
  {
    assert key + " (" + x + ")" == key + " " + ['('] + x + [')'];
    BracketedArgs(key, x, '(', ')');
  }

  /** `key [x]`: the brackets are dropped. */
  lemma BracketArgs(key: string, x: string)
    requires x != [] && !IsSpace(x[0]) && !IsSpace(x[|x| - 1])
    requires x[0] != '(' && x[0] != '[' && ']' !in x
    ensures ListArgs(key + " [" + x + "]", key) == x
  {
    assert key + " [" + x + "]" == key + " " + ['['] + x + [']'];
    BracketedArgs(key, x, '[', ']');
  }

  /** `key (x)` or `key [x]`: the pair of brackets is dropped. */
  lemma BracketedArgs(key: string, x: string, open: char, close: char)
    requires (open == '(' && close == ')') || (open == '[' && close == ']')
    requires x != [] && !IsSpace(x[0]) && !IsSpace(x[|x| - 1])
    requires x[0] != '(' && x[0] != '['
    requires close !in x
    ensures ListArgs(key + " " + [open] + x + [close], key) == x
  {
    var p := [open] + x + [close];
    assert (key + " " + [open] + x + [close])[|key|..] == " " + p;
    StripAfterBlank(p);
    assert p[1..|p| - 1] == x;
    assert Wrapped(p, open, close);
  }

  /** `key x`: the text is taken as it is. */
  lemma BareArgs(key: string, x: string)
    requires x != [] && !IsSpace(x[0]) && !IsSpace(x[|x| - 1])
    requires x[0] != '(' && x[0] != '['
    ensures ListArgs(key + " " + x, key) == x
  {
    assert (key + " " + x)[|key|..] == " " + x;
    StripAfterBlank(x);
  }
}
