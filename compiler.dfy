/**
 * The statement compiler of lib/Eval.py (`Evaluator.compile`): it reads one
 * logical statement, and for the block statements every statement up to the
 * matching terminator, and builds the tagged statement tree.
 *
 * Reading a block pulls lines until its terminator; with no terminator the
 * reader keeps yielding the end-of-input marker and the loop never ends. The
 * `fuel` parameter bounds the number of statements read, and running out of
 * it is the outcome `Diverged`.
 */
module Compiler {
  import opened Basics
  import opened Strings
  import opened TdlTypes
  import opened TdlStore
  import opened Reader

  /** The reader after a compilation step, and its outcome. */
  datatype Step<T> = Step(rd: Reader, res: Result<T>)

  /** The header of a procedure definition: its name token, positional parameters and defaults. */
  datatype ProcSig = ProcSig(name: Token, params: seq<Token>, kws: map<Token, Val>)

  /** The state of the parameter loop: parameters counted, positional names, defaults. */
  datatype Params = Params(count: int, vargs: seq<Token>, kws: map<Token, Val>)

  /** The first words that can only close or continue a block. */
  const Terminators: set<string> := {"else", "elif", "endif", "endfor", "endwhile", "enddef", "endtry"}

  /** Python's `zip(cond, block)`: pairs up to the shorter of the two. */
  function Zip(cond: seq<seq<Token>>, block: seq<seq<Stmt>>): (r: seq<Branch>)
    ensures |r| == if |cond| < |block| then |cond| else |block|
    ensures forall i :: 0 <= i < |r| ==> r[i] == Branch(cond[i], block[i])
  {
    if cond == [] || block == [] then [] else [Branch(cond[0], block[0])] + Zip(cond[1..], block[1..])
  }

  /** `if t is not None: tmp.append(t)`. */
  function Keep(tmp: seq<Stmt>, x: Stmt): seq<Stmt> {
    if x == Nothing then tmp else tmp + [x]
  }

  function Reverse<T>(xs: seq<T>): (r: seq<T>)
    ensures |r| == |xs|
    ensures forall i :: 0 <= i < |xs| ==> r[i] == xs[|xs| - 1 - i]
  {
    if xs == [] then [] else Reverse(xs[1..]) + [xs[0]]
  }

  // ---------------------------------------------------------------------------
  // compile
  // ---------------------------------------------------------------------------

  /** `compile(s)`: the tree of the next statement (of `s` when given), or `Nothing`. */
  function Compile(e: Engine, sto: Store, rd: Reader, s: Option<string>, fuel: nat): Step<Stmt>
    decreases fuel, 0
  {
    if fuel == 0 then Step(rd, Diverged) else CompileNext(e, sto, rd, s, fuel - 1)
  }

  /** The next statement read (from `s` when given) and compiled. */
  function CompileNext(e: Engine, sto: Store, rd: Reader, s: Option<string>, fuel: nat): Step<Stmt>
    decreases fuel, 4
  {
    var n := NextStatement(e, rd, s);
    CompileStatement(e, sto, n.rd, n.s, n.key, fuel)
  }

  /** The statement `st` with first word `key`, dispatched on that word; `rd` is the reader after it. */
  function CompileStatement(e: Engine, sto: Store, rd: Reader, st: string, key: string, fuel: nat): Step<Stmt>
    decreases fuel, 3
  {
    if st == [] || st == "#" then Step(rd, Ok(Nothing))
    else if st == e.eof then Step(rd, Ok(EndOfInput))
    else if key in Terminators then Step(rd, Err(SyntaxError("syntax error: " + key)))
    else if key == "if" then CompileIf(e, sto, rd, st, key, fuel)
    else if key == "try" then CompileTry(e, sto, rd, st, key, fuel)
    else if key == "def" || key == "for" || key == "while" then CompileHead(e, sto, rd, st, key, fuel)
    else Step(rd, CompileLine(e, sto, st, key))
  }

  /** The statements that take no more than their own line. */
  function CompileLine(e: Engine, sto: Store, st: string, key: string): Result<Stmt> {
    if key == "del" || key == "print" || key == "return" then CompileList(e, st, key)
    else if key == "break" || key == "continue" then CompileJump(st, key)
    else CompileSimple(e, sto, st, key)
  }

  // ---------------------------------------------------------------------------
  // if / elif / else / endif
  // ---------------------------------------------------------------------------

  /** The conditions and the bodies an `if` block has collected. */
  datatype Arms = Arms(cond: seq<seq<Token>>, block: seq<seq<Stmt>>)

  /**
   * An `if` statement: the one-line form `if c: stmt`, or a block up to
   * `endif` whose conditions and bodies are paired up in order.
   */
  function CompileIf(e: Engine, sto: Store, rd: Reader, st: string, key: string, fuel: nat): Step<Stmt>
    decreases fuel, 2
  {
    var t := SliceFrom(st, |key|);
    var sp := e.splitDelim(t, ':');
    if sp.status == -1 then Step(rd, Ok(Nothing))
    else
      var h := e.compile(sp.left);
      if !h.Ok? then Step(rd, Fail(h))
      else if sp.right != [] then
        var c := Compile(e, sto, rd, Some(sp.right), fuel);
        Step(c.rd, if c.res.Ok? then Ok(If([Branch(h.value, [c.res.value])])) else Fail(c.res))
      else
        var a := IfLoop(e, sto, rd, [h.value], [], [], false, fuel);
        Step(a.rd, match a.res
          case Ok(None) => Ok(Nothing)
          case Ok(Some(arms)) => Ok(If(Zip(arms.cond, arms.block)))
          case _ => Fail(a.res))
  }

  /** One turn of the `if` block loop: carry on with the collected parts, or finish. */
  datatype IfAt =
    | More(rd: Reader, cond: seq<seq<Token>>, block: seq<seq<Stmt>>, tmp: seq<Stmt>, elseSeen: bool)
    | Finish(step: Step<Option<Arms>>)

  /**
   * The block loop of an `if`: `cond` holds the conditions, `block` the
   * finished bodies, `tmp` the body being read. Since every turn keeps one
   * condition more than finished bodies, the conditions and bodies it
   * returns are one for one.
   */
  function IfLoop(e: Engine, sto: Store, rd: Reader, cond: seq<seq<Token>>,
                  block: seq<seq<Stmt>>, tmp: seq<Stmt>, elseSeen: bool, fuel: nat): (r: Step<Option<Arms>>)
    ensures r.res.Ok? && r.res.value.Some? && |cond| == |block| + 1 ==>
      |r.res.value.value.cond| == |r.res.value.value.block| && |r.res.value.value.cond| >= |cond| &&
      r.res.value.value.cond[0] == cond[0]
    decreases fuel, 0
  {
    if fuel == 0 then Step(rd, Diverged)
    else match IfStep(e, sto, rd, cond, block, tmp, elseSeen, fuel - 1)
      case Finish(st) => st
      case More(rd1, cond1, block1, tmp1, elseSeen1) => IfLoop(e, sto, rd1, cond1, block1, tmp1, elseSeen1, fuel - 1)
  }

  /**
   * One line of an `if` block: `endif` finishes with the last body; an
   * `elif` records the condition on its own line and an `else` the
   * condition `1`, either starting a new body; any other statement is
   * compiled into the current body. A `None` result is an `elif` without `:`,
   * for which the whole statement compiles to nothing.
   */
  function IfStep(e: Engine, sto: Store, rd: Reader, cond: seq<seq<Token>>,
                  block: seq<seq<Stmt>>, tmp: seq<Stmt>, elseSeen: bool, fuel: nat): (r: IfAt)
    ensures r.More? ==> |r.block| >= |block|
    ensures r.More? && |cond| == |block| + 1 ==>
      |r.cond| == |r.block| + 1 && |r.cond| >= |cond| && r.cond[0] == cond[0]
    ensures r.Finish? && r.step.res.Ok? && r.step.res.value.Some? ==>
      r.step.res.value.value == Arms(cond, block + [tmp])
    decreases fuel, 3
  {
    var n := NextStatement(e, rd, None);
    if n.s == [] then More(n.rd, cond, block, tmp, elseSeen)
    else if n.key == "endif" then Finish(Step(n.rd, Ok(Some(Arms(cond, block + [tmp])))))
    else if n.key == "elif" then
      if elseSeen then Finish(Step(n.rd, Err(SyntaxError("syntax error: elif after else"))))
      else
        var sp := e.splitDelim(SliceFrom(n.s, |n.key|), ':');
        if sp.status == -1 then Finish(Step(n.rd, Ok(None)))
        else
          var h := e.compile(sp.left);
          if !h.Ok? then Finish(Step(n.rd, Fail(h)))
          else More(n.rd, cond + [h.value], block + [tmp], [], elseSeen)
    else if n.key == "else" then
      var one := e.compile("1");
      if !one.Ok? then Finish(Step(n.rd, Fail(one)))
      else More(n.rd, cond + [one.value], block + [tmp], [], true)
    else
      var c := Compile(e, sto, n.rd, Some(n.s), fuel);
      if !c.res.Ok? then Finish(Step(c.rd, Fail(c.res)))
      else More(c.rd, cond, block, Keep(tmp, c.res.value), elseSeen)
  }

  /**
   * The `elif` handling of lib/Eval.py as written: it splits and compiles the
   * text `t` of the `if` line again, not the `elif` line, and records no
   * condition, while the body before it is still closed. Every other line is
   * handled as by `IfStep`.
   */
  function IfStepAsWritten(e: Engine, sto: Store, rd: Reader, t: string, cond: seq<seq<Token>>,
                           block: seq<seq<Stmt>>, tmp: seq<Stmt>, elseSeen: bool, fuel: nat): (r: IfAt)
    ensures r.More? ==> |r.block| >= |block|
    ensures r.Finish? && r.step.res.Ok? && r.step.res.value.Some? ==>
      r.step.res.value.value == Arms(cond, block + [tmp])
  {
    var n := NextStatement(e, rd, None);
    if n.s != [] && n.key == "elif" && !elseSeen then
      var sp := e.splitDelim(t, ':');
      if sp.status == -1 then Finish(Step(n.rd, Ok(None)))
      else
        var h := e.compile(sp.left);
        if !h.Ok? then Finish(Step(n.rd, Fail(h)))
        else More(n.rd, cond, block + [tmp], [], elseSeen)
    else IfStep(e, sto, rd, cond, block, tmp, elseSeen, fuel)
  }

  /** The `if` block loop as written, turning with `IfStepAsWritten`. */
  function IfLoopAsWritten(e: Engine, sto: Store, rd: Reader, t: string, cond: seq<seq<Token>>,
                           block: seq<seq<Stmt>>, tmp: seq<Stmt>, elseSeen: bool, fuel: nat): (r: Step<Option<Arms>>)
    ensures r.res.Ok? && r.res.value.Some? ==> |r.res.value.value.block| > |block|
    decreases fuel
  {
    if fuel == 0 then Step(rd, Diverged)
    else match IfStepAsWritten(e, sto, rd, t, cond, block, tmp, elseSeen, fuel - 1)
      case Finish(st) => st
      case More(rd1, cond1, block1, tmp1, elseSeen1) => IfLoopAsWritten(e, sto, rd1, t, cond1, block1, tmp1, elseSeen1, fuel - 1)
  }

  // ---------------------------------------------------------------------------
  // try / except / endtry
  // ---------------------------------------------------------------------------

  /** A `try` statement: the header must end at its `:`; the block runs up to `endtry`. */
  function CompileTry(e: Engine, sto: Store, rd: Reader, st: string, key: string, fuel: nat): Step<Stmt>
    decreases fuel, 2
  {
    var sp := e.splitDelim(SliceFrom(st, |key|), ':');
    var one := e.compile("1");
    if !one.Ok? then Step(rd, Fail(one))
    else if sp.right != [] then Step(rd, Err(SyntaxError("syntax error: invalid try statement.")))
    else TryLoop(e, sto, rd, TryParts([one.value], [], []), fuel)
  }

  /** One turn of a `try` or block loop: carry on from a reader with a state, or finish. */
  datatype Turn<S, R> = Go(rd: Reader, state: S) | Stop(step: Step<R>)

  /** The conditions, finished parts and current part of a `try` block. */
  datatype TryParts = TryParts(cond: seq<seq<Token>>, block: seq<seq<Stmt>>, tmp: seq<Stmt>)

  /** The block loop of a `try`: every `except` starts a new part guarded by `1`. */
  function TryLoop(e: Engine, sto: Store, rd: Reader, p: TryParts, fuel: nat): Step<Stmt>
    decreases fuel, 0
  {
    if fuel == 0 then Step(rd, Diverged)
    else match TryStep(e, sto, rd, p, fuel - 1)
      case Stop(st) => st
      case Go(rd1, p1) => TryLoop(e, sto, rd1, p1, fuel - 1)
  }

  /** One line of a `try` block: `endtry` finishes, `except` starts a new part, any other statement joins the current one. */
  function TryStep(e: Engine, sto: Store, rd: Reader, p: TryParts, fuel: nat): Turn<TryParts, Stmt>
    decreases fuel, 3
  {
    var n := NextStatement(e, rd, None);
    if n.s == [] then Go(n.rd, p)
    else if n.key == "endtry" then Stop(Step(n.rd, Ok(Try(Zip(p.cond, p.block + [p.tmp])))))
    else if n.key == "except" then
      var one := e.compile("1");
      if !one.Ok? then Stop(Step(n.rd, Fail(one)))
      else Go(n.rd, TryParts(p.cond + [one.value], p.block + [p.tmp], []))
    else
      var c := Compile(e, sto, n.rd, Some(n.s), fuel);
      if !c.res.Ok? then Stop(Step(c.rd, Fail(c.res)))
      else Go(c.rd, p.(tmp := Keep(p.tmp, c.res.value)))
  }

  // ---------------------------------------------------------------------------
  // def / for / while
  // ---------------------------------------------------------------------------

  /** A `while`, `for` or `def` statement: its header, then its one-line or block body. */
  function CompileHead(e: Engine, sto: Store, rd: Reader, st: string, key: string, fuel: nat): Step<Stmt>
    decreases fuel, 2
  {
    var t := SliceFrom(st, |key|);
    var sp := e.splitDelim(t, ':');
    if sp.status == -1 then Step(rd, Ok(Nothing))
    else if key == "while" then
      var h := e.compile(sp.left);
      if !h.Ok? then Step(rd, Fail(h))
      else
        var b := Body(e, sto, rd, sp.right, "endwhile", fuel);
        Step(b.rd, if b.res.Ok? then Ok(While(h.value, b.res.value)) else Fail(b.res))
    else if key == "for" then
      var h := ForHead(e, sp.left);
      if !h.Ok? then Step(rd, Fail(h))
      else if h.value.None? then Step(rd, Ok(Nothing))
      else
        var b := Body(e, sto, rd, sp.right, "endfor", fuel);
        Step(b.rd, if b.res.Ok? then Ok(For(h.value.value.0, h.value.value.1, b.res.value)) else Fail(b.res))
    else if sp.status < 4 then Step(rd, DefVarHead(e, t))
    else
      var h := ProcHead(e, sto, sp.left);
      if !h.Ok? then Step(rd, Fail(h))
      else
        var b := Body(e, sto, rd, sp.right, "enddef", fuel);
        Step(b.rd, if b.res.Ok? then Ok(Def(h.value.name, h.value.params, h.value.kws, b.res.value)) else Fail(b.res))
  }

  /** The body of a `while`, `for` or `def`: the one statement after the `:`, or the block up to `end`. */
  function Body(e: Engine, sto: Store, rd: Reader, right: string, end: string, fuel: nat): Step<seq<Stmt>>
    decreases fuel, 1
  {
    if right != [] then
      var c := Compile(e, sto, rd, Some(right), fuel);
      Step(c.rd, if c.res.Ok? then Ok([c.res.value]) else Fail(c.res))
    else BlockLoop(e, sto, rd, end, [], fuel)
  }

  /** Reads statements into `tmp` until one whose first word is `end`. */
  function BlockLoop(e: Engine, sto: Store, rd: Reader, end: string, tmp: seq<Stmt>, fuel: nat): Step<seq<Stmt>>
    decreases fuel, 0
  {
    if fuel == 0 then Step(rd, Diverged)
    else match BlockStep(e, sto, rd, end, tmp, fuel - 1)
      case Stop(st) => st
      case Go(rd1, tmp1) => BlockLoop(e, sto, rd1, end, tmp1, fuel - 1)
  }

  /** One line of a block: its terminator finishes it, any other statement joins it. */
  function BlockStep(e: Engine, sto: Store, rd: Reader, end: string, tmp: seq<Stmt>, fuel: nat): Turn<seq<Stmt>, seq<Stmt>>
    decreases fuel, 3
  {
    var n := NextStatement(e, rd, None);
    if n.s == [] then Go(n.rd, tmp)
    else if n.key == end then Stop(Step(n.rd, Ok(tmp)))
    else
      var c := Compile(e, sto, n.rd, Some(n.s), fuel);
      if !c.res.Ok? then Stop(Step(c.rd, Fail(c.res)))
      else Go(c.rd, Keep(tmp, c.res.value))
  }

  // ---------------------------------------------------------------------------
  // One turn of each block loop
  // ---------------------------------------------------------------------------

  /** The `if` block loop takes one step and goes on with one unit of fuel less. */
  lemma IfLoopTurn(e: Engine, sto: Store, rd: Reader, cond: seq<seq<Token>>, block: seq<seq<Stmt>>,
                   tmp: seq<Stmt>, elseSeen: bool, fuel: nat)
    requires fuel > 0
    ensures IfLoop(e, sto, rd, cond, block, tmp, elseSeen, fuel) ==
      match IfStep(e, sto, rd, cond, block, tmp, elseSeen, fuel - 1)
      case Finish(st) => st
      case More(rd1, cond1, block1, tmp1, elseSeen1) => IfLoop(e, sto, rd1, cond1, block1, tmp1, elseSeen1, fuel - 1)
  {
  }

  /** The `try` block loop takes one step and goes on with one unit of fuel less. */
  lemma TryLoopTurn(e: Engine, sto: Store, rd: Reader, p: TryParts, fuel: nat)
    requires fuel > 0
    ensures TryLoop(e, sto, rd, p, fuel) ==
      match TryStep(e, sto, rd, p, fuel - 1)
      case Stop(st) => st
      case Go(rd1, p1) => TryLoop(e, sto, rd1, p1, fuel - 1)
  {
  }

  /** The block loop takes one step and goes on with one unit of fuel less. */
  lemma BlockLoopTurn(e: Engine, sto: Store, rd: Reader, end: string, tmp: seq<Stmt>, fuel: nat)
    requires fuel > 0
    ensures BlockLoop(e, sto, rd, end, tmp, fuel) ==
      match BlockStep(e, sto, rd, end, tmp, fuel - 1)
      case Stop(st) => st
      case Go(rd1, tmp1) => BlockLoop(e, sto, rd1, end, tmp1, fuel - 1)
  {
  }

  // ---------------------------------------------------------------------------
  // The block loops as the evaluator's contracts name them
  // ---------------------------------------------------------------------------

  /*
   * Each of these is its loop under a non-recursive name: the evaluator's
   * loop invariants and turn contracts use them, so that stating where a
   * loop stands does not also unfold the statement reader at every step.
   */

  /** What the `if` block loop still produces from the given state. */
  function IfRest(e: Engine, sto: Store, rd: Reader, cond: seq<seq<Token>>, block: seq<seq<Stmt>>,
                  tmp: seq<Stmt>, elseSeen: bool, fuel: nat): Step<Option<Arms>>
  {
    IfLoop(e, sto, rd, cond, block, tmp, elseSeen, fuel)
  }

  /** What the `try` block loop still produces from the given state. */
  function TryRest(e: Engine, sto: Store, rd: Reader, p: TryParts, fuel: nat): Step<Stmt> {
    TryLoop(e, sto, rd, p, fuel)
  }

  /** What the block loop still produces from the given state. */
  function BlockRest(e: Engine, sto: Store, rd: Reader, end: string, tmp: seq<Stmt>, fuel: nat): Step<seq<Stmt>> {
    BlockLoop(e, sto, rd, end, tmp, fuel)
  }

  /**
   * The header `v in expr` of a `for`: `None` when there is no ` in `; the loop
   * variable must compile to exactly a variable token and its name.
   */
  function ForHead(e: Engine, left: string): (r: Result<Option<(Token, seq<Token>)>>)
    ensures r.Ok? && r.value.Some? ==>
      var c := e.compile(e.splitDelim(ReplaceAll(left, " in ", " @ "), '@').left);
      c.Ok? && c.value == [Op(Variable), r.value.value.0]
  {
    var sp := e.splitDelim(ReplaceAll(left, " in ", " @ "), '@');
    if sp.status == -1 then Ok(None)
    else
      var c := e.compile(sp.left);
      if !c.Ok? then Fail(c)
      else if |c.value| == 0 then Err(IndexError)
      else if |c.value| != 2 || c.value[0] != Op(Variable) then Err(SyntaxError("syntax error: invalid for A statement"))
      else
        var it := e.compile(sp.right);
        if !it.Ok? then Fail(it) else Ok(Some((c.value[1], it.value)))
  }

  /** `def x = expr`: the target must compile to a variable token; it is stored as [name, symbol]. */
  function DefVarHead(e: Engine, t: string): (r: Result<Stmt>)
    ensures r.Ok? ==> r.value.DefVar?
    ensures r.Ok? ==> var c := e.compile(e.splitDelim(t, '=').left);
      c.Ok? && |c.value| >= 1 && c.value[0] == Op(Variable) &&
      r.value.stack == Reverse(c.value[1..]) + [Op(Symbol)]
  {
    var sp := e.splitDelim(t, '=');
    if sp.status < 1 then Err(SyntaxError("syntax error: invalid def statement"))
    else
      var c := e.compile(sp.left);
      if !c.Ok? then Fail(c)
      else if |c.value| == 0 then Err(IndexError)
      else if c.value[0] != Op(Variable) then Err(SyntaxError("syntax error: invalid def statement"))
      else
        var ex := e.compile(sp.right);
        if !ex.Ok? then Fail(ex) else Ok(DefVar(Reverse(c.value[1..]) + [Op(Symbol)], ex.value, sp.right))
  }

  /** The parameter texts of `name(p1, p2=v, ...)`: what lies between the first `(` and the last `)`. */
  function ArgTexts(e: Engine, left: string): seq<string> {
    var n1 := Find(left, '(');
    var n2 := RFind(left, ')');
    if n1 < 1 || n2 < n1 then [] else e.splitList(left[n1 + 1..n2])
  }

  /** How many parameter texts hold an `=` (defaults). */
  function EqItems(items: seq<string>): nat {
    if items == [] then 0 else (if '=' in items[0] then 1 else 0) + EqItems(items[1..])
  }

  /** No bare parameter follows a parameter with a default (none at all once one was seen). */
  predicate DefaultsLast(items: seq<string>, eqSeen: bool) {
    items == [] ||
    (if '=' in items[0] then DefaultsLast(items[1..], true) else !eqSeen && DefaultsLast(items[1..], eqSeen))
  }

  /**
   * `name(p1, ..., k=v, ...)` of a procedure definition. The header must
   * compile to a function call; a bare parameter after a default is refused;
   * the number of counted parameters must equal the call's arity.
   */
  function ProcHead(e: Engine, sto: Store, left: string): (r: Result<ProcSig>)
    ensures r.Ok? ==> var c := e.compile(left);
      c.Ok? && |c.value| >= 3 && c.value[0] == Op(Function) && c.value[2] == r.value.name &&
      c.value[1] == Num(|r.value.params| + EqItems(ArgTexts(e, left)))
    ensures r.Ok? ==> DefaultsLast(ArgTexts(e, left), false)
  {
    var c := e.compile(left);
    if c.Diverged? then Diverged
    else if c.Err? then Err(SyntaxError("syntax error: invalid def statement"))
    else if |c.value| < 3 then Err(IndexError)
    else if c.value[0] != Op(Function) then Err(SyntaxError("syntax error: invalid def statement"))
    else
      var n1 := Find(left, '(');
      var n2 := RFind(left, ')');
      if n1 < 1 || n2 < n1 then Err(SyntaxError("syntax error: invalid def statement"))
      else
        var a := ArgLoop(e, sto, e.splitList(left[n1 + 1..n2]), 0, false, [], map[]);
        if !a.Ok? then Fail(a)
        else if !c.value[1].Num? then Err(ValueError)
        else if a.value.count != c.value[1].n then Err(SyntaxError("syntax error: invalid def statement 5"))
        else Ok(ProcSig(c.value[2], a.value.vargs, a.value.kws))
  }

  /**
   * The parameter loop: a bare parameter that compiles to more than one token
   * must be exactly a variable and its name; `k=v` evaluates its default now.
   * Every `k=v` and every bare name is counted.
   */
  function ArgLoop(e: Engine, sto: Store, items: seq<string>, iargs: int, eqSeen: bool,
                   vargs: seq<Token>, kws: map<Token, Val>): (r: Result<Params>)
    ensures r.Ok? ==> |r.value.vargs| >= |vargs| && r.value.vargs[..|vargs|] == vargs
    ensures r.Ok? ==> r.value.count == iargs + (|r.value.vargs| - |vargs|) + EqItems(items)
    ensures r.Ok? ==> DefaultsLast(items, eqSeen)
    decreases |items|
  {
    if items == [] then Ok(Params(iargs, vargs, kws))
    else
      var i := items[0];
      var ieq := Find(i, '=');
      if ieq == -1 then
        if eqSeen then Err(SyntaxError("syntax error: invalid def statement 2"))
        else
          var c := e.compile(i);
          if !c.Ok? then Fail(c)
          else if |c.value| > 1 then
            if |c.value| != 2 || c.value[0] != Op(Variable) then Err(SyntaxError("syntax error: invalid def statement 1"))
            else ArgLoop(e, sto, items[1..], iargs + 1, eqSeen, vargs + [c.value[1]], kws)
          else ArgLoop(e, sto, items[1..], iargs, eqSeen, vargs, kws)
      else
        var c := e.compile(i[..ieq]);
        if !c.Ok? then Fail(c)
        else if |c.value| == 0 then Err(IndexError)
        else if |c.value| != 2 || c.value[0] != Op(Variable) then Err(SyntaxError("syntax error: invalid def statement 1"))
        else
          var vt := e.compile(i[ieq + 1..]);
          if !vt.Ok? then Fail(vt)
          else
            var v := e.eval(sto, vt.value);
            if !v.Ok? then Fail(v)
            else ArgLoop(e, sto, items[1..], iargs + 1, true, vargs, kws[c.value[1] := v.value])
  }

  // ---------------------------------------------------------------------------
  // del / print / return, break / continue
  // ---------------------------------------------------------------------------

  /** `s` is `open`, text without `close`, then `close`. */
  predicate Wrapped(s: string, open: char, close: char) {
    |s| >= 2 && s[0] == open && s[|s| - 1] == close && close !in s[1..|s| - 1]
  }

  /**
   * Drops one pair of enclosing brackets when the first closing one is the
   * last character: exactly when `s` is wrapped in one pair, the inside is
   * returned; any other text comes back unchanged.
   */
  function Peel(s: string, open: char, close: char): (r: string)
    requires open != close
    ensures Wrapped(s, open, close) ==> r == s[1..|s| - 1]
    ensures !Wrapped(s, open, close) ==> r == s
  {
    PeelTest(s, open, close);
    if StartsWith(s, [open]) && EndsWith(s, [close]) && Find(s, close) == |s| - 1
    then s[1..|s| - 1] else s
  }

  /** The source's test, a prefix, a suffix and the first closing bracket at the end, is `Wrapped`. */
  lemma PeelTest(s: string, open: char, close: char)
    requires open != close
    ensures (StartsWith(s, [open]) && EndsWith(s, [close]) && Find(s, close) == |s| - 1) <==> Wrapped(s, open, close)
  {
    if |s| >= 2 {
      assert s[..|s| - 1] == [s[0]] + s[1..|s| - 1];
      if Wrapped(s, open, close) {
        assert close !in s[..|s| - 1];
        var i := Find(s, close);
        assert s[..i + 1] == s[..i] + [s[i]];
      }
    }
  }

  /** The argument list of `del`, `print`, `return`, unwrapped from `( )` and then `[ ]`. */
  function ListArgs(st: string, key: string): string {
    Peel(Peel(Strip(SliceFrom(st, |key|)), '(', ')'), '[', ']')
  }

  function ListStmt(key: string, args: Option<seq<Token>>): Stmt {
    if key == "del" then Del(args) else if key == "print" then Print(args) else Return(args)
  }

  /** `del`, `print`, `return`: the arguments are compiled as the list `[args]`. */
  function CompileList(e: Engine, st: string, key: string): (r: Result<Stmt>)
    ensures ListArgs(st, key) == [] ==> r == Ok(ListStmt(key, None))
    ensures ListArgs(st, key) != [] ==>
      match e.compile("[" + ListArgs(st, key) + "]")
      case Ok(c) => r == Ok(ListStmt(key, Some(c)))
      case _ => !r.Ok?
  {
    var a := ListArgs(st, key);
    if a == [] then Ok(ListStmt(key, None))
    else
      var c := e.compile("[" + a + "]");
      if !c.Ok? then Fail(c) else Ok(ListStmt(key, Some(c.value)))
  }

  /** `break` and `continue` take nothing after the keyword. */
  function CompileJump(st: string, key: string): (r: Result<Stmt>)
    ensures r.Ok? <==> Strip(SliceFrom(st, |key|)) == []
  {
    if Strip(SliceFrom(st, |key|)) != [] then Err(SyntaxError("syntax error: invalid " + key + " statement"))
    else Ok(if key == "break" then Break else Continue)
  }

  // ---------------------------------------------------------------------------
  // commands, expressions, assignments
  // ---------------------------------------------------------------------------

  /** The stack `[symbol, 0] + rest` for a variable target, `[symbol] + rest` for an array target. */
  function AssignTarget(c: seq<Token>): seq<Token>
    requires |c| >= 1
  {
    [Op(Symbol)] + (if c[0] == Op(Variable) then [Num(0)] else []) + c[1..]
  }

  /** A command-like statement: a first word naming a built-in command and holding no `(`, `,` or `=`. */
  predicate IsCommand(sto: Store, key: string) {
    '(' !in key && ',' !in key && '=' !in key && HasFunc(sto, key)
  }

  /** Any other statement: a command, an expression to evaluate, or an assignment. */
  function CompileSimple(e: Engine, sto: Store, st: string, key: string): (r: Result<Stmt>)
  {
    if IsCommand(sto, key) then
      var c := e.compile(e.commandToExpr(st));
      if !c.Ok? then Fail(c)
      else if |c.value| == 0 then Err(IndexError)
      else if c.value[0] != Op(Function) then Err(SyntaxError("syntax error: weird error with commad "))
      else Ok(Eval([Op(Command)] + c.value[1..], st))
    else
      var sp := e.splitDelim(st, '=');
      if sp.status == -1 then Ok(Nothing)
      else if sp.right == [] then
        var c := e.compile(sp.left);
        if !c.Ok? then Fail(c) else Ok(Eval(c.value, st))
      else
        var c := e.compile(sp.left);
        if !c.Ok? then Fail(c)
        else if |c.value| == 0 then Err(IndexError)
        else if c.value[0] != Op(Variable) && c.value[0] != Op(Array) then
          Err(SyntaxError("syntax error: invalid assignment statement"))
        else
          var rhs := e.compile(sp.right);
          if !rhs.Ok? then Fail(rhs) else Ok(Assign(AssignTarget(c.value), rhs.value, st))
  }
}
