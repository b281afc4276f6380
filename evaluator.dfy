/**
 * The evaluator object of lib/Eval.py. Its fields are the reader state (the
 * stack of pending lines, the line buffer, the line counter, the two
 * triple-quote flags, the current file name) and the interpreter state (the
 * symbol store, the interrupt level, the last returned value, the output
 * written); its methods update them in place as the source's methods do.
 * Each method is proved to leave the object in the state, and to return the
 * outcome, that the function of the same name in module `Reader`, `Compiler`
 * or `Interp` computes from the state it started in; the properties of those
 * functions are proved beside them.
 */
module Evaluator {
  import opened Basics
  import opened Strings
  import opened TdlTypes
  import opened TdlStore
  import opened Lines = Reader
  import opened Compiler
  import opened Interp

  class Evaluator {
    /** The expression engine and the text utilities the evaluator calls. */
    const eng: Engine

    var text: seq<Line>
    var lineBuff: string
    var nline: int
    var squote: bool
    var dquote: bool
    var infile: string

    var store: Store
    var interrupt: int
    var retval: Val
    var out: seq<Out>

    /** The reader fields as one value. */
    function Rd(): Lines.Reader
      reads this
    {
      Lines.Reader(text, lineBuff, nline, squote, dquote, infile)
    }

    /** The interpreter fields as one value. */
    function M(): Machine
      reads this
    {
      Machine(store, interrupt, retval, out)
    }

    /** `Evaluator.__init__`: nothing pending, nothing interrupted, over the symbol store `sto`. */
    constructor (e: Engine, sto: Store)
      ensures eng == e
      ensures Rd() == Initial()
      ensures M() == Machine(sto, 0, NoneV, [])
    {
      eng := e;
      text, lineBuff, nline, squote, dquote, infile := [], "", 0, false, false, "<stdin>";
      store, interrupt, retval, out := sto, 0, NoneV, [];
    }

    // -------------------------------------------------------------------------
    // The reader
    // -------------------------------------------------------------------------

    /** `load_statements(t, file)`: pops the given lines from the end, pushing each stripped and numbered. */
    method LoadStatements(t: seq<string>, file: string)
      modifies this
      ensures Rd() == Lines.LoadStatements(old(Rd()), t, file)
      ensures M() == old(M())
    {
      var s := t;
      var n := 0;
      infile := file;
      while s != []
        invariant |s| <= |t| && s == t[..|s|] && n == |t| - |s|
        invariant text == old(text) + Numbered(t[|s|..], Strip, file)
        invariant infile == file && M() == old(M())
        invariant lineBuff == old(lineBuff) && nline == old(nline) && squote == old(squote) && dquote == old(dquote)
      {
        n := n + 1;
        assert t[|s| - 1..][1..] == t[|s|..];
        text := text + [Line(Strip(s[|s| - 1]), n, infile)];
        s := s[..|s| - 1];
      }
      assert t[0..] == t;
    }

    /** `get_next_textline` (not interactive): pops the top line and counts it, or yields the end-of-input line. */
    method GetNextTextline() returns (l: Line)
      modifies this
      ensures (Rd(), l) == NextTextline(old(Rd()), eng.eof)
      ensures M() == old(M())
    {
      if text == [] {
        return Line(eng.eof, -1, "");
      }
      l := text[|text| - 1];
      text := text[..|text| - 1];
      nline := nline + 1;
    }

    /**
     * `get_next_statement(s)`: the next logical statement (read from the
     * stack when `s` is `None`) with its bracket continuation lines joined,
     * its comment removed, the part after an unquoted `;` pushed back, and
     * the keyword rewriting applied; and its lower-case first word.
     */
    method GetNextStatement(s: Option<string>) returns (st: string, key: string)
      modifies this
      ensures NStep(Rd(), st, key) == NextStatement(eng, old(Rd()), s)
      ensures M() == old(M())
    {
      NextStatementSteps(eng, Rd(), s);
      var line := GetFirstLine(s);
      ToggleQuotes(line);
      var join := if squote || dquote then "\n" else " ";
      if lineBuff != [] {
        line := lineBuff + join + line;
      }
      line := GatherLines(line, join);
      st, key := SettleLine(line);
    }

    /** The line a statement starts with: `s` when given, else the next text line. */
    method GetFirstLine(s: Option<string>) returns (line: string)
      modifies this
      ensures (Rd(), line) == FirstLine(eng, old(Rd()), s)
      ensures M() == old(M())
    {
      if s.None? {
        var l := GetNextTextline();
        line := l.text;
      } else {
        line := s.value;
      }
    }

    /** The end of `get_next_statement`: the flags reset, the statement stripped and tidied. */
    method SettleLine(line0: string) returns (st: string, key: string)
      modifies this
      ensures NStep(Rd(), st, key) == Settle(eng, old(Rd()), line0)
      ensures M() == old(M())
    {
      lineBuff, squote, dquote := "", false, false;
      st := Strip(line0);
      if |st| > 1 {
        st := TidyLine(st);
      }
      key := Lower(FirstWord(st));
    }

    /** The triple-quote bookkeeping of `get_next_statement` for the line `line`. */
    method ToggleQuotes(line: string)
      modifies this
      ensures Rd() == Toggle(old(Rd()), line)
      ensures M() == old(M())
    {
      if Contains(line, "'''") && !dquote {
        squote := !squote;
      } else if Contains(line, "\"\"\"") && !squote {
        dquote := !dquote;
      }
    }

    /** The comment, `;` and keyword handling of `get_next_statement` for a stripped statement. */
    method TidyLine(line0: string) returns (line: string)
      modifies this
      ensures (Rd(), line) == Tidy(eng, old(Rd()), line0)
      ensures M() == old(M())
    {
      var jcom := eng.findUnquoted(line0, '#');
      line := SliceTo(line0, jcom);
      var jsemi := eng.findUnquoted(line, ';');
      if jsemi < jcom {
        text := text + [Line(SliceFrom(line, jsemi + 1), nline, infile)];
        line := SliceTo(line, jsemi);
      }
      line := RewriteLine(line);
    }

    /** The continuation loop of `get_next_statement`, leaving `line` as `Gather` would. */
    method GatherLines(line0: string, join: string) returns (line: string)
      modifies this
      ensures (Rd(), line) == Gather(eng, old(Rd()), line0, join)
      ensures M() == old(M())
    {
      line := line0;
      var done := eng.parensMatched(line);
      while !done
        invariant !done ==> Gather(eng, Rd(), line, join) == Gather(eng, old(Rd()), line0, join)
        invariant done ==> (Rd(), line) == Gather(eng, old(Rd()), line0, join)
        invariant !done ==> !eng.parensMatched(line)
        invariant M() == old(M())
        decreases |text| + (if done then 0 else 1)
      {
        lineBuff := line;
        var l := GetNextTextline();
        if l.text == eng.eof {
          line := l.text;
          done := true;
        } else {
          line := lineBuff + join + l.text;
          done := eng.parensMatched(line);
        }
      }
    }

    /** The keyword loop and the bare-header rewriting of `get_next_statement`. */
    static method RewriteLine(u: string) returns (v: string)
      ensures v == Rewrite(u)
    {
      v := u;
      for i := 0 to |ParenKeywords|
        invariant v == SpaceKeywords(u, ParenKeywords[..i])
      {
        assert ParenKeywords[..i + 1][..i] == ParenKeywords[..i];
        var kw := ParenKeywords[i];
        if StartsWith(v, kw + "(") {
          v := kw + " " + v[|kw|..];
        }
      }
      assert ParenKeywords[..|ParenKeywords|] == ParenKeywords;
      if BareHeader(v) {
        v := v[..|v| - 1] + " :";
      }
    }

    // -------------------------------------------------------------------------
    // compile
    // -------------------------------------------------------------------------

    /** `compile(s)`: the tree of the next statement (of `s` when given), or `Nothing`. */
    method Compile(s: Option<string>, fuel: nat) returns (res: Result<Stmt>)
      modifies this
      ensures Step(Rd(), res) == Compiler.Compile(eng, store, old(Rd()), s, fuel)
      ensures M() == old(M())
      decreases fuel, 0
    {
      if fuel == 0 {
        return Diverged;
      }
      var st, key := GetNextStatement(s);
      res := CompileStatement(st, key, fuel - 1);
    }

    /** The statement `st` with first word `key`, dispatched on that word. */
    method CompileStatement(st: string, key: string, fuel: nat) returns (res: Result<Stmt>)
      modifies this
      ensures Step(Rd(), res) == Compiler.CompileStatement(eng, store, old(Rd()), st, key, fuel)
      ensures M() == old(M())
      decreases fuel, 3
    {
      if st == [] || st == "#" {
        res := Ok(Nothing);
      } else if st == eng.eof {
        res := Ok(EndOfInput);
      } else if key in Terminators {
        res := Err(SyntaxError("syntax error: " + key));
      } else if key == "if" {
        res := CompileIf(st, key, fuel);
      } else if key == "try" {
        res := CompileTry(st, key, fuel);
      } else if key == "def" || key == "for" || key == "while" {
        res := CompileHead(st, key, fuel);
      } else {
        res := CompileLine(eng, store, st, key);
      }
    }

    /** An `if` statement: the one-line form, or the block up to `endif` with its conditions and bodies paired up. */
    method CompileIf(st: string, key: string, fuel: nat) returns (res: Result<Stmt>)
      modifies this
      ensures Step(Rd(), res) == Compiler.CompileIf(eng, store, old(Rd()), st, key, fuel)
      ensures M() == old(M())
      decreases fuel, 2
    {
      var sp := eng.splitDelim(SliceFrom(st, |key|), ':');
      if sp.status == -1 {
        return Ok(Nothing);
      }
      var h := eng.compile(sp.left);
      if !h.Ok? {
        return Fail(h);
      }
      if sp.right != [] {
        var c := Compile(Some(sp.right), fuel);
        res := if c.Ok? then Ok(If([Branch(h.value, [c.value])])) else Fail(c);
      } else {
        var a := IfBlock(h.value, fuel);
        res := match a
          case Ok(None) => Ok(Nothing)
          case Ok(Some(arms)) => Ok(If(Zip(arms.cond, arms.block)))
          case _ => Fail(a);
      }
    }

    /** The block loop of an `if`, from the condition `h` of its first line. */
    method IfBlock(h: seq<Token>, fuel: nat) returns (res: Result<Option<Arms>>)
      modifies this
      ensures Step(Rd(), res) == IfRest(eng, store, old(Rd()), [h], [], [], false, fuel)
      ensures M() == old(M())
      decreases fuel, 1
    {
      var cond, block, tmp, elseSeen := [h], [], [], false;
      var f: nat := fuel;
      while true
        invariant IfRest(eng, store, Rd(), cond, block, tmp, elseSeen, f) ==
          IfRest(eng, store, old(Rd()), [h], [], [], false, fuel)
        invariant M() == old(M())
        decreases f
      {
        if f == 0 {
          return Diverged;
        }
        var done;
        done, res, cond, block, tmp, elseSeen := IfTurn(cond, block, tmp, elseSeen, f - 1);
        if done {
          return;
        }
        f := f - 1;
      }
    }

    /**
     * One line of an `if` block: finished with the step's outcome, or the
     * conditions, bodies and current body to carry on with.
     */
    method IfTurn(cond: seq<seq<Token>>, block: seq<seq<Stmt>>, tmp: seq<Stmt>, elseSeen: bool, f: nat)
      returns (done: bool, res: Result<Option<Arms>>, cond1: seq<seq<Token>>, block1: seq<seq<Stmt>>,
               tmp1: seq<Stmt>, elseSeen1: bool)
      modifies this
      ensures IfRest(eng, store, old(Rd()), cond, block, tmp, elseSeen, f + 1) ==
        if done then Step(Rd(), res) else IfRest(eng, store, Rd(), cond1, block1, tmp1, elseSeen1, f)
      ensures M() == old(M())
      decreases f, 3
    {
      IfLoopTurn(eng, store, Rd(), cond, block, tmp, elseSeen, f + 1);
      done, res, cond1, block1, tmp1, elseSeen1 := false, Ok(None), cond, block, tmp, elseSeen;
      var st, key := GetNextStatement(None);
      if st == [] {
        return;
      }
      if key == "endif" {
        done, res := true, Ok(Some(Arms(cond, block + [tmp])));
      } else if key == "elif" {
        done := true;
        if elseSeen {
          res := Err(SyntaxError("syntax error: elif after else"));
          return;
        }
        var sp := eng.splitDelim(SliceFrom(st, |key|), ':');
        if sp.status == -1 {
          return;
        }
        var h := eng.compile(sp.left);
        if !h.Ok? {
          res := Fail(h);
          return;
        }
        done, cond1, block1, tmp1 := false, cond + [h.value], block + [tmp], [];
      } else if key == "else" {
        var one := eng.compile("1");
        if !one.Ok? {
          done, res := true, Fail(one);
          return;
        }
        cond1, block1, tmp1, elseSeen1 := cond + [one.value], block + [tmp], [], true;
      } else {
        var c := Compile(Some(st), f);
        if !c.Ok? {
          done, res := true, Fail(c);
          return;
        }
        tmp1 := Keep(tmp, c.value);
      }
    }

    /** A `try` statement: the header must end at its `:`; the block up to `endtry`, a part per `except`. */
    method CompileTry(st: string, key: string, fuel: nat) returns (res: Result<Stmt>)
      modifies this
      ensures Step(Rd(), res) == Compiler.CompileTry(eng, store, old(Rd()), st, key, fuel)
      ensures M() == old(M())
      decreases fuel, 2
    {
      var sp := eng.splitDelim(SliceFrom(st, |key|), ':');
      var one := eng.compile("1");
      if !one.Ok? {
        return Fail(one);
      }
      if sp.right != [] {
        return Err(SyntaxError("syntax error: invalid try statement."));
      }
      res := TryBlock(TryParts([one.value], [], []), fuel);
    }

    /** The block loop of a `try`, from the parts `p` gathered so far. */
    method TryBlock(p: TryParts, fuel: nat) returns (res: Result<Stmt>)
      modifies this
      ensures Step(Rd(), res) == TryRest(eng, store, old(Rd()), p, fuel)
      ensures M() == old(M())
      decreases fuel, 1
    {
      var q, f: nat := p, fuel;
      while true
        invariant f <= fuel
        invariant TryRest(eng, store, Rd(), q, f) == TryRest(eng, store, old(Rd()), p, fuel)
        invariant M() == old(M())
        decreases f
      {
        if f == 0 {
          return Diverged;
        }
        var done;
        done, res, q := TryTurn(q, f - 1);
        if done {
          return;
        }
        f := f - 1;
      }
    }

    /** One line of a `try` block: finished with the step's outcome, or the parts to carry on with. */
    method TryTurn(p: TryParts, f: nat) returns (done: bool, res: Result<Stmt>, p1: TryParts)
      modifies this
      ensures TryRest(eng, store, old(Rd()), p, f + 1) ==
        if done then Step(Rd(), res) else TryRest(eng, store, Rd(), p1, f)
      ensures M() == old(M())
      decreases f, 3
    {
      TryLoopTurn(eng, store, Rd(), p, f + 1);
      done, res, p1 := false, Ok(Nothing), p;
      var st, key := GetNextStatement(None);
      if st == [] {
        return;
      }
      if key == "endtry" {
        done, res := true, Ok(Try(Zip(p.cond, p.block + [p.tmp])));
      } else if key == "except" {
        var one := eng.compile("1");
        if !one.Ok? {
          done, res := true, Fail(one);
          return;
        }
        p1 := TryParts(p.cond + [one.value], p.block + [p.tmp], []);
      } else {
        var c := Compile(Some(st), f);
        if !c.Ok? {
          done, res := true, Fail(c);
          return;
        }
        p1 := p.(tmp := Keep(p.tmp, c.value));
      }
    }

    /** A `while`, `for` or `def` statement: its header, then its one-line or block body. */
    method CompileHead(st: string, key: string, fuel: nat) returns (res: Result<Stmt>)
      modifies this
      ensures Step(Rd(), res) == Compiler.CompileHead(eng, store, old(Rd()), st, key, fuel)
      ensures M() == old(M())
      decreases fuel, 2
    {
      var t := SliceFrom(st, |key|);
      var sp := eng.splitDelim(t, ':');
      if sp.status == -1 {
        return Ok(Nothing);
      }
      if key == "while" {
        var h := eng.compile(sp.left);
        if !h.Ok? {
          return Fail(h);
        }
        var b := Body(sp.right, "endwhile", fuel);
        res := if b.Ok? then Ok(While(h.value, b.value)) else Fail(b);
      } else if key == "for" {
        var h := ForHead(eng, sp.left);
        if !h.Ok? {
          return Fail(h);
        }
        if h.value.None? {
          return Ok(Nothing);
        }
        var b := Body(sp.right, "endfor", fuel);
        res := if b.Ok? then Ok(For(h.value.value.0, h.value.value.1, b.value)) else Fail(b);
      } else if sp.status < 4 {
        res := DefVarHead(eng, t);
      } else {
        var h := ProcHeader(eng, store, sp.left);
        if !h.Ok? {
          return Fail(h);
        }
        var b := Body(sp.right, "enddef", fuel);
        res := if b.Ok? then Ok(Def(h.value.name, h.value.params, h.value.kws, b.value)) else Fail(b);
      }
    }

    /** The header `name(p1, ..., k=v, ...)` of a `def`, checked against the call it compiles to. */
    static method ProcHeader(e: Engine, sto: Store, left: string) returns (r: Result<ProcSig>)
      ensures r == ProcHead(e, sto, left)
    {
      var c := e.compile(left);
      if c.Diverged? {
        return Diverged;
      } else if c.Err? {
        return Err(SyntaxError("syntax error: invalid def statement"));
      } else if |c.value| < 3 {
        return Err(IndexError);
      } else if c.value[0] != Op(Function) {
        return Err(SyntaxError("syntax error: invalid def statement"));
      }
      var n1 := Find(left, '(');
      var n2 := RFind(left, ')');
      if n1 < 1 || n2 < n1 {
        return Err(SyntaxError("syntax error: invalid def statement"));
      }
      var a := ParamLoop(e, sto, e.splitList(left[n1 + 1..n2]));
      if !a.Ok? {
        return Fail(a);
      } else if !c.value[1].Num? {
        return Err(ValueError);
      } else if a.value.count != c.value[1].n {
        return Err(SyntaxError("syntax error: invalid def statement 5"));
      }
      r := Ok(ProcSig(c.value[2], a.value.vargs, a.value.kws));
    }

    /**
     * The parameter loop of a `def` header over the parameter texts `items`:
     * names are collected in order, defaults evaluated into the keyword map.
     */
    static method ParamLoop(e: Engine, sto: Store, items: seq<string>) returns (r: Result<Params>)
      ensures r == ArgLoop(e, sto, items, 0, false, [], map[])
    {
      var iargs, eqSeen, vargs, kws := 0, false, [], map[];
      var i := 0;
      while i < |items|
        invariant i <= |items|
        invariant ArgLoop(e, sto, items[i..], iargs, eqSeen, vargs, kws) == ArgLoop(e, sto, items, 0, false, [], map[])
      {
        assert items[i..][1..] == items[i + 1..];
        var it := items[i];
        var ieq := Find(it, '=');
        if ieq == -1 {
          if eqSeen {
            return Err(SyntaxError("syntax error: invalid def statement 2"));
          }
          var c := e.compile(it);
          if !c.Ok? {
            return Fail(c);
          }
          if |c.value| > 1 {
            if |c.value| != 2 || c.value[0] != Op(Variable) {
              return Err(SyntaxError("syntax error: invalid def statement 1"));
            }
            iargs, vargs := iargs + 1, vargs + [c.value[1]];
          }
        } else {
          var c := e.compile(it[..ieq]);
          if !c.Ok? {
            return Fail(c);
          } else if |c.value| == 0 {
            return Err(IndexError);
          } else if |c.value| != 2 || c.value[0] != Op(Variable) {
            return Err(SyntaxError("syntax error: invalid def statement 1"));
          }
          var vt := e.compile(it[ieq + 1..]);
          if !vt.Ok? {
            return Fail(vt);
          }
          var v := e.eval(sto, vt.value);
          if !v.Ok? {
            return Fail(v);
          }
          iargs, eqSeen, kws := iargs + 1, true, kws[c.value[1] := v.value];
        }
        i := i + 1;
      }
      r := Ok(Params(iargs, vargs, kws));
    }

    /** The body of a `while`, `for` or `def`: the statement after the `:`, or the statements up to `end`. */
    method Body(right: string, end: string, fuel: nat) returns (res: Result<seq<Stmt>>)
      modifies this
      ensures Step(Rd(), res) == Compiler.Body(eng, store, old(Rd()), right, end, fuel)
      ensures M() == old(M())
      decreases fuel, 1
    {
      if right != [] {
        var c := Compile(Some(right), fuel);
        return if c.Ok? then Ok([c.value]) else Fail(c);
      }
      res := BlockBody(end, fuel);
    }

    /** The statements of a block up to the line whose first word is `end`. */
    method BlockBody(end: string, fuel: nat) returns (res: Result<seq<Stmt>>)
      modifies this
      ensures Step(Rd(), res) == BlockRest(eng, store, old(Rd()), end, [], fuel)
      ensures M() == old(M())
      decreases fuel, 0
    {
      var tmp: seq<Stmt>, f: nat := [], fuel;
      while true
        invariant f <= fuel
        invariant BlockRest(eng, store, Rd(), end, tmp, f) == BlockRest(eng, store, old(Rd()), end, [], fuel)
        invariant M() == old(M())
        decreases f
      {
        if f == 0 {
          return Diverged;
        }
        var done;
        done, res, tmp := BodyTurn(end, tmp, f - 1);
        if done {
          return;
        }
        f := f - 1;
      }
    }

    /** One line of a block: finished with the step's outcome, or the statements read so far. */
    method BodyTurn(end: string, tmp: seq<Stmt>, f: nat) returns (done: bool, res: Result<seq<Stmt>>, tmp1: seq<Stmt>)
      modifies this
      ensures BlockRest(eng, store, old(Rd()), end, tmp, f + 1) ==
        if done then Step(Rd(), res) else BlockRest(eng, store, Rd(), end, tmp1, f)
      ensures M() == old(M())
      decreases f, 3
    {
      BlockLoopTurn(eng, store, Rd(), end, tmp, f + 1);
      done, res, tmp1 := false, Ok(tmp), tmp;
      var st, key := GetNextStatement(None);
      if st == [] {
        return;
      }
      if key == end {
        done := true;
        return;
      }
      var c := Compile(Some(st), f);
      if !c.Ok? {
        done, res := true, Fail(c);
        return;
      }
      tmp1 := Keep(tmp, c.value);
    }

    // -------------------------------------------------------------------------
    // The interpreter
    // -------------------------------------------------------------------------

    /**
     * `do_assign(lhs, rhs)`: the symbol named at the end of the evaluated
     * left-hand side, in the current group, becomes a plain variable holding
     * `rhs`, or its old value with one element replaced.
     */
    method DoAssign(lhs: Val, rhs: Val) returns (res: Result<Val>)
      modifies this
      ensures var r := Interp.DoAssign(old(store), lhs, rhs);
        if r.Ok? then store == r.value && res == Ok(NoneV) else store == old(store) && res == Fail(r)
      ensures interrupt == old(interrupt) && retval == old(retval) && out == old(out)
      ensures Rd() == old(Rd())
    {
      if lhs.StrV? {
        return Err(AttributeError);
      } else if !lhs.ListV? {
        return Err(TypeError);
      } else if |lhs.items| < 2 {
        return Err(IndexError);
      }
      var idx := lhs.items[..|lhs.items| - 2];
      var vn := ValName(lhs.items[|lhs.items| - 2]);
      var sym := if vn.Some? then GetVariable(store, vn.value) else None;
      if sym.None? {
        return Err(EvalError("Cannot make assignment"));
      }
      if idx != [] && sym.value.kind == DefVarKind {
        return Err(EvalError("Cannot assign to part of defined variable"));
      }
      var x := Assigned(sym.value.value, idx, rhs);
      if !x.Ok? {
        return Fail(x);
      }
      if sym.value.constant {
        return Err(EvalError("cannot re-assign value of constant"));
      }
      store := Put(store, vn.value, Sym(sym.value.name, VariableKind, x.value, false, NoCode));
      res := Ok(NoneV);
    }

    /** `interpret(s)`: executes one compiled statement. */
    method Interpret(s: Stmt, fuel: nat) returns (res: Result<Val>)
      modifies this
      ensures XStep(M(), res) == Exec(eng, old(M()), s, fuel)
      ensures Rd() == old(Rd())
      decreases fuel, s, 1
    {
      if s.Try? || s.If? || s.While? || s.For? {
        res := Compound(s, fuel);
      } else {
        res := Simple(s, fuel);
      }
    }

    /** A statement without a body of statements: the interrupts, `del`, `print`, a definition, an assignment or an expression. */
    method Simple(s: Stmt, fuel: nat) returns (res: Result<Val>)
      requires !(s.Try? || s.If? || s.While? || s.For?)
      modifies this
      ensures XStep(M(), res) == Exec(eng, old(M()), s, fuel)
      ensures Rd() == old(Rd())
    {
      match s
      case EndOfInput =>
        res := Ok(NoneV);
      case Nothing =>
        res := Err(TypeError);
      case Continue =>
        interrupt, res := ContinueLevel, Ok(NoneV);
      case Break =>
        interrupt, res := BreakLevel, Ok(NoneV);
      case Return(args) =>
        interrupt := ReturnLevel;
        var v := eng.eval(store, if args.Some? then args.value else []);
        if v.Ok? {
          retval, res := v.value, Ok(NoneV);
        } else {
          res := Fail(v);
        }
      case Del(args) =>
        res := Delete(args);
      case Print(args) =>
        res := PrintItems(args);
      case DefVar(stack, expr, text) =>
        if |stack| != 2 || stack[1] != Op(Symbol) {
          res := Err(EvalError("Invalid \"def\" statement"));
        } else if !stack[0].Word? {
          res := Err(TypeError);
        } else {
          store, res := SetDefVariable(store, stack[0].w, expr, text), Ok(NoneV);
        }
      case Assign(lhs, rhs, _) =>
        res := AssignStatement(lhs, rhs);
      case Eval(expr, _) =>
        res := eng.eval(store, expr);
      case Def(name, params, kws, body) =>
        res := Define(name, params, kws, body);
    }

    /** A `try`, `if`, `while` or `for` statement, which runs statements of its own. */
    method Compound(s: Stmt, fuel: nat) returns (res: Result<Val>)
      requires s.Try? || s.If? || s.While? || s.For?
      modifies this
      ensures XStep(M(), res) == Exec(eng, old(M()), s, fuel)
      ensures Rd() == old(Rd())
      decreases fuel, s, 0
    {
      match s
      case Try(parts) =>
        if parts == [] {
          return Err(IndexError);
        }
        res := RunPart(parts[0].body, fuel);
        if res.Err? {
          if |parts| < 2 {
            return Err(IndexError);
          }
          res := RunPart(parts[1].body, fuel);
        }
      case If(bs) =>
        interrupt := 0;
        res := IfRun(bs, fuel);
      case While(cond, body) =>
        interrupt := 0;
        res := WhileRun(cond, body, fuel);
      case For(name, iter, body) =>
        interrupt := 0;
        var v := eng.eval(store, iter);
        if !v.Ok? {
          return Fail(v);
        }
        var xs := Items(v.value);
        if !xs.Ok? {
          return Fail(xs);
        }
        res := ForRun(name, xs.value, body, fuel);
    }

    /** `del`: checks the list tag and the count, then deletes the named symbols. */
    method Delete(args: Option<seq<Token>>) returns (res: Result<Val>)
      modifies this
      ensures XStep(M(), res) == ExecDel(old(M()), args)
      ensures Rd() == old(Rd())
    {
      if args.None? {
        return Err(AttributeError);
      }
      var ts := args.value;
      if |ts| < 2 {
        return Err(IndexError);
      }
      if ts[0] != Op(ListOp) || !ts[1].Num? {
        return Err(EvalError(InvalidDel));
      }
      var ok := DeleteNames(ts[2..], ts[1].n);
      res := if ok then Ok(NoneV) else Err(EvalError(InvalidDel));
    }

    /** The deletion loop of `del`: `k` times a `variable, name` pair is popped and the name deleted. */
    method DeleteNames(ts: seq<Token>, k: int) returns (ok: bool)
      modifies this
      ensures (store, ok) == DelNames(old(store), ts, k)
      ensures interrupt == old(interrupt) && retval == old(retval) && out == old(out)
      ensures Rd() == old(Rd())
    {
      var rest, i := ts, k;
      while i > 0
        invariant DelNames(store, rest, i) == DelNames(old(store), ts, k)
        invariant interrupt == old(interrupt) && retval == old(retval) && out == old(out)
        invariant Rd() == old(Rd())
        decreases |rest|
      {
        if |rest| < 2 || rest[0] != Op(Variable) || !rest[1].Word? {
          return false;
        }
        var d := DeleteSymbol(store, rest[1].w);
        if !d.Ok? {
          return false;
        }
        store, rest, i := d.value, rest[2..], i - 1;
      }
      return true;
    }

    /** `print`: writes one line holding the items of the evaluated arguments. */
    method PrintItems(args: Option<seq<Token>>) returns (res: Result<Val>)
      modifies this
      ensures XStep(M(), res) == ExecPrint(eng, old(M()), args)
      ensures Rd() == old(Rd())
    {
      if args.None? || args.value == [] {
        out := out + [Printed([])];
        return Ok(NoneV);
      }
      var v := eng.eval(store, args.value);
      if !v.Ok? {
        return Fail(v);
      }
      var xs := Items(v.value);
      if !xs.Ok? {
        return Fail(xs);
      }
      out := out + [Printed(xs.value)];
      res := Ok(NoneV);
    }

    /** An assignment statement: the left side is evaluated, then the right, then `do_assign`. */
    method AssignStatement(lhs: seq<Token>, rhs: seq<Token>) returns (res: Result<Val>)
      modifies this
      ensures XStep(M(), res) == ExecAssign(eng, old(M()), lhs, rhs)
      ensures Rd() == old(Rd())
    {
      var l := eng.eval(store, lhs);
      if !l.Ok? {
        return Fail(l);
      }
      var v := eng.eval(store, rhs);
      if !v.Ok? {
        return Fail(v);
      }
      res := DoAssign(l.value, v.value);
    }

    /** `def`: the procedure, its docstring split off, is added to the current group. */
    method Define(name: Token, params: seq<Token>, kws: map<Token, Val>, body: seq<Stmt>) returns (res: Result<Val>)
      modifies this
      ensures XStep(M(), res) == ExecDef(eng, old(M()), name, params, kws, body)
      ensures Rd() == old(Rd())
    {
      if body == [] {
        return Err(IndexError);
      }
      if body[0] == Nothing {
        return Err(TypeError);
      }
      var d := Docstring(eng, body);
      if !d.Ok? {
        return Fail(d);
      }
      if !name.Word? {
        return Err(TypeError);
      }
      store := AddDefPro(store, name.w, d.value.1, d.value.0, params, kws);
      res := Ok(NoneV);
    }

    /** One part of a `try`: its statements in turn, up to the first that fails. */
    method RunPart(body: seq<Stmt>, fuel: nat) returns (res: Result<Val>)
      modifies this
      ensures XStep(M(), res) == RunAll(eng, old(M()), body, fuel)
      ensures Rd() == old(Rd())
      decreases fuel, body, 0
    {
      var i := 0;
      while i < |body|
        invariant i <= |body|
        invariant RunAll(eng, M(), body[i..], fuel) == RunAll(eng, old(M()), body, fuel)
        invariant Rd() == old(Rd())
      {
        assert body[i..][1..] == body[i + 1..];
        res := Interpret(body[i], fuel);
        if !res.Ok? {
          return;
        }
        i := i + 1;
      }
      res := Ok(NoneV);
    }

    /** The body of an `if`, `while` or `for`: its statements in turn until one fails or sets the interrupt level. */
    method BlockRun(body: seq<Stmt>, fuel: nat) returns (res: Result<Val>)
      modifies this
      ensures XStep(M(), res) == Block(eng, old(M()), body, NoneV, fuel)
      ensures Rd() == old(Rd())
      decreases fuel, body, 0
    {
      var i, ret := 0, NoneV;
      while i < |body|
        invariant i <= |body|
        invariant Block(eng, M(), body[i..], ret, fuel) == Block(eng, old(M()), body, NoneV, fuel)
        invariant Rd() == old(Rd())
      {
        assert body[i..][1..] == body[i + 1..];
        res := Interpret(body[i], fuel);
        if !res.Ok? || interrupt > 0 {
          return;
        }
        i, ret := i + 1, res.value;
      }
      res := Ok(ret);
    }

    /** The branches of an `if`: the body of the first whose condition holds runs. */
    method IfRun(bs: seq<Branch>, fuel: nat) returns (res: Result<Val>)
      modifies this
      ensures XStep(M(), res) == IfExec(eng, old(M()), bs, fuel)
      ensures Rd() == old(Rd())
      decreases fuel, bs
    {
      var i := 0;
      while i < |bs|
        invariant i <= |bs|
        invariant IfExec(eng, M(), bs[i..], fuel) == IfExec(eng, old(M()), bs, fuel)
        invariant M() == old(M()) && Rd() == old(Rd())
      {
        assert bs[i..][1..] == bs[i + 1..];
        var c := eng.eval(store, bs[i].cond);
        if !c.Ok? {
          return Fail(c);
        }
        if Truthy(c.value) {
          res := BlockRun(bs[i].body, fuel);
          if res.Ok? && interrupt > 1 {
            res := Ok(NoneV);
          }
          return;
        }
        i := i + 1;
      }
      res := Ok(NoneV);
    }

    /** A `while` loop: the condition before every iteration; `break` and `return` end it. */
    method WhileRun(cond: seq<Token>, body: seq<Stmt>, fuel: nat) returns (res: Result<Val>)
      modifies this
      ensures XStep(M(), res) == WhileLoop(eng, old(M()), cond, body, fuel)
      ensures Rd() == old(Rd())
      decreases fuel, body
    {
      var f: nat := fuel;
      while true
        invariant f <= fuel
        invariant WhileLoop(eng, M(), cond, body, f) == WhileLoop(eng, old(M()), cond, body, fuel)
        invariant Rd() == old(Rd())
        decreases f
      {
        var c := eng.eval(store, cond);
        if !c.Ok? {
          return Fail(c);
        }
        if !Truthy(c.value) {
          return Ok(NoneV);
        }
        if f == 0 {
          return Diverged;
        }
        res := BlockRun(body, f);
        if !res.Ok? {
          return;
        }
        if interrupt > 1 {
          return Ok(NoneV);
        }
        interrupt := 0;
        f := f - 1;
      }
    }

    /** A `for` loop: each item is bound to the loop variable in turn and the body runs; `break` and `return` end it. */
    method ForRun(name: Token, xs: seq<Val>, body: seq<Stmt>, fuel: nat) returns (res: Result<Val>)
      modifies this
      ensures XStep(M(), res) == ForLoop(eng, old(M()), name, xs, body, fuel)
      ensures Rd() == old(Rd())
      decreases fuel, body, |xs|
    {
      var i := 0;
      while i < |xs|
        invariant i <= |xs|
        invariant ForLoop(eng, M(), name, xs[i..], body, fuel) == ForLoop(eng, old(M()), name, xs, body, fuel)
        invariant Rd() == old(Rd())
      {
        assert xs[i..][1..] == xs[i + 1..];
        if !name.Word? {
          return Err(TypeError);
        }
        store := SetVariable(store, name.w, xs[i]);
        res := BlockRun(body, fuel);
        if !res.Ok? {
          return;
        }
        if interrupt > 1 {
          return Ok(NoneV);
        }
        interrupt := 0;
        i := i + 1;
      }
      res := Ok(NoneV);
    }

    /**
     * `run_procedure(proc, args, kws)`: the body runs in a new group holding
     * the arguments and keyword values, which is deleted afterwards, and the
     * previous current group is restored.
     */
    method RunProcedure(proc: Sym, args: seq<Val>, kws: map<Token, Val>, fuel: nat) returns (res: Result<Val>)
      modifies this
      ensures XStep(M(), res) == Interp.RunProcedure(eng, old(M()), proc, args, kws, fuel)
      ensures Rd() == old(Rd())
    {
      if proc.kind != DefProKind || !proc.code.Body? {
        return Err(EvalError("invalid procedure"));
      }
      if |args| != |proc.code.params| {
        return Err(EvalError("not enough arguments for procedure " + proc.name));
      }
      var save := store.dataGroup;
      var added := AddRandomGroup(store, proc.name);
      var g := added.1;
      store := added.0;
      if g.None? {
        return Err(EvalError("cannot run procedure " + proc.name));
      }
      var ok := EnterGroup(g.value, proc.code.params, args, proc.code.kws + kws);
      if !ok {
        return Err(TypeError);
      }
      res := ProcRun(proc.name, proc.code.stmts, fuel);
      if !res.Ok? {
        return;
      }
      store := LeaveCall(store, g.value, save);
      res := Ok(Unwrap(res.value));
    }

    /** The set-up of a call: `g` becomes the current group and receives the arguments, then the keyword values. */
    method EnterGroup(g: string, params: seq<Token>, args: seq<Val>, kv: map<Token, Val>) returns (ok: bool)
      requires |params| == |args|
      modifies this
      ensures (store, ok) == EnterCall(old(store), g, params, args, kv)
      ensures interrupt == old(interrupt) && retval == old(retval) && out == old(out)
      ensures Rd() == old(Rd())
    {
      store := SetDataGroup(store, g);
      ok := BindParams(params, args);
      if !ok {
        return;
      }
      if exists k :: k in kv && !k.Word? {
        return false;
      }
      store := SetVariables(store, KwValues(kv));
    }

    /** The arguments bound to the parameters in order. */
    method BindParams(params: seq<Token>, args: seq<Val>) returns (ok: bool)
      requires |params| == |args|
      modifies this
      ensures (store, ok) == BindArgs(old(store), params, args)
      ensures interrupt == old(interrupt) && retval == old(retval) && out == old(out)
      ensures Rd() == old(Rd())
    {
      var i := 0;
      while i < |params|
        invariant i <= |params|
        invariant BindArgs(store, params[i..], args[i..]) == BindArgs(old(store), params, args)
        invariant interrupt == old(interrupt) && retval == old(retval) && out == old(out)
        invariant Rd() == old(Rd())
      {
        assert params[i..][1..] == params[i + 1..] && args[i..][1..] == args[i + 1..];
        if !params[i].Word? {
          return false;
        }
        store := SetVariable(store, params[i].w, args[i]);
        i := i + 1;
      }
      return true;
    }

    /** The statements of a procedure body in turn: an error is reported and ends it; `return` ends it with a value. */
    method ProcRun(name: string, code: seq<Stmt>, fuel: nat) returns (res: Result<Val>)
      modifies this
      ensures XStep(M(), res) == ProcLoop(eng, old(M()), name, code, fuel)
      ensures Rd() == old(Rd())
    {
      var i := 0;
      while i < |code|
        invariant i <= |code|
        invariant ProcLoop(eng, M(), name, code[i..], fuel) == ProcLoop(eng, old(M()), name, code, fuel)
        invariant Rd() == old(Rd())
      {
        assert code[i..][1..] == code[i + 1..];
        res := Interpret(code[i], fuel);
        if res.Diverged? {
          return;
        }
        if res.Err? {
          if code[i] != Nothing {
            out, res := out + [Reported(name, res.error)], Ok(NoneV);
          }
          return;
        }
        if interrupt == ReturnLevel {
          interrupt := 0;
          return Ok(retval);
        }
        i := i + 1;
      }
      res := Ok(NoneV);
    }

    /**
     * `run()`: pops the pending lines one at a time, compiles each (reading
     * further lines for a block) and executes the statement; the value is that
     * of the last statement executed.
     */
    method Run(fuel: nat) returns (res: Result<Val>)
      modifies this
      ensures RStep(Rd(), M(), res) == RunLoop(eng, old(Rd()), old(M()), NoneV, fuel)
    {
      var ret := NoneV;
      var f: nat := fuel;
      while true
        invariant RunRest(eng, Rd(), M(), ret, f) == RunRest(eng, old(Rd()), old(M()), NoneV, fuel)
        decreases f
      {
        var done;
        done, res, ret := RunTurn(ret, f);
        if done {
          return;
        }
        f := f - 1;
      }
    }

    /**
     * One pass of `run`: done when no line is left, the fuel is spent or the
     * line failed; otherwise the top line was popped, compiled and executed.
     */
    method RunTurn(ret: Val, f: nat) returns (done: bool, res: Result<Val>, ret1: Val)
      modifies this
      ensures !done ==> f > 0
      ensures RunRest(eng, old(Rd()), old(M()), ret, f) ==
        if done then RStep(Rd(), M(), res) else RunRest(eng, Rd(), M(), ret1, f - 1)
    {
      if text == [] {
        return true, Ok(ret), ret;
      }
      if f == 0 {
        return true, Diverged, ret;
      }
      RunLoopTurn(eng, Rd(), M(), ret, f);
      var l := text[|text| - 1];
      text := text[..|text| - 1];
      res := RunStatement(l.text, ret, f);
      done, ret1 := !res.Ok?, if res.Ok? then res.value else ret;
    }

    /** One line of `run`: an empty line or one that compiles to nothing leaves the value as it was. */
    method RunStatement(line: string, ret: Val, fuel: nat) returns (res: Result<Val>)
      modifies this
      ensures RStep(Rd(), M(), res) == LineOutcome(eng, old(Rd()), old(M()), line, ret, fuel)
    {
      if line == [] {
        return Ok(ret);
      }
      var c := Compile(Some(line), fuel);
      if !c.Ok? {
        return Fail(c);
      }
      if c.value == Nothing {
        return Ok(ret);
      }
      res := Interpret(c.value, fuel);
    }
  }
}
