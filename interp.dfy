/**
 * The interpreter of lib/Eval.py (`do_assign`, `interpret`, `run_procedure`,
 * `run`) as functions over a `Machine`: the symbol store, the interrupt level
 * (0 pass, 1 continue, 2 break, 3 return), the value of the last `return`, and
 * the output written so far.
 *
 * A `while` loop may run forever; every loop here takes a `fuel` bound on the
 * number of iterations of any one loop, and running out of it is `Diverged`.
 */
module Interp {
  import opened Basics
  import opened TdlTypes
  import opened TdlStore
  import opened Reader
  import opened Compiler

  /** What the interpreter writes: a `print` line, or the report of an error inside a procedure. */
  datatype Out = Printed(items: seq<Val>) | Reported(proc: string, error: Error)

  datatype Machine = Machine(store: Store, interrupt: int, retval: Val, out: seq<Out>)

  /** The machine after executing something, and the value or exception it produced. */
  datatype XStep = XStep(m: Machine, res: Result<Val>)

  /** The interrupt levels, by the position of the keyword in `__interrupts`. */
  const ContinueLevel := 1
  const BreakLevel := 2
  const ReturnLevel := 3

  /** The message of every failure of `del` after its list tag has been checked. */
  const InvalidDel := "Invalid \"del\" statement"

  // ---------------------------------------------------------------------------
  // What executing a statement may change
  // ---------------------------------------------------------------------------

  /**
   * `b` differs from `a` at most in the symbols of the current data group:
   * the same current group, commands and counter, and every other group as it was.
   */
  ghost predicate Frame(a: Store, b: Store) {
    b.dataGroup == a.dataGroup && b.funcs == a.funcs && b.serial == a.serial &&
    (forall g :: g != a.dataGroup ==> (g in b.groups <==> g in a.groups)) &&
    (forall g :: g != a.dataGroup && g in a.groups ==> b.groups[g] == a.groups[g])
  }

  /** Output is only ever appended to. */
  predicate Appended(a: seq<Out>, b: seq<Out>) {
    |a| <= |b| && b[..|a|] == a
  }

  /** The machine moved on by a step that keeps to the current group and only appends output. */
  ghost predicate Moved(a: Machine, b: Machine) {
    Frame(a.store, b.store) && Appended(a.out, b.out)
  }

  // ---------------------------------------------------------------------------
  // do_assign
  // ---------------------------------------------------------------------------

  /** `x[i] = rhs` on a copy of `x`: lists take Python indices, negative ones from the end. */
  function SetItem(x: Val, i: Val, rhs: Val): (r: Result<Val>)
    ensures r.Ok? ==> x.ListV? && i.IntV? && r.value.ListV? && |r.value.items| == |x.items|
    ensures r.Ok? ==> var k := if i.i < 0 then i.i + |x.items| else i.i;
      0 <= k < |x.items| && r.value.items[k] == rhs &&
      forall j :: 0 <= j < |x.items| && j != k ==> r.value.items[j] == x.items[j]
    ensures x.ListV? && i.IntV? && -|x.items| <= i.i < |x.items| ==> r.Ok?
  {
    if !x.ListV? || !i.IntV? then Err(TypeError)
    else if i.i < -|x.items| || i.i >= |x.items| then Err(IndexError)
    else
      var k := if i.i < 0 then i.i + |x.items| else i.i;
      Ok(ListV(x.items[k := rhs]))
  }

  /**
   * The new value of the assigned symbol: `rhs` itself without indices, one
   * element replaced with one index; more indices form a tuple index, which a
   * list refuses.
   */
  function Assigned(x: Val, idx: seq<Val>, rhs: Val): Result<Val> {
    if idx == [] then Ok(rhs)
    else if |idx| == 1 then SetItem(x, idx[0], rhs)
    else Err(TypeError)
  }

  /**
   * `do_assign(lhs, rhs)`: `lhs` evaluates to a list ending in the variable
   * name and the dimension count, with the indices before them. The symbol
   * must exist in the current group; a formula symbol cannot be assigned in
   * part; a constant cannot be assigned at all (checked after the new value
   * is built). The result is a plain variable holding the new value.
   */
  function DoAssign(sto: Store, lhs: Val, rhs: Val): (r: Result<Store>)
    ensures r.Ok? ==> lhs.ListV? && |lhs.items| >= 2 && lhs.items[|lhs.items| - 2].StrV?
    ensures r.Ok? ==>
      var name := lhs.items[|lhs.items| - 2].s;
      var idx := lhs.items[..|lhs.items| - 2];
      var was := GetVariable(sto, name);
      was.Some? && !was.value.constant && !(idx != [] && was.value.kind == DefVarKind) &&
      Assigned(was.value.value, idx, rhs).Ok? &&
      GetVariable(r.value, name) ==
        Some(Sym(was.value.name, VariableKind, Assigned(was.value.value, idx, rhs).value, false, NoCode)) &&
      (forall n :: n != name ==> GetVariable(r.value, n) == GetVariable(sto, n)) &&
      Frame(sto, r.value)
    ensures lhs.ListV? && |lhs.items| >= 2 && lhs.items[|lhs.items| - 2].StrV? ==>
      var idx := lhs.items[..|lhs.items| - 2];
      var was := GetVariable(sto, lhs.items[|lhs.items| - 2].s);
      (was.Some? && !was.value.constant && !(idx != [] && was.value.kind == DefVarKind) &&
       Assigned(was.value.value, idx, rhs).Ok?) ==> r.Ok?
  {
    if lhs.StrV? then Err(AttributeError)
    else if !lhs.ListV? then Err(TypeError)
    else if |lhs.items| < 2 then Err(IndexError)
    else
      var idx := lhs.items[..|lhs.items| - 2];
      var vn := ValName(lhs.items[|lhs.items| - 2]);
      var sym := if vn.Some? then GetVariable(sto, vn.value) else None;
      if sym.None? then Err(EvalError("Cannot make assignment"))
      else if idx != [] && sym.value.kind == DefVarKind then Err(EvalError("Cannot assign to part of defined variable"))
      else
        var x := Assigned(sym.value.value, idx, rhs);
        if !x.Ok? then Fail(x)
        else if sym.value.constant then Err(EvalError("cannot re-assign value of constant"))
        else Ok(Put(sto, vn.value, Sym(sym.value.name, VariableKind, x.value, false, NoCode)))
  }

  // ---------------------------------------------------------------------------
  // interpret
  // ---------------------------------------------------------------------------

  /** `interpret(s)`: executes one compiled statement. */
  function Exec(e: Engine, m: Machine, s: Stmt, fuel: nat): (r: XStep)
    ensures Moved(m, r.m)
    decreases fuel, s
  {
    match s
    case EndOfInput => XStep(m, Ok(NoneV))
    case Nothing => XStep(m, Err(TypeError))
    case Continue => XStep(m.(interrupt := ContinueLevel), Ok(NoneV))
    case Break => XStep(m.(interrupt := BreakLevel), Ok(NoneV))
    case Return(args) =>
      var v := e.eval(m.store, if args.Some? then args.value else []);
      if v.Ok? then XStep(m.(interrupt := ReturnLevel, retval := v.value), Ok(NoneV))
      else XStep(m.(interrupt := ReturnLevel), Fail(v))
    case Del(args) => ExecDel(m, args)
    case Print(args) => ExecPrint(e, m, args)
    case DefVar(stack, expr, text) =>
      if |stack| != 2 || stack[1] != Op(Symbol) then XStep(m, Err(EvalError("Invalid \"def\" statement")))
      else if !stack[0].Word? then XStep(m, Err(TypeError))
      else XStep(m.(store := SetDefVariable(m.store, stack[0].w, expr, text)), Ok(NoneV))
    case Assign(lhs, rhs, _) => ExecAssign(e, m, lhs, rhs)
    case Eval(expr, _) => XStep(m, e.eval(m.store, expr))
    case Try(parts) =>
      if parts == [] then XStep(m, Err(IndexError))
      else
        var a := RunAll(e, m, parts[0].body, fuel);
        if !a.res.Err? then a
        else if |parts| < 2 then XStep(a.m, Err(IndexError))
        else RunAll(e, a.m, parts[1].body, fuel)
    case If(bs) => IfExec(e, m.(interrupt := 0), bs, fuel)
    case While(cond, body) => WhileLoop(e, m.(interrupt := 0), cond, body, fuel)
    case For(name, iter, body) =>
      var m1 := m.(interrupt := 0);
      var v := e.eval(m1.store, iter);
      if !v.Ok? then XStep(m1, Fail(v))
      else
        var xs := Items(v.value);
        if !xs.Ok? then XStep(m1, Fail(xs)) else ForLoop(e, m1, name, xs.value, body, fuel)
    case Def(name, params, kws, body) => ExecDef(e, m, name, params, kws, body)
  }

  /** The body of a `try` part: every statement in turn, ignoring the interrupt level, up to the first failure. */
  function RunAll(e: Engine, m: Machine, body: seq<Stmt>, fuel: nat): (r: XStep)
    ensures Moved(m, r.m)
    ensures r.res.Ok? ==> r.res.value == NoneV
    decreases fuel, body, 0
  {
    if body == [] then XStep(m, Ok(NoneV))
    else
      var x := Exec(e, m, body[0], fuel);
      if !x.res.Ok? then x else RunAll(e, x.m, body[1..], fuel)
  }

  /**
   * The body of an `if`, `while` or `for`: every statement in turn until one
   * fails or sets an interrupt; the value is that of the last one executed.
   */
  function Block(e: Engine, m: Machine, body: seq<Stmt>, ret: Val, fuel: nat): (r: XStep)
    ensures Moved(m, r.m)
    decreases fuel, body, 0
  {
    if body == [] then XStep(m, Ok(ret))
    else
      var x := Exec(e, m, body[0], fuel);
      if !x.res.Ok? then x
      else if x.m.interrupt > 0 then x
      else Block(e, x.m, body[1..], x.res.value, fuel)
  }

  /**
   * The branches of an `if`: the first whose condition is true runs; its
   * value is the statement's, unless a `break` or `return` ended it.
   */
  function IfExec(e: Engine, m: Machine, bs: seq<Branch>, fuel: nat): (r: XStep)
    ensures Moved(m, r.m)
    decreases fuel, bs
  {
    if bs == [] then XStep(m, Ok(NoneV))
    else
      var c := e.eval(m.store, bs[0].cond);
      if !c.Ok? then XStep(m, Fail(c))
      else if Truthy(c.value) then
        var b := Block(e, m, bs[0].body, NoneV, fuel);
        if b.res.Ok? && b.m.interrupt > 1 then XStep(b.m, Ok(NoneV)) else b
      else IfExec(e, m, bs[1..], fuel)
  }

  /**
   * A `while` loop: the condition is evaluated before every iteration; a
   * `break` or `return` (level above 1) ends the loop and stays set, anything
   * else is cleared after the body.
   */
  function WhileLoop(e: Engine, m: Machine, cond: seq<Token>, body: seq<Stmt>, fuel: nat): (r: XStep)
    ensures Moved(m, r.m)
    decreases fuel, body
  {
    var c := e.eval(m.store, cond);
    if !c.Ok? then XStep(m, Fail(c))
    else if !Truthy(c.value) then XStep(m, Ok(NoneV))
    else if fuel == 0 then XStep(m, Diverged)
    else
      var b := Block(e, m, body, NoneV, fuel);
      if !b.res.Ok? then b
      else if b.m.interrupt > 1 then XStep(b.m, Ok(NoneV))
      else WhileLoop(e, b.m.(interrupt := 0), cond, body, fuel - 1)
  }

  /** A `for` loop over the items `xs`: each is bound to the loop variable in turn before the body runs. */
  function ForLoop(e: Engine, m: Machine, name: Token, xs: seq<Val>, body: seq<Stmt>, fuel: nat): (r: XStep)
    ensures Moved(m, r.m)
    decreases fuel, body, |xs|
  {
    if xs == [] then XStep(m, Ok(NoneV))
    else if !name.Word? then XStep(m, Err(TypeError))
    else
      var b := Block(e, m.(store := SetVariable(m.store, name.w, xs[0])), body, NoneV, fuel);
      if !b.res.Ok? then b
      else if b.m.interrupt > 1 then XStep(b.m, Ok(NoneV))
      else ForLoop(e, b.m.(interrupt := 0), name, xs[1..], body, fuel)
  }

  /**
   * `del`: the argument list compiles to `[list, n, variable, name, ...]`;
   * the named symbols are deleted in turn. A missing argument list is the
   * empty string, which has no `reverse`.
   */
  function ExecDel(m: Machine, args: Option<seq<Token>>): (r: XStep)
    ensures Moved(m, r.m) && r.m.out == m.out
  {
    if args.None? then XStep(m, Err(AttributeError))
    else
      var ts := args.value;
      if |ts| < 2 then XStep(m, Err(IndexError))
      else if ts[0] != Op(ListOp) then XStep(m, Err(EvalError(InvalidDel)))
      else if !ts[1].Num? then XStep(m, Err(EvalError(InvalidDel)))
      else
        var d := DelNames(m.store, ts[2..], ts[1].n);
        XStep(m.(store := d.0), if d.1 then Ok(NoneV) else Err(EvalError(InvalidDel)))
  }

  /**
   * Deletes `k` names given as `variable, name` pairs; on the first failure
   * the deletions made so far stay and the result is false.
   */
  function DelNames(sto: Store, ts: seq<Token>, k: int): (r: (Store, bool))
    ensures Frame(sto, r.0)
    ensures r.1 ==> forall n :: n in DelTargets(ts, k) ==> GetVariable(r.0, n) == None
    ensures forall n :: n !in DelTargets(ts, k) ==> GetVariable(r.0, n) == GetVariable(sto, n)
    decreases |ts|
  {
    if k <= 0 then (sto, true)
    else if |ts| < 2 || ts[0] != Op(Variable) || !ts[1].Word? then (sto, false)
    else
      var d := DeleteSymbol(sto, ts[1].w);
      if !d.Ok? then (sto, false) else DelNames(d.value, ts[2..], k - 1)
  }

  /** The names of the first `k` `variable, name` pairs of `ts`. */
  function DelTargets(ts: seq<Token>, k: int): seq<string>
    decreases |ts|
  {
    if k <= 0 || |ts| < 2 || !ts[1].Word? then [] else [ts[1].w] + DelTargets(ts[2..], k - 1)
  }

  /**
   * `del` as written: the compiled argument list is reversed in place and
   * every token read is popped off it, so running the statement uses up its
   * own list. The outcome is that of `ExecDel`; the second component is the
   * list the statement holds afterwards, the unread tokens in reverse order.
   */
  function ExecDelAsWritten(m: Machine, args: Option<seq<Token>>): (r: (XStep, Option<seq<Token>>))
    ensures r.0 == ExecDel(m, args)
    ensures args.None? <==> r.1.None?
    ensures args.Some? ==>
      |r.1.value| <= |args.value| && r.1.value == Reverse(args.value[|args.value| - |r.1.value|..])
  {
    (ExecDel(m, args), if args.None? then None else Some(Reverse(args.value[DelPopped(m.store, args.value)..])))
  }

  /** The number of tokens `del` pops: the tag and the count, then a pair per name up to the first failure. */
  function DelPopped(sto: Store, ts: seq<Token>): (r: nat)
    ensures r <= |ts| && (|ts| >= 2 ==> r >= 2)
  {
    if |ts| < 2 then |ts|
    else if ts[0] != Op(ListOp) || !ts[1].Num? then 2
    else 2 + PairsPopped(sto, ts[2..], ts[1].n)
  }

  /** The tokens popped while deleting `k` names given as `variable, name` pairs. */
  function PairsPopped(sto: Store, ts: seq<Token>, k: int): (r: nat)
    ensures r <= |ts|
    decreases |ts|
  {
    if k <= 0 then 0
    else if |ts| < 2 then |ts|
    else if ts[0] != Op(Variable) || !ts[1].Word? then 2
    else
      var d := DeleteSymbol(sto, ts[1].w);
      if !d.Ok? then 2 else 2 + PairsPopped(d.value, ts[2..], k - 1)
  }

  /** `print`: one output line with the items of the evaluated argument list (an empty line without arguments). */
  function ExecPrint(e: Engine, m: Machine, args: Option<seq<Token>>): (r: XStep)
    ensures Moved(m, r.m)
    ensures r.res.Ok? ==> r.m.store == m.store && |r.m.out| == |m.out| + 1
    ensures args.None? || args.value == [] ==> r == XStep(m.(out := m.out + [Printed([])]), Ok(NoneV))
    ensures args.Some? && args.value != [] ==>
      var v := e.eval(m.store, args.value);
      && (r.res.Ok? <==> v.Ok? && (v.value.ListV? || v.value.StrV?))
      && (r.res.Ok? ==> r.res == Ok(NoneV) && r.m == m.(out := m.out + [Printed(Items(v.value).value)]))
      && (!r.res.Ok? ==> r.m == m && (if v.Ok? then r.res == Err(TypeError) else r.res == Fail(v)))
  {
    if args.None? || args.value == [] then XStep(m.(out := m.out + [Printed([])]), Ok(NoneV))
    else
      var v := e.eval(m.store, args.value);
      if !v.Ok? then XStep(m, Fail(v))
      else
        var xs := Items(v.value);
        if !xs.Ok? then XStep(m, Fail(xs))
        else XStep(m.(out := m.out + [Printed(xs.value)]), Ok(NoneV))
  }

  /** An assignment: both sides are evaluated, the left one first, then `do_assign`. */
  function ExecAssign(e: Engine, m: Machine, lhs: seq<Token>, rhs: seq<Token>): (r: XStep)
    ensures Moved(m, r.m)
  {
    var l := e.eval(m.store, lhs);
    if !l.Ok? then XStep(m, Fail(l))
    else
      var v := e.eval(m.store, rhs);
      if !v.Ok? then XStep(m, Fail(v))
      else
        var st := DoAssign(m.store, l.value, v.value);
        if !st.Ok? then XStep(m, Fail(st)) else XStep(m.(store := st.value), Ok(NoneV))
  }

  /**
   * The docstring of a procedure body: a first statement that evaluates a
   * lone string constant becomes the description and leaves the body.
   */
  function Docstring(e: Engine, body: seq<Stmt>): (r: Result<(Option<string>, seq<Stmt>)>)
    requires body != []
    ensures r.Ok? && r.value.0.Some? ==> r.value.1 == body[1..]
    ensures r.Ok? && r.value.0.None? ==> r.value.1 == body
  {
    var tx := body[0];
    if tx.Eval? && |tx.expr| == 2 && tx.expr[0] == Op(StringOp) then
      if tx.expr[1].Word? then Ok((Some(e.trimString(tx.expr[1].w)), body[1..])) else Err(TypeError)
    else Ok((None, body))
  }

  /** `def name(...)`: stores the procedure, with its docstring split off, in the current group. */
  function ExecDef(e: Engine, m: Machine, name: Token, params: seq<Token>, kws: map<Token, Val>,
                   body: seq<Stmt>): (r: XStep)
    ensures Moved(m, r.m) && r.m.out == m.out
    ensures r.res.Ok? <==> body != [] && body[0] != Nothing && Docstring(e, body).Ok? && name.Word?
    ensures body == [] ==> r.res == Err(IndexError)
    ensures body != [] && body[0] == Nothing ==> r.res == Err(TypeError)
    ensures !r.res.Ok? ==> r.m == m
    ensures r.res.Ok? ==>
      var d := Docstring(e, body).value;
      && r.res == Ok(NoneV) && r.m.interrupt == m.interrupt && r.m.retval == m.retval
      && r.m.store.dataGroup == m.store.dataGroup
      && GetVariable(r.m.store, name.w) == Some(Sym(name.w, DefProKind, NoneV, false, Body(params, kws, d.1, d.0)))
      && forall n :: n != name.w ==> GetVariable(r.m.store, n) == GetVariable(m.store, n)
  {
    if body == [] then XStep(m, Err(IndexError))
    else if body[0] == Nothing then XStep(m, Err(TypeError))
    else
      var d := Docstring(e, body);
      if !d.Ok? then XStep(m, Fail(d))
      else if !name.Word? then XStep(m, Err(TypeError))
      else XStep(m.(store := AddDefPro(m.store, name.w, d.value.1, d.value.0, params, kws)), Ok(NoneV))
  }

  // ---------------------------------------------------------------------------
  // run_procedure
  // ---------------------------------------------------------------------------

  /** No parameter after position `i` has the same name: the binding made at `i` is the one that stays. */
  predicate LastOfName(params: seq<Token>, i: int) {
    forall j :: 0 <= i < j < |params| ==> params[j] != params[i]
  }

  /**
   * The positional arguments bound in order, each parameter to the argument
   * at its position; a parameter that is not a name stops the binding.
   */
  function BindArgs(sto: Store, params: seq<Token>, args: seq<Val>): (r: (Store, bool))
    requires |params| == |args|
    ensures Frame(sto, r.0)
    ensures r.1 <==> forall i :: 0 <= i < |params| ==> params[i].Word?
    ensures r.1 ==> forall i :: 0 <= i < |params| && LastOfName(params, i) ==>
      GetVariable(r.0, params[i].w) == Some(Sym(params[i].w, VariableKind, args[i], false, NoCode))
    ensures forall n :: Word(n) !in params ==> GetVariable(r.0, n) == GetVariable(sto, n)
    decreases |params|
  {
    if params == [] then (sto, true)
    else if !params[0].Word? then (sto, false)
    else
      var s1 := SetVariable(sto, params[0].w, args[0]);
      var b := BindArgs(s1, params[1..], args[1..]);
      assert forall i :: 1 <= i < |params| ==> params[i] == params[1..][i - 1] && args[i] == args[1..][i - 1];
      assert forall i :: 1 <= i < |params| && LastOfName(params, i) ==> LastOfName(params[1..], i - 1);
      assert LastOfName(params, 0) ==> Word(params[0].w) !in params[1..];
      b
  }

  /** The keyword values by name, when every keyword is a name. */
  function KwValues(kv: map<Token, Val>): (r: map<string, Val>)
    ensures forall k :: k in kv && k.Word? ==> k.w in r && r[k.w] == kv[k]
    ensures forall n :: n in r ==> Word(n) in kv
  {
    map k | k in kv && k.Word? :: k.w := kv[k]
  }

  /**
   * The body of a procedure: an error is reported and ends the body (the
   * report itself fails on a statement that compiled to nothing); a `return`
   * ends it with the returned value and clears the interrupt level.
   */
  function ProcLoop(e: Engine, m: Machine, name: string, code: seq<Stmt>, fuel: nat): (r: XStep)
    ensures Moved(m, r.m)
    ensures r.res.Err? ==> r.res.error == TypeError && Nothing in code
    decreases |code|
  {
    if code == [] then XStep(m, Ok(NoneV))
    else
      var x := Exec(e, m, code[0], fuel);
      if x.res.Diverged? then x
      else if x.res.Err? then
        if code[0] == Nothing then x
        else XStep(x.m.(out := x.m.out + [Reported(name, x.res.error)]), Ok(NoneV))
      else if x.m.interrupt == ReturnLevel then XStep(x.m.(interrupt := 0), Ok(x.m.retval))
      else ProcLoop(e, x.m, name, code[1..], fuel)
  }

  /** A one-element list stands for its element. */
  function Unwrap(v: Val): (r: Val)
    ensures v.ListV? && |v.items| == 1 ==> r == v.items[0]
    ensures !(v.ListV? && |v.items| == 1) ==> r == v
  {
    if v.ListV? && |v.items| == 1 then v.items[0] else v
  }

  /**
   * The set-up of a call in its new group `g`: `g` becomes the current group
   * and receives the arguments and then the keyword values. False when a
   * parameter or keyword is not a name.
   */
  function EnterCall(sto: Store, g: string, params: seq<Token>, args: seq<Val>, kv: map<Token, Val>): (r: (Store, bool))
    requires |params| == |args|
    ensures r.0.dataGroup == g && r.0.funcs == sto.funcs && r.0.serial == sto.serial
    ensures forall h :: h != g ==> (h in r.0.groups <==> h in sto.groups)
    ensures forall h :: h != g && h in sto.groups ==> r.0.groups[h] == sto.groups[h]
    ensures r.1 <==> (forall i :: 0 <= i < |params| ==> params[i].Word?) && (forall k :: k in kv ==> k.Word?)
    ensures r.1 ==> forall n :: n in KwValues(kv) ==>
      GetVariable(r.0, n) == Some(Sym(n, VariableKind, KwValues(kv)[n], false, NoCode))
    ensures r.1 ==> forall i :: 0 <= i < |params| && LastOfName(params, i) && params[i].w !in KwValues(kv) ==>
      GetVariable(r.0, params[i].w) == Some(Sym(params[i].w, VariableKind, args[i], false, NoCode))
    ensures r.1 ==> forall n :: n !in KwValues(kv) && Word(n) !in params ==>
      GetVariable(r.0, n) == GetVariable(SetDataGroup(sto, g), n)
  {
    var (s1, ok) := BindArgs(SetDataGroup(sto, g), params, args);
    if !ok then (s1, false)
    else if exists k :: k in kv && !k.Word? then (s1, false)
    else (SetVariables(s1, KwValues(kv)), true)
  }

  /** The end of a call: its group `g` is deleted and `save` is the current group again. */
  function LeaveCall(sto: Store, g: string, save: string): (r: Store)
    ensures r.groups == sto.groups - {g} && r.dataGroup == save && r.funcs == sto.funcs && r.serial == sto.serial
  {
    SetDataGroup(DeleteGroup(sto, g), save)
  }

  /**
   * `run_procedure(proc, args, kws)`: the body runs in a new group of its
   * own, holding the arguments and the keyword values (those of the call
   * override the defaults), which is removed afterwards; the previous
   * current group is restored.
   */
  function RunProcedure(e: Engine, m: Machine, proc: Sym, args: seq<Val>, kws: map<Token, Val>, fuel: nat): (r: XStep)
    ensures r.res.Ok? ==> proc.kind == DefProKind && proc.code.Body? && |args| == |proc.code.params|
    ensures Appended(m.out, r.m.out)
  {
    if proc.kind != DefProKind || !proc.code.Body? then XStep(m, Err(EvalError("invalid procedure")))
    else if |args| != |proc.code.params| then XStep(m, Err(EvalError("not enough arguments for procedure " + proc.name)))
    else
      var (s1, g) := AddRandomGroup(m.store, proc.name);
      if g.None? then XStep(m.(store := s1), Err(EvalError("cannot run procedure " + proc.name)))
      else
        var (s2, ok) := EnterCall(s1, g.value, proc.code.params, args, proc.code.kws + kws);
        if !ok then XStep(m.(store := s2), Err(TypeError))
        else
          var x := ProcLoop(e, m.(store := s2), proc.name, proc.code.stmts, fuel);
          if !x.res.Ok? then x
          else XStep(x.m.(store := LeaveCall(x.m.store, g.value, m.store.dataGroup)), Ok(Unwrap(x.res.value)))
  }

  // ---------------------------------------------------------------------------
  // run
  // ---------------------------------------------------------------------------

  /** The reader and machine after `run`, and its value. */
  datatype RStep = RStep(rd: Reader, m: Machine, res: Result<Val>)

  /**
   * `run()`: pops the pending lines one by one (without counting them),
   * skips empty ones, compiles each into a statement (reading further lines
   * for a block) and executes it. The value is that of the last statement
   * executed; `fuel` bounds the number of lines handled.
   */
  function RunLoop(e: Engine, rd: Reader, m: Machine, ret: Val, fuel: nat): (r: RStep)
    decreases fuel, 1
  {
    if rd.text == [] then RStep(rd, m, Ok(ret))
    else if fuel == 0 then RStep(rd, m, Diverged)
    else RunLine(e, rd.(text := rd.text[..|rd.text| - 1]), m, rd.text[|rd.text| - 1].text, ret, fuel)
  }

  /** The popped line `text`, then the rest of `run` with one unit of fuel less unless the line failed. */
  function RunLine(e: Engine, rd: Reader, m: Machine, text: string, ret: Val, fuel: nat): (r: RStep)
    requires fuel > 0
    decreases fuel, 0
  {
    var x := LineOutcome(e, rd, m, text, ret, fuel);
    if !x.res.Ok? then x else RunLoop(e, x.rd, x.m, x.res.value, fuel - 1)
  }

  /** One line of `run`: nothing for an empty line or one that compiles to nothing, else its statement executed. */
  function LineOutcome(e: Engine, rd: Reader, m: Machine, text: string, ret: Val, fuel: nat): (r: RStep)
    ensures Moved(m, r.m)
  {
    if text == [] then RStep(rd, m, Ok(ret))
    else
      var c := Compile(e, m.store, rd, Some(text), fuel);
      if !c.res.Ok? then RStep(c.rd, m, Fail(c.res))
      else if c.res.value == Nothing then RStep(c.rd, m, Ok(ret))
      else
        var x := Exec(e, m, c.res.value, fuel);
        RStep(c.rd, x.m, x.res)
  }

  /** `run` pops its top line, handles it and goes on with one unit of fuel less. */
  lemma RunLoopTurn(e: Engine, rd: Reader, m: Machine, ret: Val, fuel: nat)
    requires rd.text != [] && fuel > 0
    ensures RunLoop(e, rd, m, ret, fuel) ==
      var x := LineOutcome(e, rd.(text := rd.text[..|rd.text| - 1]), m, rd.text[|rd.text| - 1].text, ret, fuel);
      if !x.res.Ok? then x else RunLoop(e, x.rd, x.m, x.res.value, fuel - 1)
  {
  }

  /** What `run` still produces from the given state, under a non-recursive name for the evaluator's loop. */
  function RunRest(e: Engine, rd: Reader, m: Machine, ret: Val, fuel: nat): RStep {
    RunLoop(e, rd, m, ret, fuel)
  }
}
