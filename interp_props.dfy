/**
 * Properties of the interpreter of lib/Eval.py: which branch of an `if`
 * runs, when a `while` loop stops, how far a `break` reaches, what a `for`
 * loop leaves bound, what `del` removes, what `print` writes and `def`
 * stores, and that a procedure call leaves the
 * symbol groups as it found them.
 */
module InterpProps {
  import opened Basics
  import opened TdlTypes
  import opened TdlStore
  import opened Interp
  import Reader

  // ---------------------------------------------------------------------------
  // if
  // ---------------------------------------------------------------------------

  /** The condition of branch `i` is false in `sto`. */
  predicate FalseIn(e: Engine, sto: Store, b: Branch) {
    e.eval(sto, b.cond).Ok? && !Truthy(e.eval(sto, b.cond).value)
  }

  /**
   * The branches before `k` being false and branch `k` true, exactly branch
   * `k` runs; its value is the statement's unless it left a `break` or
   * `return` pending.
   */
  lemma {:induction false} IfRunsFirstTrue(e: Engine, m: Machine, bs: seq<Branch>, fuel: nat, k: nat)
    requires k < |bs|
    requires forall i :: 0 <= i < k ==> FalseIn(e, m.store, bs[i])
    requires e.eval(m.store, bs[k].cond).Ok? && Truthy(e.eval(m.store, bs[k].cond).value)
    ensures IfExec(e, m, bs, fuel) ==
      var b := Block(e, m, bs[k].body, NoneV, fuel);
      if b.res.Ok? && b.m.interrupt > 1 then XStep(b.m, Ok(NoneV)) else b
    decreases k
  {
    if k > 0 {
      assert FalseIn(e, m.store, bs[0]);
      assert forall i :: 0 <= i < k - 1 ==> bs[1..][i] == bs[i + 1];
      IfRunsFirstTrue(e, m, bs[1..], fuel, k - 1);
    }
  }

  /** When every condition is false, nothing runs and the value is None. */
  lemma {:induction false} IfAllFalse(e: Engine, m: Machine, bs: seq<Branch>, fuel: nat)
    requires forall i :: 0 <= i < |bs| ==> FalseIn(e, m.store, bs[i])
    ensures IfExec(e, m, bs, fuel) == XStep(m, Ok(NoneV))
    decreases |bs|
  {
    if bs != [] {
      assert FalseIn(e, m.store, bs[0]);
      assert forall i :: 0 <= i < |bs| - 1 ==> bs[1..][i] == bs[i + 1];
      IfAllFalse(e, m, bs[1..], fuel);
    }
  }

  // ---------------------------------------------------------------------------
  // while
  // ---------------------------------------------------------------------------

  /**
   * A `while` loop that finishes normally stopped either because its
   * condition is false in the final store or because a `break` or `return`
   * is pending.
   */
  lemma {:induction false} WhileExit(e: Engine, m: Machine, cond: seq<Token>, body: seq<Stmt>, fuel: nat)
    ensures var r := WhileLoop(e, m, cond, body, fuel);
      r.res.Ok? ==> r.m.interrupt > 1 || (e.eval(r.m.store, cond).Ok? && !Truthy(e.eval(r.m.store, cond).value))
    decreases fuel
  {
    var c := e.eval(m.store, cond);
    if c.Ok? && Truthy(c.value) && fuel > 0 {
      var b := Block(e, m, body, NoneV, fuel);
      if b.res.Ok? && b.m.interrupt <= 1 {
        WhileExit(e, b.m.(interrupt := 0), cond, body, fuel - 1);
      }
    }
  }

  /**
   * A `break` inside an inner `while` also ends the enclosing loop: the
   * level 2 it sets is still pending when the inner loop returns, and the
   * statements after the inner loop never run.
   */
  lemma NestedBreakEndsOuter(e: Engine, m: Machine, c1: seq<Token>, c2: seq<Token>, rest: seq<Stmt>, fuel: nat)
    requires fuel > 0
    requires e.eval(m.store, c1).Ok? && Truthy(e.eval(m.store, c1).value)
    requires e.eval(m.store, c2).Ok? && Truthy(e.eval(m.store, c2).value)
    ensures Exec(e, m, While(c1, [While(c2, [Break])] + rest), fuel) ==
      XStep(m.(interrupt := BreakLevel), Ok(NoneV))
  {
    var m0 := m.(interrupt := 0);
    var inner := WhileLoop(e, m0, c2, [Break], fuel);
    assert Block(e, m0, [Break], NoneV, fuel) == XStep(m0.(interrupt := BreakLevel), Ok(NoneV));
    assert inner == XStep(m0.(interrupt := BreakLevel), Ok(NoneV));
    var body := [While(c2, [Break])] + rest;
    assert body[0] == While(c2, [Break]);
    assert Block(e, m0, body, NoneV, fuel) == inner;
  }

  // ---------------------------------------------------------------------------
  // for
  // ---------------------------------------------------------------------------

  /** A `for` loop with an empty body leaves its variable bound to the last item. */
  lemma {:induction false} ForBindsLast(e: Engine, m: Machine, n: string, xs: seq<Val>, fuel: nat)
    requires xs != [] && m.interrupt <= 1
    ensures var r := ForLoop(e, m, Word(n), xs, [], fuel);
      r.res == Ok(NoneV) && GetVariable(r.m.store, n) == Some(Sym(n, VariableKind, xs[|xs| - 1], false, NoCode))
    decreases |xs|
  {
    var m1 := m.(store := SetVariable(m.store, n, xs[0]));
    if |xs| > 1 {
      ForBindsLast(e, m1.(interrupt := 0), n, xs[1..], fuel);
      assert xs[1..][|xs[1..]| - 1] == xs[|xs| - 1];
    }
  }

  /**
   * A `for` loop over `xs` is the loop over its first `k` items followed,
   * when those ran through without failing or stopping the loop, by the loop
   * over the rest.
   */
  lemma {:induction false} ForPrefix(e: Engine, m: Machine, n: string, xs: seq<Val>, body: seq<Stmt>, fuel: nat, k: nat)
    requires k <= |xs| && m.interrupt <= 1
    ensures var a := ForLoop(e, m, Word(n), xs[..k], body, fuel);
      ForLoop(e, m, Word(n), xs, body, fuel) ==
        if a.res.Ok? && a.m.interrupt <= 1 then ForLoop(e, a.m, Word(n), xs[k..], body, fuel) else a
    decreases k
  {
    if k > 0 {
      var b := Block(e, m.(store := SetVariable(m.store, n, xs[0])), body, NoneV, fuel);
      assert xs[..k][0] == xs[0];
      if b.res.Ok? && b.m.interrupt <= 1 {
        assert xs[..k][1..] == xs[1..][..k - 1];
        assert xs[1..][k - 1..] == xs[k..];
        ForPrefix(e, b.m.(interrupt := 0), n, xs[1..], body, fuel, k - 1);
      }
    }
  }

  /**
   * The body runs once per item, in order: once the first `k` items have
   * run through, the body runs with the loop variable bound to item `k`, and
   * the loop goes on with the items after it unless that run failed or
   * ended the loop with a `break` or `return`.
   */
  lemma ForRunsItem(e: Engine, m: Machine, n: string, xs: seq<Val>, body: seq<Stmt>, fuel: nat, k: nat)
    requires k < |xs| && m.interrupt <= 1
    ensures var a := ForLoop(e, m, Word(n), xs[..k], body, fuel);
      a.res.Ok? && a.m.interrupt <= 1 ==>
        ForLoop(e, m, Word(n), xs, body, fuel) ==
          var b := Block(e, a.m.(store := SetVariable(a.m.store, n, xs[k])), body, NoneV, fuel);
          if !b.res.Ok? then b
          else if b.m.interrupt > 1 then XStep(b.m, Ok(NoneV))
          else ForLoop(e, b.m.(interrupt := 0), Word(n), xs[k + 1..], body, fuel)
  {
    ForPrefix(e, m, n, xs, body, fuel, k);
    assert xs[k..][0] == xs[k] && xs[k..][1..] == xs[k + 1..];
  }

  // ---------------------------------------------------------------------------
  // try
  // ---------------------------------------------------------------------------

  /**
   * The statements of a `try` body do not look at the interrupt level: the
   * statements after a `break` still run.
   */
  lemma TryBodyIgnoresBreak(e: Engine, m: Machine, rest: seq<Stmt>, fuel: nat)
    ensures RunAll(e, m, [Break] + rest, fuel) == RunAll(e, m.(interrupt := BreakLevel), rest, fuel)
  {
    var body := [Break] + rest;
    assert body[0] == Break && body[1..] == rest;
    assert Exec(e, m, Break, fuel) == XStep(m.(interrupt := BreakLevel), Ok(NoneV));
  }

  /**
   * A `try` either completes with None, or its `except` part failed too, or
   * it has no `except` part; a body that runs out of fuel is not caught.
   */
  lemma TryOutcome(e: Engine, m: Machine, parts: seq<Branch>, fuel: nat)
    requires parts != []
    ensures var r := Exec(e, m, Try(parts), fuel);
      var a := RunAll(e, m, parts[0].body, fuel);
      (a.res.Ok? ==> r == XStep(a.m, Ok(NoneV))) &&
      (a.res.Diverged? ==> r.res.Diverged?) &&
      (a.res.Err? && |parts| < 2 ==> r == XStep(a.m, Err(IndexError))) &&
      (a.res.Err? && |parts| >= 2 ==> r == RunAll(e, a.m, parts[1].body, fuel))
  {
  }

  // ---------------------------------------------------------------------------
  // del
  // ---------------------------------------------------------------------------

  /** No name occurs twice. */
  predicate Distinct(names: seq<string>) {
    forall i, j :: 0 <= i < j < |names| ==> names[i] != names[j]
  }

  /** The `variable, name` pairs of a compiled `del` argument list. */
  function Pairs(names: seq<string>): (r: seq<Token>)
    ensures |r| == 2 * |names|
  {
    if names == [] then [] else [Op(Variable), Word(names[0])] + Pairs(names[1..])
  }

  /** The compiled argument list of `del n1, ..., nk`: the list tag, the count and a pair per name. */
  function DelList(names: seq<string>): seq<Token> {
    [Op(ListOp), Num(|names|)] + Pairs(names)
  }

  /** The names read from the pairs of `names` are `names`. */
  lemma {:induction false} PairsTargets(names: seq<string>)
    ensures DelTargets(Pairs(names), |names|) == names
    decreases |names|
  {
    if names != [] {
      var p := Pairs(names);
      assert p[1] == Word(names[0]) && p[2..] == Pairs(names[1..]);
      PairsTargets(names[1..]);
    }
  }

  /** A list of names is distinct exactly when its tail is and does not hold its head. */
  lemma DistinctCons(names: seq<string>)
    requires names != []
    ensures Distinct(names) <==> Distinct(names[1..]) && names[0] !in names[1..]
  {
    var rest := names[1..];
    assert forall i :: 0 <= i < |rest| ==> rest[i] == names[i + 1];
    if Distinct(rest) && names[0] !in rest {
      forall i, j | 0 <= i < j < |names| ensures names[i] != names[j] {
        if i == 0 { assert names[j] == rest[j - 1]; }
      }
    }
  }

  /** Every one of `names` is bound in the current group. */
  predicate AllBound(sto: Store, names: seq<string>) {
    forall n :: n in names ==> n in Current(sto)
  }

  /** After deleting a bound name, the names of `rest` are all bound exactly when they were and none is that name. */
  lemma DeleteKeepsOthers(sto: Store, a: string, rest: seq<string>)
    requires a in Current(sto)
    ensures AllBound(DeleteSymbol(sto, a).value, rest) <==> a !in rest && AllBound(sto, rest)
  {
    var d := DeleteSymbol(sto, a).value;
    assert GetVariable(d, a) == None;
    forall n | n != a ensures n in Current(d) <==> n in Current(sto) {
      assert GetVariable(d, n) == GetVariable(sto, n);
    }
  }

  /** One turn of the deletion loop over the pairs of `names`. */
  lemma PairsStep(sto: Store, names: seq<string>)
    requires names != []
    ensures var a := names[0];
      var k := |names|;
      var p := Pairs(names);
      (a !in Current(sto) ==> !DelNames(sto, p, k).1) &&
      (a in Current(sto) ==>
        var d := DeleteSymbol(sto, a).value;
        DelNames(sto, p, k) == DelNames(d, Pairs(names[1..]), k - 1) &&
        PairsPopped(sto, p, k) == 2 + PairsPopped(d, Pairs(names[1..]), k - 1))
  {
    var p := Pairs(names);
    assert p[0] == Op(Variable) && p[1] == Word(names[0]) && p[2..] == Pairs(names[1..]);
  }

  /** The names are all bound exactly when the first is and the rest are. */
  lemma AllBoundCons(sto: Store, names: seq<string>)
    requires names != []
    ensures AllBound(sto, names) <==> names[0] in Current(sto) && AllBound(sto, names[1..])
  {
    assert names == [names[0]] + names[1..];
  }

  /**
   * Deleting the pairs of `names` succeeds exactly when the names differ and
   * are all bound in the current group.
   */
  lemma {:induction false} PairsDeleted(sto: Store, names: seq<string>)
    ensures DelNames(sto, Pairs(names), |names|).1 <==> Distinct(names) && AllBound(sto, names)
    decreases |names|
  {
    if names != [] {
      var a, rest := names[0], names[1..];
      PairsStep(sto, names);
      AllBoundCons(sto, names);
      if a in Current(sto) {
        var d := DeleteSymbol(sto, a).value;
        DistinctCons(names);
        DeleteKeepsOthers(sto, a, rest);
        PairsDeleted(d, rest);
      }
    }
  }

  /** A deletion of the pairs of `names` that succeeds reads every pair. */
  lemma {:induction false} PairsRead(sto: Store, names: seq<string>)
    ensures DelNames(sto, Pairs(names), |names|).1 ==> PairsPopped(sto, Pairs(names), |names|) == 2 * |names|
    decreases |names|
  {
    if names != [] {
      PairsStep(sto, names);
      if names[0] in Current(sto) {
        PairsRead(DeleteSymbol(sto, names[0]).value, names[1..]);
      }
    }
  }

  /**
   * `del n1, ..., nk` of different names bound in the current group removes
   * exactly those names and writes nothing; when a name is missing or
   * repeated the statement fails.
   */
  lemma DelRemovesNames(e: Engine, m: Machine, names: seq<string>, fuel: nat)
    ensures var r := Exec(e, m, Del(Some(DelList(names))), fuel);
      (r.res == Ok(NoneV) <==> Distinct(names) && forall n :: n in names ==> n in Current(m.store)) &&
      (!r.res.Ok? ==> r.res == Err(EvalError(InvalidDel))) &&
      r.m.out == m.out &&
      (r.res.Ok? ==> forall n :: n in names ==> GetVariable(r.m.store, n) == None) &&
      (forall n :: n !in names ==> GetVariable(r.m.store, n) == GetVariable(m.store, n))
  {
    var ts := DelList(names);
    assert ts[2..] == Pairs(names);
    PairsDeleted(m.store, names);
    PairsTargets(names);
  }

  /**
   * As written, a successful `del` empties its own argument list, so running
   * the same statement again raises IndexError, whatever the names are bound
   * to by then (a `del` in a loop body, or in a procedure called twice).
   */
  lemma DelTwiceAsWritten(m: Machine, names: seq<string>)
    requires Distinct(names) && forall n :: n in names ==> n in Current(m.store)
    ensures var (x, left) := ExecDelAsWritten(m, Some(DelList(names)));
      x.res == Ok(NoneV) && left == Some([]) &&
      forall m2 :: ExecDelAsWritten(m2, left).0.res == Err(IndexError)
  {
    var ts := DelList(names);
    assert ts[2..] == Pairs(names);
    PairsDeleted(m.store, names);
    PairsRead(m.store, names);
    assert DelPopped(m.store, ts) == |ts|;
  }

  // ---------------------------------------------------------------------------
  // print
  // ---------------------------------------------------------------------------

  /** `print` without arguments writes an empty line and changes nothing else. */
  lemma PrintEmptyLine(e: Engine, m: Machine, args: Option<seq<Token>>, fuel: nat)
    requires args.None? || args.value == []
    ensures Exec(e, m, Print(args), fuel) == XStep(m.(out := m.out + [Printed([])]), Ok(NoneV))
  {
  }

  /** A list argument is written item by item on one line. */
  lemma PrintList(e: Engine, m: Machine, ts: seq<Token>, xs: seq<Val>, fuel: nat)
    requires ts != [] && e.eval(m.store, ts) == Ok(ListV(xs))
    ensures Exec(e, m, Print(Some(ts)), fuel) == XStep(m.(out := m.out + [Printed(xs)]), Ok(NoneV))
  {
  }

  /** A string argument is written one character at a time. */
  lemma PrintString(e: Engine, m: Machine, ts: seq<Token>, str: string, fuel: nat)
    requires ts != [] && e.eval(m.store, ts) == Ok(StrV(str))
    ensures var r := Exec(e, m, Print(Some(ts)), fuel);
      && r.res == Ok(NoneV) && r.m.store == m.store && |r.m.out| == |m.out| + 1
      && r.m.out[..|m.out|] == m.out && r.m.out[|m.out|].Printed?
      && |r.m.out[|m.out|].items| == |str|
      && forall i :: 0 <= i < |str| ==> r.m.out[|m.out|].items[i] == StrV([str[i]])
  {
  }

  /** An argument that is None or a number cannot be iterated: TypeError, and nothing is written. */
  lemma PrintNotIterable(e: Engine, m: Machine, ts: seq<Token>, fuel: nat)
    requires ts != [] && e.eval(m.store, ts).Ok?
    requires e.eval(m.store, ts).value.NoneV? || e.eval(m.store, ts).value.IntV?
    ensures Exec(e, m, Print(Some(ts)), fuel) == XStep(m, Err(TypeError))
  {
  }

  // ---------------------------------------------------------------------------
  // def
  // ---------------------------------------------------------------------------

  /**
   * A body opening with a lone string constant: the trimmed string becomes
   * the description and the rest is the stored code.
   */
  lemma DefTakesDocstring(e: Engine, m: Machine, name: string, params: seq<Token>, kws: map<Token, Val>,
                          body: seq<Stmt>, w: string, text: string, fuel: nat)
    requires body != [] && body[0] == Eval([Op(StringOp), Word(w)], text)
    ensures var r := Exec(e, m, Def(Word(name), params, kws, body), fuel);
      && r.res == Ok(NoneV) && r.m.out == m.out
      && GetVariable(r.m.store, name) == Some(Sym(name, DefProKind, NoneV, false, Body(params, kws, body[1..], Some(e.trimString(w)))))
      && forall n :: n != name ==> GetVariable(r.m.store, n) == GetVariable(m.store, n)
  {
  }

  /** Any other first statement: no description, and the whole body is stored. */
  lemma DefWithoutDocstring(e: Engine, m: Machine, name: string, params: seq<Token>, kws: map<Token, Val>,
                            body: seq<Stmt>, fuel: nat)
    requires body != [] && body[0] != Nothing
    requires !(body[0].Eval? && |body[0].expr| == 2 && body[0].expr[0] == Op(StringOp))
    ensures var r := Exec(e, m, Def(Word(name), params, kws, body), fuel);
      && r.res == Ok(NoneV) && r.m.out == m.out
      && GetVariable(r.m.store, name) == Some(Sym(name, DefProKind, NoneV, false, Body(params, kws, body, None)))
      && forall n :: n != name ==> GetVariable(r.m.store, n) == GetVariable(m.store, n)
  {
  }

  // ---------------------------------------------------------------------------
  // run_procedure
  // ---------------------------------------------------------------------------

  /**
   * A call that gets past its checks: a procedure symbol with a body, one
   * argument per parameter, a free name for the call's group, and names for
   * every parameter and keyword.
   */
  predicate CallReady(m: Machine, proc: Sym, args: seq<Val>, kws: map<Token, Val>) {
    proc.kind == DefProKind && proc.code.Body? && |args| == |proc.code.params| &&
    proc.name + "_" + Digits(m.store.serial) !in m.store.groups &&
    (forall i :: 0 <= i < |proc.code.params| ==> proc.code.params[i].Word?) &&
    (forall k :: k in proc.code.kws + kws ==> k.Word?)
  }

  /**
   * A procedure call that returns leaves every group and the current group
   * as they were: its own group is gone again. Only the counter for group
   * names has moved on.
   */
  lemma ProcedureRestoresStore(e: Engine, m: Machine, proc: Sym, args: seq<Val>, kws: map<Token, Val>, fuel: nat)
    ensures var r := RunProcedure(e, m, proc, args, kws, fuel);
      r.res.Ok? ==> r.m.store == m.store.(serial := m.store.serial + 1)
  {
    var r := RunProcedure(e, m, proc, args, kws, fuel);
    if r.res.Ok? {
      var (s1, g) := AddRandomGroup(m.store, proc.name);
      var (s2, ok) := EnterCall(s1, g.value, proc.code.params, args, proc.code.kws + kws);
      var x := ProcLoop(e, m.(store := s2), proc.name, proc.code.stmts, fuel);
      assert r.m.store == LeaveCall(x.m.store, g.value, m.store.dataGroup);
      GroupsRestored(m.store.groups, g.value, s1.groups, x.m.store.groups);
    }
  }

  /** A fresh group added and then removed, with nothing else touched meanwhile, leaves the groups as they were. */
  lemma GroupsRestored(before: map<string, map<string, Sym>>, g: string, added: map<string, map<string, Sym>>,
                       after: map<string, map<string, Sym>>)
    requires g !in before && added == before[g := map[]]
    requires forall h :: h != g ==> (h in after <==> h in added)
    requires forall h :: h != g && h in added ==> after[h] == added[h]
    ensures after - {g} == before
  {
    assert (after - {g}).Keys == before.Keys;
  }

  /**
   * Once a call gets past its checks, an exception inside the body is
   * reported rather than raised, unless the failing statement compiled to
   * nothing (its report fails itself).
   */
  lemma ProcedureReportsErrors(e: Engine, m: Machine, proc: Sym, args: seq<Val>, kws: map<Token, Val>, fuel: nat)
    requires CallReady(m, proc, args, kws) && Nothing !in proc.code.stmts
    ensures !RunProcedure(e, m, proc, args, kws, fuel).res.Err?
  {
    var (s1, g) := AddRandomGroup(m.store, proc.name);
    assert g.Some?;
  }

  /** The name of the group a call creates: the procedure's name and the group counter. */
  function CallGroup(m: Machine, proc: Sym): string {
    proc.name + "_" + Digits(m.store.serial)
  }

  /** The store the body of a call that gets past its checks starts in. */
  function CallStore(m: Machine, proc: Sym, args: seq<Val>, kws: map<Token, Val>): Store
    requires CallReady(m, proc, args, kws)
  {
    EnterCall(AddRandomGroup(m.store, proc.name).0, CallGroup(m, proc), proc.code.params, args, proc.code.kws + kws).0
  }

  /**
   * A call that gets past its checks runs the body in its new group, which
   * is current and holds exactly the parameters and the keywords: each
   * keyword bound to its value (the caller's over the default), each other
   * parameter to the argument at its last position. Afterwards the group is
   * removed, the caller's group is current again and a one-element list is
   * returned as its element.
   */
  lemma ProcedureBindsArguments(e: Engine, m: Machine, proc: Sym, args: seq<Val>, kws: map<Token, Val>, fuel: nat)
    requires CallReady(m, proc, args, kws)
    ensures var sto := CallStore(m, proc, args, kws);
      var kv := KwValues(proc.code.kws + kws);
      var params := proc.code.params;
      sto.dataGroup == CallGroup(m, proc) &&
      (forall n :: n in kv ==> GetVariable(sto, n) == Some(Sym(n, VariableKind, kv[n], false, NoCode))) &&
      (forall i :: 0 <= i < |params| && LastOfName(params, i) && params[i].w !in kv ==>
        GetVariable(sto, params[i].w) == Some(Sym(params[i].w, VariableKind, args[i], false, NoCode))) &&
      (forall n :: n !in kv && Word(n) !in params ==> GetVariable(sto, n) == None)
    ensures RunProcedure(e, m, proc, args, kws, fuel) ==
      var x := ProcLoop(e, m.(store := CallStore(m, proc, args, kws)), proc.name, proc.code.stmts, fuel);
      if !x.res.Ok? then x
      else XStep(x.m.(store := LeaveCall(x.m.store, CallGroup(m, proc), m.store.dataGroup)), Ok(Unwrap(x.res.value)))
  {
    var (s1, g) := AddRandomGroup(m.store, proc.name);
    assert g == Some(CallGroup(m, proc));
    assert Current(SetDataGroup(s1, g.value)) == map[];
  }

  /**
   * A `return` whose list evaluates to `v` in the call's store ends the
   * procedure once the statements before it have run through: the call
   * gives `v`, or its element when `v` is a one-element list, clears the
   * interrupt level, and leaves the groups as they were.
   */
  lemma ProcedureReturnsValue(e: Engine, m: Machine, proc: Sym, args: seq<Val>, kws: map<Token, Val>,
                              pre: seq<Stmt>, ts: seq<Token>, rest: seq<Stmt>, fuel: nat)
    requires CallReady(m, proc, args, kws) && proc.code.stmts == pre + [Return(Some(ts))] + rest
    requires var m0 := m.(store := CallStore(m, proc, args, kws));
      ClearRun(e, m0, pre, fuel).Some? && e.eval(ClearRun(e, m0, pre, fuel).value.store, ts).Ok?
    ensures var m1 := ClearRun(e, m.(store := CallStore(m, proc, args, kws)), pre, fuel).value;
      var v := e.eval(m1.store, ts).value;
      var r := RunProcedure(e, m, proc, args, kws, fuel);
      r.res == Ok(Unwrap(v)) && r.m.interrupt == 0 && r.m.retval == v && r.m.out == m1.out &&
      r.m.store == m.store.(serial := m.store.serial + 1)
  {
    ProcedureBindsArguments(e, m, proc, args, kws, fuel);
    ReturnEndsBody(e, m.(store := CallStore(m, proc, args, kws)), proc.name, pre, ts, rest, fuel);
    ProcedureRestoresStore(e, m, proc, args, kws, fuel);
  }

  /** The machine after the statements `code` of a body when each succeeds and none returns; None otherwise. */
  function ClearRun(e: Engine, m: Machine, code: seq<Stmt>, fuel: nat): Option<Machine>
    decreases |code|
  {
    if code == [] then Some(m)
    else
      var x := Exec(e, m, code[0], fuel);
      if x.res.Ok? && x.m.interrupt != ReturnLevel then ClearRun(e, x.m, code[1..], fuel) else None
  }

  /** A procedure body whose first statements run through goes on with the rest from where they left it. */
  lemma {:induction false} ProcLoopSplit(e: Engine, m: Machine, name: string, pre: seq<Stmt>, post: seq<Stmt>, fuel: nat)
    requires ClearRun(e, m, pre, fuel).Some?
    ensures ProcLoop(e, m, name, pre + post, fuel) == ProcLoop(e, ClearRun(e, m, pre, fuel).value, name, post, fuel)
    decreases |pre|
  {
    if pre != [] {
      assert (pre + post)[0] == pre[0] && (pre + post)[1..] == pre[1..] + post;
      var x := Exec(e, m, pre[0], fuel);
      assert x.res.Ok? && x.m.interrupt != ReturnLevel;
      assert ClearRun(e, m, pre, fuel) == ClearRun(e, x.m, pre[1..], fuel);
      ProcLoopSplit(e, x.m, name, pre[1..], post, fuel);
      assert ProcLoop(e, m, name, pre + post, fuel) == ProcLoop(e, x.m, name, pre[1..] + post, fuel);
    } else {
      assert pre + post == post;
    }
  }

  /**
   * A `return` ends a procedure body: once the statements before it have
   * run through, the body ends with the returned value and the interrupt
   * level cleared, and the statements after it never run.
   */
  lemma ReturnEndsBody(e: Engine, m: Machine, name: string, pre: seq<Stmt>, ts: seq<Token>, rest: seq<Stmt>, fuel: nat)
    requires ClearRun(e, m, pre, fuel).Some? && e.eval(ClearRun(e, m, pre, fuel).value.store, ts).Ok?
    ensures var m1 := ClearRun(e, m, pre, fuel).value;
      var v := e.eval(m1.store, ts).value;
      ProcLoop(e, m, name, pre + [Return(Some(ts))] + rest, fuel) == XStep(m1.(interrupt := 0, retval := v), Ok(v))
  {
    assert pre + [Return(Some(ts))] + rest == pre + ([Return(Some(ts))] + rest);
    ProcLoopSplit(e, m, name, pre, [Return(Some(ts))] + rest, fuel);
    var m1 := ClearRun(e, m, pre, fuel).value;
    var v := e.eval(m1.store, ts).value;
    assert Exec(e, m1, Return(Some(ts)), fuel) == XStep(m1.(interrupt := ReturnLevel, retval := v), Ok(NoneV));
  }

  /** The keyword values of the call override the procedure's defaults. */
  lemma CallerKeywordsWin(defaults: map<Token, Val>, given: map<Token, Val>, n: string)
    requires Word(n) in defaults + given
    ensures n in KwValues(defaults + given)
    ensures KwValues(defaults + given)[n] == if Word(n) in given then given[Word(n)] else defaults[Word(n)]
  {
  }

  // ---------------------------------------------------------------------------
  // run
  // ---------------------------------------------------------------------------

  /** Empty lines are skipped: a stack of them runs to its end and changes nothing. */
  lemma {:induction false} RunSkipsEmptyLines(e: Engine, rd: Reader.Reader, m: Machine, ret: Val, fuel: nat)
    requires forall i :: 0 <= i < |rd.text| ==> rd.text[i].text == []
    requires fuel >= |rd.text|
    ensures RunLoop(e, rd, m, ret, fuel) == RStep(rd.(text := []), m, Ok(ret))
    decreases |rd.text|
  {
    if rd.text != [] {
      var rd1 := rd.(text := rd.text[..|rd.text| - 1]);
      assert LineOutcome(e, rd1, m, rd.text[|rd.text| - 1].text, ret, fuel) == RStep(rd1, m, Ok(ret));
      RunSkipsEmptyLines(e, rd1, m, ret, fuel - 1);
    }
  }

  /** `run` that succeeds has used up every pending line. */
  lemma {:induction false} RunConsumesText(e: Engine, rd: Reader.Reader, m: Machine, ret: Val, fuel: nat)
    ensures var r := RunLoop(e, rd, m, ret, fuel); r.res.Ok? ==> r.rd.text == []
    decreases fuel
  {
    if rd.text != [] && fuel > 0 {
      var x := LineOutcome(e, rd.(text := rd.text[..|rd.text| - 1]), m, rd.text[|rd.text| - 1].text, ret, fuel);
      if x.res.Ok? {
        RunConsumesText(e, x.rd, x.m, x.res.value, fuel - 1);
      }
    }
  }

  /** Whatever `run` executes keeps to the current group and only appends output. */
  lemma {:induction false} RunKeepsGroups(e: Engine, rd: Reader.Reader, m: Machine, ret: Val, fuel: nat)
    ensures Moved(m, RunLoop(e, rd, m, ret, fuel).m)
    decreases fuel
  {
    if rd.text != [] && fuel > 0 {
      var x := LineOutcome(e, rd.(text := rd.text[..|rd.text| - 1]), m, rd.text[|rd.text| - 1].text, ret, fuel);
      if x.res.Ok? {
        RunKeepsGroups(e, x.rd, x.m, x.res.value, fuel - 1);
      }
    }
  }
}
