/**
 * The symbol-table calls lib/Eval.py makes (`getVariableCurrentGroup`,
 * `setVariable`, `deleteSymbol`, `setDefVariable`, `addDefPro`,
 * `addRandomGroup`, `deleteGroup`, `getDataGroup`/`setDataGroup`, `hasFunc`),
 * given definitions over a `Store` value. Names are resolved in the current
 * data group only.
 */
module TdlStore {
  import opened Basics
  import opened TdlTypes

  /** The symbols of the current data group (none when the group is gone). */
  function Current(sto: Store): map<string, Sym> {
    if sto.dataGroup in sto.groups then sto.groups[sto.dataGroup] else map[]
  }

  /** Binds `name` to `sym` in the current data group, creating the group if it is gone. */
  function Put(sto: Store, name: string, sym: Sym): (r: Store)
    ensures Current(r) == Current(sto)[name := sym]
    ensures r.dataGroup == sto.dataGroup && r.funcs == sto.funcs && r.serial == sto.serial
    ensures r.groups.Keys == sto.groups.Keys + {sto.dataGroup}
    ensures forall g :: g in sto.groups && g != sto.dataGroup ==> r.groups[g] == sto.groups[g]
  {
    sto.(groups := sto.groups[sto.dataGroup := Current(sto)[name := sym]])
  }

  /** `getVariableCurrentGroup(name)`. */
  function GetVariable(sto: Store, name: string): (r: Option<Sym>)
    ensures r.Some? <==> name in Current(sto)
    ensures r.Some? ==> r.value == Current(sto)[name]
  {
    if name in Current(sto) then Some(Current(sto)[name]) else None
  }

  /** `setVariable(name, v)`: a plain, non-constant variable holding `v`. */
  function SetVariable(sto: Store, name: string, v: Val): (r: Store)
    ensures GetVariable(r, name) == Some(Sym(name, VariableKind, v, false, NoCode))
    ensures forall n :: n != name ==> GetVariable(r, n) == GetVariable(sto, n)
  {
    Put(sto, name, Sym(name, VariableKind, v, false, NoCode))
  }

  /** `setVariable` for every entry of `vals`; the names differ, so the order does not matter. */
  function SetVariables(sto: Store, vals: map<string, Val>): (r: Store)
    ensures forall n :: n in vals ==> GetVariable(r, n) == Some(Sym(n, VariableKind, vals[n], false, NoCode))
    ensures forall n :: n !in vals ==> GetVariable(r, n) == GetVariable(sto, n)
    ensures r.dataGroup == sto.dataGroup && r.funcs == sto.funcs && r.serial == sto.serial
    ensures r.groups.Keys == sto.groups.Keys + {sto.dataGroup}
    ensures forall g :: g in sto.groups && g != sto.dataGroup ==> r.groups[g] == sto.groups[g]
  {
    var syms := map n | n in vals :: Sym(n, VariableKind, vals[n], false, NoCode);
    sto.(groups := sto.groups[sto.dataGroup := Current(sto) + syms])
  }

  /** `setDefVariable(name, expr, text)`: a formula symbol, re-evaluated when read. */
  function SetDefVariable(sto: Store, name: string, expr: seq<Token>, text: string): (r: Store)
    ensures GetVariable(r, name) == Some(Sym(name, DefVarKind, NoneV, false, Formula(expr, text)))
    ensures forall n :: n != name ==> GetVariable(r, n) == GetVariable(sto, n)
  {
    Put(sto, name, Sym(name, DefVarKind, NoneV, false, Formula(expr, text)))
  }

  /** `addDefPro(name, code, desc, args, kws)`: a procedure symbol. */
  function AddDefPro(sto: Store, name: string, code: seq<Stmt>, desc: Option<string>,
                     params: seq<Token>, kws: map<Token, Val>): (r: Store)
    ensures GetVariable(r, name) == Some(Sym(name, DefProKind, NoneV, false, Body(params, kws, code, desc)))
    ensures forall n :: n != name ==> GetVariable(r, n) == GetVariable(sto, n)
  {
    Put(sto, name, Sym(name, DefProKind, NoneV, false, Body(params, kws, code, desc)))
  }

  /** `deleteSymbol(name)`: fails when the current group does not hold the name. */
  function DeleteSymbol(sto: Store, name: string): (r: Result<Store>)
    ensures r.Ok? <==> name in Current(sto)
    ensures r.Ok? ==> GetVariable(r.value, name) == None && r.value.dataGroup == sto.dataGroup
    ensures r.Ok? ==> forall n :: n != name ==> GetVariable(r.value, n) == GetVariable(sto, n)
  {
    if name in Current(sto) then
      Ok(sto.(groups := sto.groups[sto.dataGroup := Current(sto) - {name}]))
    else Err(NameError)
  }

  /** The decimal digits of `n`. */
  function Digits(n: nat): (r: string)
    ensures r != []
    decreases n
  {
    var d := [('0' as int + n % 10) as char];
    if n < 10 then d else Digits(n / 10) + d
  }

  /**
   * `addRandomGroup(prefix)`: a new, empty group whose name starts with the
   * prefix, or None when the chosen name is taken; the counter moves on
   * either way. The current data group does not change.
   */
  function AddRandomGroup(sto: Store, prefix: string): (r: (Store, Option<string>))
    ensures r.0.dataGroup == sto.dataGroup && r.0.funcs == sto.funcs && r.0.serial == sto.serial + 1
    ensures r.1.Some? ==> r.1.value !in sto.groups && r.0.groups == sto.groups[r.1.value := map[]]
    ensures r.1.None? ==> r.0.groups == sto.groups
  {
    var name := prefix + "_" + Digits(sto.serial);
    if name in sto.groups then (sto.(serial := sto.serial + 1), None)
    else (sto.(groups := sto.groups[name := map[]], serial := sto.serial + 1), Some(name))
  }

  /** `deleteGroup(name)`. */
  function DeleteGroup(sto: Store, name: string): (r: Store)
    ensures name !in r.groups
    ensures forall g :: g != name ==> (g in r.groups <==> g in sto.groups)
    ensures forall g :: g in r.groups ==> r.groups[g] == sto.groups[g]
    ensures r.dataGroup == sto.dataGroup && r.funcs == sto.funcs && r.serial == sto.serial
  {
    sto.(groups := sto.groups - {name})
  }

  /** `setDataGroup(name)`. */
  function SetDataGroup(sto: Store, name: string): (r: Store)
    ensures r.dataGroup == name && r.groups == sto.groups && r.funcs == sto.funcs && r.serial == sto.serial
  {
    sto.(dataGroup := name)
  }

  /** `hasFunc(name)`: the name is a built-in command. */
  predicate HasFunc(sto: Store, name: string) {
    name in sto.funcs
  }
}
