/**
 * The scope resolver of astlib/symbolTable.py (class `symbolTable`), stated as
 * functions over a value `State`. The class `SymbolTable.Table` updates its
 * fields in place and each of its methods is proved to agree with the function
 * of the same name here; the properties of the resolver are lemmas about these
 * functions.
 *
 * The bookkeeping attributes the source keeps in the `_sys` group
 * (`localGroup`, `moduleGroup`, `searchGroups`, `modules`, `pymodules`, `path`)
 * are fields of the state rather than members of that group; the private
 * `__cache` dictionary is the `cache` field and the writer's output is `log`.
 */
module Scope {
  import opened Basics
  import opened Strings
  import opened Namespace

  /** The table itself is a group; it is object 0 of the heap. */
  const Root: Oid := 0
  const TopGroup: string := "_main"
  const CoreGroups: seq<string> := ["_sys", "_builtin", "_math"]
  /** The member a group's deletion status is read from. */
  const StatusName: string := "_Group__status"

  /** The Python exceptions the resolver raises. */
  datatype Failure = LookupError | ValueError | AttributeError | ImportError | OSError | NameError

  datatype Result<T> = Ok(value: T) | Err(failure: Failure)

  /** The memoised search path: the inputs it was computed from and the groups. */
  datatype Cache = Cache(
    local: Option<Oid>,
    moduleGroup: Option<Oid>,
    names: Option<seq<string>>,
    groups: seq<Oid>)

  datatype State = State(
    heap: Heap,
    next: Oid,                    // the id the next new object gets
    local: Oid,                   // _sys.localGroup
    moduleGroup: Oid,                  // _sys.moduleGroup
    searchGroups: seq<string>,    // _sys.searchGroups (names of groups to search)
    modules: map<string, Oid>,    // _sys.modules: the registry of language modules
    pymodules: map<string, Oid>,  // _sys.pymodules: modules of the host language
    path: seq<string>,            // _sys.path: directories searched by import
    cache: Cache,
    log: seq<string>)             // text passed to the writer

  /** What an operation leaves behind: the new state and its outcome. */
  datatype Step<T> = Step(st: State, res: Result<T>)

  /** The object invariant the table keeps. */
  predicate Valid(st: State) {
    && (forall k :: k in st.heap ==> k < st.next)
    && Root in st.heap && st.heap[Root].isGroup
    && st.local in st.heap && st.heap[st.local].isGroup
    && st.moduleGroup in st.heap && st.heap[st.moduleGroup].isGroup
    && (forall n :: n in st.modules ==> st.modules[n] in st.heap)
    && (forall g :: g in st.cache.groups ==> g in st.heap)
    && (st.cache.names.Some? ==>
          && (forall c :: c in CoreGroups ==> c in st.cache.names.value)
          && NoDuplicates(st.cache.groups))
  }

  /** A fresh group, allocated at `st.next`. */
  function NewGroup(st: State): (r: State)
    ensures r.heap == st.heap[st.next := Obj(map[], true)] && r.next == st.next + 1
    ensures r == st.(heap := r.heap, next := r.next)
  {
    st.(heap := st.heap[st.next := Obj(map[], true)], next := st.next + 1)
  }

  /** Allocating a fresh group keeps the state well formed. */
  lemma ValidAlloc(st: State)
    requires Valid(st)
    ensures Valid(NewGroup(st))
  {
    assert st.next !in st.heap;
  }

  /** Replacing an object by one of the same kind keeps the state well formed. */
  lemma ValidReplace(st: State, id: Oid, o: Obj)
    requires Valid(st) && id in st.heap && o.isGroup == st.heap[id].isGroup
    ensures Valid(st.(heap := st.heap[id := o]))
  {
    assert st.heap[id := o].Keys == st.heap.Keys;
  }

  /** Registering an allocated object under a module name keeps the state well formed. */
  lemma ValidRegister(st: State, name: string, id: Oid)
    requires Valid(st) && id in st.heap
    ensures Valid(st.(modules := st.modules[name := id]))
  {
  }

  // ---------------------------------------------------------------------------
  // Construction (symbolTable.__init__)
  // ---------------------------------------------------------------------------

  /** The state `__init__` builds before it refreshes the search path. */
  function Bare(): State {
    State(
      heap := map[
        Root := Obj(map[TopGroup := Ref(Root), "_sys" := Ref(1), "_builtin" := Ref(2), "_math" := Ref(3)], true),
        1 := Obj(map[], true), 2 := Obj(map[], true), 3 := Obj(map[], true)],
      next := 4,
      local := Root, moduleGroup := Root,
      searchGroups := [],
      modules := map[TopGroup := Root, "_sys" := 1, "_builtin" := 2, "_math" := 3],
      pymodules := map[],
      path := ["."],
      cache := Cache(None, None, None, []),
      log := [])
  }

  function Initial(): State {
    Fix(Bare())
  }

  /**
   * After construction the root holds itself under `_main`, every core group
   * exists, is a member of the root and is registered in `_sys.modules`, and
   * the local and module groups are the root.
   */
  lemma InitialFacts()
    ensures var st := Initial();
      && Valid(st)
      && st.heap == Bare().heap
      && st.heap[Root].members[TopGroup] == Ref(Root)
      && st.modules[TopGroup] == Root
      && (forall c :: c in CoreGroups ==>
            c in st.modules && IsGroup(st.heap, Ref(st.modules[c])) &&
            c in st.heap[Root].members && st.heap[Root].members[c] == Ref(st.modules[c]))
      && st.local == Root && st.moduleGroup == Root
      && st.searchGroups == CoreGroups
      && st.cache.groups == [1, 2, 3]
  {
    BareValid();
    BareCore();
    InitialIs();
  }

  lemma BareCore()
    ensures var b := Bare();
      forall c :: c in CoreGroups ==>
        c in b.modules && IsGroup(b.heap, Ref(b.modules[c])) &&
        c in b.heap[Root].members && b.heap[Root].members[c] == Ref(b.modules[c])
  {
    var b := Bare();
    forall c | c in CoreGroups
      ensures c in b.modules && IsGroup(b.heap, Ref(b.modules[c])) &&
              c in b.heap[Root].members && b.heap[Root].members[c] == Ref(b.modules[c])
    {
      assert c == "_sys" || c == "_builtin" || c == "_math";
    }
  }

  lemma InitialIs()
    ensures Initial() == Bare().(searchGroups := CoreGroups, cache := Cache(Some(Root), Some(Root), Some(CoreGroups), [1, 2, 3]))
  {
    CoreNamesAdded();
    CoreGroupsResolved();
  }

  lemma BareValid()
    ensures Valid(Bare())
  {
    var b := Bare();
    assert b.heap.Keys == {0, 1, 2, 3};
    assert b.modules.Values <= {0, 1, 2, 3};
  }

  /** The search path `__init__` computes holds the core names once each, in order. */
  lemma CoreNamesAdded()
    ensures AddMissing([], CoreGroups) == CoreGroups
  {
    var ns := CoreGroups;
    assert ns[..1] == ["_sys"] && ns[..2] == ["_sys", "_builtin"] && ns[..3] == ns;
    assert ns[..2][..1] == ns[..1] && ns[..3][..2] == ns[..2];
    assert AddMissing([], ns[..1]) == ["_sys"];
    assert AddMissing([], ns[..2]) == ["_sys", "_builtin"];
  }

  /** The core names resolve to groups 1, 2 and 3 of a fresh table. */
  lemma CoreGroupsResolved()
    ensures Resolve(Bare().modules, CoreGroups) == [1, 2, 3]
  {
    var ns := CoreGroups;
    var m := Bare().modules;
    assert ns[..1] == ["_sys"] && ns[..2] == ["_sys", "_builtin"] && ns[..3] == ns;
    assert ns[..2][..1] == ns[..1] && ns[..3][..2] == ns[..2];
    assert Resolve(m, ns[..1]) == [1];
    assert Resolve(m, ns[..2]) == [1, 2];
  }

  // ---------------------------------------------------------------------------
  // The search path (_fix_searchGroups, _set_local_mod)
  // ---------------------------------------------------------------------------

  /** Appends each name of `core` that `names` lacks, in order. */
  function AddMissing(names: seq<string>, core: seq<string>): seq<string>
    decreases |core|
  {
    if core == [] then names
    else
      var r := AddMissing(names, core[..|core| - 1]);
      var c := core[|core| - 1];
      if c in r then r else r + [c]
  }

  /** The result keeps every given name and holds every core name. */
  lemma {:induction false} AddMissingKeeps(names: seq<string>, core: seq<string>)
    ensures forall c :: c in core ==> c in AddMissing(names, core)
    ensures forall n :: n in names ==> n in AddMissing(names, core)
    decreases |core|
  {
    if core != [] {
      var front := core[..|core| - 1];
      AddMissingKeeps(names, front);
      assert forall x :: x in core ==> x in front || x == core[|core| - 1];
    }
  }

  /** The registered modules named by `names`, each group once, first occurrence kept. */
  function Resolve(modules: map<string, Oid>, names: seq<string>): seq<Oid>
    decreases |names|
  {
    if names == [] then []
    else
      var acc := Resolve(modules, names[..|names| - 1]);
      var n := names[|names| - 1];
      if n in modules && modules[n] !in acc then acc + [modules[n]] else acc
  }

  /** The resolved groups are registered, distinct, and include every registered name's group. */
  lemma {:induction false} ResolveFacts(modules: map<string, Oid>, names: seq<string>)
    ensures NoDuplicates(Resolve(modules, names))
    ensures forall n :: n in names && n in modules ==> modules[n] in Resolve(modules, names)
    ensures forall g :: g in Resolve(modules, names) ==> g in modules.Values
    decreases |names|
  {
    if names != [] {
      var front := names[..|names| - 1];
      ResolveFacts(modules, front);
      assert forall x :: x in names ==> x in front || x == names[|names| - 1];
    }
  }

  /** The cache was computed from the current local group, module group and names. */
  predicate Fresh(st: State) {
    st.cache.local == Some(st.local) && st.cache.moduleGroup == Some(st.moduleGroup) &&
    st.cache.names == Some(st.searchGroups)
  }

  /**
   * `_fix_searchGroups`: recomputes the search path only when the local group,
   * the module group or `_sys.searchGroups` differ from what the cache was
   * computed from; the recomputed name list is the cached one with the missing
   * core names appended, and it replaces `_sys.searchGroups`.
   */
  function Fix(st: State): (r: State)
    ensures Fresh(st) ==> r == st
    ensures Fresh(r)
    ensures r == st.(searchGroups := r.searchGroups, cache := r.cache)
    ensures !Fresh(st) ==> r.cache.groups == Resolve(st.modules, r.searchGroups)
    ensures Valid(st) ==> Valid(r)
    ensures Valid(st) ==> forall c :: c in CoreGroups ==> c in r.searchGroups
  {
    if Fresh(st) then st
    else
      var names := AddMissing(if st.cache.names.Some? then st.cache.names.value else [], CoreGroups);
      AddMissingKeeps(if st.cache.names.Some? then st.cache.names.value else [], CoreGroups);
      ResolveFacts(st.modules, names);
      st.(searchGroups := names,
          cache := Cache(Some(st.local), Some(st.moduleGroup), Some(names), Resolve(st.modules, names)))
  }

  /**
   * After a refresh every core name is searched, the registered group of each
   * core name is in the search path, and no group is in it twice.
   */
  lemma FixSearchesCoreGroups(st: State)
    requires Valid(st) && !Fresh(st)
    ensures var r := Fix(st);
      && NoDuplicates(r.cache.groups)
      && forall c :: c in CoreGroups && c in st.modules ==> st.modules[c] in r.cache.groups
  {
    var r := Fix(st);
    ResolveFacts(st.modules, r.searchGroups);
  }

  lemma FixIdempotent(st: State)
    ensures Fix(Fix(st)) == Fix(st)
  {
  }

  /** `_set_local_mod`: installs a local and a module group, then refreshes. */
  function SetLocalMod(st: State, local: Oid, moduleGroup: Oid): (r: State)
    ensures r == st.(local := local, moduleGroup := moduleGroup, searchGroups := r.searchGroups, cache := r.cache)
    ensures Fresh(r)
    ensures Valid(st) && local in st.heap && st.heap[local].isGroup && moduleGroup in st.heap && st.heap[moduleGroup].isGroup
            ==> Valid(r)
  {
    Fix(st.(local := local, moduleGroup := moduleGroup))
  }

  /** The groups `_lookup` searches: local, module, the cached path, then the root if absent. */
  function SearchList(st: State): (gs: seq<Oid>)
    ensures |gs| >= 2 && gs[0] == st.local && gs[1] == st.moduleGroup
    ensures Root in gs
  {
    var base := [st.local, st.moduleGroup] + st.cache.groups;
    if Root in base then base else base + [Root]
  }

  // ---------------------------------------------------------------------------
  // Name resolution (_lookup, getSymbol, getGroup)
  // ---------------------------------------------------------------------------

  /** The index of the first group of `gs` that has `name`, or |gs|. */
  function FirstIndex(h: Heap, gs: seq<Oid>, name: string): (i: nat)
    ensures i <= |gs|
    ensures i < |gs| ==> HasAttr(h, Ref(gs[i]), name)
    ensures forall j :: 0 <= j < i ==> !HasAttr(h, Ref(gs[j]), name)
    decreases |gs|
  {
    if gs == [] then 0
    else if HasAttr(h, Ref(gs[0]), name) then 0
    else 1 + FirstIndex(h, gs[1..], name)
  }

  /** The index of the last group of `gs` that has `name`, or -1. */
  function LastIndex(h: Heap, gs: seq<Oid>, name: string): (i: int)
    ensures -1 <= i < |gs|
    ensures i >= 0 ==> HasAttr(h, Ref(gs[i]), name)
    ensures forall j :: i < j < |gs| ==> !HasAttr(h, Ref(gs[j]), name)
    decreases |gs|
  {
    if gs == [] then -1
    else if HasAttr(h, Ref(gs[|gs| - 1]), name) then |gs| - 1
    else LastIndex(h, gs[..|gs| - 1], name)
  }

  /** The member `name` of the first group of `gs` that has one. */
  function FirstHaving(h: Heap, gs: seq<Oid>, name: string): Option<Value> {
    var i := FirstIndex(h, gs, name);
    if i < |gs| then Some(GetAttr(h, Ref(gs[i]), name)) else None
  }

  /** The member `name` of the last group of `gs` that has one. */
  function LastHaving(h: Heap, gs: seq<Oid>, name: string): Option<Value> {
    var i := LastIndex(h, gs, name);
    if i >= 0 then Some(GetAttr(h, Ref(gs[i]), name)) else None
  }

  /** The value a missing segment is created as: a new group when more segments follow, else None. */
  function Created(st: State, more: bool): Value {
    if more then Ref(st.next) else NoneVal
  }

  /** Adds the missing member `p` to the object `out`, allocating a group for it when `more`. */
  function Create(st: State, out: Oid, p: string, more: bool): (r: State)
    requires out in st.heap
    ensures r == st.(heap := r.heap, next := r.next) && st.next <= r.next
  {
    var st1 := if more then NewGroup(st) else st;
    st1.(heap := SetAttr(st1.heap, out, p, Created(st, more)))
  }

  lemma CreateGrows(st: State, out: Oid, p: string, more: bool)
    requires out in st.heap && p !in st.heap[out].members
    ensures Valid(st) ==> Valid(Create(st, out, p, more)) && Extends(st.heap, Create(st, out, p, more).heap)
  {
    if Valid(st) {
      var st1 := if more then NewGroup(st) else st;
      var r := Create(st, out, p, more);
      if more {
        assert st.next !in st.heap;
        ExtendsAlloc(st.heap, st.next, Obj(map[], true));
      } else {
        ExtendsReflexive(st.heap);
      }
      assert out != st.next;
      ExtendsAddMember(st1.heap, out, p, Created(st, more));
      ExtendsTransitive(st.heap, st1.heap, r.heap);
      assert r.heap.Keys == st1.heap.Keys;
      assert forall k :: k in r.heap ==> k < r.next;
    }
  }

  /**
   * The walk over the segments after the first: each segment must be a member
   * of the current value; when it is missing and `create` is set it is added,
   * as a new group when more segments follow and bound to None otherwise.
   */
  function Walk(st: State, out: Value, rest: seq<string>, create: bool): (r: Step<Value>)
    ensures r.st == st.(heap := r.st.heap, next := r.st.next)
    ensures st.next <= r.st.next
    ensures Valid(st) ==> Valid(r.st) && Extends(st.heap, r.st.heap)
    ensures !create ==> r.st == st
    decreases |rest|
  {
    if rest == [] then (ExtendsReflexive(st.heap); Step(st, Ok(out)))
    else
      var p := rest[0];
      if HasAttr(st.heap, out, p) then Walk(st, GetAttr(st.heap, out, p), rest[1..], create)
      else if !create then (ExtendsReflexive(st.heap); Step(st, Err(LookupError)))
      else if !IsObject(st.heap, out) then (ExtendsReflexive(st.heap); Step(st, Err(AttributeError)))
      else
        var st2 := Create(st, out.id, p, |rest| > 1);
        var r := Walk(st2, Created(st, |rest| > 1), rest[1..], create);
        CreateGrows(st, out.id, p, |rest| > 1);
        ExtendsTransitive(st.heap, st2.heap, r.st.heap);
        r
  }

  /** Where the first segment of a name resolves to, before the walk. */
  function Top(st: State, top: string): Option<Value> {
    if top == TopGroup then Some(Ref(Root)) else LastHaving(st.heap, SearchList(st), top)
  }

  /**
   * `_lookup(name, create)`. A name without a dot is the member of the first
   * search group that has it; otherwise the first segment is `_main` (the
   * root) or the member of the LAST search group that has it, and the walk
   * resolves the remaining segments.
   */
  function Lookup(st: State, name: string, create: bool): (r: Step<Value>)
    ensures r.st == Fix(st).(heap := r.st.heap, next := r.st.next)
    ensures st.next <= r.st.next
    ensures Valid(st) ==> Valid(r.st) && Extends(st.heap, r.st.heap)
    ensures !create ==> r.st == Fix(st)
  {
    LookupFrom(Fix(st), name, create)
  }

  /** `_lookup` once the search path is refreshed. */
  function LookupFrom(s1: State, name: string, create: bool): (r: Step<Value>)
    ensures r.st == s1.(heap := r.st.heap, next := r.st.next)
    ensures s1.next <= r.st.next
    ensures Valid(s1) ==> Valid(r.st) && Extends(s1.heap, r.st.heap)
    ensures !create ==> r.st == s1
  {
    var gs := SearchList(s1);
    var parts := Split(name, '.');
    if |parts| == 1 && FirstHaving(s1.heap, gs, name).Some? then
      (ExtendsReflexive(s1.heap); Step(s1, Ok(FirstHaving(s1.heap, gs, name).value)))
    else LookupTop(s1, parts, create)
  }

  /** The dotted case of `_lookup`: the first segment, then the walk over the others. */
  function LookupTop(s1: State, parts: seq<string>, create: bool): (r: Step<Value>)
    requires |parts| >= 1
    ensures r.st == s1.(heap := r.st.heap, next := r.st.next)
    ensures s1.next <= r.st.next
    ensures Valid(s1) ==> Valid(r.st) && Extends(s1.heap, r.st.heap)
    ensures !create ==> r.st == s1
  {
    var out := Top(s1, parts[0]);
    if out.None? then (ExtendsReflexive(s1.heap); Step(s1, Err(LookupError)))
    else Walk(s1, out.value, parts[1..], create)
  }

  /** A name without a dot resolves to the member of the first search group that has it. */
  lemma LookupUndotted(st: State, name: string, i: nat)
    requires '.' !in name
    requires var gs := SearchList(Fix(st));
      i < |gs| && HasAttr(st.heap, Ref(gs[i]), name) &&
      forall j :: 0 <= j < i ==> !HasAttr(st.heap, Ref(gs[j]), name)
    ensures Lookup(st, name, false) == Step(Fix(st), Ok(GetAttr(st.heap, Ref(SearchList(Fix(st))[i]), name)))
  {
    assert FirstIndex(st.heap, SearchList(Fix(st)), name) == i;
  }

  /** A member of the local group shadows every other group's member of that name. */
  lemma LocalShadows(st: State, name: string)
    requires '.' !in name && st.local in st.heap && name in st.heap[st.local].members
    ensures Lookup(st, name, false) == Step(Fix(st), Ok(st.heap[st.local].members[name]))
  {
    LookupUndotted(st, name, 0);
  }

  /** `_main` as the first segment starts the walk at the root, whatever the search groups hold. */
  lemma LookupMainIsRoot(st: State, name: string, create: bool)
    requires var parts := Split(name, '.'); |parts| > 1 && parts[0] == TopGroup
    ensures Lookup(st, name, create) == Walk(Fix(st), Ref(Root), Split(name, '.')[1..], create)
  {
  }

  /** A first segment that is not `_main` and that no search group has cannot be resolved. */
  lemma LookupUnknownFirst(st: State, name: string, create: bool)
    requires var top := Split(name, '.')[0];
      top != TopGroup && forall g :: g in SearchList(Fix(st)) ==> !HasAttr(st.heap, Ref(g), top)
    ensures Lookup(st, name, create) == Step(Fix(st), Err(LookupError))
  {
    var s1 := Fix(st);
    var gs := SearchList(s1);
    var parts := Split(name, '.');
    var top := parts[0];
    assert forall j :: 0 <= j < |gs| ==> !HasAttr(s1.heap, Ref(gs[j]), top) by {
      forall j | 0 <= j < |gs| ensures !HasAttr(s1.heap, Ref(gs[j]), top) {
        assert gs[j] in gs;
      }
    }
    assert LastIndex(s1.heap, gs, top) == -1;
    assert Top(s1, top).None?;
    if |parts| == 1 {
      JoinSplit(name, '.');
      assert top == name;
      assert FirstIndex(s1.heap, gs, name) == |gs|;
    }
  }

  /** Without `create`, a missing later segment is a LookupError and nothing changes but the cache. */
  lemma WalkMissing(st: State, out: Value, rest: seq<string>)
    requires |rest| >= 1 && !HasAttr(st.heap, out, rest[0])
    ensures Walk(st, out, rest, false) == Step(st, Err(LookupError))
  {
  }

  /** With `create`, a missing last segment is bound to None in the current group. */
  lemma WalkCreatesLast(st: State, out: Value, p: string)
    requires IsObject(st.heap, out) && !HasAttr(st.heap, out, p)
    ensures var r := Walk(st, out, [p], true);
      r.res == Ok(NoneVal) && r.st.heap == SetAttr(st.heap, out.id, p, NoneVal) && r.st.next == st.next
  {
  }

  /** With `create`, a missing intermediate segment becomes a new, empty group that the walk enters. */
  lemma WalkCreatesIntermediate(st: State, out: Value, rest: seq<string>)
    requires |rest| >= 2 && IsObject(st.heap, out) && !HasAttr(st.heap, out, rest[0])
    requires Valid(st)
    ensures var mid := Create(st, out.id, rest[0], true);
      && Walk(st, out, rest, true) == Walk(mid, Ref(st.next), rest[1..], true)
      && IsGroup(mid.heap, Ref(st.next)) && mid.heap[st.next].members == map[]
      && mid.heap[out.id].members == st.heap[out.id].members[rest[0] := Ref(st.next)]
  {
    assert out.id != st.next;
  }

  /**
   * A successful walk with `create` leaves a path that a walk without
   * `create` follows to the same value, in any heap that extends the one the
   * walk left.
   */
  lemma {:induction false} WalkStable(st: State, out: Value, rest: seq<string>, s: State)
    requires Valid(st)
    requires Walk(st, out, rest, true).res.Ok?
    requires Extends(Walk(st, out, rest, true).st.heap, s.heap)
    ensures Walk(s, out, rest, false).res == Walk(st, out, rest, true).res
    decreases |rest|
  {
    if rest != [] {
      var p := rest[0];
      if HasAttr(st.heap, out, p) {
        var v := GetAttr(st.heap, out, p);
        var w := Walk(st, v, rest[1..], true);
        WalkStable(st, v, rest[1..], s);
        ExtendsTransitive(st.heap, w.st.heap, s.heap);
        ExtendsAttr(st.heap, s.heap, out, p);
      } else {
        var st2 := Create(st, out.id, p, |rest| > 1);
        var val := Created(st, |rest| > 1);
        var w := Walk(st2, val, rest[1..], true);
        CreateGrows(st, out.id, p, |rest| > 1);
        WalkStable(st2, val, rest[1..], s);
        ExtendsTransitive(st2.heap, w.st.heap, s.heap);
        assert HasAttr(st2.heap, out, p) && GetAttr(st2.heap, out, p) == val;
        ExtendsAttr(st2.heap, s.heap, out, p);
      }
    }
  }

  /** The members named `top` in the given groups. */
  predicate SameTop(h1: Heap, h2: Heap, gs: seq<Oid>, top: string) {
    forall g :: g in gs ==>
      HasAttr(h1, Ref(g), top) == HasAttr(h2, Ref(g), top) &&
      (HasAttr(h1, Ref(g), top) ==> GetAttr(h1, Ref(g), top) == GetAttr(h2, Ref(g), top))
  }

  lemma LastHavingSame(h1: Heap, h2: Heap, gs: seq<Oid>, top: string)
    requires SameTop(h1, h2, gs, top)
    ensures LastHaving(h1, gs, top) == LastHaving(h2, gs, top)
    decreases |gs|
  {
    if gs != [] {
      var front := gs[..|gs| - 1];
      assert SameTop(h1, h2, front, top);
      LastHavingSame(h1, h2, front, top);
    }
  }

  /**
   * Resolution is idempotent: after a lookup with `create` succeeds, a lookup
   * of the same name without `create` finds the same value and changes
   * nothing. The only names excluded are those whose later segments repeat
   * the first, since creating such a member in a search group would change
   * where the first segment resolves.
   */
  lemma LookupCreateThenFind(st: State, name: string)
    requires Valid(st)
    requires var parts := Split(name, '.');
      forall i :: 1 <= i < |parts| ==> parts[i] != parts[0]
    requires Lookup(st, name, true).res.Ok?
    ensures var r := Lookup(st, name, true);
      Lookup(r.st, name, false) == Step(r.st, r.res)
  {
    var s1 := Fix(st);
    var parts := Split(name, '.');
    if !(|parts| == 1 && FirstHaving(s1.heap, SearchList(s1), name).Some?) {
      WalkThenFind(s1, name, parts);
    }
  }

  /** The case of `LookupCreateThenFind` in which the walk runs. */
  lemma WalkThenFind(s1: State, name: string, parts: seq<string>)
    requires Valid(s1) && Fresh(s1) && parts == Split(name, '.')
    requires forall i :: 1 <= i < |parts| ==> parts[i] != parts[0]
    requires !(|parts| == 1 && FirstHaving(s1.heap, SearchList(s1), name).Some?)
    requires Top(s1, parts[0]).Some?
    requires Walk(s1, Top(s1, parts[0]).value, parts[1..], true).res.Ok?
    ensures var r := Walk(s1, Top(s1, parts[0]).value, parts[1..], true);
      Lookup(r.st, name, false) == Step(r.st, r.res)
  {
    var top := parts[0];
    var out := Top(s1, top).value;
    var r := Walk(s1, out, parts[1..], true);
    assert Fix(r.st) == r.st;
    ExtendsReflexive(r.st.heap);
    WalkStable(s1, out, parts[1..], r.st);
    if |parts| != 1 {
      assert forall i :: 0 <= i < |parts[1..]| ==> parts[1..][i] == parts[i + 1];
      TopStable(s1, out, parts[1..], top);
    }
  }

  /** A walk with `create` does not change where a first segment that it does not walk resolves. */
  lemma TopStable(s1: State, out: Value, rest: seq<string>, top: string)
    requires Valid(s1)
    requires forall i :: 0 <= i < |rest| ==> rest[i] != top
    ensures Top(Walk(s1, out, rest, true).st, top) == Top(s1, top)
  {
    var w := Walk(s1, out, rest, true).st;
    var gs := SearchList(s1);
    assert SearchList(w) == gs;
    if top != TopGroup {
      WalkKeepsTop(s1, out, rest, top);
      assert SameTop(s1.heap, w.heap, gs, top);
      LastHavingSame(s1.heap, w.heap, gs, top);
    }
  }

  /** A walk with `create` only adds members named by the segments it walks. */
  lemma {:induction false} WalkKeepsTop(st: State, out: Value, rest: seq<string>, top: string)
    requires Valid(st)
    requires forall i :: 0 <= i < |rest| ==> rest[i] != top
    ensures var r := Walk(st, out, rest, true);
      forall k :: k in st.heap ==>
        (top in r.st.heap[k].members <==> top in st.heap[k].members)
    decreases |rest|
  {
    if rest != [] {
      var p := rest[0];
      assert forall i :: 0 <= i < |rest[1..]| ==> rest[1..][i] == rest[i + 1];
      if HasAttr(st.heap, out, p) {
        WalkKeepsTop(st, GetAttr(st.heap, out, p), rest[1..], top);
      } else if IsObject(st.heap, out) {
        var st2 := Create(st, out.id, p, |rest| > 1);
        CreateGrows(st, out.id, p, |rest| > 1);
        CreateKeeps(st, out.id, p, |rest| > 1, top);
        WalkKeepsTop(st2, Created(st, |rest| > 1), rest[1..], top);
      }
    }
  }

  /** Creating the member `p` leaves every other member name of every old object as it was. */
  lemma CreateKeeps(st: State, out: Oid, p: string, more: bool, q: string)
    requires Valid(st) && out in st.heap && q != p
    ensures var c := Create(st, out, p, more);
      forall k :: k in st.heap ==> k in c.heap && (q in c.heap[k].members <==> q in st.heap[k].members)
  {
    assert st.next !in st.heap;
  }

  /** `getGroup`: the lookup must find a group. */
  function GetGroup(st: State, gname: string): (r: Step<Oid>)
    ensures r.st == Fix(st)
    ensures r.res.Ok? ==> IsGroup(r.st.heap, Ref(r.res.value))
    ensures r.res.Ok? <==> Lookup(st, gname, false).res.Ok? && IsGroup(st.heap, Lookup(st, gname, false).res.value)
  {
    var l := Lookup(st, gname, false);
    if l.res.Err? then Step(l.st, Err(l.res.failure))
    else if IsGroup(l.st.heap, l.res.value) then Step(l.st, Ok(l.res.value.id))
    else Step(l.st, Err(LookupError))
  }

  // ---------------------------------------------------------------------------
  // Binding and removing names (setSymbol, _parentOf, delSymbol, delGroup)
  // ---------------------------------------------------------------------------

  /**
   * The loop of `setSymbol` over the segments before the last: an existing
   * member must be a group and is entered; a missing one is created as a new
   * group in the current group, which the loop does NOT enter.
   */
  function Through(st: State, grp: Oid, names: seq<string>): (r: Step<Oid>)
    requires Valid(st) && grp in st.heap && st.heap[grp].isGroup
    ensures Valid(r.st)
    ensures r.res.Ok? ==> r.res.value in r.st.heap && r.st.heap[r.res.value].isGroup
    ensures r.res.Err? ==> r.res.failure == ValueError
    ensures r.st == st.(heap := r.st.heap, next := r.st.next)
    ensures Extends(st.heap, r.st.heap) && st.next <= r.st.next
    decreases |names|
  {
    if names == [] then (ExtendsReflexive(st.heap); Step(st, Ok(grp)))
    else
      var n := names[0];
      if HasAttr(st.heap, Ref(grp), n) then
        var v := GetAttr(st.heap, Ref(grp), n);
        if IsGroup(st.heap, v) then Through(st, v.id, names[1..])
        else (ExtendsReflexive(st.heap); Step(st, Err(ValueError)))
      else
        var st2 := Create(st, grp, n, true);
        CreateGrows(st, grp, n, true);
        var r := Through(st2, grp, names[1..]);
        ExtendsTransitive(st.heap, st2.heap, r.st.heap);
        r
  }

  /** The last segment of a dotted name: the member `setSymbol` binds and `_parentOf` names. */
  function LastSegment(name: string): string {
    var names := Split(name, '.');
    names[|names| - 1]
  }

  /**
   * `setSymbol(name, value, group)`: binds the last segment of `name` to
   * `value` in some group and keeps every other member of every object; it
   * returns the bound value.
   */
  function SetSymbol(st: State, name: string, value: Value, group: Option<string>): (r: Step<Value>)
    requires Valid(st)
    ensures Valid(r.st)
    ensures r.res.Ok? ==> r.res.value == value
    ensures r.res.Ok? ==> exists g :: BindsIn(st.heap, r.st.heap, g, LastSegment(name), value)
    ensures r.st.local == st.local && r.st.moduleGroup == st.moduleGroup
  {
    var s1 := Fix(st);
    var start := if group.Some? then GetGroup(s1, group.value) else Step(s1, Ok(s1.local));
    if start.res.Err? then Step(start.st, Err(start.res.failure))
    else
      var b := Bind(start.st, start.res.value, name, value);
      var names := Split(name, '.');
      var t := Through(start.st, start.res.value, names[..|names| - 1]);
      assert b.res.Ok? ==> BindsIn(st.heap, b.st.heap, t.res.value, LastSegment(name), value);
      b
  }

  /**
   * The part of `setSymbol` after the group is chosen: the descent through
   * the prefix, then the binding of the last segment in the group the descent
   * reaches. Only a member on the way that is not a group makes it fail.
   */
  function Bind(st: State, grp: Oid, name: string, value: Value): (r: Step<Value>)
    requires Valid(st) && grp in st.heap && st.heap[grp].isGroup
    ensures Valid(r.st)
    ensures r.res.Ok? ==> r.res.value == value
    ensures r.res.Err? ==> r.res.failure == ValueError
    ensures r.res.Ok? ==>
      var names := Split(name, '.');
      var t := Through(st, grp, names[..|names| - 1]);
      t.res.Ok? && BindsIn(st.heap, r.st.heap, t.res.value, LastSegment(name), value)
    ensures r.st.local == st.local && r.st.moduleGroup == st.moduleGroup
  {
    var names := Split(name, '.');
    var t := Through(st, grp, names[..|names| - 1]);
    if t.res.Err? then Step(t.st, Err(t.res.failure))
    else
      var child := names[|names| - 1];
      ExtendsThenSet(st.heap, t.st.heap, t.res.value, child, value);
      Step(t.st.(heap := SetAttr(t.st.heap, t.res.value, child, value)), Ok(value))
  }

  /** With a group named and a name without a dot, `setSymbol` binds the name in the group `getGroup` finds. */
  lemma SetSymbolInGroup(st: State, gname: string, name: string, value: Value)
    requires Valid(st) && '.' !in name && GetGroup(st, gname).res.Ok?
    ensures var g := GetGroup(st, gname).res.value;
      SetSymbol(st, name, value, Some(gname)) == Step(Fix(st).(heap := SetAttr(st.heap, g, name, value)), Ok(value))
  {
    JoinSplit(name, '.');
    assert GetGroup(Fix(st), gname) == GetGroup(st, gname);
  }

  /**
   * With `a` a group in the local group, `setSymbol('a.b', v)` binds `b` in
   * that group and changes no other member of any object.
   */
  lemma SetSymbolThroughGroup(st: State, a: string, b: string, value: Value, g: Oid)
    requires Valid(st) && '.' !in a && '.' !in b
    requires a in st.heap[st.local].members && st.heap[st.local].members[a] == Ref(g)
    requires g in st.heap && st.heap[g].isGroup
    ensures SetSymbol(st, a + "." + b, value, None) ==
      Step(Fix(st).(heap := SetAttr(st.heap, g, b, value)), Ok(value))
  {
    var s1 := Fix(st);
    assert SetSymbol(st, a + "." + b, value, None) == Bind(s1, s1.local, a + "." + b, value);
    SplitPair(a, b);
    var names := [a, b];
    assert names[..1] == [a];
    assert Through(s1, s1.local, [a]) == Through(s1, g, []);
  }

  /** Without a dot and a group, `setSymbol` binds the name in the local group and changes no other member. */
  lemma SetSymbolLocal(st: State, name: string, value: Value)
    requires Valid(st) && '.' !in name
    ensures var r := SetSymbol(st, name, value, None);
      && r.res == Ok(value)
      && r.st.heap == SetAttr(st.heap, st.local, name, value)
      && r.st.next == st.next
  {
    JoinSplit(name, '.');
  }

  /** Passing through a member that is not a group raises ValueError and binds nothing. */
  lemma SetSymbolThroughNonGroup(st: State, a: string, b: string, value: Value)
    requires Valid(st) && '.' !in a && '.' !in b
    requires a in st.heap[st.local].members && !IsGroup(st.heap, st.heap[st.local].members[a])
    ensures var r := SetSymbol(st, a + "." + b, value, None);
      r.res == Err(ValueError) && r.st == Fix(st)
  {
    SplitJoin([a, b], '.');
    assert Join([a, b], '.') == a + "." + b;
    var names := [a, b];
    assert names[..1] == [a];
  }

  /**
   * The source's loop does not enter a group it has just created: with `a`
   * missing from the local group, `setSymbol('a.b', v)` creates an empty group
   * `a` and binds `b` in the LOCAL group, not in `a`.
   */
  lemma SetSymbolDoesNotDescend(st: State, a: string, b: string, value: Value)
    requires Valid(st) && '.' !in a && '.' !in b && a != b
    requires a !in st.heap[st.local].members
    ensures var r := SetSymbol(st, a + "." + b, value, None);
      && r.res == Ok(value)
      && r.st.heap[st.local].members == st.heap[st.local].members[a := Ref(st.next)][b := value]
      && st.next in r.st.heap && r.st.heap[st.next] == Obj(map[], true)
  {
    var s1 := Fix(st);
    assert SetSymbol(st, a + "." + b, value, None) == Bind(s1, s1.local, a + "." + b, value);
    BindPair(s1, s1.local, a, b, value);
  }

  /** `Bind` of `a.b` with `a` missing from the group: `a` becomes an empty group, `b` is bound in the group itself. */
  lemma BindPair(s1: State, grp: Oid, a: string, b: string, value: Value)
    requires Valid(s1) && grp in s1.heap && s1.heap[grp].isGroup
    requires '.' !in a && '.' !in b && a != b && a !in s1.heap[grp].members
    ensures var r := Bind(s1, grp, a + "." + b, value);
      && r.res == Ok(value)
      && r.st.heap[grp].members == s1.heap[grp].members[a := Ref(s1.next)][b := value]
      && s1.next in r.st.heap && r.st.heap[s1.next] == Obj(map[], true)
  {
    SplitPair(a, b);
    var names := [a, b];
    assert names[..1] == [a];
    var st2 := Create(s1, grp, a, true);
    assert Through(s1, grp, [a]) == Step(st2, Ok(grp));
    assert grp != s1.next;
  }

  /** A name of two dotless segments splits into them. */
  lemma SplitPair(a: string, b: string)
    requires '.' !in a && '.' !in b
    ensures Split(a + "." + b, '.') == [a, b]
  {
    SplitJoin([a, b], '.');
    assert Join([a, b], '.') == a + "." + b;
  }

  /**
   * `_parentOf(name)` as written: the parent is the lookup of all segments but
   * the last, joined again with dots. For a name without a dot that is the
   * lookup of the empty string.
   */
  function ParentOfAsWritten(st: State, name: string): (r: Step<(Value, Option<string>)>)
    ensures r.st == Fix(st)
  {
    var n := Split(name, '.');
    if name == TopGroup then Step(Fix(st), Ok((Ref(Root), None)))
    else
      var l := Lookup(st, Join(n[..|n| - 1], '.'), false);
      if l.res.Err? then Step(l.st, Err(l.res.failure)) else Step(l.st, Ok((l.res.value, Some(n[|n| - 1]))))
  }

  /**
   * For a name without a dot, `_parentOf` as written looks up "" and fails
   * unless some search group has a member named "": so `delSymbol('x')`
   * raises LookupError even when `x` is bound in the local group.
   */
  lemma ParentOfAsWrittenFailsUndotted(st: State, name: string)
    requires '.' !in name && name != TopGroup
    requires forall g :: g in SearchList(Fix(st)) ==> !HasAttr(st.heap, Ref(g), "")
    ensures ParentOfAsWritten(st, name).res == Err(LookupError)
  {
    JoinSplit(name, '.');
    var n := Split(name, '.');
    assert n[..0] == [];
    assert Join([], '.') == "";
    LookupUnknownFirst(st, "", false);
  }

  /**
   * Binding a name without a dot and then asking for its parent fails in
   * every state in which no object has a member named "".
   */
  lemma ParentOfAsWrittenAfterBinding(st0: State, name: string, value: Value)
    requires Valid(st0) && NoEmptyMember(st0.heap)
    requires '.' !in name && name != TopGroup && name != ""
    ensures var st := SetSymbol(st0, name, value, None).st;
      && Lookup(st, name, false).res == Ok(value)
      && ParentOfAsWritten(st, name).res == Err(LookupError)
  {
    SetSymbolLocal(st0, name, value);
    var st := SetSymbol(st0, name, value, None).st;
    NoEmptyMemberSetAttr(st0.heap, st0.local, name, value);
    BoundThenParent(st, name, value);
  }

  /**
   * So `delSymbol` as written cannot delete a name without a dot that was
   * just bound: it raises LookupError, in every state in which no object has
   * a member named "".
   */
  lemma DelSymbolAsWrittenAfterBinding(st0: State, name: string, value: Value)
    requires Valid(st0) && NoEmptyMember(st0.heap)
    requires '.' !in name && name != TopGroup && name != ""
    requires !IsGroup(SetSymbol(st0, name, value, None).st.heap, value)
    ensures DelSymbolAsWritten(SetSymbol(st0, name, value, None).st, name).res == Err(LookupError)
  {
    ParentOfAsWrittenAfterBinding(st0, name, value);
    DelSymbolAsWrittenFails(SetSymbol(st0, name, value, None).st, name);
  }

  /** `delSymbol` as written fails where `_parentOf` as written does, once the name is found and is no group. */
  lemma DelSymbolAsWrittenFails(st: State, name: string)
    requires Lookup(st, name, false).res.Ok? && !IsGroup(Fix(st).heap, Lookup(st, name, false).res.value)
    requires ParentOfAsWritten(st, name).res.Err?
    ensures DelSymbolAsWritten(st, name).res == Err(ParentOfAsWritten(st, name).res.failure)
  {
    FixIdempotent(st);
    assert ParentOfAsWritten(Fix(st), name) == ParentOfAsWritten(st, name);
  }

  /** A name bound in the local group is found, yet its parent is not, when no object has a member "". */
  lemma BoundThenParent(st: State, name: string, value: Value)
    requires st.local in st.heap && name in st.heap[st.local].members && st.heap[st.local].members[name] == value
    requires NoEmptyMember(st.heap) && '.' !in name && name != TopGroup
    ensures Lookup(st, name, false).res == Ok(value)
    ensures ParentOfAsWritten(st, name).res == Err(LookupError)
  {
    LocalShadows(st, name);
    NoEmptyMemberNoAttr(st.heap, SearchList(Fix(st)));
    ParentOfAsWrittenFailsUndotted(st, name);
  }

  lemma NoEmptyMemberSetAttr(h: Heap, id: Oid, p: string, v: Value)
    requires id in h && NoEmptyMember(h) && p != ""
    ensures NoEmptyMember(SetAttr(h, id, p, v))
  {
  }

  /** No object has a member named "". */
  predicate NoEmptyMember(h: Heap) {
    forall k :: k in h ==> "" !in h[k].members
  }

  lemma NoEmptyMemberNoAttr(h: Heap, gs: seq<Oid>)
    requires NoEmptyMember(h)
    ensures forall g :: g in gs ==> !HasAttr(h, Ref(g), "")
  {
  }

  lemma BareNoEmptyMember()
    ensures NoEmptyMember(Bare().heap)
  {
    var h := Bare().heap;
    assert h.Keys == {Root, 1, 2, 3};
  }

  /**
   * The discrepancy occurs right after construction: `x` is bound locally,
   * yet its parent cannot be found, so `delSymbol('x')` raises LookupError.
   */
  lemma ParentOfAsWrittenWitness()
    ensures Valid(Initial())
    ensures var st := SetSymbol(Initial(), "x", Num(1), None).st;
      && Lookup(st, "x", false).res == Ok(Num(1))
      && ParentOfAsWritten(st, "x").res == Err(LookupError)
  {
    InitialFacts();
    BareNoEmptyMember();
    ParentOfAsWrittenAfterBinding(Initial(), "x", Num(1));
  }

  /**
   * `_parentOf` as evidently intended: a name without a dot has as parent the
   * first search group that has it (where `_lookup` found it); a dotted name
   * is handled as in the source.
   */
  function ParentOf(st: State, name: string): (r: Step<(Value, Option<string>)>)
    ensures r.st == Fix(st)
    ensures '.' in name ==> r == ParentOfAsWritten(st, name)
  {
    var n := Split(name, '.');
    if name == TopGroup then Step(Fix(st), Ok((Ref(Root), None)))
    else if |n| == 1 then
      var s1 := Fix(st);
      var gs := SearchList(s1);
      var i := FirstIndex(s1.heap, gs, name);
      if i < |gs| then Step(s1, Ok((Ref(gs[i]), Some(name)))) else Step(s1, Err(LookupError))
    else ParentOfAsWritten(st, name)
  }

  /** Removes `child` from `parent`: AttributeError unless the parent has it. */
  function Remove(st: State, parent: Value, child: Option<string>): (r: Step<()>)
    ensures r.st.next == st.next && r.st.local == st.local && r.st.moduleGroup == st.moduleGroup
    ensures Valid(st) ==> Valid(r.st)
  {
    if child.None? then Step(st, Ok(()))
    else if !HasAttr(st.heap, parent, child.value) then Step(st, Err(AttributeError))
    else Step(st.(heap := DelAttr(st.heap, parent.id, child.value)), Ok(()))
  }

  /** `delSymbol(name)`: refuses a group; otherwise removes the attribute from its parent. */
  function DelSymbol(st: State, name: string): (r: Step<()>)
    ensures Valid(st) ==> Valid(r.st)
    ensures r.st.local == st.local && r.st.moduleGroup == st.moduleGroup
  {
    var l := Lookup(st, name, false);
    if l.res.Err? then Step(l.st, Err(l.res.failure))
    else if IsGroup(l.st.heap, l.res.value) then Step(l.st, Err(LookupError))
    else
      var p := ParentOf(l.st, name);
      if p.res.Err? then Step(p.st, Err(p.res.failure))
      else Remove(p.st, p.res.value.0, p.res.value.1)
  }

  /** `delSymbol(name)` as written, with the parent found by `_parentOf` as written. */
  function DelSymbolAsWritten(st: State, name: string): (r: Step<()>)
    ensures Valid(st) ==> Valid(r.st)
    ensures '.' in name ==> r == DelSymbol(st, name)
  {
    var l := Lookup(st, name, false);
    if l.res.Err? then Step(l.st, Err(l.res.failure))
    else if IsGroup(l.st.heap, l.res.value) then Step(l.st, Err(LookupError))
    else
      var p := ParentOfAsWritten(l.st, name);
      if p.res.Err? then Step(p.st, Err(p.res.failure))
      else Remove(p.st, p.res.value.0, p.res.value.1)
  }

  /**
   * Deleting `a.b`, where `a` resolves to the group `g` both as a first
   * segment and as a name of its own, removes exactly member `b` of `g`.
   */
  lemma DelSymbolDotted(st: State, a: string, b: string, g: Oid)
    requires '.' !in a && '.' !in b
    requires Top(Fix(st), a) == Some(Ref(g)) && Lookup(st, a, false).res == Ok(Ref(g))
    requires g in st.heap && b in st.heap[g].members && !IsGroup(st.heap, st.heap[g].members[b])
    ensures DelSymbol(st, a + "." + b) == Step(Fix(st).(heap := DelAttr(st.heap, g, b)), Ok(()))
  {
    var name, s1 := a + "." + b, Fix(st);
    LookupPair(st, a, b, g);
    ParentOfPair(st, a, b, g);
    assert name[|a|] == '.';
    assert ParentOf(s1, name) == Step(s1, Ok((Ref(g), Some(b))));
    assert s1.heap == st.heap;
    assert Remove(s1, Ref(g), Some(b)) == Step(s1.(heap := DelAttr(st.heap, g, b)), Ok(()));
  }

  /** `a.b` resolves to member `b` of the group its first segment resolves to. */
  lemma LookupPair(st: State, a: string, b: string, g: Oid)
    requires '.' !in a && '.' !in b
    requires Top(Fix(st), a) == Some(Ref(g)) && g in st.heap && b in st.heap[g].members
    ensures Lookup(st, a + "." + b, false) == Step(Fix(st), Ok(st.heap[g].members[b]))
  {
    SplitPair(a, b);
    var parts := [a, b];
    assert parts[1..] == [b];
    assert Walk(Fix(st), Ref(g), [b], false) == Walk(Fix(st), st.heap[g].members[b], [], false);
  }

  /** As written, the parent of `a.b` is what `a` alone resolves to, and the child is `b`. */
  lemma ParentOfPair(st: State, a: string, b: string, g: Oid)
    requires '.' !in a && '.' !in b && Lookup(st, a, false).res == Ok(Ref(g))
    ensures ParentOfAsWritten(Fix(st), a + "." + b) == Step(Fix(st), Ok((Ref(g), Some(b))))
  {
    SplitPair(a, b);
    var parts := [a, b];
    assert parts[..1] == [a];
    assert Join([a], '.') == a;
    assert Lookup(Fix(st), a, false) == Lookup(st, a, false);
  }

  /** Deleting a name that denotes a group raises LookupError and removes nothing. */
  lemma DelSymbolRefusesGroup(st: State, name: string)
    requires Lookup(st, name, false).res.Ok? && IsGroup(st.heap, Lookup(st, name, false).res.value)
    ensures DelSymbol(st, name) == Step(Fix(st), Err(LookupError))
  {
  }

  /**
   * Deleting a name without a dot that is bound to something other than a
   * group removes it from the first search group that has it, and changes no
   * other member of any object.
   */
  lemma DelSymbolUndotted(st: State, name: string, i: nat)
    requires '.' !in name && name != TopGroup
    requires var gs := SearchList(Fix(st));
      && i < |gs| && HasAttr(st.heap, Ref(gs[i]), name)
      && (forall j :: 0 <= j < i ==> !HasAttr(st.heap, Ref(gs[j]), name))
      && !IsGroup(st.heap, GetAttr(st.heap, Ref(gs[i]), name))
    ensures var g := SearchList(Fix(st))[i];
      DelSymbol(st, name) == Step(Fix(st).(heap := DelAttr(st.heap, g, name)), Ok(()))
  {
    LookupUndotted(st, name, i);
    JoinSplit(name, '.');
    var gs := SearchList(Fix(st));
    var k := FirstIndex(st.heap, gs, name);
    assert k == i;
  }

  /**
   * `delGroup(name)` as written: its first statement looks up `gname`, a name
   * that is not defined in the method, so every call raises NameError before
   * anything is looked up.
   */
  function DelGroupAsWritten(st: State, name: string): (r: Step<()>)
    ensures r.res == Err(NameError) && r.st == st
  {
    Step(st, Err(NameError))
  }

  /** As written, even a deletable group in the local group is never deleted. */
  lemma DelGroupAsWrittenNeverDeletes(st: State, name: string, i: nat)
    requires DelGroupRemovable(st, name, i)
    ensures DelGroupAsWritten(st, name).st.heap == st.heap
    ensures DelGroup(st, name).st.heap != st.heap
  {
    DelGroupRemoves(st, name, i);
    var g := SearchList(Fix(st))[i];
    assert name in st.heap[g].members && name !in DelAttr(st.heap, g, name)[g].members;
  }

  /**
   * `name` has no dot, group `i` of the search list is the first to have it,
   * and it is a group whose status allows deletion.
   */
  predicate DelGroupRemovable(st: State, name: string, i: nat) {
    var gs := SearchList(Fix(st));
    && '.' !in name && name != TopGroup
    && i < |gs| && HasAttr(st.heap, Ref(gs[i]), name)
    && (forall j :: 0 <= j < i ==> !HasAttr(st.heap, Ref(gs[j]), name))
    && IsGroup(st.heap, GetAttr(st.heap, Ref(gs[i]), name))
    && var members := st.heap[GetAttr(st.heap, Ref(gs[i]), name).id].members;
       StatusName in members && members[StatusName] != Str("nodelete")
  }

  /** A deletable group is removed from the first search group that has it, and nothing else changes. */
  lemma DelGroupRemoves(st: State, name: string, i: nat)
    requires DelGroupRemovable(st, name, i)
    ensures var g := SearchList(Fix(st))[i];
      DelGroup(st, name) == Step(Fix(st).(heap := DelAttr(st.heap, g, name)), Ok(()))
  {
    LookupUndotted(st, name, i);
    JoinSplit(name, '.');
    var gs := SearchList(Fix(st));
    assert FirstIndex(st.heap, gs, name) == i;
  }

  /**
   * `delGroup(name)` as evidently intended: the group named `name` is looked
   * up. A group whose status member is
   * 'nodelete' is reported to the writer and kept; a group without a status
   * member raises AttributeError, as reading `sym._Group__status` does.
   */
  function DelGroup(st: State, name: string): (r: Step<()>)
    ensures Valid(st) ==> Valid(r.st)
    ensures r.st.local == st.local && r.st.moduleGroup == st.moduleGroup
  {
    var l := Lookup(st, name, false);
    if l.res.Err? then Step(l.st, Err(l.res.failure))
    else if !IsGroup(l.st.heap, l.res.value) then Step(l.st, Err(LookupError))
    else
      var members := l.st.heap[l.res.value.id].members;
      if StatusName !in members then Step(l.st, Err(AttributeError))
      else if members[StatusName] == Str("nodelete") then
        Step(l.st.(log := l.st.log + ["cannot delete group '" + name + "'\n"]), Ok(()))
      else
        var p := ParentOf(l.st, name);
        if p.res.Err? then Step(p.st, Err(p.res.failure))
        else Remove(p.st, p.res.value.0, p.res.value.1)
  }

  /** Deleting a protected group never fails and never removes anything: it only writes a message. */
  lemma DelGroupProtected(st: State, name: string)
    requires var l := Lookup(st, name, false);
      && l.res.Ok? && IsGroup(st.heap, l.res.value)
      && StatusName in st.heap[l.res.value.id].members
      && st.heap[l.res.value.id].members[StatusName] == Str("nodelete")
    ensures var r := DelGroup(st, name);
      && r.res.Ok?
      && r.st.heap == st.heap
      && r.st.log == st.log + ["cannot delete group '" + name + "'\n"]
  {
  }

  // ---------------------------------------------------------------------------
  // import_module
  // ---------------------------------------------------------------------------

  /**
   * What import needs from outside the table: the directory listings
   * (`os.listdir`), the bindings that running each module file leaves in its
   * module group (the module text is run by a compiler outside this core),
   * and the attributes of the host modules `__import__` can load.
   */
  datatype Env = Env(
    listing: map<string, set<string>>,
    scripts: map<(string, string), map<string, Value>>,
    host: map<string, map<string, Value>>)

  function ImportMessage(name: string, asname: Option<string>): string {
    (if asname.Some? then "import " + name + " as " + asname.value else "import " + name) + "\n"
  }

  /**
   * Runs the module file `name.tdl` found in `dir`: a new group is registered
   * under `name` and made the local and module group while the file's
   * bindings are made in it; then the caller's groups are reinstalled.
   */
  function RunModule(st: State, name: string, dir: string, env: Env): (r: State)
    requires Valid(st)
    ensures Valid(r)
    ensures r == st.(heap := r.heap, next := st.next + 1, modules := st.modules[name := st.next],
                     searchGroups := r.searchGroups, cache := r.cache)
    ensures IsGroup(r.heap, Ref(st.next))
    ensures forall k :: k in st.heap ==> k in r.heap && r.heap[k] == st.heap[k]
  {
    var id := st.next;
    ValidAlloc(st);
    ValidRegister(NewGroup(st), name, id);
    var st1 := NewGroup(st).(modules := st.modules[name := id]);
    var st2 := SetLocalMod(st1, id, id);
    var file := (dir, name + ".tdl");
    var bindings := if file in env.scripts then env.scripts[file] else map[];
    ValidReplace(st2, id, Obj(st2.heap[id].members + bindings, true));
    var st3 := st2.(heap := st2.heap[id := Obj(st2.heap[id].members + bindings, true)]);
    assert st.local != id && st.moduleGroup != id;
    SetLocalMod(st3, st.local, st.moduleGroup)
  }

  /**
   * The loop over `_sys.path`: every directory whose listing holds
   * `name.tdl` runs the module again (the loop has no `break`, so the last
   * such directory wins); a directory that cannot be listed raises.
   */
  function ScanPath(st: State, name: string, env: Env, dirs: seq<string>, found: Option<Oid>): (r: Step<Option<Oid>>)
    requires Valid(st)
    ensures Valid(r.st)
    ensures r.st.local == st.local && r.st.moduleGroup == st.moduleGroup
    ensures r.st.pymodules == st.pymodules && r.st.log == st.log && r.st.path == st.path
    ensures st.next <= r.st.next
    ensures forall k :: k in st.heap ==> k in r.st.heap && r.st.heap[k] == st.heap[k]
    ensures r.res.Ok? && r.res.value.Some? ==>
              (r.res.value == found && r.st == st) ||
              (name in r.st.modules && r.res.value.value == r.st.modules[name])
    ensures r.res.Ok? && found.Some? ==> r.res.value.Some?
    ensures r.res.Ok? && r.res.value.None? ==> r.st == st
    decreases |dirs|
  {
    if dirs == [] then Step(st, Ok(found))
    else if dirs[0] !in env.listing then Step(st, Err(OSError))
    else if name + ".tdl" in env.listing[dirs[0]] then
      var st1 := RunModule(st, name, dirs[0], env);
      ScanPath(st1, name, env, dirs[1..], Some(st1.modules[name]))
    else ScanPath(st, name, env, dirs[1..], found)
  }

  /** `__import__(name)` for a module of the host language. */
  function HostImport(st: State, name: string, env: Env): (r: Step<Oid>)
    requires Valid(st)
    ensures Valid(r.st)
    ensures r.st.local == st.local && r.st.moduleGroup == st.moduleGroup && r.st.modules == st.modules
    ensures r.res.Ok? ==> name in r.st.pymodules && r.res.value == r.st.pymodules[name]
    ensures forall k :: k in st.heap ==> k in r.st.heap && r.st.heap[k] == st.heap[k]
  {
    if name in st.pymodules then Step(st, Ok(st.pymodules[name]))
    else if name in env.host then
      var id := st.next;
      Step(st.(heap := st.heap[id := Obj(env.host[name], false)], next := id + 1,
               pymodules := st.pymodules[name := id]), Ok(id))
    else Step(st, Err(ImportError))
  }

  /** Step 1 of `import_module`: the module object, loaded or taken from a registry. */
  function Load(st: State, name: string, reload: bool, env: Env): (r: Step<Oid>)
    requires Valid(st)
    ensures Valid(r.st)
    ensures r.st.local == st.local && r.st.moduleGroup == st.moduleGroup && r.st.log == st.log
    ensures forall k :: k in st.heap ==> k in r.st.heap && r.st.heap[k] == st.heap[k]
    ensures !reload && name in st.modules ==> r == Step(st, Ok(st.modules[name]))
    ensures r.res.Ok? ==> (name in r.st.modules && r.res.value == r.st.modules[name]) ||
                          (name in r.st.pymodules && r.res.value == r.st.pymodules[name])
  {
    if reload || (name !in st.pymodules && name !in st.modules) then
      var scan := ScanPath(st, name, env, st.path, None);
      if scan.res.Err? then Step(scan.st, Err(scan.res.failure))
      else if scan.res.value.Some? then Step(scan.st, Ok(scan.res.value.value))
      else HostImport(scan.st, name, env)
    else if name in st.modules then Step(st, Ok(st.modules[name]))
    else Step(st, Ok(st.pymodules[name]))
  }

  /** The import-from loop: copies each listed member of the module into the module group. */
  function CopyMembers(st: State, src: Oid, syms: seq<string>): (r: Step<()>)
    requires Valid(st)
    ensures Valid(r.st)
    ensures r.st == st.(heap := r.st.heap)
    ensures r.st.heap.Keys == st.heap.Keys
    ensures forall k :: k in st.heap && k != st.moduleGroup ==> r.st.heap[k] == st.heap[k]
    ensures r.st.heap[st.moduleGroup].isGroup == st.heap[st.moduleGroup].isGroup
    ensures forall p :: p in st.heap[st.moduleGroup].members && p !in syms ==>
              p in r.st.heap[st.moduleGroup].members && r.st.heap[st.moduleGroup].members[p] == st.heap[st.moduleGroup].members[p]
    ensures forall p :: p in r.st.heap[st.moduleGroup].members ==> p in st.heap[st.moduleGroup].members || p in syms
    decreases |syms|
  {
    if syms == [] then Step(st, Ok(()))
    else if !HasAttr(st.heap, Ref(src), syms[0]) then Step(st, Err(AttributeError))
    else
      var st1 := st.(heap := SetAttr(st.heap, st.moduleGroup, syms[0], GetAttr(st.heap, Ref(src), syms[0])));
      CopyMembers(st1, src, syms[1..])
  }

  /** Copying members leaves the attributes of the module being copied from as they were. */
  lemma CopyKeepsSource(st: State, src: Oid, p: string)
    requires Valid(st) && HasAttr(st.heap, Ref(src), p)
    ensures var h := SetAttr(st.heap, st.moduleGroup, p, GetAttr(st.heap, Ref(src), p));
      Members(h, Ref(src)) == Members(st.heap, Ref(src))
  {
    var h := SetAttr(st.heap, st.moduleGroup, p, GetAttr(st.heap, Ref(src), p));
    if src == st.moduleGroup {
      assert h[src].members == st.heap[src].members;
    }
  }

  /**
   * The import-from loop fails exactly when a listed name is not an
   * attribute of the module; when it succeeds, every listed name is bound in
   * the module group to the module's value for it.
   */
  lemma {:induction false} CopyMembersCopies(st: State, src: Oid, syms: seq<string>)
    requires Valid(st)
    ensures var r := CopyMembers(st, src, syms);
      && (r.res.Err? <==> exists p :: p in syms && !HasAttr(st.heap, Ref(src), p))
      && (r.res.Ok? ==> forall p :: p in syms ==>
            p in r.st.heap[st.moduleGroup].members &&
            r.st.heap[st.moduleGroup].members[p] == GetAttr(st.heap, Ref(src), p))
    decreases |syms|
  {
    if syms != [] && HasAttr(st.heap, Ref(src), syms[0]) {
      var p0 := syms[0];
      var st1 := st.(heap := SetAttr(st.heap, st.moduleGroup, p0, GetAttr(st.heap, Ref(src), p0)));
      CopyKeepsSource(st, src, p0);
      CopyMembersCopies(st1, src, syms[1..]);
      assert forall p :: p in syms <==> p == p0 || p in syms[1..];
    }
  }

  /** Step 2 of `import_module`: installs the module, or the listed members, in the module group. */
  function Install(st: State, src: Oid, asname: string, fromlist: Option<seq<string>>): (r: Step<()>)
    requires Valid(st)
    ensures Valid(r.st)
    ensures r.st == st.(heap := r.st.heap)
    ensures fromlist.None? ==> r.res.Ok? && r.st.heap == SetAttr(st.heap, st.moduleGroup, asname, Ref(src))
  {
    if fromlist.None? then Step(st.(heap := SetAttr(st.heap, st.moduleGroup, asname, Ref(src))), Ok(()))
    else CopyMembers(st, src, fromlist.value)
  }

  /** `import_module(name, asname, fromlist, reload)`. */
  function Import(st: State, name: string, asname: Option<string>, fromlist: Option<seq<string>>,
                  reload: bool, env: Env): (r: Step<()>)
    requires Valid(st)
    ensures Valid(r.st)
    ensures r.st.local == st.local && r.st.moduleGroup == st.moduleGroup
    ensures |r.st.log| == |st.log| + 1 && r.st.log[|st.log|] == ImportMessage(name, asname)
    ensures var l := Load(st.(log := st.log + [ImportMessage(name, asname)]), name, reload, env);
      && (l.res.Err? ==> r == Step(l.st, Err(l.res.failure)))
      && (l.res.Ok? && fromlist.None? ==>
            r.res.Ok? && r.st.heap == SetAttr(l.st.heap, st.moduleGroup, if asname.Some? then asname.value else name, Ref(l.res.value)))
  {
    var st0 := st.(log := st.log + [ImportMessage(name, asname)]);
    var loaded := Load(st0, name, reload, env);
    if loaded.res.Err? then Step(loaded.st, Err(loaded.res.failure))
    else Install(loaded.st, loaded.res.value, if asname.Some? then asname.value else name, fromlist)
  }

  /** A registered module is reused unless `reload`: no file is listed, nothing is allocated. */
  lemma ImportReusesRegistered(st: State, name: string, asname: Option<string>, env: Env)
    requires Valid(st) && name in st.modules
    ensures var r := Import(st, name, asname, None, false, env);
      && r.res.Ok?
      && r.st.next == st.next && r.st.modules == st.modules
      && r.st.heap == SetAttr(st.heap, st.moduleGroup, if asname.Some? then asname.value else name, Ref(st.modules[name]))
  {
  }

  /**
   * Importing the same module twice without `reload` binds the identical
   * module object both times.
   */
  lemma ImportTwiceSameObject(st: State, name: string, env: Env)
    requires Valid(st)
    requires Import(st, name, None, None, false, env).res.Ok?
    ensures var r1 := Import(st, name, None, None, false, env);
      var r2 := Import(r1.st, name, None, None, false, env);
      && r2.res.Ok?
      && name in r1.st.heap[st.moduleGroup].members
      && r2.st.heap[st.moduleGroup].members[name] == r1.st.heap[st.moduleGroup].members[name]
  {
    var st0 := st.(log := st.log + [ImportMessage(name, None)]);
    var loaded := Load(st0, name, false, env);
    var r1 := Import(st, name, None, None, false, env);
    assert r1.st.modules == loaded.st.modules && r1.st.pymodules == loaded.st.pymodules;
    var st1 := r1.st.(log := r1.st.log + [ImportMessage(name, None)]);
    LoadAgain(st0, st1, name, env);
  }

  /** Loading again without `reload`, once the registries are as the first load left them, gives the same module. */
  lemma LoadAgain(st0: State, st1: State, name: string, env: Env)
    requires Valid(st0) && Valid(st1) && Load(st0, name, false, env).res.Ok?
    requires st1.modules == Load(st0, name, false, env).st.modules
    requires st1.pymodules == Load(st0, name, false, env).st.pymodules
    ensures Load(st1, name, false, env).res == Load(st0, name, false, env).res
  {
  }

  /**
   * An import-from binds exactly the listed members, each to the value the
   * loaded module has for it, and nothing else.
   */
  lemma ImportFromCopiesListed(st: State, name: string, syms: seq<string>, reload: bool, env: Env)
    requires Valid(st)
    requires Import(st, name, None, Some(syms), reload, env).res.Ok?
    ensures var r := Import(st, name, None, Some(syms), reload, env);
      var l := Load(st.(log := st.log + [ImportMessage(name, None)]), name, reload, env);
      && l.res.Ok?
      && (forall p :: p in r.st.heap[st.moduleGroup].members ==> p in st.heap[st.moduleGroup].members || p in syms)
      && (forall p :: p in st.heap[st.moduleGroup].members && p !in syms ==>
            p in r.st.heap[st.moduleGroup].members &&
            r.st.heap[st.moduleGroup].members[p] == st.heap[st.moduleGroup].members[p])
      && (forall p :: p in syms ==>
            HasAttr(l.st.heap, Ref(l.res.value), p) && p in r.st.heap[st.moduleGroup].members &&
            r.st.heap[st.moduleGroup].members[p] == GetAttr(l.st.heap, Ref(l.res.value), p))
  {
    var l := Load(st.(log := st.log + [ImportMessage(name, None)]), name, reload, env);
    CopyMembersCopies(l.st, l.res.value, syms);
  }

  /**
   * A full import binds, under `asname` or else `name`, the module object
   * that is registered for `name` once loading is done; it fails exactly
   * when loading fails.
   */
  lemma ImportBindsModule(st: State, name: string, asname: Option<string>, reload: bool, env: Env)
    requires Valid(st)
    ensures var r := Import(st, name, asname, None, reload, env);
      var l := Load(st.(log := st.log + [ImportMessage(name, asname)]), name, reload, env);
      var a := if asname.Some? then asname.value else name;
      && (r.res.Ok? <==> l.res.Ok?)
      && (r.res.Ok? ==>
            var m := r.st.heap[st.moduleGroup].members[a];
            && a in r.st.heap[st.moduleGroup].members
            && m.Ref?
            && ((name in r.st.modules && m.id == r.st.modules[name]) ||
                (name in r.st.pymodules && m.id == r.st.pymodules[name])))
  {
  }
}
