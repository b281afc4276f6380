/**
 * The symbol table object of astlib/symbolTable.py. Its fields are the state
 * the source keeps in `_sys` and in the private cache, and its methods update
 * them in place, step by step, as the source's methods do. Each method is
 * proved to leave the table in the state, and to return the outcome, that the
 * function of the same name in module `Scope` computes from the state it
 * started in; the properties of those functions are proved there.
 */
module SymbolTable {
  import opened Basics
  import opened Strings
  import opened Namespace
  import opened Scope

  class Table {
    var heap: Heap
    var next: Oid
    var local: Oid
    var moduleGroup: Oid
    var searchGroups: seq<string>
    var modules: map<string, Oid>
    var pymodules: map<string, Oid>
    var path: seq<string>
    var cache: Cache
    var log: seq<string>

    /** The table's fields as one value. */
    function St(): State
      reads this
    {
      State(heap, next, local, moduleGroup, searchGroups, modules, pymodules, path, cache, log)
    }

    ghost predicate Valid()
      reads this
    {
      Scope.Valid(St())
    }

    /** `symbolTable.__init__`: the root, the core groups, the registry, then the search path. */
    constructor ()
      ensures St() == Initial()
      ensures Valid()
    {
      heap := map[
        Root := Obj(map[TopGroup := Ref(Root), "_sys" := Ref(1), "_builtin" := Ref(2), "_math" := Ref(3)], true),
        1 := Obj(map[], true), 2 := Obj(map[], true), 3 := Obj(map[], true)];
      next := 4;
      local, moduleGroup := Root, Root;
      searchGroups := [];
      modules := map[TopGroup := Root, "_sys" := 1, "_builtin" := 2, "_math" := 3];
      pymodules := map[];
      path := ["."];
      cache := Cache(None, None, None, []);
      log := [];
      new;
      assert St() == Bare();
      FixSearchGroups();
      InitialFacts();
    }

    /** `_fix_searchGroups`. */
    method FixSearchGroups()
      modifies this
      ensures St() == Fix(old(St()))
    {
      if cache.local == Some(local) && cache.moduleGroup == Some(moduleGroup) && cache.names == Some(searchGroups) {
        return;
      }
      var names := if cache.names.Some? then cache.names.value else [];
      ghost var init := names;
      var i := 0;
      while i < |CoreGroups|
        invariant 0 <= i <= |CoreGroups|
        invariant names == AddMissing(init, CoreGroups[..i])
      {
        assert CoreGroups[..i + 1][..i] == CoreGroups[..i];
        if CoreGroups[i] !in names {
          names := names + [CoreGroups[i]];
        }
        i := i + 1;
      }
      assert CoreGroups[..|CoreGroups|] == CoreGroups;
      var groups: seq<Oid> := [];
      var j := 0;
      while j < |names|
        invariant 0 <= j <= |names|
        invariant groups == Resolve(modules, names[..j])
      {
        assert names[..j + 1][..j] == names[..j];
        var n := names[j];
        if n in modules && modules[n] !in groups {
          groups := groups + [modules[n]];
        }
        j := j + 1;
      }
      assert names[..|names|] == names;
      searchGroups := names;
      cache := Cache(Some(local), Some(moduleGroup), Some(names), groups);
    }

    /** `_set_local_mod`. */
    method SetLocalMod(l: Oid, m: Oid)
      modifies this
      ensures St() == Scope.SetLocalMod(old(St()), l, m)
    {
      local, moduleGroup := l, m;
      FixSearchGroups();
    }

    /** The index of the first search group that has `name`. */
    method FirstGroupHaving(gs: seq<Oid>, name: string) returns (i: nat)
      ensures i == FirstIndex(heap, gs, name)
    {
      i := 0;
      while i < |gs|
        invariant 0 <= i <= |gs|
        invariant forall j :: 0 <= j < i ==> !HasAttr(heap, Ref(gs[j]), name)
      {
        if HasAttr(heap, Ref(gs[i]), name) {
          return;
        }
        i := i + 1;
      }
    }

    /** The member `top` of the last search group that has one. */
    method LastGroupHaving(gs: seq<Oid>, top: string) returns (out: Option<Value>)
      ensures out == LastHaving(heap, gs, top)
    {
      out := None;
      var i := 0;
      while i < |gs|
        invariant 0 <= i <= |gs|
        invariant out == LastHaving(heap, gs[..i], top)
      {
        assert gs[..i + 1][..i] == gs[..i];
        if HasAttr(heap, Ref(gs[i]), top) {
          out := Some(GetAttr(heap, Ref(gs[i]), top));
        }
        i := i + 1;
      }
      assert gs[..|gs|] == gs;
    }

    /** Adds the missing member `p` to the object `out`: a new group when `more`, else None. */
    method CreateMember(out: Oid, p: string, more: bool) returns (val: Value)
      requires out in heap && forall k :: k in heap ==> k < next
      modifies this
      ensures St() == Create(old(St()), out, p, more) && val == Created(old(St()), more)
      ensures forall k :: k in heap ==> k < next
    {
      val := NoneVal;
      if more {
        val := Ref(next);
        heap := heap[next := Obj(map[], true)];
        next := next + 1;
      }
      heap := SetAttr(heap, out, p, val);
    }

    /** `_lookup(name, create)`. */
    method Lookup(name: string, create: bool) returns (r: Result<Value>)
      requires Valid()
      modifies this
      ensures Step(St(), r) == Scope.Lookup(old(St()), name, create)
      ensures Valid()
    {
      FixSearchGroups();
      r := LookupFrom(name, create);
    }

    /** The body of `_lookup` after the refresh of the search path. */
    method LookupFrom(name: string, create: bool) returns (r: Result<Value>)
      requires Valid()
      modifies this
      ensures Step(St(), r) == Scope.LookupFrom(old(St()), name, create)
      ensures Valid()
    {
      var gs := SearchList(St());
      var parts := Split(name, '.');
      if |parts| == 1 {
        var i := FirstGroupHaving(gs, name);
        if i < |gs| {
          return Ok(GetAttr(heap, Ref(gs[i]), name));
        }
      }
      r := LookupTop(gs, parts, create);
    }

    /** The dotted case of `_lookup`, over the search list `gs` of the current state. */
    method LookupTop(gs: seq<Oid>, parts: seq<string>, create: bool) returns (r: Result<Value>)
      requires Valid() && |parts| >= 1 && gs == SearchList(St())
      modifies this
      ensures Step(St(), r) == Scope.LookupTop(old(St()), parts, create)
      ensures Valid()
    {
      var top := parts[0];
      var out: Option<Value> := None;
      if top == TopGroup {
        out := Some(Ref(Root));
      } else {
        out := LastGroupHaving(gs, top);
      }
      if out.None? {
        return Err(LookupError);
      }
      r := Walk(out.value, parts[1..], create);
    }

    /** The loop of `_lookup` over the segments after the first. */
    method Walk(start: Value, rest: seq<string>, create: bool) returns (r: Result<Value>)
      requires Valid()
      modifies this
      ensures Step(St(), r) == Scope.Walk(old(St()), start, rest, create)
      ensures Valid()
    {
      ghost var target := Scope.Walk(St(), start, rest, create);
      var out := start;
      var k := 0;
      while k < |rest|
        invariant 0 <= k <= |rest|
        invariant forall k :: k in heap ==> k < next
        invariant Scope.Walk(St(), out, rest[k..], create) == target
      {
        var p := rest[k];
        assert rest[k..][1..] == rest[k + 1..];
        if HasAttr(heap, out, p) {
          out := GetAttr(heap, out, p);
        } else if !create {
          return Err(LookupError);
        } else if !IsObject(heap, out) {
          return Err(AttributeError);
        } else {
          out := CreateMember(out.id, p, k + 1 < |rest|);
        }
        k := k + 1;
      }
      r := Ok(out);
    }

    /** `getGroup(gname)`. */
    method GetGroup(gname: string) returns (r: Result<Oid>)
      requires Valid()
      modifies this
      ensures Step(St(), r) == Scope.GetGroup(old(St()), gname)
      ensures Valid()
    {
      var l := Lookup(gname, false);
      if l.Err? {
        return Err(l.failure);
      }
      if IsGroup(heap, l.value) {
        return Ok(l.value.id);
      }
      r := Err(LookupError);
    }

    /** The descent through the groups named by the prefix of a dotted name, creating missing ones. */
    method Through(grp0: Oid, prefix: seq<string>) returns (r: Result<Oid>)
      requires Valid() && grp0 in heap && heap[grp0].isGroup
      modifies this
      ensures Step(St(), r) == Scope.Through(old(St()), grp0, prefix)
      ensures Valid()
    {
      ghost var target := Scope.Through(St(), grp0, prefix);
      var grp := grp0;
      var k := 0;
      while k < |prefix|
        invariant 0 <= k <= |prefix|
        invariant Valid() && grp in heap && heap[grp].isGroup
        invariant Scope.Through(St(), grp, prefix[k..]) == target
      {
        var n := prefix[k];
        assert prefix[k..][1..] == prefix[k + 1..];
        if HasAttr(heap, Ref(grp), n) {
          var v := GetAttr(heap, Ref(grp), n);
          if !IsGroup(heap, v) {
            return Err(ValueError);
          }
          grp := v.id;
        } else {
          CreateGrows(St(), grp, n, true);
          var _ := CreateMember(grp, n, true);
        }
        k := k + 1;
      }
      r := Ok(grp);
    }

    /** `setSymbol(name, value, group)`. */
    method SetSymbol(name: string, value: Value, group: Option<string>) returns (r: Result<Value>)
      requires Valid()
      modifies this
      ensures Step(St(), r) == Scope.SetSymbol(old(St()), name, value, group)
      ensures Valid()
    {
      ghost var s0 := St();
      FixSearchGroups();
      ghost var s1 := St();
      assert s1 == Fix(s0);
      ghost var start := if group.Some? then Scope.GetGroup(s1, group.value) else Step(s1, Ok(s1.local));
      var grp := local;
      if group.Some? {
        var g := GetGroup(group.value);
        if g.Err? {
          return Err(g.failure);
        }
        grp := g.value;
      }
      assert start == Step(St(), Ok(grp));
      r := Bind(grp, name, value);
    }

    /** The part of `setSymbol` after the group is chosen. */
    method Bind(grp: Oid, name: string, value: Value) returns (r: Result<Value>)
      requires Valid() && grp in heap && heap[grp].isGroup
      modifies this
      ensures Step(St(), r) == Scope.Bind(old(St()), grp, name, value)
      ensures Valid()
    {
      var names := Split(name, '.');
      var t := Through(grp, names[..|names| - 1]);
      if t.Err? {
        return Err(t.failure);
      }
      heap := SetAttr(heap, t.value, names[|names| - 1], value);
      r := Ok(value);
    }

    /** `_parentOf(name)`, with a name without a dot taken from the first search group that has it. */
    method ParentOf(name: string) returns (r: Result<(Value, Option<string>)>)
      requires Valid()
      modifies this
      ensures Step(St(), r) == Scope.ParentOf(old(St()), name)
      ensures Valid()
    {
      var n := Split(name, '.');
      FixSearchGroups();
      if name == TopGroup {
        return Ok((Ref(Root), None));
      }
      if |n| == 1 {
        var gs := SearchList(St());
        var i := FirstGroupHaving(gs, name);
        if i < |gs| {
          return Ok((Ref(gs[i]), Some(name)));
        }
        return Err(LookupError);
      }
      var l := Lookup(Join(n[..|n| - 1], '.'), false);
      if l.Err? {
        return Err(l.failure);
      }
      r := Ok((l.value, Some(n[|n| - 1])));
    }

    /** `delattr(parent, child)` when there is a child. */
    method Remove(parent: Value, child: Option<string>) returns (r: Result<()>)
      requires Valid()
      modifies this
      ensures Step(St(), r) == Scope.Remove(old(St()), parent, child)
      ensures Valid()
    {
      if child.None? {
        return Ok(());
      }
      if !HasAttr(heap, parent, child.value) {
        return Err(AttributeError);
      }
      heap := DelAttr(heap, parent.id, child.value);
      r := Ok(());
    }

    /** `delSymbol(name)`. */
    method DelSymbol(name: string) returns (r: Result<()>)
      requires Valid()
      modifies this
      ensures Step(St(), r) == Scope.DelSymbol(old(St()), name)
      ensures Valid()
    {
      var l := Lookup(name, false);
      if l.Err? {
        return Err(l.failure);
      }
      if IsGroup(heap, l.value) {
        return Err(LookupError);
      }
      var p := ParentOf(name);
      if p.Err? {
        return Err(p.failure);
      }
      r := Remove(p.value.0, p.value.1);
    }

    /** `delGroup(name)`, looking up `name`. */
    method DelGroup(name: string) returns (r: Result<()>)
      requires Valid()
      modifies this
      ensures Step(St(), r) == Scope.DelGroup(old(St()), name)
      ensures Valid()
    {
      var l := Lookup(name, false);
      if l.Err? {
        return Err(l.failure);
      }
      if !IsGroup(heap, l.value) {
        return Err(LookupError);
      }
      var members := heap[l.value.id].members;
      if StatusName !in members {
        return Err(AttributeError);
      }
      if members[StatusName] == Str("nodelete") {
        log := log + ["cannot delete group '" + name + "'\n"];
        return Ok(());
      }
      var p := ParentOf(name);
      if p.Err? {
        return Err(p.failure);
      }
      r := Remove(p.value.0, p.value.1);
    }

    /** Runs the module file `name.tdl` of `dir` in a new module group. */
    method RunModule(name: string, dir: string, env: Env)
      requires Valid()
      modifies this
      ensures St() == Scope.RunModule(old(St()), name, dir, env)
      ensures Valid()
    {
      var saveLocal, saveModule := local, moduleGroup;
      var thismod := next;
      heap := heap[thismod := Obj(map[], true)];
      next := next + 1;
      modules := modules[name := thismod];
      SetLocalMod(thismod, thismod);
      var file := (dir, name + ".tdl");
      var bindings := if file in env.scripts then env.scripts[file] else map[];
      heap := heap[thismod := Obj(heap[thismod].members + bindings, true)];
      SetLocalMod(saveLocal, saveModule);
    }

    /** The loop of `import_module` over `_sys.path`. */
    method ScanPath(name: string, env: Env) returns (r: Result<Option<Oid>>)
      requires Valid()
      modifies this
      ensures Step(St(), r) == Scope.ScanPath(old(St()), name, env, old(path), None)
      ensures Valid()
    {
      var dirs := path;
      var found: Option<Oid> := None;
      var i := 0;
      while i < |dirs|
        invariant 0 <= i <= |dirs|
        invariant Valid()
        invariant Scope.ScanPath(St(), name, env, dirs[i..], found) == Scope.ScanPath(old(St()), name, env, dirs, None)
      {
        var d := dirs[i];
        assert dirs[i..][1..] == dirs[i + 1..];
        if d !in env.listing {
          return Err(OSError);
        }
        if name + ".tdl" in env.listing[d] {
          RunModule(name, d, env);
          found := Some(modules[name]);
        }
        i := i + 1;
      }
      r := Ok(found);
    }

    /** `__import__(name)`, then the module from `_sys.pymodules`. */
    method HostImport(name: string, env: Env) returns (r: Result<Oid>)
      requires Valid()
      modifies this
      ensures Step(St(), r) == Scope.HostImport(old(St()), name, env)
      ensures Valid()
    {
      if name in pymodules {
        return Ok(pymodules[name]);
      }
      if name !in env.host {
        return Err(ImportError);
      }
      var id := next;
      heap := heap[id := Obj(env.host[name], false)];
      next := id + 1;
      pymodules := pymodules[name := id];
      r := Ok(id);
    }

    /** Step 1 of `import_module`. */
    method Load(name: string, reload: bool, env: Env) returns (r: Result<Oid>)
      requires Valid()
      modifies this
      ensures Step(St(), r) == Scope.Load(old(St()), name, reload, env)
      ensures Valid()
    {
      if reload || (name !in pymodules && name !in modules) {
        var found := ScanPath(name, env);
        if found.Err? {
          return Err(found.failure);
        }
        if found.value.Some? {
          return Ok(found.value.value);
        }
        r := HostImport(name, env);
      } else if name in modules {
        r := Ok(modules[name]);
      } else {
        r := Ok(pymodules[name]);
      }
    }

    /** Step 2 of `import_module`. */
    method Install(src: Oid, asname: string, fromlist: Option<seq<string>>) returns (r: Result<()>)
      requires Valid()
      modifies this
      ensures Step(St(), r) == Scope.Install(old(St()), src, asname, fromlist)
      ensures Valid()
    {
      if fromlist.None? {
        heap := SetAttr(heap, moduleGroup, asname, Ref(src));
        return Ok(());
      }
      var syms := fromlist.value;
      ghost var target := CopyMembers(St(), src, syms);
      var k := 0;
      while k < |syms|
        invariant 0 <= k <= |syms|
        invariant Valid()
        invariant CopyMembers(St(), src, syms[k..]) == target
      {
        assert syms[k..][1..] == syms[k + 1..];
        if !HasAttr(heap, Ref(src), syms[k]) {
          return Err(AttributeError);
        }
        heap := SetAttr(heap, moduleGroup, syms[k], GetAttr(heap, Ref(src), syms[k]));
        k := k + 1;
      }
      r := Ok(());
    }

    /** `import_module(name, asname, fromlist, reload)`. */
    method ImportModule(name: string, asname: Option<string>, fromlist: Option<seq<string>>,
                        reload: bool, env: Env) returns (r: Result<()>)
      requires Valid()
      modifies this
      ensures Step(St(), r) == Import(old(St()), name, asname, fromlist, reload, env)
      ensures Valid()
    {
      log := log + [ImportMessage(name, asname)];
      var loaded := Load(name, reload, env);
      if loaded.Err? {
        return Err(loaded.failure);
      }
      r := Install(loaded.value, if asname.Some? then asname.value else name, fromlist);
    }
  }
}
