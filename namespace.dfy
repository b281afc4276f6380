/**
 * The namespace container (`Group` in astlib/symbolTable.py).
 *
 * A Python `Group` is an object whose `__dict__` maps member names to values;
 * groups are shared by reference (the table's root even holds itself under
 * `_main`). The model therefore keeps every object in a heap indexed by an
 * object id, and a value that denotes an object is a `Ref` to its id. An
 * object is either a `Group` or some other object with attributes (a module
 * loaded by the host language).
 */
module Namespace {
  import opened Strings

  type Oid = nat

  /** A value bound to a member name. */
  datatype Value =
    | NoneVal           // Python's None
    | Num(n: int)
    | Str(s: string)
    | Ref(id: Oid)      // an object, by identity

  /** An object: its attributes and whether it is a `Group`. */
  datatype Obj = Obj(members: map<string, Value>, isGroup: bool)

  type Heap = map<Oid, Obj>

  /** Names with this prefix are kept out of a group's listing. */
  const HiddenPrefix: string := "_Group__"

  /** `Group.__dir__`: the sorted member names, without the hidden ones. */
  function Dir(members: map<string, Value>): (names: seq<string>)
    ensures StrictlySorted(names)
    ensures forall n :: n in names <==> n in members && !StartsWith(n, HiddenPrefix)
  {
    SortedNames(set n | n in members && !StartsWith(n, HiddenPrefix))
  }

  /** `len(group)`: the number of listed members. */
  function Len(members: map<string, Value>): (k: nat)
    ensures k == |set n | n in members && !StartsWith(n, HiddenPrefix)|
  {
    |Dir(members)|
  }

  predicate IsObject(h: Heap, v: Value) {
    v.Ref? && v.id in h
  }

  /** `isGroup(v)`. */
  predicate IsGroup(h: Heap, v: Value) {
    v.Ref? && v.id in h && h[v.id].isGroup
  }

  /** `Group._subgroups`: the sorted names of members whose value is a group. */
  function Subgroups(h: Heap, members: map<string, Value>): (names: seq<string>)
    ensures StrictlySorted(names)
    ensures forall n :: n in names <==> n in members && IsGroup(h, members[n])
  {
    SortedNames(set n | n in members && IsGroup(h, members[n]))
  }

  /** A listed subgroup is also in the group's listing, unless it is hidden. */
  lemma SubgroupsListed(h: Heap, members: map<string, Value>, n: string)
    requires n in Subgroups(h, members) && !StartsWith(n, HiddenPrefix)
    ensures n in Dir(members)
  {
  }

  // ---------------------------------------------------------------------------
  // Attribute access: hasattr / getattr / setattr / delattr
  // ---------------------------------------------------------------------------

  /** The attributes of `v`: none unless `v` is an object of the heap. */
  function Members(h: Heap, v: Value): map<string, Value> {
    if IsObject(h, v) then h[v.id].members else map[]
  }

  predicate HasAttr(h: Heap, v: Value, p: string) {
    p in Members(h, v)
  }

  function GetAttr(h: Heap, v: Value, p: string): Value
    requires HasAttr(h, v, p)
  {
    Members(h, v)[p]
  }

  /** `setattr(obj, p, val)` on the object `id`: only that member changes. */
  function SetAttr(h: Heap, id: Oid, p: string, val: Value): (h': Heap)
    requires id in h
    ensures h'.Keys == h.Keys
    ensures h'[id].members == h[id].members[p := val] && h'[id].isGroup == h[id].isGroup
    ensures forall k :: k in h && k != id ==> h'[k] == h[k]
  {
    h[id := h[id].(members := h[id].members[p := val])]
  }

  /** `delattr(obj, p)` on the object `id`: only that member goes. */
  function DelAttr(h: Heap, id: Oid, p: string): (h': Heap)
    requires id in h
    ensures h'.Keys == h.Keys
    ensures h'[id].members == h[id].members - {p} && h'[id].isGroup == h[id].isGroup
    ensures forall k :: k in h && k != id ==> h'[k] == h[k]
  {
    h[id := h[id].(members := h[id].members - {p})]
  }

  /** `h2` keeps every object of `h1` and every member it has, with the same value and kind. */
  predicate Extends(h1: Heap, h2: Heap) {
    forall k :: k in h1 ==>
      k in h2 && h2[k].isGroup == h1[k].isGroup &&
      forall p :: p in h1[k].members ==> p in h2[k].members && h2[k].members[p] == h1[k].members[p]
  }

  /** A member present before an extension is present after it, with the same value. */
  lemma ExtendsAttr(h1: Heap, h2: Heap, v: Value, p: string)
    requires Extends(h1, h2) && HasAttr(h1, v, p)
    ensures HasAttr(h2, v, p) && GetAttr(h2, v, p) == GetAttr(h1, v, p)
  {
  }

  lemma ExtendsTransitive(h1: Heap, h2: Heap, h3: Heap)
    ensures Extends(h1, h2) && Extends(h2, h3) ==> Extends(h1, h3)
  {
  }

  /** Allocating a new object extends a heap. */
  lemma ExtendsAlloc(h: Heap, k: Oid, o: Obj)
    requires k !in h
    ensures Extends(h, h[k := o])
  {
  }

  /** Adding a member an object lacks extends a heap. */
  lemma ExtendsAddMember(h: Heap, id: Oid, p: string, val: Value)
    requires id in h && p !in h[id].members
    ensures Extends(h, SetAttr(h, id, p, val))
  {
  }

  lemma ExtendsReflexive(h: Heap)
    ensures Extends(h, h)
  {
  }

  /**
   * `h2` binds member `p` of object `g` to `v` and keeps every other member
   * of every object of `h1`, with the same value and kind.
   */
  predicate BindsIn(h1: Heap, h2: Heap, g: Oid, p: string, v: Value) {
    g in h2 && p in h2[g].members && h2[g].members[p] == v &&
    forall k :: k in h1 ==>
      k in h2 && h2[k].isGroup == h1[k].isGroup &&
      forall q :: q in h1[k].members && (k != g || q != p) ==>
        q in h2[k].members && h2[k].members[q] == h1[k].members[q]
  }

  /** Setting a member after an extension binds it and keeps everything else. */
  lemma ExtendsThenSet(h1: Heap, h2: Heap, g: Oid, p: string, v: Value)
    requires Extends(h1, h2) && g in h2
    ensures BindsIn(h1, SetAttr(h2, g, p, v), g, p, v)
  {
  }
}
