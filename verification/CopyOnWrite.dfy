/**
 Copy on write: handles that share reference-counted models behave as independent values.

 Handles and models are named by their addresses.  `Store` is the memory they occupy; `World` updates
 it in place, one method an operation of the source.  The abstraction is `Values`: what each handle
 that has not been moved from reads.  An allocation may return any address that is not in use.
 */
module CopyOnWrite {

  import opened Wrappers

  type Element(!new)

  datatype Cell = Cell(count: nat, value: Element)

  // `self` maps each live handle to its model, or to None once it has been moved from.
  datatype Store = Store(self: map<nat, Option<nat>>, cells: map<nat, Cell>, default: nat, initial: Element)

  ghost function Users(s: Store, m: nat): set<nat> {
    set h | h in s.self && s.self[h] == Some(m)
  }

  ghost predicate Counted(s: Store, m: nat)
    requires m in s.cells
  {
    s.cells[m].count == |Users(s, m)| + (if m == s.default then 1 else 0)
  }

  // The part of the invariant that counts, one model at a time.
  ghost predicate CellOk(s: Store, m: nat)
    requires m in s.cells
  {
    Counted(s, m) && (m != s.default ==> Users(s, m) != {})
  }

  /** Each count is the number of handles on the model, plus one for the static default; a model other
      than the default is allocated exactly as long as a handle uses it; the default is never written. */
  ghost predicate Inv(s: Store) {
    && s.default in s.cells && s.cells[s.default].value == s.initial
    && (forall h :: h in s.self && s.self[h].Some? ==> s.self[h].value in s.cells)
    && (forall m :: m in s.cells ==> CellOk(s, m))
  }

  predicate Full(s: Store, h: nat) {
    h in s.self && s.self[h].Some? && s.self[h].value in s.cells
  }

  /** What the handles read. */
  function Values(s: Store): map<nat, Element> {
    map h | h in s.self && Full(s, h) :: s.cells[s.self[h].value].value
  }

  // ---- the primitive changes of the store ----

  // A new handle on an allocated model.
  function Share(s: Store, h: nat, m: nat): Store
    requires m in s.cells
  {
    s.(self := s.self[h := Some(m)], cells := s.cells[m := s.cells[m].(count := s.cells[m].count + 1)])
  }

  // A new handle on a new model.
  function New(s: Store, h: nat, m: nat, x: Element): Store {
    s.(self := s.self[h := Some(m)], cells := s.cells[m := Cell(1, x)])
  }

  // A new handle takes over the model of `x`.
  function Take(s: Store, h: nat, x: nat): Store
    requires x in s.self
  {
    s.(self := s.self[h := s.self[x]][x := None])
  }

  function Exchange(s: Store, x: nat, y: nat): Store
    requires x in s.self && y in s.self
  {
    s.(self := s.self[x := s.self[y]][y := s.self[x]])
  }

  // The destructor: the last handle takes the model along.
  function Destroy(s: Store, h: nat): Store
    requires h in s.self
  {
    var self := s.self - {h};
    if !Full(s, h) then s.(self := self)
    else
      var m := s.self[h].value;
      var left := if s.cells[m].count > 0 then s.cells[m].count - 1 else 0;
      if left == 0 then s.(self := self, cells := s.cells - {m})
      else s.(self := self, cells := s.cells[m := s.cells[m].(count := left)])
  }

  // Storing through the reference of a unique handle.
  function Overwrite(s: Store, h: nat, x: Element): Store
    requires Full(s, h)
  {
    var m := s.self[h].value;
    s.(cells := s.cells[m := s.cells[m].(value := x)])
  }

  lemma ShareUsers(s: Store, h: nat, m: nat, k: nat)
    requires h !in s.self && m in s.cells
    ensures h !in Users(s, k)
    ensures Users(Share(s, h, m), k) == if k == m then Users(s, k) + {h} else Users(s, k)
  {}

  lemma ShareCell(s: Store, h: nat, m: nat, k: nat)
    requires h !in s.self && m in s.cells && k in s.cells && CellOk(s, k)
    ensures CellOk(Share(s, h, m), k)
  {
    ShareUsers(s, h, m, k);
    hide Users;
  }

  lemma ShareValues(s: Store, h: nat, m: nat)
    requires h !in s.self && m in s.cells
    ensures Values(Share(s, h, m)) == Values(s)[h := s.cells[m].value]
  {}

  lemma ShareKeeps(s: Store, h: nat, m: nat)
    requires Inv(s) && h !in s.self && m in s.cells
    ensures Inv(Share(s, h, m)) && Values(Share(s, h, m)) == Values(s)[h := s.cells[m].value]
  {
    hide Values, Users, Counted;
    ShareValues(s, h, m);
    forall k | k in s.cells ensures CellOk(Share(s, h, m), k) {
      ShareCell(s, h, m, k);
    }
  }

  lemma NewCell(s: Store, h: nat, m: nat, x: Element, k: nat)
    requires h !in s.self && m !in s.cells && (k == m || (k in s.cells && CellOk(s, k)))
    requires m != s.default && forall g :: g in s.self ==> s.self[g] != Some(m)
    ensures CellOk(New(s, h, m, x), k)
  {
    assert Users(New(s, h, m, x), k) == if k == m then {h} else Users(s, k);
  }

  lemma NewValues(s: Store, h: nat, m: nat, x: Element)
    requires h !in s.self && m !in s.cells && forall g :: g in s.self ==> s.self[g] != Some(m)
    ensures Values(New(s, h, m, x)) == Values(s)[h := x]
  {}

  lemma NewKeeps(s: Store, h: nat, m: nat, x: Element)
    requires Inv(s) && h !in s.self && m !in s.cells
    ensures Inv(New(s, h, m, x)) && Values(New(s, h, m, x)) == Values(s)[h := x]
    ensures Users(New(s, h, m, x), m) == {h}
  {
    assert forall g :: g in s.self ==> s.self[g] != Some(m);
    assert Users(New(s, h, m, x), m) == {h};
    hide Values, Users, Counted;
    NewValues(s, h, m, x);
    forall k | k in New(s, h, m, x).cells ensures CellOk(New(s, h, m, x), k) {
      NewCell(s, h, m, x, k);
    }
  }

  lemma OneForOne(a: set<nat>, b: set<nat>, x: nat, y: nat)
    requires x in a && y !in a && b == a - {x} + {y}
    ensures |b| == |a| && b != {}
  {
    assert y in b;
  }

  lemma TakeUsers(s: Store, h: nat, x: nat, k: nat)
    requires h !in s.self && x in s.self
    ensures h !in Users(s, k) && (x in Users(s, k) <==> s.self[x] == Some(k))
    ensures Users(Take(s, h, x), k) == if s.self[x] == Some(k) then Users(s, k) - {x} + {h} else Users(s, k)
  {}

  lemma TakeCell(s: Store, h: nat, x: nat, k: nat)
    requires h !in s.self && x in s.self && k in s.cells && CellOk(s, k)
    ensures CellOk(Take(s, h, x), k)
  {
    TakeUsers(s, h, x, k);
    hide Users;
    if s.self[x] == Some(k) {
      OneForOne(Users(s, k), Users(Take(s, h, x), k), x, h);
    }
  }

  lemma TakeValues(s: Store, h: nat, x: nat)
    requires h !in s.self && Full(s, x)
    ensures Values(Take(s, h, x)) == Values(s)[h := Values(s)[x]] - {x}
  {}

  lemma TakeKeeps(s: Store, h: nat, x: nat)
    requires Inv(s) && h !in s.self && Full(s, x)
    ensures Inv(Take(s, h, x)) && Values(Take(s, h, x)) == Values(s)[h := Values(s)[x]] - {x}
  {
    TakeValues(s, h, x);
    hide Values, Users, Counted;
    forall k | k in s.cells ensures CellOk(Take(s, h, x), k) {
      TakeCell(s, h, x, k);
    }
  }

  lemma ExchangeUsers(s: Store, x: nat, y: nat, k: nat)
    requires x in s.self && y in s.self
    ensures var onX, onY := s.self[x] == Some(k), s.self[y] == Some(k);
            && (x in Users(s, k) <==> onX) && (y in Users(s, k) <==> onY)
            && Users(Exchange(s, x, y), k) == if onX == onY then Users(s, k)
                                              else if onX then Users(s, k) - {x} + {y}
                                              else Users(s, k) - {y} + {x}
  {}

  lemma ExchangeCell(s: Store, x: nat, y: nat, k: nat)
    requires x in s.self && y in s.self && k in s.cells && CellOk(s, k)
    ensures CellOk(Exchange(s, x, y), k)
  {
    ExchangeUsers(s, x, y, k);
    hide Users;
    if s.self[x] == Some(k) && s.self[y] != Some(k) {
      OneForOne(Users(s, k), Users(Exchange(s, x, y), k), x, y);
    } else if s.self[y] == Some(k) && s.self[x] != Some(k) {
      OneForOne(Users(s, k), Users(Exchange(s, x, y), k), y, x);
    }
  }

  lemma ExchangeKeeps(s: Store, x: nat, y: nat)
    requires Inv(s) && x in s.self && y in s.self
    ensures Inv(Exchange(s, x, y))
    ensures Values(Exchange(s, x, y)) == Exchanged(Values(s), x, y)
  {
    ExchangeValues(s, x, y);
    hide Values, Users, Counted;
    forall k | k in s.cells ensures CellOk(Exchange(s, x, y), k) {
      ExchangeCell(s, x, y, k);
    }
  }

  /** Two variables swap what they hold; a moved-from one holds nothing. */
  function Exchanged(vals: map<nat, Element>, x: nat, y: nat): map<nat, Element> {
    (vals - {x, y})
    + (if x in vals then map[y := vals[x]] else map[])
    + (if y in vals then map[x := vals[y]] else map[])
  }

  lemma ExchangeValue(s: Store, x: nat, y: nat, g: nat)
    requires x in s.self && y in s.self && g in s.self
    ensures var v, v' := Exchanged(Values(s), x, y), Values(Exchange(s, x, y));
            (g in v' <==> g in v) && (g in v' ==> v'[g] == v[g])
  {}

  lemma ExchangeValues(s: Store, x: nat, y: nat)
    requires x in s.self && y in s.self
    ensures Values(Exchange(s, x, y)) == Exchanged(Values(s), x, y)
  {
    var s' := Exchange(s, x, y);
    forall g | g in s.self
      ensures g in Values(s') <==> g in Exchanged(Values(s), x, y)
      ensures g in Values(s') ==> Values(s')[g] == Exchanged(Values(s), x, y)[g]
    {
      ExchangeValue(s, x, y, g);
    }
    hide Exchange;
  }

  lemma LastUser(s: Store, h: nat)
    requires Full(s, h) && Counted(s, s.self[h].value)
    ensures var m := s.self[h].value;
            s.cells[m].count >= 1 && (s.cells[m].count == 1 <==> m != s.default && Users(s, m) == {h})
  {
    var m := s.self[h].value;
    assert h in Users(s, m);
    assert Users(s, m) == (Users(s, m) - {h}) + {h};
  }

  lemma DestroyCell(s: Store, h: nat, k: nat)
    requires h in s.self && k in s.cells && CellOk(s, k)
    ensures k in Destroy(s, h).cells <==> k == s.default || Users(s, k) != {h}
    ensures k in Destroy(s, h).cells ==> CellOk(Destroy(s, h), k)
  {
    var s' := Destroy(s, h);
    assert Users(s', k) == Users(s, k) - {h};
    if Full(s, h) && s.self[h].value == k {
      LastUser(s, h);
      assert Users(s, k) == (Users(s, k) - {h}) + {h};
    } else {
      assert h !in Users(s, k);
    }
  }

  lemma DestroyValues(s: Store, h: nat)
    requires h in s.self
    requires forall k :: k in s.cells && k !in Destroy(s, h).cells ==> Users(s, k) == {h}
    ensures Values(Destroy(s, h)) == Values(s) - {h}
  {
    var s' := Destroy(s, h);
    forall g | Full(s, g) && g != h
      ensures Full(s', g) && s'.cells[s'.self[g].value].value == s.cells[s.self[g].value].value
    {
      assert g in Users(s, s.self[g].value);
    }
  }

  /** A handle goes; its model is freed exactly if it was the last user of a model other than the default;
      no other handle reads anything else. */
  lemma DestroyKeeps(s: Store, h: nat)
    requires Inv(s) && h in s.self
    ensures Inv(Destroy(s, h)) && Values(Destroy(s, h)) == Values(s) - {h}
    ensures forall m :: m in s.cells ==>
              (m !in Destroy(s, h).cells <==> m != s.default && Users(s, m) == {h})
  {
    var s' := Destroy(s, h);
    forall k | k in s.cells
      ensures k in s'.cells <==> k == s.default || Users(s, k) != {h}
      ensures k in s'.cells ==> CellOk(s', k)
    {
      DestroyCell(s, h, k);
    }
    DestroyValues(s, h);
    forall g | g in s'.self && s'.self[g].Some? ensures s'.self[g].value in s'.cells {
      assert g in Users(s, s.self[g].value);
    }
    hide Values, Counted;
  }

  lemma OverwriteValues(s: Store, h: nat, x: Element)
    requires Full(s, h) && Users(s, s.self[h].value) == {h}
    ensures Values(Overwrite(s, h, x)) == Values(s)[h := x]
  {
    forall g | Full(s, g) && s.self[g] == s.self[h] ensures g == h {
      assert g in Users(s, s.self[h].value);
    }
  }

  lemma OverwriteCell(s: Store, h: nat, x: Element, k: nat)
    requires Full(s, h) && k in s.cells && CellOk(s, k)
    ensures CellOk(Overwrite(s, h, x), k)
  {
    assert Users(Overwrite(s, h, x), k) == Users(s, k);
  }

  lemma OverwriteKeeps(s: Store, h: nat, x: Element)
    requires Inv(s) && Full(s, h) && s.cells[s.self[h].value].count == 1
    ensures Inv(Overwrite(s, h, x)) && Values(Overwrite(s, h, x)) == Values(s)[h := x]
  {
    LastUser(s, h);
    OverwriteValues(s, h, x);
    hide Values, Users, Counted;
    forall k | k in s.cells ensures CellOk(Overwrite(s, h, x), k) {
      OverwriteCell(s, h, x, k);
    }
  }

  // ---- the operations ----

  // Move assignment: move into a temporary, swap, destroy the temporary.
  function MoveAssign(s: Store, h: nat, x: nat, tmp: nat): Store
    requires h in s.self && Full(s, x) && tmp !in s.self
  {
    Destroy(Exchange(Take(s, tmp, x), h, tmp), tmp)
  }

  // `*this = copy_on_write(...)`: assign from a handle that is then destroyed.
  function Replace(s: Store, h: nat, x: nat, tmp: nat): Store
    requires h in s.self && Full(s, x) && tmp !in s.self
  {
    var s' := MoveAssign(s, h, x, tmp);
    if x in s'.self then Destroy(s', x) else s'
  }

  lemma MovedMap(v: map<nat, Element>, h: nat, x: nat, tmp: nat)
    requires x in v && tmp !in v && h != tmp
    ensures Exchanged(v[tmp := v[x]] - {x}, h, tmp) - {tmp} == (v - {x})[h := v[x]]
  {}

  lemma MoveAssignSelf(s: Store, h: nat, x: nat, tmp: nat)
    requires h in s.self && Full(s, x) && tmp !in s.self
    ensures var s' := MoveAssign(s, h, x, tmp);
            s'.self.Keys == s.self.Keys && s'.default == s.default && s'.initial == s.initial
    ensures MoveAssign(s, h, x, tmp).self == s.self[x := None][h := s.self[x]]
  {}

  lemma MoveAssignKeeps(s: Store, h: nat, x: nat, tmp: nat)
    requires Inv(s) && h in s.self && Full(s, x) && tmp !in s.self
    ensures var s' := MoveAssign(s, h, x, tmp);
            Inv(s') && Values(s') == (Values(s) - {x})[h := Values(s)[x]] && s'.self.Keys == s.self.Keys
  {
    var s1 := Take(s, tmp, x);
    var s2 := Exchange(s1, h, tmp);
    assert x in Values(s) && tmp !in Values(s);
    MoveAssignSelf(s, h, x, tmp);
    hide Inv, Values, Users, Exchanged;
    TakeKeeps(s, tmp, x);
    ExchangeKeeps(s1, h, tmp);
    DestroyKeeps(s2, tmp);
    MovedMap(Values(s), h, x, tmp);
  }

  lemma ReplaceKeeps(s: Store, h: nat, x: nat, tmp: nat)
    requires Inv(s) && h in s.self && Full(s, x) && tmp !in s.self && x != h
    ensures var s' := Replace(s, h, x, tmp);
            Inv(s') && Values(s') == (Values(s) - {x})[h := Values(s)[x]] && s'.initial == s.initial
  {
    MoveAssignKeeps(s, h, x, tmp);
    MoveAssignSelf(s, h, x, tmp);
    hide Inv, Values, Users;
    DestroyKeeps(MoveAssign(s, h, x, tmp), x);
  }

  /** The operations of a program, with the addresses that its allocations happen to return: `h` and `a`
      for new handles and temporaries, `m` for a new model. */
  datatype Op =
    | Default(h: nat)
    | Construct(h: nat, m: nat, v: Element)
    | Copy(h: nat, x: nat)
    | Move(h: nat, x: nat)
    | Drop(h: nat)
    | AssignCopy(h: nat, x: nat, a: nat, b: nat)
    | AssignMove(h: nat, x: nat, a: nat)
    | AssignValue(h: nat, v: Element, a: nat, b: nat, m: nat)
    | Write(h: nat, v: Element, a: nat, b: nat, m: nat)
    | Swap(h: nat, x: nat)

  /** What the source demands of its callers (no use of a moved-from handle), and of the allocator. */
  predicate Allowed(s: Store, op: Op) {
    match op
    case Default(h) => h !in s.self && s.default in s.cells
    case Construct(h, m, _) => h !in s.self && m !in s.cells
    case Copy(h, x) => h !in s.self && Full(s, x)
    case Move(h, x) => h !in s.self && Full(s, x)
    case Drop(h) => h in s.self
    case AssignCopy(h, x, a, b) => h in s.self && Full(s, x) && a !in s.self && b !in s.self && a != b
    case AssignMove(h, x, a) => h in s.self && Full(s, x) && a !in s.self
    case AssignValue(h, _, a, b, m) => h in s.self && a !in s.self && b !in s.self && a != b && m !in s.cells
    case Write(h, _, a, b, m) => Full(s, h) && a !in s.self && b !in s.self && a != b && m !in s.cells
    case Swap(h, x) => h in s.self && x in s.self
  }

  predicate Unique(s: Store, h: nat)
    requires Full(s, h)
  {
    s.cells[s.self[h].value].count == 1
  }

  function Copied(s: Store, h: nat, x: nat, a: nat, b: nat): Store
    requires Allowed(s, AssignCopy(h, x, a, b))
  {
    Replace(Share(s, a, s.self[x].value), h, a, b)
  }

  function Written(s: Store, h: nat, v: Element, a: nat, b: nat, m: nat): Store
    requires Allowed(s, Write(h, v, a, b, m))
  {
    if Unique(s, h) then Overwrite(s, h, v)
    else
      var copied := Replace(New(s, a, m, s.cells[s.self[h].value].value), h, a, b);
      if Full(copied, h) then Overwrite(copied, h, v) else copied
  }

  function Apply(s: Store, op: Op): Store
    requires Allowed(s, op)
  {
    match op
    case Default(h) => Share(s, h, s.default)
    case Construct(h, m, v) => New(s, h, m, v)
    case Copy(h, x) => Share(s, h, s.self[x].value)
    case Move(h, x) => Take(s, h, x)
    case Drop(h) => Destroy(s, h)
    case AssignCopy(h, x, a, b) => Copied(s, h, x, a, b)
    case AssignMove(h, x, a) => MoveAssign(s, h, x, a)
    case AssignValue(h, v, a, b, m) =>
      if Full(s, h) && Unique(s, h) then Overwrite(s, h, v) else Replace(New(s, a, m, v), h, a, b)
    case Write(h, v, a, b, m) => Written(s, h, v, a, b, m)
    case Swap(h, x) => Exchange(s, h, x)
  }

  /** The same operations on variables that each hold a private value. */
  function Spec(vals: map<nat, Element>, initial: Element, op: Op): map<nat, Element> {
    match op
    case Default(h) => vals[h := initial]
    case Construct(h, _, v) => vals[h := v]
    case Copy(h, x) => if x in vals then vals[h := vals[x]] else vals
    case Move(h, x) => if x in vals then vals[h := vals[x]] - {x} else vals
    case Drop(h) => vals - {h}
    case AssignCopy(h, x, _, _) => if x in vals then vals[h := vals[x]] else vals
    case AssignMove(h, x, _) => if x in vals then (vals - {x})[h := vals[x]] else vals
    case AssignValue(h, v, _, _, _) => vals[h := v]
    case Write(h, v, _, _, _) => vals[h := v]
    case Swap(h, x) => Exchanged(vals, h, x)
  }

  // After `*this = copy_on_write(v)` the handle is the only user of a new model that holds `v`.
  lemma ReplaceByNew(s: Store, h: nat, v: Element, a: nat, b: nat, m: nat)
    requires Inv(s) && Allowed(s, AssignValue(h, v, a, b, m))
    ensures var s' := Replace(New(s, a, m, v), h, a, b);
            && Inv(s') && s'.initial == s.initial && Values(s') == Values(s)[h := v]
            && Full(s', h) && Unique(s', h)
  {
    var s1 := New(s, a, m, v);
    var s' := Replace(s1, h, a, b);
    assert forall g :: g in s.self ==> s.self[g] != Some(m);
    NewKeeps(s, a, m, v);
    ReplaceKeeps(s1, h, a, b);
    MoveAssignSelf(s1, h, a, b);
    assert a !in Values(s);
    assert Values(s1)[a] == v && Values(s1) - {a} == Values(s);
    UniqueAfter(s, s', h, a, m);
  }

  lemma UniqueAfter(s: Store, s': Store, h: nat, a: nat, m: nat)
    requires Inv(s') && h in s.self && h != a && m !in s.cells && m != s'.default
    requires forall g :: g in s.self ==> s.self[g] != Some(m)
    requires s'.self == s.self[a := Some(m)][a := None][h := Some(m)] - {a}
    ensures Full(s', h) && Unique(s', h)
  {
    assert Users(s', m) == {h};
    LastUser(s', h);
  }

  lemma AssignCopyIsPrivate(s: Store, h: nat, x: nat, a: nat, b: nat)
    requires Inv(s) && Allowed(s, AssignCopy(h, x, a, b))
    ensures var s' := Copied(s, h, x, a, b);
            Inv(s') && s'.initial == s.initial && Values(s') == Values(s)[h := Values(s)[x]]
  {
    ValuesRead(s);
    hide Inv, Users, Values, MoveAssign;
    var s1 := Share(s, a, s.self[x].value);
    var v := Values(s);
    ShareKeeps(s, a, s.self[x].value);
    ReplaceKeeps(s1, h, a, b);
    hide Replace;
    assert (v[a := v[x]] - {a})[h := v[x]] == v[h := v[x]];
  }

  lemma ValuesRead(s: Store)
    ensures forall h :: h in Values(s) <==> Full(s, h)
    ensures forall h :: Full(s, h) ==> Values(s)[h] == s.cells[s.self[h].value].value
  {}

  lemma WriteIsPrivate(s: Store, h: nat, v: Element, a: nat, b: nat, m: nat)
    requires Inv(s) && Allowed(s, Write(h, v, a, b, m))
    ensures var s' := Written(s, h, v, a, b, m);
            Inv(s') && s'.initial == s.initial && Values(s') == Values(s)[h := v]
  {
    hide Inv, Values, Users, Replace;
    if Unique(s, h) {
      OverwriteKeeps(s, h, v);
    } else {
      var was := s.cells[s.self[h].value].value;
      ReplaceByNew(s, h, was, a, b, m);
      OverwriteKeeps(Replace(New(s, a, m, was), h, a, b), h, v);
      assert Values(s)[h := was][h := v] == Values(s)[h := v];
    }
  }

  /** Every operation keeps the counts right and acts on the values as if no model were shared. */
  lemma OperationIsPrivate(s: Store, op: Op)
    requires Inv(s) && Allowed(s, op)
    ensures Inv(Apply(s, op)) && Apply(s, op).initial == s.initial
    ensures Values(Apply(s, op)) == Spec(Values(s), s.initial, op)
  {
    ValuesRead(s);
    assert s.default in s.cells && s.cells[s.default].value == s.initial;
    hide Inv, Values, Users;
    match op
    case Default(h) => ShareKeeps(s, h, s.default);
    case Construct(h, m, v) => NewKeeps(s, h, m, v);
    case Copy(h, x) => ShareKeeps(s, h, s.self[x].value);
    case Move(h, x) => TakeKeeps(s, h, x);
    case Drop(h) => DestroyKeeps(s, h);
    case AssignCopy(h, x, a, b) => AssignCopyIsPrivate(s, h, x, a, b);
    case AssignMove(h, x, a) =>
      MoveAssignKeeps(s, h, x, a);
      MoveAssignSelf(s, h, x, a);
    case AssignValue(h, v, a, b, m) =>
      if Full(s, h) && Unique(s, h) {
        OverwriteKeeps(s, h, v);
      } else {
        ReplaceByNew(s, h, v, a, b, m);
      }
    case Write(h, v, a, b, m) => WriteIsPrivate(s, h, v, a, b, m);
    case Swap(h, x) => ExchangeKeeps(s, h, x);
  }

  /** Nothing is copied that need not be.  Copying and moving give the handle the model of the other; a write,
      or the assignment of a value, keeps the model of a unique handle, and otherwise gives the handle a new
      one; and every handle that the operation does not name keeps its model. */
  lemma SharingIsExact(s: Store, op: Op)
    requires Inv(s) && Allowed(s, op)
    ensures var s' := Apply(s, op);
            && (op.Default? ==> s'.self[op.h] == Some(s.default))
            && (op.Copy? || op.Move? || op.AssignCopy? || op.AssignMove? ==> s'.self[op.h] == s.self[op.x])
            && ((op.Move? || op.AssignMove?) && op.x != op.h ==> s'.self[op.x] == None)
            && (op.Swap? ==> s'.self[op.h] == s.self[op.x] && s'.self[op.x] == s.self[op.h])
            && (op.Copy? || op.Default? || op.Move? || op.Swap? ==> s'.cells.Keys == s.cells.Keys)
            && (op.Write? || op.AssignValue? ==>
                  if Full(s, op.h) && Unique(s, op.h) then s'.self == s.self && s'.cells.Keys == s.cells.Keys
                  else s'.self[op.h] == Some(op.m) && op.m in s'.cells)
    ensures var s' := Apply(s, op);
            forall g :: g in s.self && g != op.h && !((op.Move? || op.AssignMove? || op.Swap?) && g == op.x) ==>
              g in s'.self && s'.self[g] == s.self[g]
  {
    hide Users, Values, Counted, CellOk;
    match op
    case AssignCopy(h, x, a, b) =>
      var s1 := Share(s, a, s.self[x].value);
      MoveAssignSelf(s1, h, a, b);
    case AssignMove(h, x, a) => MoveAssignSelf(s, h, x, a);
    case AssignValue(h, v, a, b, m) =>
      if !(Full(s, h) && Unique(s, h)) {
        ReplacedSelf(s, h, v, a, b, m);
      }
    case Write(h, v, a, b, m) =>
      if !Unique(s, h) {
        ReplacedSelf(s, h, s.cells[s.self[h].value].value, a, b, m);
      }
    case _ =>
  }

  lemma ReplacedSelf(s: Store, h: nat, v: Element, a: nat, b: nat, m: nat)
    requires Inv(s) && Allowed(s, AssignValue(h, v, a, b, m))
    ensures var s' := Replace(New(s, a, m, v), h, a, b);
            && Full(s', h) && s'.self[h] == Some(m)
            && forall g :: g in s.self && g != h ==> g in s'.self && s'.self[g] == s.self[g]
  {
    MoveAssignSelf(New(s, a, m, v), h, a, b);
    ReplaceByNew(s, h, v, a, b, m);
  }

  // ---- whole programs ----

  predicate IsProgram(s: Store, ops: seq<Op>)
    decreases |ops|
  {
    ops == [] || (Allowed(s, ops[0]) && IsProgram(Apply(s, ops[0]), ops[1..]))
  }

  function Execute(s: Store, ops: seq<Op>): Store
    requires IsProgram(s, ops)
    decreases |ops|
  {
    if ops == [] then s else Execute(Apply(s, ops[0]), ops[1..])
  }

  function Meaning(vals: map<nat, Element>, initial: Element, ops: seq<Op>): map<nat, Element>
    decreases |ops|
  {
    if ops == [] then vals else Meaning(Spec(vals, initial, ops[0]), initial, ops[1..])
  }

  /** The static default is there before any handle. */
  ghost predicate Init(s: Store) {
    s.self == map[] && s.cells.Keys == {s.default} && s.cells[s.default] == Cell(1, s.initial)
  }

  lemma InitInv(s: Store)
    requires Init(s)
    ensures Inv(s) && Values(s) == map[]
  {
    assert Users(s, s.default) == {};
  }

  lemma {:induction false} ProgramIsPrivate(s: Store, ops: seq<Op>)
    requires Inv(s) && IsProgram(s, ops)
    ensures Inv(Execute(s, ops))
    ensures Values(Execute(s, ops)) == Meaning(Values(s), s.initial, ops)
    decreases |ops|
  {
    if ops != [] {
      OperationIsPrivate(s, ops[0]);
      hide Inv, Values, Apply, Spec, Allowed;
      ProgramIsPrivate(Apply(s, ops[0]), ops[1..]);
    }
  }

  /** Copy on write is value semantics: after any program, every handle that has not been moved from reads
      what an independent private variable would hold; the counts are exact, so a model lives exactly as
      long as it has a user; and the shared default still has its first value. */
  lemma ValueSemantics(s: Store, ops: seq<Op>)
    requires Init(s) && IsProgram(s, ops)
    ensures Values(Execute(s, ops)) == Meaning(map[], s.initial, ops)
    ensures forall h :: Full(Execute(s, ops), h) ==>
              h in Meaning(map[], s.initial, ops) && Read(Execute(s, ops), h) == Meaning(map[], s.initial, ops)[h]
    ensures var e := Execute(s, ops);
            && e.default in e.cells && e.cells[e.default].value == e.initial
            && forall m :: m in e.cells ==>
                 e.cells[m].count == |Users(e, m)| + (if m == e.default then 1 else 0) >= 1
    ensures forall h :: h in Execute(s, ops).self && Execute(s, ops).self[h].Some? ==>
              Execute(s, ops).self[h].value in Execute(s, ops).cells
  {
    InitInv(s);
    ProgramIsPrivate(s, ops);
    var e := Execute(s, ops);
    forall m | m in e.cells ensures Counted(e, m) && (m != e.default ==> Users(e, m) != {}) {
      assert CellOk(e, m);
    }
    forall m | m in e.cells && Users(e, m) != {} ensures |Users(e, m)| >= 1 {
      var h :| h in Users(e, m);
      assert Users(e, m) == (Users(e, m) - {h}) + {h};
    }
  }

  // ---- comparison ----

  predicate Identity(s: Store, x: nat, y: nat)
    requires Full(s, x) && Full(s, y)
  {
    s.self[x] == s.self[y]
  }

  function Read(s: Store, x: nat): Element
    requires Full(s, x)
  {
    s.cells[s.self[x].value].value
  }

  predicate Equal(s: Store, x: nat, y: nat, eq: (Element, Element) -> bool)
    requires Full(s, x) && Full(s, y)
  {
    Identity(s, x, y) || eq(Read(s, x), Read(s, y))
  }

  predicate Less(s: Store, x: nat, y: nat, lt: (Element, Element) -> bool)
    requires Full(s, x) && Full(s, y)
  {
    !Identity(s, x, y) && lt(Read(s, x), Read(s, y))
  }

  lemma OneHandle(v: Element) returns (s: Store)
    ensures Inv(s) && Full(s, 0) && Read(s, 0) == v
  {
    var s0 := Store(map[], map[0 := Cell(1, v)], 0, v);
    InitInv(s0);
    NewKeeps(s0, 0, 1, v);
    s := New(s0, 0, 1, v);
  }

  /** The identity shortcut of `==` agrees with comparing elements, for all handles, exactly if the
      elements' equality is reflexive. */
  lemma EqualityShortcut(eq: (Element, Element) -> bool)
    ensures (forall s, x, y :: Inv(s) && Full(s, x) && Full(s, y) ==>
               Equal(s, x, y, eq) == eq(Read(s, x), Read(s, y)))
       <==> (forall v :: eq(v, v))
  {
    forall v | !eq(v, v)
      ensures exists s, x, y :: Inv(s) && Full(s, x) && Full(s, y) && Equal(s, x, y, eq) != eq(Read(s, x), Read(s, y))
    {
      var s := OneHandle(v);
      assert Equal(s, 0, 0, eq) != eq(Read(s, 0), Read(s, 0));
    }
  }

  /** And that of `<` exactly if the elements' order is irreflexive. */
  lemma OrderShortcut(lt: (Element, Element) -> bool)
    ensures (forall s, x, y :: Inv(s) && Full(s, x) && Full(s, y) ==>
               Less(s, x, y, lt) == lt(Read(s, x), Read(s, y)))
       <==> (forall v :: !lt(v, v))
  {
    forall v | lt(v, v)
      ensures exists s, x, y :: Inv(s) && Full(s, x) && Full(s, y) && Less(s, x, y, lt) != lt(Read(s, x), Read(s, y))
    {
      var s := OneHandle(v);
      assert Less(s, 0, 0, lt) != lt(Read(s, 0), Read(s, 0));
    }
  }

  // ---- in place ----

  /** The memory, updated in place by the operations of the source: `ValueSemantics` is about the steps of
      `Apply` that specify them. */
  class World {
    var self: map<nat, Option<nat>>
    var cells: map<nat, Cell>
    const default: nat
    const initial: Element

    ghost function View(): Store
      reads this
    {
      Store(self, cells, default, initial)
    }

    constructor (default: nat, initial: Element)
      ensures Init(View()) && this.default == default && this.initial == initial
    {
      self, cells := map[], map[default := Cell(1, initial)];
      this.default, this.initial := default, initial;
    }

    method DefaultConstruct(h: nat)
      requires Allowed(View(), Default(h))
      modifies this
      ensures View() == Apply(old(View()), Default(h))
    {
      self := self[h := Some(default)];
      cells := cells[default := cells[default].(count := cells[default].count + 1)];
    }

    method ValueConstruct(h: nat, m: nat, v: Element)
      requires Allowed(View(), Construct(h, m, v))
      modifies this
      ensures View() == Apply(old(View()), Construct(h, m, v))
    {
      cells := cells[m := Cell(1, v)];
      self := self[h := Some(m)];
    }

    method CopyConstruct(h: nat, x: nat)
      requires Allowed(View(), Copy(h, x))
      modifies this
      ensures View() == Apply(old(View()), Copy(h, x))
    {
      var m := self[x].value;
      self := self[h := Some(m)];
      cells := cells[m := cells[m].(count := cells[m].count + 1)];
    }

    method MoveConstruct(h: nat, x: nat)
      requires Allowed(View(), Move(h, x))
      modifies this
      ensures View() == Apply(old(View()), Move(h, x))
    {
      self := self[h := self[x]];
      self := self[x := None];
    }

    method Destruct(h: nat)
      requires Allowed(View(), Drop(h)) && Inv(View())
      modifies this
      ensures View() == Apply(old(View()), Drop(h))
    {
      if self[h].Some? {
        var m := self[h].value;
        LastUser(View(), h);
        cells := cells[m := cells[m].(count := cells[m].count - 1)];
        if cells[m].count == 0 {
          cells := cells - {m};
        }
      }
      self := self - {h};
    }

    method SwapSelves(x: nat, y: nat)
      requires Allowed(View(), Swap(x, y))
      modifies this
      ensures View() == Apply(old(View()), Swap(x, y))
    {
      var t := self[x];
      self := self[x := self[y]];
      self := self[y := t];
    }

    method MoveAssignment(h: nat, x: nat, tmp: nat)
      requires Allowed(View(), AssignMove(h, x, tmp)) && Inv(View())
      modifies this
      ensures View() == Apply(old(View()), AssignMove(h, x, tmp)) && Inv(View())
    {
      OperationIsPrivate(View(), AssignMove(h, x, tmp));
      TakeKeeps(View(), tmp, x);
      ExchangeKeeps(Take(View(), tmp, x), h, tmp);
      hide Inv;
      MoveConstruct(tmp, x);
      SwapSelves(h, tmp);
      Destruct(tmp);
    }

    method CopyAssignment(h: nat, x: nat, a: nat, b: nat)
      requires Allowed(View(), AssignCopy(h, x, a, b)) && Inv(View())
      modifies this
      ensures View() == Apply(old(View()), AssignCopy(h, x, a, b)) && Inv(View())
    {
      OperationIsPrivate(View(), AssignCopy(h, x, a, b));
      ShareKeeps(View(), a, self[x].value);
      hide Inv;
      CopyConstruct(a, x);
      ReplaceFrom(h, a, b);
    }

    // `*this = ` a temporary, which then dies.
    method ReplaceFrom(h: nat, a: nat, b: nat)
      requires Inv(View()) && h in self && Full(View(), a) && b !in self && h != a
      modifies this
      ensures View() == Replace(old(View()), h, a, b)
    {
      MoveAssignSelf(View(), h, a, b);
      MoveAssignment(h, a, b);
      Destruct(a);
    }

    method ValueAssignment(h: nat, v: Element, a: nat, b: nat, m: nat)
      requires Allowed(View(), Op.AssignValue(h, v, a, b, m)) && Inv(View())
      modifies this
      ensures View() == Apply(old(View()), Op.AssignValue(h, v, a, b, m)) && Inv(View())
    {
      OperationIsPrivate(View(), Op.AssignValue(h, v, a, b, m));
      NewKeeps(View(), a, m, v);
      assert Full(View(), h) <==> self[h].Some?;
      hide Inv;
      if self[h].Some? && cells[self[h].value].count == 1 {
        cells := cells[self[h].value := cells[self[h].value].(value := v)];
      } else {
        ValueConstruct(a, m, v);
        ReplaceFrom(h, a, b);
      }
    }

    /** `write()`, and the caller's store of `v` through the reference it returns. */
    method WriteThrough(h: nat, v: Element, a: nat, b: nat, m: nat)
      requires Allowed(View(), Op.Write(h, v, a, b, m)) && Inv(View())
      modifies this
      ensures View() == Apply(old(View()), Op.Write(h, v, a, b, m)) && Inv(View())
    {
      OperationIsPrivate(View(), Op.Write(h, v, a, b, m));
      var was := cells[self[h].value].value;
      NewKeeps(View(), a, m, was);
      if cells[self[h].value].count != 1 {
        ReplaceByNew(View(), h, was, a, b, m);
        hide Inv;
        ValueConstruct(a, m, was);
        ReplaceFrom(h, a, b);
      }
      cells := cells[self[h].value := cells[self[h].value].(value := v)];
    }
  }
}
