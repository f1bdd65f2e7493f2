/**
 The patch engine in the form the code has: edits assign into objects and slices, and a slice that changes
 length is rebuilt and re-attached to its parent. Each method leaves exactly the document JsonPatch describes.
 */
module PatchInPlace {
  import opened Options
  import opened Json
  import opened Text
  import opened JsonPatch
  import opened DocumentHeap

  // ---------------------------------------------------------------- walking and re-attaching

  method GetPointerParts(doc: Value, parts: seq<string>, ghost s: Shape) returns (r: Option<Value>)
    requires Holds(doc, s)
    ensures r == if Sub(s, parts).Some? then Some(Head(Sub(s, parts).value)) else None
  {
    var cur := doc;
    ghost var c := s;
    for i := 0 to |parts|
      invariant Holds(cur, c)
      invariant Sub(s, parts) == Sub(c, parts[i..])
    {
      assert parts[i..][1..] == parts[i + 1..];
      match cur {
        case ObjRef(node) =>
          if parts[i] !in node.members { return None; }
          cur := node.members[parts[i]];
        case SliceRef(slots) =>
          var idx := Atoi(parts[i]);
          if idx.None? || idx.value < 0 || idx.value >= slots.Length { return None; }
          cur := slots[idx.value];
        case Leaf(_) => return None;
      }
      KidInside(c, parts[i]);
      c := Kid(c, parts[i]).value;
    }
    return Some(cur);
  }

  method NewSlice(items: seq<Value>) returns (a: array<Value>)
    ensures fresh(a) && a[..] == items
  {
    a := new Value[|items|](i requires 0 <= i < |items| => items[i]);
  }

  /** The assignment `node[key] = value` to a slot that exists. */
  method StoreKid(parent: Value, key: string, value: Value, ghost p: Shape, ghost n: Shape)
    requires Holds(parent, p) && Kid(p, key).Some?
    requires Live(n) && Head(n) == value && Own(p) !! Cells(n)
    modifies Own(p)
    ensures Live(WithKid(p, key, n))
  {
    match parent {
      case ObjRef(node) =>
        node.members := node.members[key := value];
        forall k | k in p.kids ensures Live(WithKid(p, key, n).kids[k]) { KidCells(p, k); }
      case SliceRef(slots) =>
        var idx := Atoi(key).value;
        slots[idx] := value;
        forall i | 0 <= i < |p.elems| ensures Live(WithKid(p, key, n).elems[i]) { ElemCells(p, i); }
    }
  }

  /** What a store into the container at `init` has to know before, and what it then makes of the document. */
  lemma {:induction false} BeforeStore(s: Shape, init: seq<string>, last: string, n: Shape)
    requires Linear(s) && Live(s) && Linear(n) && Sub(s, init + [last]).Some? && Apart(n, s, init + [last])
    ensures Sub(s, init).Some? && Kid(Sub(s, init).value, last).Some? && LiveOff(s, init)
    ensures Holds(Head(Sub(s, init).value), Sub(s, init).value)
    ensures Own(Sub(s, init).value) <= Cells(s) && Own(Sub(s, init).value) !! Cells(n)
    ensures forall x :: x in Own(Sub(s, init).value) ==> !Off(s, init, x)
    ensures Graft(s, init + [last], n) == Graft(s, init, WithKid(Sub(s, init).value, last, n))
    ensures Head(WithKid(Sub(s, init).value, last, n)) == Head(Sub(s, init).value)
  {
    GraftViaParent(s, init, last, n);
    SubDenotes(s, init);
    LiveIsLiveOff(s, init);
    OwnIsOn(s, init, last, n);
  }

  method StoreAt(doc: Value, init: seq<string>, last: string, value: Value, ghost s: Shape, ghost n: Shape)
    requires Holds(doc, s) && Sub(s, init + [last]).Some? && Holds(value, n)
    requires Apart(n, s, init + [last])
    modifies Cells(s)
    ensures Live(Graft(s, init + [last], n)) && Head(Graft(s, init + [last], n)) == doc
  {
    CellsExist(s);
    CellsExist(n);
    var parent := GetPointerParts(doc, init, s);
    BeforeStore(s, init, last, n);
    ghost var p := Sub(s, init).value;
    StoreKid(parent.value, last, value, p, n);
    GraftIsLive(s, init, WithKid(p, last, n));
  }

  /** Re-attaches a rebuilt slice at the place of the old one. */
  method ReplaceSlice(doc: Value, parts: seq<string>, value: array<Value>, ghost s: Shape, ghost n: Shape)
    returns (r: Value)
    requires Holds(doc, s) && Sub(s, parts).Some? && Holds(SliceRef(value), n)
    requires Apart(n, s, parts)
    modifies Cells(s)
    ensures Holds(r, Graft(s, parts, n))
    ensures forall x :: x in Cells(Graft(s, parts, n)) ==> x in Cells(s) || x in Cells(n)
  {
    GraftCells(s, parts, n);
    if |parts| == 0 {
      r := SliceRef(value);
    } else {
      assert parts == parts[..|parts| - 1] + [parts[|parts| - 1]];
      StoreAt(doc, parts[..|parts| - 1], parts[|parts| - 1], SliceRef(value), s, n);
      r := doc;
    }
  }

  /** The container a path ends in is on the path, and outside anything grafted into it. */
  lemma {:induction false} OwnIsOn(s: Shape, init: seq<string>, last: string, n: Shape)
    requires Linear(s) && Sub(s, init).Some? && Kid(Sub(s, init).value, last).Some?
    requires Sub(s, init + [last]).Some? && Apart(n, s, init + [last])
    ensures Own(Sub(s, init).value) <= Cells(s) && Own(Sub(s, init).value) !! Cells(n)
    ensures forall x :: x in Own(Sub(s, init).value) ==> !Off(s, init, x)
  {
    GraftViaParent(s, init, last, n);
    var p := Sub(s, init).value;
    SubDenotes(s, init);
    SubDenotes(s, init + [last]);
    KidInside(p, last);
    forall x | x in Own(p) ensures !Off(s, init, x) && x in Cells(s) && x !in Cells(n) {
      assert x in Cells(p) && x !in Cells(Kid(p, last).value);
      assert Off(s, init + [last], x);
    }
  }

  // ---------------------------------------------------------------- shapes of changed containers

  lemma {:induction false} ObjPutShape(p: Shape, key: string, n: Shape)
    requires p.ObjShape? && Linear(p) && Linear(n) && Cells(p) !! Cells(n)
    ensures Linear(ObjShape(p.node, p.kids[key := n]))
    ensures forall x :: x in Cells(ObjShape(p.node, p.kids[key := n])) ==> x in Cells(p) || x in Cells(n)
    ensures EditHere(Denote(p), key, Add(Denote(n))) == Some(Denote(ObjShape(p.node, p.kids[key := n])))
    ensures EditHere(Denote(p), key, Replace(Denote(n))) ==
            if key in p.kids then EditHere(Denote(p), key, Add(Denote(n))) else None
  {
    var q := ObjShape(p.node, p.kids[key := n]);
    forall k | k in p.kids ensures Cells(p.kids[k]) <= Cells(p) { KidCells(p, k); }
    forall k | k in q.kids && k != key ensures k in p.kids && q.kids[k] == p.kids[k] {}
    assert p.node in Own(p);
    assert Denote(q).members == Denote(p).members[key := Denote(n)];
  }

  lemma {:induction false} ObjDropShape(p: Shape, key: string)
    requires p.ObjShape? && Linear(p) && key in p.kids
    ensures Linear(ObjShape(p.node, p.kids - {key})) && Cells(ObjShape(p.node, p.kids - {key})) <= Cells(p)
    ensures EditHere(Denote(p), key, Remove) == Some(Denote(ObjShape(p.node, p.kids - {key})))
  {
    var q := ObjShape(p.node, p.kids - {key});
    forall k | k in q.kids ensures k in p.kids && q.kids[k] == p.kids[k] { }
    forall k | k in p.kids ensures Cells(p.kids[k]) <= Cells(p) { KidCells(p, k); }
    assert Denote(q).members == Denote(p).members - {key};
  }

  lemma {:induction false} ElementShape(p: Shape, key: string, n: Shape)
    requires p.SliceShape? && Linear(p) && Linear(n) && Cells(p) !! Cells(n) && Kid(p, key).Some?
    ensures Linear(WithKid(p, key, n))
    ensures forall x :: x in Cells(WithKid(p, key, n)) ==> x in Cells(p) || x in Cells(n)
    ensures EditHere(Denote(p), key, Replace(Denote(n))) == Some(Denote(WithKid(p, key, n)))
  {
    WithKidCells(p, key, n);
    WithKidDenotes(p, key, n);
    var items, i := Denote(p).items, Atoi(key).value;
    assert items[..i] + [Denote(n)] + items[i + 1..] == items[i := Denote(n)];
  }

  ghost function Meanings(elems: seq<Shape>): seq<Json> {
    seq(|elems|, i requires 0 <= i < |elems| => Denote(elems[i]))
  }

  /** A slice rebuilt from a stretch of an old one, at most one new element, and the rest. */
  ghost function Rebuilt(p: Shape, i: nat, j: nat, mid: seq<Shape>, a: array<Value>): Shape
    requires p.SliceShape? && i <= j <= |p.elems|
  {
    SliceShape(a, p.elems[..i] + mid + p.elems[j..])
  }

  /** Every element is a new one or an old one, and no old one appears twice. */
  lemma {:induction false} RebuiltElement(p: Shape, i: nat, j: nat, mid: seq<Shape>, a: array<Value>, k: nat)
    requires p.SliceShape? && i <= j <= |p.elems| && k < |Rebuilt(p, i, j, mid, a).elems|
    ensures Rebuilt(p, i, j, mid, a).elems[k] ==
            if k < i then p.elems[k] else if k < i + |mid| then mid[k - i] else p.elems[k - i - |mid| + j]
  {
  }

  lemma {:induction false} RebuiltCells(p: Shape, i: nat, j: nat, mid: seq<Shape>, a: array<Value>, extra: set<object>)
    requires p.SliceShape? && i <= j <= |p.elems|
    requires forall m :: m in mid ==> Cells(m) <= extra
    ensures forall x :: x in Cells(Rebuilt(p, i, j, mid, a)) ==> x == a || x in Cells(p) || x in extra
  {
    var q := Rebuilt(p, i, j, mid, a);
    forall x | x in Cells(q) && x != a ensures x in Cells(p) || x in extra {
      var k :| 0 <= k < |q.elems| && x in Cells(q.elems[k]);
      RebuiltElement(p, i, j, mid, a, k);
      if k < i { ElemCells(p, k); }
      else if k >= i + |mid| { ElemCells(p, k - i - |mid| + j); }
      else { assert mid[k - i] in mid; }
    }
  }

  lemma {:induction false} RebuiltPair(p: Shape, i: nat, j: nat, mid: seq<Shape>, a: array<Value>, k: nat, l: nat)
    requires p.SliceShape? && Linear(p) && i <= j <= |p.elems| && |mid| <= 1
    requires |mid| == 1 ==> Cells(mid[0]) !! Cells(p)
    requires k < l < |Rebuilt(p, i, j, mid, a).elems|
    ensures Cells(Rebuilt(p, i, j, mid, a).elems[k]) !! Cells(Rebuilt(p, i, j, mid, a).elems[l])
  {
    hide Cells;
    RebuiltElement(p, i, j, mid, a, k);
    RebuiltElement(p, i, j, mid, a, l);
    if k < i { ElemCells(p, k); }
    if k >= i + |mid| { ElemCells(p, k - i - |mid| + j); }
    if l < i { ElemCells(p, l); }
    if l >= i + |mid| { ElemCells(p, l - i - |mid| + j); }
  }

  lemma {:induction false} RebuiltLinear(p: Shape, i: nat, j: nat, mid: seq<Shape>, a: array<Value>)
    requires p.SliceShape? && Linear(p) && i <= j <= |p.elems| && |mid| <= 1 && a !in Cells(p)
    requires |mid| == 1 ==> Linear(mid[0]) && a !in Cells(mid[0]) && Cells(mid[0]) !! Cells(p)
    ensures Linear(Rebuilt(p, i, j, mid, a))
  {
    var q := Rebuilt(p, i, j, mid, a);
    forall k | 0 <= k < |q.elems| ensures a !in Cells(q.elems[k]) && Linear(q.elems[k]) {
      RebuiltElement(p, i, j, mid, a, k);
      if k < i { ElemCells(p, k); }
      else if k >= i + |mid| { ElemCells(p, k - i - |mid| + j); }
    }
    forall k, l | 0 <= k < l < |q.elems| ensures Cells(q.elems[k]) !! Cells(q.elems[l]) {
      RebuiltPair(p, i, j, mid, a, k, l);
    }
  }

  lemma {:induction false} RebuiltDenotes(p: Shape, i: nat, j: nat, mid: seq<Shape>, a: array<Value>)
    requires p.SliceShape? && i <= j <= |p.elems|
    ensures Denote(Rebuilt(p, i, j, mid, a)) == Arr(Denote(p).items[..i] + Meanings(mid) + Denote(p).items[j..])
  {
    var q := Rebuilt(p, i, j, mid, a);
    var items := Denote(p).items[..i] + Meanings(mid) + Denote(p).items[j..];
    forall k | 0 <= k < |q.elems| ensures Denote(q).items[k] == items[k] { RebuiltElement(p, i, j, mid, a, k); }
    assert Denote(q).items == items;
  }

  lemma {:induction false} RebuiltLive(p: Shape, i: nat, j: nat, mid: seq<Shape>, a: array<Value>)
    requires p.SliceShape? && Live(p) && i <= j <= |p.elems| && |mid| <= 1
    requires |mid| == 1 ==> Live(mid[0])
    requires a[..] == p.slots[..i] + (if |mid| == 1 then [Head(mid[0])] else []) + p.slots[j..]
    ensures Live(Rebuilt(p, i, j, mid, a))
  {
    var q := Rebuilt(p, i, j, mid, a);
    forall k | 0 <= k < |q.elems| ensures a[k] == Head(q.elems[k]) && Live(q.elems[k]) {
      RebuiltElement(p, i, j, mid, a, k);
      assert a[k] == a[..][k];
    }
  }

  // ---------------------------------------------------------------- a change at a path

  lemma {:induction false} BeforeChange(s: Shape, init: seq<string>)
    requires Linear(s) && Live(s) && Sub(s, init).Some?
    ensures LiveOff(s, init) && Holds(Head(Sub(s, init).value), Sub(s, init).value)
    ensures Cells(Sub(s, init).value) <= Cells(s) && Own(Sub(s, init).value) <= Cells(s)
    ensures forall x :: x in Own(Sub(s, init).value) ==> !Off(s, init, x)
    ensures Get(Denote(s), init) == Some(Denote(Sub(s, init).value))
  {
    SubDenotes(s, init);
    LiveIsLiveOff(s, init);
    assert Own(Sub(s, init).value) <= Cells(Sub(s, init).value);
  }

  /** A container changed in place, and nothing off the path did. */
  lemma {:induction false} AfterChange(s: Shape, init: seq<string>, key: string, edit: Edit, q: Shape,
                                       extra: set<object>)
    requires Linear(s) && Sub(s, init).Some? && LiveOff(s, init)
    requires Linear(q) && Live(q) && Head(q) == Head(Sub(s, init).value)
    requires forall x :: x in Cells(q) ==> x in Cells(Sub(s, init).value) || x in extra
    requires extra !! Cells(s)
    requires EditHere(Denote(Sub(s, init).value), key, edit) == Some(Denote(q))
    ensures Holds(Head(s), Graft(s, init, q))
    ensures forall x :: x in Cells(Graft(s, init, q)) ==> x in Cells(s) || x in extra
    ensures EditAt(Denote(s), init + [key], edit) == Some(Denote(Graft(s, init, q)))
  {
    SubDenotes(s, init);
    GraftCells(s, init, q);
    GraftIsLive(s, init, q);
    EditIsGraft(s, init, key, edit, q);
  }

  method AssignMember(node: Object, key: string, value: Value, ghost p: Shape, ghost n: Shape,
                      ghost s: Shape, ghost init: seq<string>)
    requires Holds(ObjRef(node), p) && Holds(value, n) && Cells(p) !! Cells(n)
    requires Linear(s) && Sub(s, init).Some? && LiveOff(s, init) && !Off(s, init, node)
    modifies node
    ensures LiveOff(s, init)
    ensures Live(ObjShape(node, p.kids[key := n]))
  {
    node.members := node.members[key := value];
    forall k | k in p.kids ensures Live(p.kids[k]) { KidCells(p, k); }
    assert node in Own(p);
  }

  method DeleteMember(node: Object, key: string, ghost p: Shape, ghost s: Shape, ghost init: seq<string>)
    requires Holds(ObjRef(node), p) && key in p.kids
    requires Linear(s) && Sub(s, init).Some? && LiveOff(s, init) && !Off(s, init, node)
    modifies node
    ensures LiveOff(s, init)
    ensures Live(ObjShape(node, p.kids - {key}))
  {
    node.members := node.members - {key};
    forall k | k in p.kids ensures Live(p.kids[k]) { KidCells(p, k); }
  }

  method Rebuild(slots: array<Value>, i: nat, j: nat, mid: seq<Value>, ghost p: Shape, ghost m: seq<Shape>)
    returns (a: array<Value>)
    requires Holds(SliceRef(slots), p) && i <= j <= slots.Length && |mid| == |m| <= 1
    requires |m| == 1 ==> Holds(mid[0], m[0]) && Cells(m[0]) !! Cells(p)
    ensures fresh(a) && Holds(SliceRef(a), Rebuilt(p, i, j, m, a))
  {
    CellsExist(p);
    if |m| == 1 { CellsExist(m[0]); }
    a := NewSlice(slots[..i] + mid + slots[j..]);
    RebuiltLinear(p, i, j, m, a);
    assert mid == if |m| == 1 then [Head(m[0])] else [];
    RebuiltLive(p, i, j, m, a);
  }

  method AssignElement(slots: array<Value>, key: string, value: Value, ghost p: Shape, ghost n: Shape,
                       ghost s: Shape, ghost init: seq<string>)
    requires Holds(SliceRef(slots), p) && Holds(value, n) && Cells(p) !! Cells(n) && Kid(p, key).Some?
    requires Linear(s) && Sub(s, init).Some? && LiveOff(s, init) && !Off(s, init, slots)
    modifies slots
    ensures LiveOff(s, init)
    ensures Live(WithKid(p, key, n))
  {
    assert slots in Own(p);
    slots[Atoi(key).value] := value;
    forall i | 0 <= i < |p.elems| ensures Live(p.elems[i]) { ElemCells(p, i); }
  }

  /** A new slice in place of the one at the path, with the elements from `i` to `j` replaced. */
  method Splice(doc: Value, init: seq<string>, slots: array<Value>, i: nat, j: nat, mid: seq<Value>,
                ghost s: Shape, ghost m: seq<Shape>, ghost extra: set<object>)
    returns (r: Value, ghost q: Shape)
    requires Holds(doc, s) && Sub(s, init).Some? && Head(Sub(s, init).value) == SliceRef(slots)
    requires i <= j <= slots.Length && |mid| == |m| <= 1
    requires |m| == 1 ==> Holds(mid[0], m[0]) && Cells(m[0]) <= extra
    requires extra !! Cells(s)
    modifies Cells(s)
    ensures Holds(r, Graft(s, init, q))
    ensures forall x :: x in Cells(Graft(s, init, q)) ==> x in Cells(s) || fresh(x) || x in extra
    ensures slots.Length == |Denote(Sub(s, init).value).items|
    ensures Denote(q)
            == Arr(Denote(Sub(s, init).value).items[..i] + Meanings(m) + Denote(Sub(s, init).value).items[j..])
  {
    CellsExist(s);
    BeforeChange(s, init);
    ghost var p := Sub(s, init).value;
    var a := Rebuild(slots, i, j, mid, p, m);
    q := Rebuilt(p, i, j, m, a);
    RebuiltCells(p, i, j, m, a, extra);
    RebuiltDenotes(p, i, j, m, a);
    r := ReplaceSlice(doc, init, a, s, q);
  }

  // ---------------------------------------------------------------- the operations

  ghost function EditFor(isAdd: bool, v: Shape): Edit { if isAdd then Add(Denote(v)) else Replace(Denote(v)) }

  /** The outcome of an edit: refused exactly when the tree edit is, and otherwise the edited tree. */
  ghost predicate Does(r: Option<Value>, t: Shape, want: Option<Json>)
    reads Cells(t)
  {
    match r
    case None => want.None?
    case Some(v) => Holds(v, t) && want == Some(Denote(t))
  }

  method StoreMember(doc: Value, init: seq<string>, node: Object, last: string, value: Value, ghost edit: Edit,
                     ghost s: Shape, ghost v: Shape)
    returns (ghost t: Shape)
    requires Holds(doc, s) && Sub(s, init).Some? && Head(Sub(s, init).value) == ObjRef(node)
    requires Holds(value, v) && Cells(s) !! Cells(v)
    requires edit == Add(Denote(v)) || (edit == Replace(Denote(v)) && last in Sub(s, init).value.kids)
    modifies Cells(s)
    ensures Holds(doc, t) && EditAt(Denote(s), init + [last], edit) == Some(Denote(t))
    ensures forall x :: x in Cells(t) ==> x in Cells(s) || x in Cells(v)
  {
    hide Linear, Denote, Cells, Graft, Sub, Live, LiveOff, EditHere, EditAt, Off;
    BeforeChange(s, init);
    ghost var p := Sub(s, init).value;
    assert node in Own(p) && !Off(s, init, node);
    ObjPutShape(p, last, v);
    AssignMember(node, last, value, p, v, s, init);
    AfterChange(s, init, last, edit, ObjShape(node, p.kids[last := v]), Cells(v));
    t := Graft(s, init, ObjShape(node, p.kids[last := v]));
  }

  method DropMember(doc: Value, init: seq<string>, node: Object, last: string, ghost s: Shape)
    returns (ghost t: Shape)
    requires Holds(doc, s) && Sub(s, init).Some? && Head(Sub(s, init).value) == ObjRef(node)
    requires last in Sub(s, init).value.kids
    modifies Cells(s)
    ensures Holds(doc, t) && EditAt(Denote(s), init + [last], Remove) == Some(Denote(t))
    ensures Cells(t) <= Cells(s)
  {
    hide Linear, Denote, Cells, Graft, Sub, Live, LiveOff, EditHere, EditAt, Off;
    BeforeChange(s, init);
    ghost var p := Sub(s, init).value;
    assert node in Own(p) && !Off(s, init, node);
    ObjDropShape(p, last);
    DeleteMember(node, last, p, s, init);
    AfterChange(s, init, last, Remove, ObjShape(node, p.kids - {last}), {});
    t := Graft(s, init, ObjShape(node, p.kids - {last}));
  }

  method StoreElement(doc: Value, init: seq<string>, slots: array<Value>, last: string, value: Value,
                      ghost s: Shape, ghost v: Shape)
    returns (ghost t: Shape)
    requires Holds(doc, s) && Sub(s, init).Some? && Head(Sub(s, init).value) == SliceRef(slots)
    requires Holds(value, v) && Cells(s) !! Cells(v) && Kid(Sub(s, init).value, last).Some?
    modifies Cells(s)
    ensures Holds(doc, t) && EditAt(Denote(s), init + [last], Replace(Denote(v))) == Some(Denote(t))
    ensures forall x :: x in Cells(t) ==> x in Cells(s) || x in Cells(v)
  {
    hide Linear, Denote, Cells, Graft, Sub, Live, LiveOff, EditHere, EditAt, Off;
    BeforeChange(s, init);
    ghost var p := Sub(s, init).value;
    assert slots in Own(p) && !Off(s, init, slots);
    ElementShape(p, last, v);
    AssignElement(slots, last, value, p, v, s, init);
    AfterChange(s, init, last, Replace(Denote(v)), WithKid(p, last, v), Cells(v));
    t := Graft(s, init, WithKid(p, last, v));
  }

  method SetMember(doc: Value, init: seq<string>, node: Object, last: string, value: Value, isAdd: bool,
                   ghost s: Shape, ghost v: Shape)
    returns (r: Option<Value>, ghost t: Shape)
    requires Holds(doc, s) && Sub(s, init).Some? && Head(Sub(s, init).value) == ObjRef(node)
    requires Holds(value, v) && Cells(s) !! Cells(v)
    modifies Cells(s)
    ensures Does(r, t, EditAt(Denote(s), init + [last], EditFor(isAdd, v)))
    ensures r.Some? ==> forall x :: x in Cells(t) ==> x in Cells(s) || x in Cells(v)
  {
    ghost var p := Sub(s, init).value;
    BeforeChange(s, init);
    ObjPutShape(p, last, v);
    if !isAdd && last !in node.members {
      EditFails(s, init, last, EditFor(isAdd, v));
      return None, s;
    }
    t := StoreMember(doc, init, node, last, value, EditFor(isAdd, v), s, v);
    r := Some(doc);
  }

  method SetElement(doc: Value, init: seq<string>, slots: array<Value>, last: string, value: Value, isAdd: bool,
                    ghost s: Shape, ghost v: Shape)
    returns (r: Option<Value>, ghost t: Shape)
    requires Holds(doc, s) && Sub(s, init).Some? && Head(Sub(s, init).value) == SliceRef(slots)
    requires Holds(value, v) && Cells(s) !! Cells(v)
    modifies Cells(s)
    ensures Does(r, t, EditAt(Denote(s), init + [last], EditFor(isAdd, v)))
    ensures r.Some? ==> forall x :: x in Cells(t) ==> x in Cells(s) || x in Cells(v) || fresh(x)
  {
    BeforeChange(s, init);
    if last == "-" {
      if !isAdd {
        EditFails(s, init, last, EditFor(isAdd, v));
        return None, s;
      }
      r, t := InsertElement(doc, init, slots, last, slots.Length, value, s, v);
      return;
    }
    var idx := Atoi(last);
    if idx.None? || idx.value < 0 || idx.value > slots.Length || (!isAdd && idx.value >= slots.Length) {
      EditFails(s, init, last, EditFor(isAdd, v));
      return None, s;
    }
    if isAdd {
      r, t := InsertElement(doc, init, slots, last, idx.value, value, s, v);
    } else {
      t := StoreElement(doc, init, slots, last, value, s, v);
      r := Some(doc);
    }
  }

  /** A slice grown by one, re-attached. */
  method InsertElement(doc: Value, init: seq<string>, slots: array<Value>, last: string, at: nat, value: Value,
                       ghost s: Shape, ghost v: Shape)
    returns (r: Option<Value>, ghost t: Shape)
    requires Holds(doc, s) && Sub(s, init).Some? && Head(Sub(s, init).value) == SliceRef(slots)
    requires Holds(value, v) && Cells(s) !! Cells(v) && at <= slots.Length
    requires (last == "-" && at == slots.Length) || (last != "-" && Atoi(last) == Some(at))
    modifies Cells(s)
    ensures r.Some? && Does(r, t, EditAt(Denote(s), init + [last], Add(Denote(v))))
    ensures forall x :: x in Cells(t) ==> x in Cells(s) || x in Cells(v) || fresh(x)
  {
    hide Linear, Live;
    var whole;
    ghost var q;
    whole, q := Splice(doc, init, slots, at, at, [value], s, [v], Cells(v));
    ghost var items := Denote(Sub(s, init).value).items;
    assert Meanings([v]) == [Denote(v)];
    assert items[..|items|] + [Denote(v)] + items[|items|..] == items + [Denote(v)];
    EditIsGraft(s, init, last, Add(Denote(v)), q);
    r, t := Some(whole), Graft(s, init, q);
  }

  ghost function EditPointer(doc: Json, pointer: string, edit: Edit): Option<Json> {
    match SplitPointer(pointer)
    case None => None
    case Some(parts) => EditAt(doc, parts, edit)
  }

  method SetPointer(doc: Value, pointer: string, value: Value, isAdd: bool, ghost s: Shape, ghost v: Shape)
    returns (r: Option<Value>, ghost t: Shape)
    requires Holds(doc, s) && Holds(value, v) && Cells(s) !! Cells(v)
    modifies Cells(s)
    ensures Does(r, t, EditPointer(Denote(s), pointer, EditFor(isAdd, v)))
    ensures r.Some? ==> forall x :: x in Cells(t) ==> x in Cells(s) || x in Cells(v) || fresh(x)
  {
    var parts := SplitPointer(pointer);
    if parts.None? || parts.value == [] { return None, s; }
    var init, last := parts.value[..|parts.value| - 1], parts.value[|parts.value| - 1];
    assert parts.value == init + [last];
    CellsExist(s);
    CellsExist(v);
    var parent := GetPointerParts(doc, init, s);
    match parent {
      case Some(ObjRef(node)) => r, t := SetMember(doc, init, node, last, value, isAdd, s, v);
      case Some(SliceRef(slots)) => r, t := SetElement(doc, init, slots, last, value, isAdd, s, v);
      case _ =>
        SubDenotes(s, init);
        EditFails(s, init, last, EditFor(isAdd, v));
        r, t := None, s;
    }
  }

  method RemovePointer(doc: Value, pointer: string, ghost s: Shape) returns (r: Option<Value>, ghost t: Shape)
    requires Holds(doc, s)
    modifies Cells(s)
    ensures Does(r, t, EditPointer(Denote(s), pointer, Remove))
    ensures r.Some? ==> forall x :: x in Cells(t) ==> x in Cells(s) || fresh(x)
  {
    var parts := SplitPointer(pointer);
    if parts.None? || parts.value == [] { return None, s; }
    var init, last := parts.value[..|parts.value| - 1], parts.value[|parts.value| - 1];
    assert parts.value == init + [last];
    CellsExist(s);
    var parent := GetPointerParts(doc, init, s);
    match parent {
      case Some(ObjRef(node)) => r, t := RemoveMember(doc, init, node, last, s);
      case Some(SliceRef(slots)) => r, t := RemoveElement(doc, init, slots, last, s);
      case _ =>
        SubDenotes(s, init);
        EditFails(s, init, last, Remove);
        r, t := None, s;
    }
  }

  method RemoveMember(doc: Value, init: seq<string>, node: Object, last: string, ghost s: Shape)
    returns (r: Option<Value>, ghost t: Shape)
    requires Holds(doc, s) && Sub(s, init).Some? && Head(Sub(s, init).value) == ObjRef(node)
    modifies Cells(s)
    ensures Does(r, t, EditAt(Denote(s), init + [last], Remove))
    ensures r.Some? ==> Cells(t) <= Cells(s)
  {
    BeforeChange(s, init);
    if last !in node.members {
      EditFails(s, init, last, Remove);
      return None, s;
    }
    t := DropMember(doc, init, node, last, s);
    r := Some(doc);
  }

  method RemoveElement(doc: Value, init: seq<string>, slots: array<Value>, last: string, ghost s: Shape)
    returns (r: Option<Value>, ghost t: Shape)
    requires Holds(doc, s) && Sub(s, init).Some? && Head(Sub(s, init).value) == SliceRef(slots)
    modifies Cells(s)
    ensures Does(r, t, EditAt(Denote(s), init + [last], Remove))
    ensures r.Some? ==> forall x :: x in Cells(t) ==> x in Cells(s) || fresh(x)
  {
    BeforeChange(s, init);
    ghost var items := Denote(Sub(s, init).value).items;
    var idx := Atoi(last);
    if idx.None? || idx.value < 0 || idx.value >= slots.Length {
      EditFails(s, init, last, Remove);
      return None, s;
    }
    var whole;
    ghost var q;
    whole, q := Splice(doc, init, slots, idx.value, idx.value + 1, [], s, [], {});
    assert Meanings([]) == [];
    EditIsGraft(s, init, last, Remove, q);
    return Some(whole), Graft(s, init, q);
  }

  // ---------------------------------------------------------------- decoding and encoding

  ghost predicate HoldsAll(fields: map<string, Value>, kids: map<string, Shape>)
    reads set k, x | k in kids && x in Cells(kids[k]) :: x
  {
    && fields.Keys == kids.Keys
    && (forall k :: k in kids ==> Holds(fields[k], kids[k]))
    && (forall k, l :: k in kids && l in kids && k != l ==> Cells(kids[k]) !! Cells(kids[l]))
  }

  method NewObject(fields: map<string, Value>, ghost kids: map<string, Shape>) returns (node: Object)
    requires HoldsAll(fields, kids)
    ensures fresh(node) && Holds(ObjRef(node), ObjShape(node, kids))
  {
    forall k | k in kids ensures forall x :: x in Cells(kids[k]) ==> allocated(x) { CellsExist(kids[k]); }
    node := new Object(fields);
  }

  method NewArray(slots: seq<Value>, ghost elems: seq<Shape>) returns (a: array<Value>)
    requires |slots| == |elems|
    requires forall i :: 0 <= i < |elems| ==> Holds(slots[i], elems[i])
    requires forall i, l :: 0 <= i < l < |elems| ==> Cells(elems[i]) !! Cells(elems[l])
    ensures fresh(a) && Holds(SliceRef(a), SliceShape(a, elems))
  {
    forall i | 0 <= i < |elems| ensures forall x :: x in Cells(elems[i]) ==> allocated(x) { CellsExist(elems[i]); }
    a := NewSlice(slots);
    forall i | 0 <= i < |elems| ensures a[i] == Head(elems[i]) && Live(elems[i]) && Linear(elems[i]) {
      assert a[i] == a[..][i];
    }
  }

  /** Decoding: a fresh document for a tree. */
  method Load(j: Json) returns (v: Value, ghost s: Shape)
    ensures Holds(v, s) && Denote(s) == j && fresh(Cells(s))
    decreases j, 1
  {
    match j {
      case Obj(members) =>
        var fields, kids := LoadMembers(j, members);
        var node := NewObject(fields, kids);
        v, s := ObjRef(node), ObjShape(node, kids);
        assert Denote(s).members == members;
      case Arr(items) =>
        var slots, elems := LoadItems(j, items);
        var a := NewArray(slots, elems);
        v, s := SliceRef(a), SliceShape(a, elems);
        assert Denote(s).items == items;
      case _ => v, s := Leaf(j), LeafShape(j);
    }
  }

  method LoadMembers(j: Json, members: map<string, Json>)
    returns (fields: map<string, Value>, ghost kids: map<string, Shape>)
    requires j == Obj(members)
    ensures HoldsAll(fields, kids) && kids.Keys == members.Keys
    ensures forall k :: k in members ==> Denote(kids[k]) == members[k] && fresh(Cells(kids[k]))
    decreases j, 0
  {
    fields, kids := map[], map[];
    var todo := members.Keys;
    while todo != {}
      invariant HoldsAll(fields, kids) && kids.Keys == members.Keys - todo
      invariant forall k :: k in kids ==> Denote(kids[k]) == members[k] && fresh(Cells(kids[k]))
      invariant forall k :: k in kids ==> forall x :: x in Cells(kids[k]) ==> allocated(x)
    {
      var key :| key in todo;
      var v;
      ghost var s;
      v, s := Load(members[key]);
      CellsExist(s);
      fields, kids, todo := fields[key := v], kids[key := s], todo - {key};
    }
  }

  method LoadItems(j: Json, items: seq<Json>) returns (slots: seq<Value>, ghost elems: seq<Shape>)
    requires j == Arr(items)
    ensures |slots| == |elems| == |items|
    ensures forall i ::
              0 <= i < |items| ==> Holds(slots[i], elems[i]) && Denote(elems[i]) == items[i] && fresh(Cells(elems[i]))
    ensures forall i, l :: 0 <= i < l < |items| ==> Cells(elems[i]) !! Cells(elems[l])
    decreases j, 0
  {
    slots, elems := [], [];
    for n := 0 to |items|
      invariant |slots| == |elems| == n
      invariant forall i ::
                  0 <= i < n ==> Holds(slots[i], elems[i]) && Denote(elems[i]) == items[i] && fresh(Cells(elems[i]))
      invariant forall i :: 0 <= i < n ==> forall x :: x in Cells(elems[i]) ==> allocated(x)
      invariant forall i, l :: 0 <= i < l < n ==> Cells(elems[i]) !! Cells(elems[l])
    {
      var v;
      ghost var s;
      v, s := Load(items[n]);
      CellsExist(s);
      slots, elems := slots + [v], elems + [s];
    }
  }

  /** Encoding: the tree a document holds. */
  method Save(v: Value, ghost s: Shape) returns (j: Json)
    requires Holds(v, s)
    ensures j == Denote(s)
    decreases s, 1
  {
    hide Denote;
    match v {
      case Leaf(json) =>
        LeafDenotes(json, s);
        j := json;
      case ObjRef(node) =>
        var members := SaveMembers(node, s);
        j := Obj(members);
      case SliceRef(slots) =>
        var items := SaveElements(slots, s);
        j := Arr(items);
    }
  }

  lemma {:induction false} LeafDenotes(json: Json, s: Shape)
    requires Holds(Leaf(json), s)
    ensures Denote(s) == json
  {
  }

  method SaveMembers(node: Object, ghost s: Shape) returns (members: map<string, Json>)
    requires Holds(ObjRef(node), s)
    ensures Obj(members) == Denote(s)
    decreases s, 0
  {
    members := map[];
    var todo := node.members.Keys;
    while todo != {}
      invariant members.Keys == node.members.Keys - todo
      invariant Holds(ObjRef(node), s)
      invariant forall k :: k in members ==> members[k] == Denote(s.kids[k])
    {
      var key :| key in todo;
      CellsExist(s);
      KidCells(s, key);
      var m := Save(node.members[key], s.kids[key]);
      members, todo := members[key := m], todo - {key};
    }
    assert members == Denote(s).members;
  }

  method SaveElements(slots: array<Value>, ghost s: Shape) returns (items: seq<Json>)
    requires Holds(SliceRef(slots), s)
    ensures Arr(items) == Denote(s)
    decreases s, 0
  {
    items := [];
    for i := 0 to slots.Length
      invariant |items| == i && Holds(SliceRef(slots), s)
      invariant forall k :: 0 <= k < i ==> items[k] == Denote(s.elems[k])
    {
      CellsExist(s);
      ElemCells(s, i);
      var m := Save(slots[i], s.elems[i]);
      items := items + [m];
    }
    assert items == Denote(s).items;
  }

  // ---------------------------------------------------------------- the patch

  method ApplyOpInPlace(doc: Value, op: PatchOp, ghost s: Shape) returns (r: Option<Value>, ghost t: Shape)
    requires Holds(doc, s)
    modifies Cells(s)
    ensures Does(r, t, ApplyOp(Denote(s), op))
    ensures r.Some? ==> forall x :: x in Cells(t) ==> x in Cells(s) || fresh(x)
  {
    t := s;
    if op.op == "add" || op.op == "replace" {
      if op.value.None? { return None, s; }
      CellsExist(s);
      var value;
      ghost var v;
      value, v := Load(op.value.value);
      r, t := SetPointer(doc, op.path, value, op.op == "add", s, v);
    } else if op.op == "remove" {
      r, t := RemovePointer(doc, op.path, s);
    } else if op.op == "test" {
      if op.value.None? { return None, s; }
      var parts := SplitPointer(op.path);
      if parts.None? { return None, s; }
      CellsExist(s);
      SubDenotes(s, parts.value);
      var got := GetPointerParts(doc, parts.value, s);
      if got.None? { return None, s; }
      BeforeChange(s, parts.value);
      var have := Save(got.value, Sub(s, parts.value).value);
      r := if have == op.value.value then Some(doc) else None;
    } else {
      r := None;
    }
  }

  method CheckScope(pointer: string, scopes: seq<string>) returns (ok: bool)
    ensures ok <==> InScope(pointer, scopes)
  {
    var dotted := PointerToDotted(pointer);
    for i := 0 to |scopes|
      invariant forall k :: 0 <= k < i ==> !Authorizes(scopes[k], dotted)
    {
      var scope := TrimSpace(scopes[i]);
      if scope == "" { continue; }
      if scope == "*" { return true; }
      if dotted == scope || scope + "." <= dotted { return true; }
    }
    return false;
  }

  method ApplyPatchInPlace(payload: Json, patch: Patch, scopes: seq<string>) returns (r: Result<Json, PatchError>)
    ensures r == ApplyPatch(payload, patch, scopes)
  {
    if patch.Absent? { return Ok(payload); }
    if patch.Unreadable? { return Err(NotAPatch); }
    var ops := patch.ops;
    if |ops| == 0 { return Ok(payload); }
    if |ops| > MAX_PATCH_OPERATIONS { return Err(TooManyOps(|ops|)); }

    var violation := CheckScopes(ops, scopes);
    if violation.Some? { return Err(ScopeViolation(violation.value)); }
    r := ApplyOpsInPlace(payload, ops);
  }

  method CheckScopes(ops: seq<PatchOp>, scopes: seq<string>) returns (violation: Option<string>)
    ensures violation == FirstViolation(ops, scopes)
  {
    for i := 0 to |ops|
      invariant FirstViolation(ops, scopes) == FirstViolation(ops[i..], scopes)
    {
      var ok := CheckScope(ops[i].path, scopes);
      if !ok { return Some(ops[i].path); }
      if ops[i].from != "" {
        ok := CheckScope(ops[i].from, scopes);
        if !ok { return Some(ops[i].from); }
      }
      assert ops[i..][1..] == ops[i + 1..];
    }
    return None;
  }

  method ApplyOpsInPlace(payload: Json, ops: seq<PatchOp>) returns (r: Result<Json, PatchError>)
    ensures r == match ApplyOps(payload, ops)
                 case Some(d) => Ok(d)
                 case None => Err(OpFailed(FirstFailure(payload, ops)))
  {
    hide Linear, Live, Denote, ApplyOp;
    var doc;
    ghost var s;
    doc, s := Load(payload);
    for i := 0 to |ops|
      invariant Holds(doc, s) && fresh(Cells(s))
      invariant ApplyOps(payload, ops[..i]) == Some(Denote(s))
      invariant ApplyOps(payload, ops) == ApplyOps(Denote(s), ops[i..])
    {
      assert ops[i..][1..] == ops[i + 1..];
      OpsSnoc(payload, ops[..i], ops[i]);
      assert ops[..i] + [ops[i]] == ops[..i + 1];
      var next;
      ghost var t;
      next, t := ApplyOpInPlace(doc, ops[i], s);
      if next.None? {
        FailureIsFirst(payload, ops, i);
        return Err(OpFailed(i));
      }
      doc, s := next.value, t;
    }
    assert ops[..|ops|] == ops;
    var out := Save(doc, s);
    return Ok(out);
  }

  lemma {:induction false} OpsSnoc(doc: Json, ops: seq<PatchOp>, op: PatchOp)
    ensures ApplyOps(doc, ops + [op]) ==
            match ApplyOps(doc, ops) { case None => None case Some(d) => ApplyOp(d, op) }
    decreases |ops|
  {
    if ops == [] {
      assert ops + [op] == [op] && [op][1..] == [];
    } else {
      assert (ops + [op])[1..] == ops[1..] + [op];
      match ApplyOp(doc, ops[0]) {
        case None =>
        case Some(next) => OpsSnoc(next, ops[1..], op);
      }
    }
  }

  lemma {:induction false} FailureIsFirst(doc: Json, ops: seq<PatchOp>, i: nat)
    requires i < |ops| && ApplyOps(doc, ops).None?
    requires ApplyOps(doc, ops[..i]).Some? && ApplyOp(ApplyOps(doc, ops[..i]).value, ops[i]).None?
    ensures FirstFailure(doc, ops) == i
    decreases i
  {
    if i > 0 {
      assert ops[..i][0] == ops[0] && ops[..i][1..] == ops[1..][..i - 1];
      FailureIsFirst(ApplyOp(doc, ops[0]).value, ops[1..], i - 1);
    }
  }
}
