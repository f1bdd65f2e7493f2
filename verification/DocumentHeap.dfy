/**
 JSON documents as the code holds them: objects and slices on the heap, updated in place. A Shape says which
 cells make up a document; the lemmas say what a change to one cell does to the whole.
 */
module DocumentHeap {
  import opened Options
  import opened Json
  import opened Text
  import opened JsonPatch

  /** Go's `any` after decoding: a scalar, a `map[string]any` or a `[]any`. */
  datatype Value = Leaf(json: Json) | ObjRef(node: Object) | SliceRef(slots: array<Value>)

  class Object {
    var members: map<string, Value>

    constructor (members: map<string, Value>)
      ensures this.members == members
    {
      this.members := members;
    }
  }

  // ---------------------------------------------------------------- what the heap holds

  /** Which heap cells make up a document, and how. */
  datatype Shape =
    | LeafShape(json: Json)
    | ObjShape(node: Object, kids: map<string, Shape>)
    | SliceShape(slots: array<Value>, elems: seq<Shape>)

  ghost function Head(s: Shape): Value {
    match s
    case LeafShape(j) => Leaf(j)
    case ObjShape(o, _) => ObjRef(o)
    case SliceShape(a, _) => SliceRef(a)
  }

  ghost function Denote(s: Shape): Json {
    match s
    case LeafShape(j) => j
    case ObjShape(_, kids) => Obj(map k | k in kids :: Denote(kids[k]))
    case SliceShape(_, elems) => Arr(seq(|elems|, i requires 0 <= i < |elems| => Denote(elems[i])))
  }

  ghost function Own(s: Shape): set<object> {
    match s
    case LeafShape(_) => {}
    case ObjShape(o, _) => {o}
    case SliceShape(a, _) => {a}
  }

  ghost function Cells(s: Shape): set<object> {
    match s
    case LeafShape(_) => {}
    case ObjShape(_, kids) => Own(s) + set k, x | k in kids && x in Cells(kids[k]) :: x
    case SliceShape(_, elems) => Own(s) + set e, x | e in elems && x in Cells(e) :: x
  }

  lemma {:induction false} KidCells(s: Shape, key: string)
    requires s.ObjShape? && key in s.kids
    ensures Cells(s.kids[key]) <= Cells(s)
  {
  }

  lemma {:induction false} ElemCells(s: Shape, i: nat)
    requires s.SliceShape? && i < |s.elems|
    ensures Cells(s.elems[i]) <= Cells(s)
  {
  }

  /** No cell is reachable in two ways. */
  ghost predicate Linear(s: Shape) {
    match s
    case LeafShape(j) => Scalar(j)
    case ObjShape(o, kids) =>
      && (forall k :: k in kids ==> o !in Cells(kids[k]) && Linear(kids[k]))
      && (forall k, l :: k in kids && l in kids && k != l ==> Cells(kids[k]) !! Cells(kids[l]))
    case SliceShape(a, elems) =>
      && (forall i :: 0 <= i < |elems| ==> a !in Cells(elems[i]) && Linear(elems[i]))
      && (forall i, j :: 0 <= i < j < |elems| ==> Cells(elems[i]) !! Cells(elems[j]))
  }

  /** The heap has this shape now. */
  ghost predicate Live(s: Shape)
    reads Cells(s)
  {
    match s
    case LeafShape(_) => true
    case ObjShape(o, kids) =>
      && o.members.Keys == kids.Keys
      && forall k :: k in kids ==> o.members[k] == Head(kids[k]) && (KidCells(s, k); Live(kids[k]))
    case SliceShape(a, elems) =>
      && a.Length == |elems|
      && forall i :: 0 <= i < |elems| ==> a[i] == Head(elems[i]) && (ElemCells(s, i); Live(elems[i]))
  }

  ghost predicate Holds(v: Value, s: Shape)
    reads Cells(s)
  {
    Head(s) == v && Linear(s) && Live(s)
  }

  ghost function Kid(s: Shape, key: string): Option<Shape> {
    match s
    case LeafShape(_) => None
    case ObjShape(_, kids) => if key in kids then Some(kids[key]) else None
    case SliceShape(_, elems) =>
      (match Atoi(key)
       case Some(i) => if 0 <= i < |elems| then Some(elems[i]) else None
       case None => None)
  }

  ghost function WithKid(s: Shape, key: string, kid: Shape): Shape
    requires Kid(s, key).Some?
  {
    if s.ObjShape? then ObjShape(s.node, s.kids[key := kid])
    else SliceShape(s.slots, s.elems[Atoi(key).value := kid])
  }

  ghost function Sub(s: Shape, parts: seq<string>): Option<Shape>
    decreases |parts|
  {
    if parts == [] then Some(s)
    else match Kid(s, parts[0])
      case None => None
      case Some(kid) => Sub(kid, parts[1..])
  }

  /** The shape with another one in place of what is at the path. */
  ghost function Graft(s: Shape, parts: seq<string>, n: Shape): Shape
    requires Sub(s, parts).Some?
    decreases |parts|
  {
    if parts == [] then n else WithKid(s, parts[0], Graft(Kid(s, parts[0]).value, parts[1..], n))
  }

  // ---------------------------------------------------------------- shapes and trees

  lemma {:induction false} KidInside(s: Shape, key: string)
    requires Kid(s, key).Some?
    ensures Cells(Kid(s, key).value) <= Cells(s)
    ensures Linear(s) ==> Linear(Kid(s, key).value)
  {
    if s.ObjShape? { KidCells(s, key); } else { ElemCells(s, Atoi(key).value); }
  }

  lemma {:induction false} KidDenotes(s: Shape, key: string)
    requires Linear(s)
    ensures Child(Denote(s), key) == if Kid(s, key).Some? then Some(Denote(Kid(s, key).value)) else None
    ensures Kid(s, key).Some? ==> Linear(Kid(s, key).value) && Cells(Kid(s, key).value) <= Cells(s)
  {
    if Kid(s, key).Some? { KidInside(s, key); }
  }

  lemma {:induction false} ObjDenotes(s: Shape, k: string)
    requires s.ObjShape?
    ensures Denote(s).Obj? && (k in Denote(s).members <==> k in s.kids)
    ensures k in s.kids ==> Denote(s).members[k] == Denote(s.kids[k])
  {
  }

  lemma {:induction false} WithKidDenotes(s: Shape, key: string, kid: Shape)
    requires Linear(s) && Kid(s, key).Some?
    ensures Child(Denote(s), key).Some?
    ensures Denote(WithKid(s, key, kid)) == WithChild(Denote(s), key, Denote(kid))
  {
    KidDenotes(s, key);
    if s.ObjShape? {
      var x, y := Denote(WithKid(s, key, kid)).members, Denote(s).members[key := Denote(kid)];
      forall k ensures (k in x <==> k in y) && (k in x ==> x[k] == y[k]) {
        ObjDenotes(s, k);
        ObjDenotes(WithKid(s, key, kid), k);
      }
      assert x == y;
    } else {
      assert Denote(WithKid(s, key, kid)).items == Denote(s).items[Atoi(key).value := Denote(kid)];
    }
  }

  lemma {:induction false} SubDenotes(s: Shape, parts: seq<string>)
    requires Linear(s)
    ensures Get(Denote(s), parts) == if Sub(s, parts).Some? then Some(Denote(Sub(s, parts).value)) else None
    ensures Sub(s, parts).Some? ==> Linear(Sub(s, parts).value) && Cells(Sub(s, parts).value) <= Cells(s)
    decreases |parts|
  {
    if parts != [] {
      KidDenotes(s, parts[0]);
      if Kid(s, parts[0]).Some? { SubDenotes(Kid(s, parts[0]).value, parts[1..]); }
    }
  }

  /** An edit at a path is an edit of the container it ends in, grafted back. */
  lemma {:induction false} EditIsGraft(s: Shape, parts: seq<string>, key: string, edit: Edit, n: Shape)
    requires Linear(s) && Sub(s, parts).Some?
    requires EditHere(Denote(Sub(s, parts).value), key, edit) == Some(Denote(n))
    ensures EditAt(Denote(s), parts + [key], edit) == Some(Denote(Graft(s, parts, n)))
    decreases |parts|
  {
    if parts == [] {
      assert parts + [key] == [key];
    } else {
      var kid := Kid(s, parts[0]).value;
      KidDenotes(s, parts[0]);
      EditIsGraft(kid, parts[1..], key, edit, n);
      assert (parts + [key])[1..] == parts[1..] + [key];
      WithKidDenotes(s, parts[0], Graft(kid, parts[1..], n));
    }
  }

  lemma {:induction false} EditFails(s: Shape, parts: seq<string>, key: string, edit: Edit)
    requires Linear(s)
    requires Sub(s, parts).Some? ==> EditHere(Denote(Sub(s, parts).value), key, edit).None?
    ensures EditAt(Denote(s), parts + [key], edit).None?
    decreases |parts|
  {
    if parts == [] {
      assert parts + [key] == [key];
    } else {
      KidDenotes(s, parts[0]);
      assert (parts + [key])[1..] == parts[1..] + [key];
      if Kid(s, parts[0]).Some? { EditFails(Kid(s, parts[0]).value, parts[1..], key, edit); }
    }
  }

  /** Grafting last into the parent is grafting the parent with the new kid. */
  lemma {:induction false} GraftViaParent(s: Shape, parts: seq<string>, key: string, n: Shape)
    requires Sub(s, parts + [key]).Some?
    ensures Sub(s, parts).Some? && Kid(Sub(s, parts).value, key) == Sub(s, parts + [key])
    ensures Graft(s, parts + [key], n) == Graft(s, parts, WithKid(Sub(s, parts).value, key, n))
    decreases |parts|
  {
    if parts == [] {
      assert parts + [key] == [key];
    } else {
      assert (parts + [key])[1..] == parts[1..] + [key];
      GraftViaParent(Kid(s, parts[0]).value, parts[1..], key, n);
    }
  }

  /** In the node, but not in the kid at `key`. */
  ghost predicate Beside(s: Shape, key: string, x: object)
    requires Kid(s, key).Some?
  {
    x in Cells(s) && x !in Cells(Kid(s, key).value)
  }

  lemma {:induction false} ObjWithKidCells(s: Shape, key: string, kid: Shape)
    requires s.ObjShape? && Linear(s) && Kid(s, key).Some? && Linear(kid)
    requires forall x :: x in Cells(kid) ==> !Beside(s, key, x)
    ensures Linear(WithKid(s, key, kid))
    ensures forall x :: x in Cells(WithKid(s, key, kid)) ==> Beside(s, key, x) || x in Cells(kid)
  {
    var r := WithKid(s, key, kid);
    KidCells(s, key);
    forall k | k in s.kids && k != key
      ensures r.kids[k] == s.kids[k]
      ensures forall x :: x in Cells(s.kids[k]) ==> Beside(s, key, x)
    {
      KidCells(s, k);
    }
    assert Beside(s, key, s.node);
    forall x | x in Cells(r)
      ensures Beside(s, key, x) || x in Cells(kid)
    {
      if x != s.node {
        var k :| k in r.kids && x in Cells(r.kids[k]);
        if k != key { assert r.kids[k] == s.kids[k]; }
      }
    }
  }

  lemma {:induction false} SliceWithKidCells(s: Shape, key: string, kid: Shape)
    requires s.SliceShape? && Linear(s) && Kid(s, key).Some? && Linear(kid)
    requires forall x :: x in Cells(kid) ==> !Beside(s, key, x)
    ensures Linear(WithKid(s, key, kid))
    ensures forall x :: x in Cells(WithKid(s, key, kid)) ==> Beside(s, key, x) || x in Cells(kid)
  {
    var r, at := WithKid(s, key, kid), Atoi(key).value;
    ElemCells(s, at);
    forall i | 0 <= i < |s.elems| && i != at
      ensures r.elems[i] == s.elems[i]
      ensures forall x :: x in Cells(s.elems[i]) ==> Beside(s, key, x)
    {
      ElemCells(s, i);
    }
    assert Beside(s, key, s.slots);
    forall x | x in Cells(r)
      ensures Beside(s, key, x) || x in Cells(kid)
    {
      if x != s.slots {
        var i :| 0 <= i < |r.elems| && x in Cells(r.elems[i]);
        if i != at { assert r.elems[i] == s.elems[i]; }
      }
    }
  }

  /** In the shape, but not in what is at the path. */
  ghost predicate Off(s: Shape, parts: seq<string>, x: object)
    requires Sub(s, parts).Some?
  {
    x in Cells(s) && x !in Cells(Sub(s, parts).value)
  }

  lemma {:induction false} WithKidCells(s: Shape, key: string, kid: Shape)
    requires Linear(s) && Kid(s, key).Some? && Linear(kid)
    requires forall x :: x in Cells(kid) ==> !Beside(s, key, x)
    ensures Linear(WithKid(s, key, kid))
    ensures forall x :: x in Cells(WithKid(s, key, kid)) ==> Beside(s, key, x) || x in Cells(kid)
  {
    if s.ObjShape? { ObjWithKidCells(s, key, kid); } else { SliceWithKidCells(s, key, kid); }
  }

  lemma {:induction false} OffByStep(s: Shape, parts: seq<string>, x: object)
    requires Linear(s) && parts != [] && Sub(s, parts).Some?
    ensures Off(s, parts, x) <==> Beside(s, parts[0], x) || Off(Kid(s, parts[0]).value, parts[1..], x)
    ensures !(Beside(s, parts[0], x) && Off(Kid(s, parts[0]).value, parts[1..], x))
  {
    KidInside(s, parts[0]);
    SubDenotes(Kid(s, parts[0]).value, parts[1..]);
  }

  /** `w` has the cells of `s` off the path, and those of `n`. */
  ghost predicate Spliced(w: Shape, s: Shape, parts: seq<string>, n: Shape)
    requires Sub(s, parts).Some?
  {
    && Linear(w)
    && (forall x :: x in Cells(w) ==> Off(s, parts, x) || x in Cells(n))
  }

  ghost predicate Apart(n: Shape, s: Shape, parts: seq<string>)
    requires Sub(s, parts).Some?
  {
    forall x :: x in Cells(n) ==> !Off(s, parts, x)
  }

  lemma {:induction false} SplicedIsNotBeside(s: Shape, parts: seq<string>, n: Shape, inner: Shape)
    requires Linear(s) && parts != [] && Sub(s, parts).Some? && Apart(n, s, parts)
    requires Spliced(inner, Kid(s, parts[0]).value, parts[1..], n)
    ensures forall x :: x in Cells(inner) ==> !Beside(s, parts[0], x)
  {
    forall x | x in Cells(inner) ensures !Beside(s, parts[0], x) {
      OffByStep(s, parts, x);
      assert x in Cells(n) ==> !Off(s, parts, x);
    }
  }

  lemma {:induction false} SplicedStep(s: Shape, parts: seq<string>, n: Shape, inner: Shape, w: Shape)
    requires Linear(s) && parts != [] && Sub(s, parts).Some? && Linear(w)
    requires Spliced(inner, Kid(s, parts[0]).value, parts[1..], n)
    requires forall x :: x in Cells(w) ==> Beside(s, parts[0], x) || x in Cells(inner)
    ensures Spliced(w, s, parts, n)
  {
    forall x | x in Cells(w) ensures Off(s, parts, x) || x in Cells(n) { OffByStep(s, parts, x); }
  }

  lemma {:induction false} GraftCells(s: Shape, parts: seq<string>, n: Shape)
    requires Linear(s) && Sub(s, parts).Some? && Linear(n) && Apart(n, s, parts)
    ensures Spliced(Graft(s, parts, n), s, parts, n)
    decreases |parts|
  {
    if parts != [] {
      var kid := Kid(s, parts[0]).value;
      KidInside(s, parts[0]);
      forall x | x in Cells(n) ensures !Off(kid, parts[1..], x) { OffByStep(s, parts, x); }
      GraftCells(kid, parts[1..], n);
      var inner := Graft(kid, parts[1..], n);
      SplicedIsNotBeside(s, parts, n, inner);
      WithKidCells(s, parts[0], inner);
      SplicedStep(s, parts, n, inner, Graft(s, parts, n));
    }
  }

  // ---------------------------------------------------------------- writes seen from the root

  /** Every cell off the path is as the shape says, and so is the way down to it. */
  ghost predicate LiveOff(s: Shape, parts: seq<string>)
    requires Linear(s) && Sub(s, parts).Some?
    reads set x | x in Cells(s) && Off(s, parts, x) :: x
    decreases |parts|
  {
    if parts == [] then true
    else
      var key, kid := parts[0], Kid(s, parts[0]).value;
      KidInside(s, key);
      SubDenotes(kid, parts[1..]);
      assert forall x :: x in Cells(kid) && Off(kid, parts[1..], x) ==> Off(s, parts, x);
      LiveBeside(s, key, parts) && LiveOff(kid, parts[1..])
  }

  /** A kid that the path does not go through is off the path. */
  lemma {:induction false} KidIsOff(s: Shape, k: string, parts: seq<string>)
    requires s.ObjShape? && Linear(s) && k in s.kids && parts != [] && k != parts[0] && Sub(s, parts).Some?
    ensures Cells(s.kids[k]) <= Cells(s) && forall x :: x in Cells(s.kids[k]) ==> Off(s, parts, x)
  {
    KidCells(s, k);
    KidInside(s, parts[0]);
    SubDenotes(Kid(s, parts[0]).value, parts[1..]);
  }

  lemma {:induction false} ElemIsOff(s: Shape, i: nat, parts: seq<string>)
    requires s.SliceShape? && Linear(s) && i < |s.elems| && parts != [] && Sub(s, parts).Some?
    requires i != Atoi(parts[0]).value
    ensures Cells(s.elems[i]) <= Cells(s) && forall x :: x in Cells(s.elems[i]) ==> Off(s, parts, x)
  {
    ElemCells(s, i);
    KidInside(s, parts[0]);
    SubDenotes(Kid(s, parts[0]).value, parts[1..]);
    ElemsApart(s, i, Atoi(parts[0]).value);
    hide Cells, Linear;
  }

  lemma {:induction false} ElemsApart(s: Shape, i: nat, j: nat)
    requires s.SliceShape? && Linear(s) && i < |s.elems| && j < |s.elems| && i != j
    ensures Cells(s.elems[i]) !! Cells(s.elems[j])
  {
    hide Cells;
  }

  /** The node itself and its other kids. */
  ghost predicate LiveBeside(s: Shape, key: string, parts: seq<string>)
    requires Linear(s) && parts != [] && key == parts[0] && Sub(s, parts).Some?
    reads set x | x in Cells(s) && Off(s, parts, x) :: x
  {
    KidInside(s, key);
    SubDenotes(Kid(s, key).value, parts[1..]);
    match s
    case ObjShape(o, kids) =>
      assert Off(s, parts, o);
      && o.members.Keys == kids.Keys
      && (forall k :: k in kids ==> o.members[k] == Head(kids[k]))
      && (forall k :: k in kids && k != key ==>
            (KidIsOff(s, k, parts); Live(kids[k])))
    case SliceShape(a, elems) =>
      assert Off(s, parts, a);
      && a.Length == |elems|
      && (forall i :: 0 <= i < |elems| ==> a[i] == Head(elems[i]))
      && (forall i :: 0 <= i < |elems| && i != Atoi(key).value ==>
            (ElemIsOff(s, i, parts); Live(elems[i])))
  }

  lemma {:induction false} LiveIsLiveOff(s: Shape, parts: seq<string>)
    requires Linear(s) && Live(s) && Sub(s, parts).Some?
    ensures LiveOff(s, parts) && Live(Sub(s, parts).value)
    decreases |parts|
  {
    if parts != [] {
      KidInside(s, parts[0]);
      LiveIsLiveOff(Kid(s, parts[0]).value, parts[1..]);
    }
  }

  lemma {:induction false} WithKidIsLive(s: Shape, parts: seq<string>, kid: Shape)
    requires Linear(s) && parts != [] && Sub(s, parts).Some? && LiveBeside(s, parts[0], parts)
    requires Live(kid) && Head(kid) == Head(Kid(s, parts[0]).value)
    ensures Live(WithKid(s, parts[0], kid))
  {
    var r := WithKid(s, parts[0], kid);
    if s.ObjShape? {
      assert r.kids.Keys == s.kids.Keys;
      assert forall k :: k in r.kids ==> r.kids[k] == if k == parts[0] then kid else s.kids[k];
    } else {
      var at := Atoi(parts[0]).value;
      assert forall i :: 0 <= i < |r.elems| ==> r.elems[i] == if i == at then kid else s.elems[i];
    }
  }

  /** Off the path nothing changed, on it a node with the same head: together that is the grafted shape. */
  lemma {:induction false} GraftIsLive(s: Shape, parts: seq<string>, n: Shape)
    requires Linear(s) && Sub(s, parts).Some? && LiveOff(s, parts)
    requires Live(n) && Head(n) == Head(Sub(s, parts).value)
    ensures Live(Graft(s, parts, n)) && Head(Graft(s, parts, n)) == Head(s)
    decreases |parts|
  {
    if parts != [] {
      KidInside(s, parts[0]);
      GraftIsLive(Kid(s, parts[0]).value, parts[1..], n);
      WithKidIsLive(s, parts, Graft(Kid(s, parts[0]).value, parts[1..], n));
    }
  }

  /** The cells of a shape exist when the shape does. */
  lemma {:induction false} CellsExist(s: Shape)
    ensures forall x :: x in Cells(s) ==> allocated(x)
  {
    if s.ObjShape? {
      forall k | k in s.kids ensures forall x :: x in Cells(s.kids[k]) ==> allocated(x) { CellsExist(s.kids[k]); }
    } else if s.SliceShape? {
      forall e | e in s.elems ensures forall x :: x in Cells(e) ==> allocated(x) { CellsExist(e); }
    }
  }
}
