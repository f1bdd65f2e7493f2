/** Laws the edits obey on every document: what undoes what, and which edits may be reordered. */
module PatchAlgebra {
  import opened Options
  import opened Json
  import opened Text
  import opened JsonPatch

  // ---------------------------------------------------------------- undoing an addition

  /** An addition at this path makes room for a new value: a numbered array slot or a member that is not there yet. */
  predicate Inserts(doc: Json, parts: seq<string>)
    decreases |parts|
  {
    if parts == [] then false
    else if |parts| == 1 then
      (doc.Obj? && parts[0] !in doc.members) || (doc.Arr? && Numeric(parts[0]))
    else match Child(doc, parts[0])
      case None => false
      case Some(child) => Inserts(child, parts[1..])
  }

  /** Replacing a child shows: the node stays the same only if the child does. */
  lemma {:induction false} WithChildShows(node: Json, key: string, child: Json)
    requires Child(node, key).Some?
    ensures Child(WithChild(node, key, child), key) == Some(child)
    ensures WithChild(node, key, child) == node <==> Child(node, key) == Some(child)
  {
    if node.Obj? {
      if node.members[key] == child { assert node.members[key := child] == node.members; }
    } else {
      var i := Atoi(key).value;
      if node.items[i] == child { assert node.items[i := child] == node.items; }
    }
  }

  lemma {:induction false} WithChildTwice(node: Json, key: string, one: Json, two: Json)
    requires Child(node, key).Some?
    ensures Child(WithChild(node, key, one), key).Some?
    ensures WithChild(WithChild(node, key, one), key, two) == WithChild(node, key, two)
  {
    if node.Obj? {
      assert node.members[key := one][key := two] == node.members[key := two];
    } else {
      var i := Atoi(key).value;
      assert node.items[i := one][i := two] == node.items[i := two];
    }
  }

  lemma {:induction false} RemoveUndoesAddHere(node: Json, key: string, value: Json)
    requires EditHere(node, key, Add(value)).Some?
    ensures EditHere(EditHere(node, key, Add(value)).value, key, Remove) == Some(node) <==> Inserts(node, [key])
  {
    var added := EditHere(node, key, Add(value)).value;
    if node.Obj? {
      if key !in node.members {
        assert node.members[key := value] - {key} == node.members;
      } else {
        assert key !in (node.members[key := value] - {key});
      }
    } else if Numeric(key) {
      var i := Atoi(key).value;
      assert added.items[..i] + [] + added.items[i + 1..] == node.items;
    }
  }

  /** Removing right after adding restores the document exactly when the addition inserted. */
  lemma {:induction false} RemoveUndoesAdd(doc: Json, parts: seq<string>, value: Json)
    requires EditAt(doc, parts, Add(value)).Some?
    ensures EditAt(EditAt(doc, parts, Add(value)).value, parts, Remove) == Some(doc) <==> Inserts(doc, parts)
    decreases |parts|
  {
    if |parts| == 1 {
      assert parts == [parts[0]];
      RemoveUndoesAddHere(doc, parts[0], value);
    } else {
      var child := Child(doc, parts[0]).value;
      var added := EditAt(child, parts[1..], Add(value)).value;
      RemoveUndoesAdd(child, parts[1..], value);
      WithChildShows(doc, parts[0], added);
      var back := EditAt(added, parts[1..], Remove);
      if back.Some? {
        WithChildTwice(doc, parts[0], added, back.value);
        WithChildShows(doc, parts[0], back.value);
      }
    }
  }

  // ---------------------------------------------------------------- undoing a replacement

  lemma {:induction false} ReplaceHere(node: Json, key: string, value: Json)
    ensures EditHere(node, key, Replace(value)) ==
            if Child(node, key).Some? then Some(WithChild(node, key, value)) else None
  {
    if node.Arr? && Child(node, key).Some? {
      var i := Atoi(key).value;
      assert node.items[..i] + [value] + node.items[i + 1..] == node.items[i := value];
    }
  }

  /** A replacement is undone by putting the old value back. */
  lemma {:induction false} ReplaceUndoesReplace(doc: Json, parts: seq<string>, value: Json)
    requires EditAt(doc, parts, Replace(value)).Some?
    ensures Get(doc, parts).Some? && Get(EditAt(doc, parts, Replace(value)).value, parts) == Some(value)
    ensures EditAt(EditAt(doc, parts, Replace(value)).value, parts, Replace(Get(doc, parts).value)) == Some(doc)
    decreases |parts|
  {
    var key := parts[0];
    if |parts| == 1 {
      var was := Child(doc, key).value;
      ReplaceHere(doc, key, value);
      var after := WithChild(doc, key, value);
      WithChildShows(doc, key, value);
      ReplaceHere(after, key, was);
      WithChildTwice(doc, key, value, was);
      WithChildShows(doc, key, was);
      assert Get(was, parts[1..]) == Some(was);
      assert Get(value, parts[1..]) == Some(value);
    } else {
      var child := Child(doc, key).value;
      ReplaceUndoesReplace(child, parts[1..], value);
      var changed := EditAt(child, parts[1..], Replace(value)).value;
      WithChildShows(doc, key, changed);
      WithChildTwice(doc, key, changed, child);
      WithChildShows(doc, key, child);
    }
  }

  // ---------------------------------------------------------------- reordering

  function EditBoth(doc: Json, p: seq<string>, e: Edit, q: seq<string>, f: Edit): Option<Json> {
    match EditAt(doc, p, e)
    case None => None
    case Some(next) => EditAt(next, q, f)
  }

  ghost predicate SameAt(m: map<string, Json>, n: map<string, Json>, key: string) {
    (key in m <==> key in n) && (key in m ==> m[key] == n[key])
  }

  ghost predicate SameOff(m: map<string, Json>, n: map<string, Json>, key: string) {
    forall k :: k != key ==> SameAt(m, n, k)
  }

  lemma {:induction false} SameEverywhere(m: map<string, Json>, n: map<string, Json>)
    requires forall k :: SameAt(m, n, k)
    ensures m == n
  {
    assert forall k :: k in m ==> SameAt(m, n, k);
    assert forall k :: k in n ==> SameAt(m, n, k);
  }

  /** An edit through an object depends on, and changes, the one member it goes through. */
  lemma {:induction false} EditIsLocal(m: map<string, Json>, n: map<string, Json>, p: seq<string>, e: Edit)
    requires p != [] && SameAt(m, n, p[0])
    ensures EditAt(Obj(m), p, e).Some? <==> EditAt(Obj(n), p, e).Some?
    ensures EditAt(Obj(m), p, e).Some? ==>
              var a, b := EditAt(Obj(m), p, e).value, EditAt(Obj(n), p, e).value;
              a.Obj? && b.Obj? && SameOff(a.members, m, p[0]) && SameAt(a.members, b.members, p[0])
  {
  }

  lemma {:induction false} DistinctMembersCommute(m: map<string, Json>, p: seq<string>, e: Edit, q: seq<string>,
                                                  f: Edit)
    requires p != [] && q != [] && p[0] != q[0]
    ensures EditBoth(Obj(m), p, e, q, f) == EditBoth(Obj(m), q, f, p, e)
  {
    EditIsLocal(m, m, p, e);
    EditIsLocal(m, m, q, f);
    var pe, qf := EditAt(Obj(m), p, e), EditAt(Obj(m), q, f);
    if pe.Some? && qf.Some? {
      var mp, mq := pe.value.members, qf.value.members;
      assert SameAt(mp, m, q[0]) && SameAt(mq, m, p[0]);
      EditIsLocal(mp, m, q, f);
      EditIsLocal(mq, m, p, e);
      var x, y := EditAt(pe.value, q, f).value.members, EditAt(qf.value, p, e).value.members;
      forall k
        ensures SameAt(x, y, k)
      {
        assert k != q[0] ==> SameAt(x, mp, k);
        assert k != p[0] ==> SameAt(y, mq, k);
        assert k != p[0] ==> SameAt(mp, m, k);
        assert k != q[0] ==> SameAt(mq, m, k);
      }
      SameEverywhere(x, y);
    } else if pe.Some? {
      EditIsLocal(pe.value.members, m, q, f);
    } else if qf.Some? {
      EditIsLocal(qf.value.members, m, p, e);
    }
  }

  /**
   Two edits whose paths part at an object give the same result in either order, failures included. Above
   and below the parting the paths may run through arrays.
   */
  lemma {:induction false} EditsCommute(doc: Json, p: seq<string>, e: Edit, q: seq<string>, f: Edit, d: nat)
    requires PartAtObject(doc, p, q, d)
    ensures EditBoth(doc, p, e, q, f) == EditBoth(doc, q, f, p, e)
    decreases d
  {
    if d == 0 {
      DistinctMembersCommute(doc.members, p, e, q, f);
    } else {
      var key := p[0];
      assert key == p[..d][0] == q[..d][0] == q[0];
      assert p[..d][1..] == p[1..][..d - 1] && q[..d][1..] == q[1..][..d - 1];
      var child := Child(doc, key).value;
      EditsCommute(child, p[1..], e, q[1..], f, d - 1);
      EditThrough(doc, key, p[1..], e, q[1..], f);
      EditThrough(doc, key, q[1..], f, p[1..], e);
      assert p == [key] + p[1..] && q == [key] + q[1..];
    }
  }

  /** Two edits through the same child are two edits of that child. */
  lemma {:induction false} EditThrough(doc: Json, key: string, p: seq<string>, e: Edit, q: seq<string>, f: Edit)
    requires p != [] && q != [] && Child(doc, key).Some?
    ensures EditBoth(doc, [key] + p, e, [key] + q, f) ==
            (match EditBoth(Child(doc, key).value, p, e, q, f)
             case None => None
             case Some(child) => Some(WithChild(doc, key, child)))
  {
    var child := Child(doc, key).value;
    assert ([key] + p)[1..] == p && ([key] + q)[1..] == q;
    var one := EditAt(child, p, e);
    if one.Some? {
      WithChildShows(doc, key, one.value);
      var two := EditAt(one.value, q, f);
      if two.Some? { WithChildTwice(doc, key, one.value, two.value); }
    }
  }

  /** The paths part at an object of the document, `d` steps down. */
  predicate PartAtObject(doc: Json, p: seq<string>, q: seq<string>, d: nat) {
    d < |p| && d < |q| && p[..d] == q[..d] && p[d] != q[d] && Get(doc, p[..d]).Some? && Get(doc, p[..d]).value.Obj?
  }

  /** An edit shows only along its own path: what stands at a path that parts from it at an object stays. */
  lemma {:induction false} GetElsewhere(doc: Json, p: seq<string>, q: seq<string>, f: Edit, d: nat)
    requires PartAtObject(doc, p, q, d) && EditAt(doc, q, f).Some?
    ensures Get(EditAt(doc, q, f).value, p) == Get(doc, p)
    decreases d
  {
    if d == 0 {
      EditIsLocal(doc.members, doc.members, q, f);
      assert SameAt(EditAt(doc, q, f).value.members, doc.members, p[0]);
    } else {
      var key := p[0];
      assert key == p[..d][0] == q[..d][0] == q[0];
      assert p[..d][1..] == p[1..][..d - 1] && q[..d][1..] == q[1..][..d - 1];
      var child := Child(doc, key).value;
      GetElsewhere(child, p[1..], q[1..], f, d - 1);
      WithChildShows(doc, key, EditAt(child, q[1..], f).value);
    }
  }

  /** What an operation does at its path; a malformed one refuses. */
  datatype Act = Edits(edit: Edit) | Tests(value: Json) | Refuses

  function ActOf(op: PatchOp): Act {
    if op.op == "remove" then Edits(Remove)
    else if op.value.None? then Refuses
    else if op.op == "add" then Edits(Add(op.value.value))
    else if op.op == "replace" then Edits(Replace(op.value.value))
    else if op.op == "test" then Tests(op.value.value)
    else Refuses
  }

  function Acted(doc: Json, parts: seq<string>, act: Act): Option<Json> {
    match act
    case Edits(edit) => EditAt(doc, parts, edit)
    case Tests(value) => if Get(doc, parts) == Some(value) then Some(doc) else None
    case Refuses => None
  }

  function ActedBoth(doc: Json, p: seq<string>, a: Act, q: seq<string>, b: Act): Option<Json> {
    match Acted(doc, p, a)
    case None => None
    case Some(next) => Acted(next, q, b)
  }

  lemma {:induction false} TwoOps(doc: Json, a: PatchOp, b: PatchOp)
    requires SplitPointer(a.path).Some? && SplitPointer(b.path).Some?
    ensures ApplyOps(doc, [a, b])
         == ActedBoth(doc, SplitPointer(a.path).value, ActOf(a), SplitPointer(b.path).value, ActOf(b))
  {
    hide SplitPointer, EditAt, Get;
    assert [a, b][1..] == [b] && [b][1..] == [];
    assert ApplyOp(doc, a) == Acted(doc, SplitPointer(a.path).value, ActOf(a));
    if ApplyOp(doc, a).Some? {
      var next := ApplyOp(doc, a).value;
      assert ApplyOp(next, b) == Acted(next, SplitPointer(b.path).value, ActOf(b));
      assert ApplyOps(next, [b]) == ApplyOp(next, b);
    }
  }

  /**
   Two operations of any kind, tests and refused ones included, may be swapped when their paths part at an object:
   the patch succeeds in one order iff it does in the other, with the same document.
   */
  lemma {:induction false} OpsCommute(doc: Json, a: PatchOp, b: PatchOp, d: nat)
    requires SplitPointer(a.path).Some? && SplitPointer(b.path).Some?
    requires PartAtObject(doc, SplitPointer(a.path).value, SplitPointer(b.path).value, d)
    ensures ApplyOps(doc, [a, b]) == ApplyOps(doc, [b, a])
  {
    hide SplitPointer, EditAt, ApplyOps, ActOf, Get;
    var p, q := SplitPointer(a.path).value, SplitPointer(b.path).value;
    TwoOps(doc, a, b);
    TwoOps(doc, b, a);
    if ActOf(a).Edits? && ActOf(b).Edits? {
      EditsCommute(doc, p, ActOf(a).edit, q, ActOf(b).edit, d);
    } else if ActOf(b).Edits? && EditAt(doc, q, ActOf(b).edit).Some? {
      GetElsewhere(doc, p, q, ActOf(b).edit, d);
    } else if ActOf(a).Edits? && EditAt(doc, p, ActOf(a).edit).Some? {
      GetElsewhere(doc, q, p, ActOf(a).edit, d);
    }
  }

  // ---------------------------------------------------------------- what one operation does

  /** Where a path leads, one step further down. */
  lemma {:induction false} GetSpelled(doc: Json, init: seq<string>, key: string)
    ensures Get(doc, []) == Some(doc)
    ensures Get(doc, init + [key]) ==
            match Get(doc, init)
            case Some(Obj(members)) => if key in members then Some(members[key]) else None
            case Some(Arr(items)) =>
              if Atoi(key).Some? && 0 <= Atoi(key).value < |items| then Some(items[Atoi(key).value]) else None
            case _ => None
    decreases |init|
  {
    if init == [] {
      assert ([] + [key])[0] == key && ([] + [key])[1..] == [];
      var child := Child(doc, key);
      if child.Some? { assert Get(child.value, []) == child; }
    } else {
      assert (init + [key])[0] == init[0] && (init + [key])[1..] == init[1..] + [key];
      var child := Child(doc, init[0]);
      if child.Some? { GetSpelled(child.value, init[1..], key); }
    }
  }

  /** The container an edit of `key` leaves, if it is possible there. */
  ghost predicate EditedHere(node: Json, key: string, edit: Edit, out: Json) {
    match node
    case Obj(members) =>
      && out.Obj? && (edit.Add? || key in members)
      && (key in out.members <==> !edit.Remove?) && (!edit.Remove? ==> out.members[key] == edit.value)
      && SameOff(out.members, members, key)
    case Arr(items) =>
      && out.Arr?
      && if edit.Add? && key == "-" then out.items == items + [edit.value]
         else
           && Atoi(key).Some?
           && var i := Atoi(key).value;
              && 0 <= i <= |items| && (i < |items| || edit.Add?)
              && (edit.Add? ==> out.items == items[..i] + [edit.value] + items[i..])
              && (edit.Replace? ==> out.items == items[..i] + [edit.value] + items[i + 1..])
              && (edit.Remove? ==> out.items == items[..i] + items[i + 1..])
    case _ => false
  }

  ghost predicate Editable(node: Json, key: string, edit: Edit) { exists out :: EditedHere(node, key, edit, out) }

  lemma {:induction false} EditHereSpelled(node: Json, key: string, edit: Edit)
    ensures EditHere(node, key, edit).Some? ==> EditedHere(node, key, edit, EditHere(node, key, edit).value)
    ensures forall out :: EditedHere(node, key, edit, out) ==> EditHere(node, key, edit) == Some(out)
  {
    forall out | EditedHere(node, key, edit, out) ensures EditHere(node, key, edit) == Some(out) {
      if node.Obj? {
        var members := if edit.Remove? then node.members - {key} else node.members[key := edit.value];
        forall k ensures SameAt(out.members, members, k) {
          assert k != key ==> SameAt(out.members, node.members, k);
        }
        SameEverywhere(out.members, members);
      } else {
        forall i: nat | i < |node.items|
          ensures node.items[..i] + [] + node.items[i + 1..] == node.items[..i] + node.items[i + 1..]
        {
          Without(node.items, i);
        }
      }
    }
    if node.Arr? && edit.Remove? && EditHere(node, key, edit).Some? { Without(node.items, Atoi(key).value); }
  }

  lemma {:induction false} Without(items: seq<Json>, i: nat)
    requires i < |items|
    ensures items[..i] + [] + items[i + 1..] == items[..i] + items[i + 1..]
  {
  }

  /**
   One edit, in full: it is possible exactly if its path leads to a container in which the last part can be edited, and
   it leaves that container so. The whole document is never edited.
   */
  lemma {:induction false} EditSpelled(doc: Json, init: seq<string>, key: string, edit: Edit)
    ensures EditAt(doc, [], edit).None?
    ensures var r := EditAt(doc, init + [key], edit);
            && (r.Some? <==> Get(doc, init).Some? && Editable(Get(doc, init).value, key, edit))
            && (r.Some? ==> Get(r.value, init).Some?
                            && EditedHere(Get(doc, init).value, key, edit, Get(r.value, init).value))
    decreases |init|
  {
    hide EditHere, EditedHere, WithChild;
    var path := init + [key];
    if init == [] {
      assert path == [key];
      var here := EditHere(doc, key, edit);
      EditHereSpelled(doc, key, edit);
      if here.Some? { assert Get(here.value, []) == here; }
    } else {
      assert path[0] == init[0] && path[1..] == init[1..] + [key];
      var child := Child(doc, init[0]);
      if child.Some? {
        EditSpelled(child.value, init[1..], key, edit);
        var changed := EditAt(child.value, path[1..], edit);
        if changed.Some? { WithChildShows(doc, init[0], changed.value); }
      }
    }
  }

  /** What each operation asks for; any other name, or a missing value, is refused. */
  lemma {:induction false} OperationSpelled(doc: Json, op: PatchOp)
    ensures ApplyOp(doc, op).Some? ==> SplitPointer(op.path).Some? && (op.op == "remove" || op.value.Some?)
    ensures SplitPointer(op.path).Some? ==>
              var parts := SplitPointer(op.path).value;
              && (op.op == "remove" ==> ApplyOp(doc, op) == EditAt(doc, parts, Remove))
              && (op.value.Some? ==>
                    && (op.op == "add" ==> ApplyOp(doc, op) == EditAt(doc, parts, Add(op.value.value)))
                    && (op.op == "replace" ==> ApplyOp(doc, op) == EditAt(doc, parts, Replace(op.value.value)))
                    && (op.op == "test" ==>
                          ApplyOp(doc, op) == if Get(doc, parts) == Some(op.value.value) then Some(doc) else None))
    ensures op.op !in {"add", "replace", "remove", "test"} ==> ApplyOp(doc, op).None?
  {
    hide SplitPointer, EditAt, Get;
  }
}
