/**
 What a declared write scope is worth: a patch confined to the scopes changes nothing outside them.

 "Outside" is made precise by erasing, from the document before and after, every object member whose
 dotted path a scope covers. The frame holds for a list of scopes, over every document and every patch,
 exactly when the scopes pass a check an operator can run on the manifest alone.
 */
module ScopeFrame {
  import opened Options
  import opened Json
  import opened Text
  import opened JsonPatch

  /** The dotted path one object member further down; numeric member names are not part of it. */
  function Under(at: seq<string>, key: string): seq<string> {
    if Numeric(key) then at else at + [key]
  }

  predicate Covers(at: seq<string>, scopes: seq<string>) { Covered(Join(at, "."), scopes) }

  /** The document without the object members the scopes cover. */
  function Erase(doc: Json, at: seq<string>, scopes: seq<string>): Json {
    match doc
    case Obj(members) =>
      Obj(map key | key in members && !Covers(Under(at, key), scopes) ::
          Erase(members[key], Under(at, key), scopes))
    case Arr(items) => Arr(seq(|items|, i requires 0 <= i < |items| => Erase(items[i], at, scopes)))
    case _ => doc
  }

  /**
   The manifest check. Besides `*`, the danger is a scope that names the append position of an array no
   scope covers: the pointer part `-` is not a number, so it stays in the dotted path.
   */
  predicate Safe(scope: string, scopes: seq<string>) {
    var s := TrimSpace(scope);
    && s != "*"
    && s != "-"
    && (|s| >= 2 && s[|s| - 2..] == ".-" ==> Numeric(s[..|s| - 2]) || Covered(s[..|s| - 2], scopes))
  }

  predicate SafeScopes(scopes: seq<string>) { forall i :: 0 <= i < |scopes| ==> Safe(scopes[i], scopes) }

  ghost predicate FrameHolds(scopes: seq<string>) {
    forall doc: Json, ops: seq<PatchOp> ::
      var r := ApplyPatch(doc, Ops(ops), scopes);
      r.Ok? ==> Erase(r.value, [], scopes) == Erase(doc, [], scopes)
  }

  // ---------------------------------------------------------------- paths

  predicate Named(at: seq<string>) { forall i :: 0 <= i < |at| ==> !Numeric(at[i]) }

  lemma {:induction false} DotIsNotNumeric(s: string)
    requires '.' in s
    ensures !Numeric(s)
  {
    var i :| 0 <= i < |s| && s[i] == '.';
    var body := if s[0] == '-' || s[0] == '+' then s[1..] else s;
    assert body[if s[0] == '-' || s[0] == '+' then i - 1 else i] == '.';
  }

  lemma {:induction false} NamedJoinIsNotNumeric(at: seq<string>)
    requires at != [] && Named(at)
    ensures !Numeric(Join(at, "."))
  {
    if |at| > 1 {
      assert Join(at, ".")[|at[0]|] == '.';
      DotIsNotNumeric(Join(at, "."));
    }
  }

  lemma {:induction false} DottedOfParts(pointer: string)
    requires SplitPointer(pointer).Some?
    ensures PointerToDotted(pointer) == Join(DropNumeric(SplitPointer(pointer).value), ".")
  {
    if pointer == "/" {
      assert Split("", '/') == [""];
      assert UnescapeAll([""]) == [""];
    }
  }

  lemma {:induction false} NothingCoversTheRoot(scopes: seq<string>)
    requires SafeScopes(scopes)
    ensures !Covers([], scopes)
  {
  }

  lemma {:induction false} PrefixOfAppend(s: string, outer: string)
    requires s + "." <= outer + ".-"
    ensures outer == s || s + "." <= outer
  {
    var whole := outer + ".-";
    assert (s + ".")[|s|] == whole[|s|];
    assert |s| != |outer| + 1;
    assert s == whole[..|s|];
    if |s| == |outer| {
      assert s == outer;
    } else {
      assert s + "." == whole[..|s| + 1] == outer[..|s| + 1];
    }
  }

  /** Within safe scopes an array's append position is covered only where the array itself is. */
  lemma {:induction false} AppendIsNotAWayIn(at: seq<string>, scopes: seq<string>)
    requires SafeScopes(scopes) && Named(at) && Covers(at + ["-"], scopes)
    ensures Covers(at, scopes)
  {
    JoinSnoc(at, "-", ".");
    var dotted := Join(at + ["-"], ".");
    var i :| 0 <= i < |scopes| && Authorizes(scopes[i], dotted);
    var s := TrimSpace(scopes[i]);
    assert Safe(scopes[i], scopes);
    if at == [] {
      assert false;
    } else {
      var outer := Join(at, ".");
      assert dotted == outer + ".-" by { assert outer + "." + "-" == outer + ".-"; }
      if dotted == s {
        assert s[..|s| - 2] == outer && s[|s| - 2..] == ".-";
        NamedJoinIsNotNumeric(at);
      } else {
        PrefixOfAppend(s, outer);
        assert Authorizes(scopes[i], outer);
      }
    }
  }

  // ---------------------------------------------------------------- the frame

  lemma {:induction false} SameMap<K, V>(a: map<K, V>, b: map<K, V>)
    requires forall k :: k in a <==> k in b
    requires forall k :: k in a && k in b ==> a[k] == b[k]
    ensures a == b
  {
  }

  /** One member of an erased object. */
  lemma {:induction false} ErasedMember(a: map<string, Json>, k: string, at: seq<string>, scopes: seq<string>)
    ensures k in Erase(Obj(a), at, scopes).members <==> k in a && !Covers(Under(at, k), scopes)
    ensures k in a && !Covers(Under(at, k), scopes) ==>
            Erase(Obj(a), at, scopes).members[k] == Erase(a[k], Under(at, k), scopes)
  {
  }

  /** Two objects that differ in one member erase alike when that member is covered or erases alike. */
  lemma {:induction false} ErasedObjects(a: map<string, Json>, b: map<string, Json>, key: string, at: seq<string>,
                                         scopes: seq<string>)
    requires forall k :: k != key ==> (k in a <==> k in b) && (k in a ==> a[k] == b[k])
    requires Covers(Under(at, key), scopes) ||
             (key in a && key in b && Erase(a[key], Under(at, key), scopes) == Erase(b[key], Under(at, key), scopes))
    ensures Erase(Obj(a), at, scopes) == Erase(Obj(b), at, scopes)
  {
    var ea := Erase(Obj(a), at, scopes).members;
    var eb := Erase(Obj(b), at, scopes).members;
    forall k
      ensures k in ea <==> k in eb
      ensures k in ea && k in eb ==> ea[k] == eb[k]
    {
      ErasedMember(a, k, at, scopes);
      ErasedMember(b, k, at, scopes);
      if k != key { assert k in a <==> k in b; }
    }
    SameMap(ea, eb);
  }

  lemma {:induction false} ErasedArrays(items: seq<Json>, i: nat, child: Json, at: seq<string>, scopes: seq<string>)
    requires i < |items| && Erase(child, at, scopes) == Erase(items[i], at, scopes)
    ensures Erase(Arr(items[i := child]), at, scopes) == Erase(Arr(items), at, scopes)
  {
    assert Erase(Arr(items[i := child]), at, scopes).items == Erase(Arr(items), at, scopes).items;
  }

  /** Edits of an array inside uncovered ground are out of every safe scope. */
  lemma {:induction false} NoEditHereInArray(key: string, at: seq<string>, scopes: seq<string>)
    requires SafeScopes(scopes) && Named(at) && !Covers(at, scopes)
    requires Numeric(key) || key == "-"
    ensures !Covers(at + DropNumeric([key]), scopes)
  {
    assert [key][1..] == [];
    assert at + [] == at;
    if !Numeric(key) {
      assert DropNumeric([key]) == ["-"];
      if Covers(at + ["-"], scopes) { AppendIsNotAWayIn(at, scopes); }
    }
  }

  lemma {:induction false} DropHead(at: seq<string>, parts: seq<string>)
    requires parts != []
    ensures at + DropNumeric(parts) == Under(at, parts[0]) + DropNumeric(parts[1..])
  {
    hide Numeric;
    var rest := DropNumeric(parts[1..]);
    if Numeric(parts[0]) {
      assert [] + rest == rest;
    } else {
      assert at + ([parts[0]] + rest) == (at + [parts[0]]) + rest;
    }
  }

  /** One edit at a covered path, in an uncovered place, is erased. */
  lemma {:induction false} EditIsFramed(doc: Json, parts: seq<string>, edit: Edit, at: seq<string>, scopes: seq<string>)
    requires SafeScopes(scopes) && Named(at) && !Covers(at, scopes)
    requires Covers(at + DropNumeric(parts), scopes)
    requires EditAt(doc, parts, edit).Some?
    ensures Erase(EditAt(doc, parts, edit).value, at, scopes) == Erase(doc, at, scopes)
    decreases |parts|
  {
    var key := parts[0];
    DropHead(at, parts);
    var after := EditAt(doc, parts, edit).value;
    if |parts| == 1 {
      assert parts == [key];
      if doc.Obj? {
        assert Under(at, key) + [] == Under(at, key);
        ErasedObjects(after.members, doc.members, key, at, scopes);
      } else {
        NoEditHereInArray(key, at, scopes);
      }
    } else {
      var child := Child(doc, key).value;
      var changed := EditAt(child, parts[1..], edit).value;
      if !Covers(Under(at, key), scopes) { EditIsFramed(child, parts[1..], edit, Under(at, key), scopes); }
      if doc.Obj? {
        ErasedObjects(after.members, doc.members, key, at, scopes);
      } else {
        ErasedArrays(doc.items, Atoi(key).value, changed, at, scopes);
      }
    }
  }

  lemma {:induction false} OpsAreFramed(doc: Json, ops: seq<PatchOp>, scopes: seq<string>)
    requires SafeScopes(scopes) && AllInScope(ops, scopes) && ApplyOps(doc, ops).Some?
    ensures Erase(ApplyOps(doc, ops).value, [], scopes) == Erase(doc, [], scopes)
    decreases |ops|
  {
    if ops != [] {
      var op := ops[0];
      var parts := SplitPointer(op.path).value;
      assert InScope(op.path, scopes);
      DottedOfParts(op.path);
      NothingCoversTheRoot(scopes);
      assert [] + DropNumeric(parts) == DropNumeric(parts);
      if op.op == "add" { EditIsFramed(doc, parts, Add(op.value.value), [], scopes); }
      if op.op == "replace" { EditIsFramed(doc, parts, Replace(op.value.value), [], scopes); }
      if op.op == "remove" { EditIsFramed(doc, parts, Remove, [], scopes); }
      assert forall i :: 0 <= i < |ops[1..]| ==> ops[1..][i] == ops[i + 1];
      OpsAreFramed(ApplyOp(doc, op).value, ops[1..], scopes);
    }
  }

  // ---------------------------------------------------------------- the frame needs the check

  lemma {:induction false} SingleOp(doc: Json, op: PatchOp, scopes: seq<string>)
    requires op.from == "" && InScope(op.path, scopes) && ApplyOp(doc, op).Some?
    ensures ApplyPatch(doc, Ops([op]), scopes) == Ok(ApplyOp(doc, op).value)
  {
    assert FirstViolation([op], scopes) == FirstViolation([op][1..], scopes);
    assert ApplyOps(doc, [op]) == ApplyOps(ApplyOp(doc, op).value, [op][1..]);
  }

  function AppendNull(parts: seq<string>): PatchOp { PatchOp("add", PrintPointer(parts), "", Some(Null)) }

  /** An append in scope is accepted, and does what EditAt says. */
  lemma {:induction false} AppendAccepted(doc: Json, parts: seq<string>, scopes: seq<string>)
    requires Covers(DropNumeric(parts), scopes) && EditAt(doc, parts, Add(Null)).Some?
    ensures ApplyPatch(doc, Ops([AppendNull(parts)]), scopes) == Ok(EditAt(doc, parts, Add(Null)).value)
  {
    PointerRoundTrip(parts);
    DottedOfParts(AppendNull(parts).path);
    SingleOp(doc, AppendNull(parts), scopes);
  }

  lemma {:induction false} RootAppendEscapes(i: nat, parts: seq<string>, scopes: seq<string>)
    requires i < |scopes| && TrimSpace(scopes[i]) in {"*", "-"}
    requires |parts| == 1 && parts[0] == "-"
    ensures ApplyPatch(Arr([]), Ops([AppendNull(parts)]), scopes) == Ok(Arr([Null]))
    ensures Erase(Arr([Null]), [], scopes) != Erase(Arr([]), [], scopes)
  {
    assert parts[1..] == [];
    assert DropNumeric(parts) == parts;
    assert Covers(parts, scopes) by { assert Authorizes(scopes[i], Join(parts, ".")); }
    assert EditAt(Arr([]), parts, Add(Null)) == Some(Arr([Null])) by { assert [] + [Null] == [Null]; }
    AppendAccepted(Arr([]), parts, scopes);
    var emptied, filled := Erase(Arr([]), [], scopes), Erase(Arr([Null]), [], scopes);
    assert |emptied.items| == 0 && |filled.items| == 1;
  }

  lemma {:induction false} MemberAppendCovered(i: nat, parts: seq<string>, scopes: seq<string>)
    requires i < |scopes| && |parts| == 2 && parts[1] == "-"
    requires TrimSpace(scopes[i]) == parts[0] + ".-" && !Numeric(parts[0])
    ensures Covers(DropNumeric(parts), scopes)
  {
    assert parts[1..][1..] == [];
    assert DropNumeric(parts[1..]) == parts[1..];
    assert DropNumeric(parts) == parts;
    assert parts[0] + "." + parts[1] == parts[0] + ".-";
    assert Join(parts, ".") == parts[0] + ".-";
    assert Authorizes(scopes[i], Join(parts, "."));
  }

  lemma {:induction false} MemberAppendEdits(parts: seq<string>)
    requires |parts| == 2 && parts[1] == "-"
    ensures EditAt(Obj(map[parts[0] := Arr([])]), parts, Add(Null)) == Some(Obj(map[parts[0] := Arr([Null])]))
  {
    var doc := Obj(map[parts[0] := Arr([])]);
    assert [] + [Null] == [Null];
    assert EditAt(Arr([]), parts[1..], Add(Null)) == Some(Arr([Null]));
    assert EditAt(doc, parts, Add(Null)) == Some(WithChild(doc, parts[0], Arr([Null])));
    assert doc.members[parts[0] := Arr([Null])] == map[parts[0] := Arr([Null])];
  }

  lemma {:induction false} MemberAppendEscapes(i: nat, parts: seq<string>, scopes: seq<string>)
    requires i < |scopes| && |parts| == 2 && parts[1] == "-"
    requires TrimSpace(scopes[i]) == parts[0] + ".-" && !Numeric(parts[0]) && !Covered(parts[0], scopes)
    ensures ApplyPatch(Obj(map[parts[0] := Arr([])]), Ops([AppendNull(parts)]), scopes) ==
            Ok(Obj(map[parts[0] := Arr([Null])]))
    ensures Erase(Obj(map[parts[0] := Arr([Null])]), [], scopes) != Erase(Obj(map[parts[0] := Arr([])]), [], scopes)
  {
    MemberAppendCovered(i, parts, scopes);
    MemberAppendEdits(parts);
    AppendAccepted(Obj(map[parts[0] := Arr([])]), parts, scopes);
    EraseMember(parts[0], Arr([]), scopes);
    EraseMember(parts[0], Arr([Null]), scopes);
    var emptied, filled := Erase(Arr([]), [parts[0]], scopes), Erase(Arr([Null]), [parts[0]], scopes);
    assert |emptied.items| == 0 && |filled.items| == 1;
  }

  lemma {:induction false} EraseMember(outer: string, child: Json, scopes: seq<string>)
    requires !Numeric(outer) && !Covered(outer, scopes)
    ensures outer in Erase(Obj(map[outer := child]), [], scopes).members
    ensures Erase(Obj(map[outer := child]), [], scopes).members[outer] == Erase(child, [outer], scopes)
  {
    assert Under([], outer) == [outer];
    assert !Covers(Under([], outer), scopes);
  }

  /** Any scope that fails the check lets some patch change some document outside the scopes. */
  lemma {:induction false} UnsafeScopeEscapes(i: nat, scopes: seq<string>) returns (doc: Json, op: PatchOp)
    requires i < |scopes| && !Safe(scopes[i], scopes)
    ensures ApplyPatch(doc, Ops([op]), scopes).Ok?
    ensures Erase(ApplyPatch(doc, Ops([op]), scopes).value, [], scopes) != Erase(doc, [], scopes)
  {
    var s := TrimSpace(scopes[i]);
    if s == "*" || s == "-" {
      doc, op := Arr([]), AppendNull(["-"]);
      RootAppendEscapes(i, ["-"], scopes);
    } else {
      var outer := s[..|s| - 2];
      assert s == outer + ".-";
      doc, op := Obj(map[outer := Arr([])]), AppendNull([outer, "-"]);
      MemberAppendEscapes(i, [outer, "-"], scopes);
    }
  }

  /** The scope frame, with its exact condition. */
  lemma {:induction false} ScopeFrame(scopes: seq<string>)
    ensures FrameHolds(scopes) <==> SafeScopes(scopes)
  {
    if SafeScopes(scopes) {
      forall doc: Json, ops: seq<PatchOp> | ApplyPatch(doc, Ops(ops), scopes).Ok?
        ensures Erase(ApplyPatch(doc, Ops(ops), scopes).value, [], scopes) == Erase(doc, [], scopes)
      {
        PatchIsAllOrNothing(doc, ops, scopes);
        if ops != [] { OpsAreFramed(doc, ops, scopes); }
      }
    } else {
      var i :| 0 <= i < |scopes| && !Safe(scopes[i], scopes);
      var doc, op := UnsafeScopeEscapes(i, scopes);
      var ops := [op];
      assert ApplyPatch(doc, Ops(ops), scopes).Ok?;
    }
  }

  // ---------------------------------------------------------------- what a scope lets through

  lemma {:induction false} DropNumericConcat(p: seq<string>, q: seq<string>)
    ensures DropNumeric(p + q) == DropNumeric(p) + DropNumeric(q)
  {
    hide Numeric;
    if p == [] {
      assert p + q == q && DropNumeric(p) + DropNumeric(q) == DropNumeric(q);
    } else {
      assert (p + q)[1..] == p[1..] + q;
      DropNumericConcat(p[1..], q);
    }
  }

  lemma {:induction false} JoinConcat(a: seq<string>, b: seq<string>)
    requires a != [] && b != []
    ensures Join(a + b, ".") == Join(a, ".") + "." + Join(b, ".")
  {
    if |a| == 1 {
      assert (a + b)[1..] == b;
    } else {
      assert (a + b)[1..] == a[1..] + b;
      JoinConcat(a[1..], b);
      assert a[0] + "." + (Join(a[1..], ".") + "." + Join(b, "."))
             == a[0] + "." + Join(a[1..], ".") + "." + Join(b, ".");
    }
  }

  lemma {:induction false} DottedOfPath(p: seq<string>)
    ensures PointerToDotted(PrintPointer(p)) == Join(DropNumeric(p), ".")
  {
    hide PointerToDotted, DropNumeric, Join;
    PointerRoundTrip(p);
    DottedOfParts(PrintPointer(p));
  }

  lemma {:induction false} AuthorizesBelow(scope: string, dotted: string, more: string)
    requires Authorizes(scope, dotted)
    ensures Authorizes(scope, dotted + "." + more)
  {
    var s := TrimSpace(scope);
    if s + "." <= dotted { assert s + "." <= dotted + "." + more; }
    if s == dotted { assert s + "." <= dotted + "." + more; }
  }

  /** A scope that covers a path covers everything below it. */
  lemma {:induction false} CoverGrows(p: seq<string>, more: seq<string>, scopes: seq<string>)
    requires InScope(PrintPointer(p), scopes)
    ensures InScope(PrintPointer(p + more), scopes)
  {
    hide PointerToDotted, DropNumeric, Join, TrimSpace;
    DottedOfPath(p);
    DottedOfPath(p + more);
    DropNumericConcat(p, more);
    var a, b := DropNumeric(p), DropNumeric(more);
    var i :| 0 <= i < |scopes| && Authorizes(scopes[i], Join(a, "."));
    if b == [] {
      assert a + b == a;
    } else if a == [] {
      assert Join(a, ".") == "" by { JoinNone(); }
      assert Authorizes(scopes[i], Join(a + b, "."));
    } else {
      JoinConcat(a, b);
      AuthorizesBelow(scopes[i], Join(a, "."), Join(b, "."));
    }
  }

  lemma {:induction false} JoinNone()
    ensures Join([], ".") == ""
  {
  }

  /** The names of a path as a scope spells them. */
  predicate Spells(scope: string, names: seq<string>) {
    && TrimSpace(scope) == Join(names, ".") && Join(names, ".") != ""
    && forall k :: 0 <= k < |names| ==> Atoi(names[k]).None?
  }

  lemma {:induction false} NamesAreKept(names: seq<string>)
    requires forall k :: 0 <= k < |names| ==> Atoi(names[k]).None?
    ensures DropNumeric(names) == names
  {
    if names != [] {
      assert forall k :: 0 <= k < |names[1..]| ==> names[1..][k] == names[k + 1];
      NamesAreKept(names[1..]);
    }
  }

  /** A scope covers the path whose member names it spells, joined by dots. */
  lemma {:induction false} DeclaredIsCovered(names: seq<string>, scopes: seq<string>, i: nat)
    requires i < |scopes| && Spells(scopes[i], names)
    ensures InScope(PrintPointer(names), scopes)
  {
    hide PointerToDotted, Join, TrimSpace;
    DottedOfPath(names);
    NamesAreKept(names);
    assert Authorizes(scopes[i], Join(names, "."));
  }

  /** An array index counts for nothing in a scope check. */
  lemma {:induction false} IndicesDoNotCount(p: seq<string>, k: nat, scopes: seq<string>)
    requires k < |p| && Atoi(p[k]).Some?
    ensures InScope(PrintPointer(p), scopes) <==> InScope(PrintPointer(p[..k] + p[k + 1..]), scopes)
  {
    hide PointerToDotted, Join, TrimSpace, Atoi;
    DottedOfPath(p);
    DottedOfPath(p[..k] + p[k + 1..]);
    assert p == p[..k] + ([p[k]] + p[k + 1..]);
    DropNumericConcat(p[..k], [p[k]] + p[k + 1..]);
    DropNumericConcat([p[k]], p[k + 1..]);
    DropNumericConcat(p[..k], p[k + 1..]);
    assert [p[k]][1..] == [] && DropNumeric([p[k]]) == [];
    assert DropNumeric(p[..k]) + ([] + DropNumeric(p[k + 1..])) == DropNumeric(p[..k]) + DropNumeric(p[k + 1..]);
  }

  lemma {:induction false} PrefixIsJoin(s: string, names: seq<string>) returns (k: nat)
    requires s + "." <= Join(names, ".") && forall j :: 0 <= j < |names| ==> '.' !in names[j]
    ensures 1 <= k < |names| && Join(names[..k], ".") == s
  {
    var whole := Join(names, ".");
    assert whole[|s|] == (s + ".")[|s|] == '.';
    if |names| <= 1 {
      assert false;
    } else {
      var first, rest := names[0], Join(names[1..], ".");
      assert whole == first + "." + rest;
      if |s| < |first| {
        assert false;
      } else if |s| == |first| {
        k := 1;
        assert s == whole[..|s|] == first && names[..1] == [first];
      } else {
        assert s[|first|] == whole[|first|] == '.';
        var tail := s[|first| + 1..];
        assert tail + "." == (s + ".")[|first| + 1..] <= whole[|first| + 1..] == rest;
        assert forall j :: 0 <= j < |names[1..]| ==> names[1..][j] == names[j + 1];
        var m := PrefixIsJoin(tail, names[1..]);
        k := m + 1;
        assert names[..k] == [first] + names[1..][..m];
        assert names[..k][1..] == names[1..][..m];
        assert s == first + "." + tail by { assert s[..|first|] == whole[..|first|] == first; }
      }
    }
  }

  /** A scope names the path, or one above it, or is the star. */
  predicate Declares(scope: string, names: seq<string>) {
    var s := TrimSpace(scope);
    s != "" && (s == "*" || exists k :: 1 <= k <= |names| && Join(names[..k], ".") == s)
  }

  lemma {:induction false} AuthorizesExactly(scope: string, names: seq<string>)
    requires forall k :: 0 <= k < |names| ==> '.' !in names[k]
    ensures Authorizes(scope, Join(names, ".")) <==> Declares(scope, names)
  {
    hide TrimSpace;
    var s, whole := TrimSpace(scope), Join(names, ".");
    if s != "" && s != "*" {
      if s == whole {
        assert names[..|names|] == names;
      } else if s + "." <= whole {
        var k := PrefixIsJoin(s, names);
      }
      if k: nat :| 1 <= k <= |names| && Join(names[..k], ".") == s {
        if k == |names| {
          assert names[..k] == names;
        } else {
          JoinConcat(names[..k], names[k..]);
          assert names[..k] + names[k..] == names;
          assert s + "." <= whole;
        }
      }
    }
  }

  /**
   The scope check, exactly: a path whose member names hold no dots is in scope iff some scope is the star or spells its
   names, or the names of a path above it.
   */
  lemma {:induction false} ScopeExactly(p: seq<string>, scopes: seq<string>)
    requires forall k :: 0 <= k < |DropNumeric(p)| ==> '.' !in DropNumeric(p)[k]
    ensures InScope(PrintPointer(p), scopes) <==>
              exists i :: 0 <= i < |scopes| && Declares(scopes[i], DropNumeric(p))
  {
    hide PointerToDotted, Join, TrimSpace, DropNumeric, Authorizes, Declares;
    DottedOfPath(p);
    forall i | 0 <= i < |scopes|
      ensures Authorizes(scopes[i], Join(DropNumeric(p), ".")) <==> Declares(scopes[i], DropNumeric(p))
    {
      AuthorizesExactly(scopes[i], DropNumeric(p));
    }
  }

  /** Each operation is at or below a path that some scope spells. */
  predicate AtOrBelow(ops: seq<PatchOp>, paths: seq<seq<string>>, declared: seq<seq<string>>, scopes: seq<string>) {
    |paths| == |declared| == |ops| && forall k :: 0 <= k < |ops| ==>
      && ops[k].path == PrintPointer(paths[k]) && ops[k].from == "" && declared[k] <= paths[k]
      && exists i :: 0 <= i < |scopes| && Spells(scopes[i], declared[k])
  }

  /** Declared scopes are worth what they say: any 256 working operations at or below declared paths are accepted. */
  lemma {:induction false} DeclaredPatchIsAccepted(payload: Json, ops: seq<PatchOp>, paths: seq<seq<string>>,
                                                   declared: seq<seq<string>>, scopes: seq<string>)
    requires |ops| <= 256 && AtOrBelow(ops, paths, declared, scopes) && ApplyOps(payload, ops).Some?
    ensures ApplyPatch(payload, Ops(ops), scopes) == Ok(ApplyOps(payload, ops).value)
  {
    hide ApplyPatch, ApplyOps, InScope, Spells;
    forall k | 0 <= k < |ops| ensures InScope(ops[k].path, scopes) {
      var i :| 0 <= i < |scopes| && Spells(scopes[i], declared[k]);
      DeclaredIsCovered(declared[k], scopes, i);
      CoverGrows(declared[k], paths[k][|declared[k]|..], scopes);
      assert declared[k] + paths[k][|declared[k]|..] == paths[k];
    }
    PatchIsAllOrNothing(payload, ops, scopes);
    NoOpsAreFine(payload);
  }

  lemma {:induction false} NoOpsAreFine(payload: Json)
    ensures ApplyOps(payload, []) == Some(payload)
  {
  }
}
