/**
 The patch engine of internal/dataplane/pipeline/patch.go, stated on trees.

 JSON Pointer is sections 3 and 4 of RFC 6901; the operations are sections 4.1 (add), 4.2 (remove),
 4.3 (replace) and 4.6 (test) of RFC 6902. PatchInPlace holds the code's own, updating, form and proves
 it against the definitions here.
 */
module JsonPatch {
  import opened Options
  import opened Json
  import opened Text

  const MAX_PATCH_OPERATIONS := 256

  // ---------------------------------------------------------------- pointers

  /** The single-pass replacer `~1` to `/`, `~0` to `~`. */
  function Unescape(s: string): string {
    if s == "" then ""
    else if |s| >= 2 && s[0] == '~' && s[1] == '1' then "/" + Unescape(s[2..])
    else if |s| >= 2 && s[0] == '~' && s[1] == '0' then "~" + Unescape(s[2..])
    else [s[0]] + Unescape(s[1..])
  }

  /** The escaping of section 3 of RFC 6901, which the code never prints but every client does. */
  function Escape(s: string): string {
    if s == "" then ""
    else (if s[0] == '/' then "~1" else if s[0] == '~' then "~0" else [s[0]]) + Escape(s[1..])
  }

  function UnescapeAll(parts: seq<string>): (r: seq<string>)
    ensures |r| == |parts|
  {
    if parts == [] then [] else [Unescape(parts[0])] + UnescapeAll(parts[1..])
  }

  function SplitPointer(pointer: string): Option<seq<string>> {
    if pointer == "" then Some([])
    else if pointer[0] != '/' then None
    else Some(UnescapeAll(Split(pointer[1..], '/')))
  }

  function PrintPointer(parts: seq<string>): string {
    if parts == [] then "" else ['/'] + (Escape(parts[0]) + PrintPointer(parts[1..]))
  }

  lemma {:induction false} UnescapeEscape(s: string)
    ensures Unescape(Escape(s)) == s
    ensures '/' !in Escape(s)
  {
    if s != "" {
      UnescapeEscape(s[1..]);
      var rest, e := Escape(s[1..]), Escape(s);
      if s[0] == '/' || s[0] == '~' {
        assert |e| >= 2 && e[0] == '~' && e[1] == (if s[0] == '/' then '1' else '0') && e[2..] == rest;
      } else {
        assert e[0] == s[0] && e[1..] == rest;
      }
      assert s == [s[0]] + s[1..];
    }
  }

  lemma {:induction false} SplitPrinted(first: string, rest: seq<string>)
    ensures UnescapeAll(Split(Escape(first) + PrintPointer(rest), '/')) == [first] + rest
    decreases |rest|
  {
    hide Escape, Unescape, Split;
    var head := Escape(first);
    UnescapeEscape(first);
    if rest == [] {
      assert head + PrintPointer(rest) == head;
      SplitWhole(head, '/');
    } else {
      var tail := Escape(rest[0]) + PrintPointer(rest[1..]);
      calc {
        Split(head + PrintPointer(rest), '/');
        { assert head + PrintPointer(rest) == head + ['/'] + tail; }
        Split(head + ['/'] + tail, '/');
        { SplitHead(head, tail, '/'); }
        [head] + Split(tail, '/');
      }
      SplitPrinted(rest[0], rest[1..]);
      assert ([head] + Split(tail, '/'))[1..] == Split(tail, '/');
      assert [rest[0]] + rest[1..] == rest;
    }
  }

  /** Every path has a pointer, and parsing the pointer gives the path back. */
  lemma {:induction false} PointerRoundTrip(parts: seq<string>)
    ensures SplitPointer(PrintPointer(parts)) == Some(parts)
  {
    if parts != [] {
      SplitPrinted(parts[0], parts[1..]);
      assert PrintPointer(parts)[1..] == Escape(parts[0]) + PrintPointer(parts[1..]);
      assert [parts[0]] + parts[1..] == parts;
    }
  }

  // ---------------------------------------------------------------- write scopes

  /** Atoi succeeds: the scope check takes such a part for an array index and drops it. */
  predicate Numeric(part: string) { Atoi(part).Some? }

  function DropNumeric(parts: seq<string>): seq<string> {
    if parts == [] then []
    else (if Numeric(parts[0]) then [] else [parts[0]]) + DropNumeric(parts[1..])
  }

  function PointerToDotted(pointer: string): string {
    var trimmed := if pointer != "" && pointer[0] == '/' then pointer[1..] else pointer;
    if trimmed == "" then "" else Join(DropNumeric(UnescapeAll(Split(trimmed, '/'))), ".")
  }

  /** One declared scope authorizes a dotted path. */
  predicate Authorizes(scope: string, dotted: string) {
    var s := TrimSpace(scope);
    s != "" && (s == "*" || dotted == s || s + "." <= dotted)
  }

  predicate Covered(dotted: string, scopes: seq<string>) {
    exists i :: 0 <= i < |scopes| && Authorizes(scopes[i], dotted)
  }

  predicate InScope(pointer: string, scopes: seq<string>) { Covered(PointerToDotted(pointer), scopes) }

  // ---------------------------------------------------------------- operations

  datatype Edit = Add(value: Json) | Replace(value: Json) | Remove

  /** An edit of one container: the member or element named by `key`. */
  function EditHere(node: Json, key: string, edit: Edit): Option<Json> {
    match node
    case Obj(members) =>
      if !edit.Add? && key !in members then None
      else Some(Obj(if edit.Remove? then members - {key} else members[key := edit.value]))
    case Arr(items) =>
      if edit.Add? && key == "-" then Some(Arr(items + [edit.value]))
      else (
        match Atoi(key)
        case None => None
        case Some(i) =>
          if i < 0 || i > |items| || (i == |items| && !edit.Add?) then None
          else Some(Arr(items[..i] + (if edit.Remove? then [] else [edit.value]) +
                        (if edit.Add? then items[i..] else items[i + 1..]))))
    case _ => None
  }

  /** The container at `key` inside a node. */
  function Child(node: Json, key: string): Option<Json> {
    match node
    case Obj(members) => if key in members then Some(members[key]) else None
    case Arr(items) =>
      (match Atoi(key)
       case Some(i) => if 0 <= i < |items| then Some(items[i]) else None
       case None => None)
    case _ => None
  }

  function WithChild(node: Json, key: string, child: Json): Json
    requires Child(node, key).Some?
  {
    if node.Obj? then Obj(node.members[key := child]) else Arr(node.items[Atoi(key).value := child])
  }

  function Get(doc: Json, parts: seq<string>): Option<Json>
    decreases |parts|
  {
    if parts == [] then Some(doc)
    else match Child(doc, parts[0])
      case None => None
      case Some(child) => Get(child, parts[1..])
  }

  /** An edit at a path: only the container the path ends in changes. The whole document is never a target. */
  function EditAt(doc: Json, parts: seq<string>, edit: Edit): Option<Json>
    decreases |parts|
  {
    if parts == [] then None
    else if |parts| == 1 then EditHere(doc, parts[0], edit)
    else match Child(doc, parts[0])
      case None => None
      case Some(child) =>
        match EditAt(child, parts[1..], edit)
        case None => None
        case Some(changed) => Some(WithChild(doc, parts[0], changed))
  }

  /** `value` is None when the operation has no value member. */
  datatype PatchOp = PatchOp(op: string, path: string, from: string, value: Option<Json>)

  function ApplyOp(doc: Json, op: PatchOp): Option<Json> {
    match SplitPointer(op.path)
    case None => None
    case Some(parts) =>
      if op.op == "add" || op.op == "replace" then
        if op.value.None? then None
        else EditAt(doc, parts, if op.op == "add" then Add(op.value.value) else Replace(op.value.value))
      else if op.op == "remove" then EditAt(doc, parts, Remove)
      else if op.op == "test" then
        if op.value.Some? && Get(doc, parts) == Some(op.value.value) then Some(doc) else None
      else None
  }

  /** The operations in order; None as soon as one fails. */
  function ApplyOps(doc: Json, ops: seq<PatchOp>): Option<Json>
    decreases |ops|
  {
    if ops == [] then Some(doc)
    else match ApplyOp(doc, ops[0])
      case None => None
      case Some(next) => ApplyOps(next, ops[1..])
  }

  /** A plugin's patch bytes: absent, unreadable, or a list of operations. */
  datatype Patch = Absent | Unreadable | Ops(ops: seq<PatchOp>)

  datatype PatchError = NotAPatch | TooManyOps(count: nat) | ScopeViolation(path: string) | OpFailed(index: nat)

  /** The first path, target before source, that no scope covers. */
  function FirstViolation(ops: seq<PatchOp>, scopes: seq<string>): Option<string> {
    if ops == [] then None
    else if !InScope(ops[0].path, scopes) then Some(ops[0].path)
    else if ops[0].from != "" && !InScope(ops[0].from, scopes) then Some(ops[0].from)
    else FirstViolation(ops[1..], scopes)
  }

  predicate AllInScope(ops: seq<PatchOp>, scopes: seq<string>) {
    forall i :: 0 <= i < |ops| ==>
      InScope(ops[i].path, scopes) && (ops[i].from == "" || InScope(ops[i].from, scopes))
  }

  /** How many leading operations succeed. */
  function FirstFailure(doc: Json, ops: seq<PatchOp>): (n: nat)
    requires ApplyOps(doc, ops).None?
    ensures n < |ops| && ApplyOps(doc, ops[..n]).Some?
    decreases |ops|
  {
    match ApplyOp(doc, ops[0])
    case None => 0
    case Some(next) =>
      var n := 1 + FirstFailure(next, ops[1..]);
      assert ops[..n][0] == ops[0] && ops[..n][1..] == ops[1..][..n - 1];
      n
  }

  function ApplyPatch(payload: Json, patch: Patch, scopes: seq<string>): Result<Json, PatchError> {
    match patch
    case Absent => Ok(payload)
    case Unreadable => Err(NotAPatch)
    case Ops(ops) =>
      if ops == [] then Ok(payload)
      else if |ops| > MAX_PATCH_OPERATIONS then Err(TooManyOps(|ops|))
      else if FirstViolation(ops, scopes).Some? then Err(ScopeViolation(FirstViolation(ops, scopes).value))
      else match ApplyOps(payload, ops)
        case Some(doc) => Ok(doc)
        case None => Err(OpFailed(FirstFailure(payload, ops)))
  }

  lemma {:induction false} NoViolation(ops: seq<PatchOp>, scopes: seq<string>)
    ensures FirstViolation(ops, scopes).None? <==> AllInScope(ops, scopes)
  {
    if ops != [] {
      NoViolation(ops[1..], scopes);
      if AllInScope(ops[1..], scopes) && FirstViolation(ops, scopes).None? {
        forall i | 0 <= i < |ops|
          ensures InScope(ops[i].path, scopes) && (ops[i].from == "" || InScope(ops[i].from, scopes))
        {
          if i > 0 { assert ops[i] == ops[1..][i - 1]; }
        }
      }
      if AllInScope(ops, scopes) {
        forall i | 0 <= i < |ops[1..]|
          ensures InScope(ops[1..][i].path, scopes) && (ops[1..][i].from == "" || InScope(ops[1..][i].from, scopes))
        {
          assert ops[1..][i] == ops[i + 1];
        }
      }
    }
  }

  /**
   A patch is taken whole or not at all: it is accepted iff it is empty, or within the operation limit, in
   scope in every target and every source, and every operation succeeds in turn.
   */
  lemma {:induction false} PatchIsAllOrNothing(payload: Json, ops: seq<PatchOp>, scopes: seq<string>)
    ensures ApplyPatch(payload, Ops(ops), scopes).Ok? <==>
            ops == [] || (|ops| <= MAX_PATCH_OPERATIONS && AllInScope(ops, scopes) && ApplyOps(payload, ops).Some?)
    ensures ApplyPatch(payload, Ops(ops), scopes).Ok? ==>
            ApplyOps(payload, ops) == Some(ApplyPatch(payload, Ops(ops), scopes).value)
  {
    NoViolation(ops, scopes);
  }

  /** The operation whose path or source is out of scope, and none before it. */
  predicate FirstOutside(ops: seq<PatchOp>, scopes: seq<string>, k: int, path: string) {
    && 0 <= k < |ops| && AllInScope(ops[..k], scopes)
    && if InScope(ops[k].path, scopes) then path == ops[k].from != "" && !InScope(path, scopes) else path == ops[k].path
  }

  lemma {:induction false} WhoViolates(ops: seq<PatchOp>, scopes: seq<string>) returns (k: int)
    requires FirstViolation(ops, scopes).Some?
    ensures FirstOutside(ops, scopes, k, FirstViolation(ops, scopes).value)
  {
    hide InScope;
    if !InScope(ops[0].path, scopes) || (ops[0].from != "" && !InScope(ops[0].from, scopes)) {
      k := 0;
    } else {
      var m := WhoViolates(ops[1..], scopes);
      k := m + 1;
      assert ops[1..][m] == ops[k];
      forall i | 0 <= i < k
        ensures InScope(ops[..k][i].path, scopes) && (ops[..k][i].from == "" || InScope(ops[..k][i].from, scopes))
      {
        if i > 0 { assert ops[..k][i] == ops[1..][..m][i - 1]; }
      }
    }
  }

  lemma {:induction false} FailsThere(doc: Json, ops: seq<PatchOp>)
    requires ApplyOps(doc, ops).None?
    ensures ApplyOps(doc, ops[..FirstFailure(doc, ops) + 1]).None?
    decreases |ops|
  {
    hide ApplyOp;
    var n := FirstFailure(doc, ops);
    assert ops[..n + 1][0] == ops[0];
    if ApplyOp(doc, ops[0]).Some? {
      var next := ApplyOp(doc, ops[0]).value;
      FailsThere(next, ops[1..]);
      assert ops[..n + 1][1..] == ops[1..][..n];
    }
  }

  /**
   Why a patch is refused. More than 256 operations come first, then the first target or source out of scope, a target
   before its own source, and only then the first operation that does not succeed.
   */
  lemma {:induction false} RefusalTells(payload: Json, ops: seq<PatchOp>, scopes: seq<string>)
    requires ApplyPatch(payload, Ops(ops), scopes).Err?
    ensures match ApplyPatch(payload, Ops(ops), scopes).error
            case NotAPatch => false
            case TooManyOps(count) => count == |ops| > 256
            case ScopeViolation(path) => |ops| <= 256 && exists k :: FirstOutside(ops, scopes, k, path)
            case OpFailed(i) =>
              && |ops| <= 256 && AllInScope(ops, scopes) && i < |ops|
              && ApplyOps(payload, ops[..i]).Some? && ApplyOps(payload, ops[..i + 1]).None?
    ensures ApplyPatch(payload, Absent, scopes) == Ok(payload)
    ensures ApplyPatch(payload, Unreadable, scopes) == Err(NotAPatch)
  {
    hide ApplyOps, FirstOutside, FirstViolation, AllInScope, FirstFailure;
    NoViolation(ops, scopes);
    if FirstViolation(ops, scopes).Some? {
      var k := WhoViolates(ops, scopes);
    } else if ApplyOps(payload, ops).None? {
      FailsThere(payload, ops);
    }
  }

  lemma {:induction false} UnescapePlain(plain: string, tail: string)
    requires '~' !in plain
    ensures Unescape(plain + tail) == plain + Unescape(tail)
  {
    if plain == "" {
      assert plain + tail == tail;
    } else {
      UnescapePlain(plain[1..], tail);
      assert (plain + tail)[1..] == plain[1..] + tail && [plain[0]] + plain[1..] == plain;
      assert [plain[0]] + (plain[1..] + Unescape(tail)) == plain + Unescape(tail);
    }
  }

  /** Which pointers are readable, and how their parts are unescaped, left to right in one pass. */
  lemma {:induction false} PointersTell(pointer: string, plain: string, tail: string)
    requires '~' !in plain
    ensures SplitPointer("") == Some([]) && (SplitPointer(pointer).None? <==> pointer != "" && pointer[0] != '/')
    ensures Unescape(plain + tail) == plain + Unescape(tail)
    ensures Unescape("~1" + tail) == "/" + Unescape(tail) && Unescape("~0" + tail) == "~" + Unescape(tail)
    ensures tail == "" || tail[0] !in {'0', '1'} ==> Unescape("~" + tail) == "~" + Unescape(tail)
  {
    hide UnescapeAll, Split;
    UnescapePlain(plain, tail);
    assert ("~1" + tail)[2..] == tail && ("~0" + tail)[2..] == tail && ("~" + tail)[1..] == tail;
  }
}
