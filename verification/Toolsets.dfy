/**
 Which toolset contributes a tool: resolveToolsets and toolsetIndex.For of
 internal/controlplane/snapshotter/snapshotter.go. A claim made twice fails the build, so the order of the toolsets
 cannot matter.
 */
module Toolsets {
  import opened Options
  import opened Permutations

  datatype Toolset = Toolset(id: string, namespaces: seq<string>, tools: seq<string>, exclude: seq<string>)

  datatype Index = Index(byTool: map<string, string>, byNamespace: map<string, string>, excluded: set<string>)

  const EMPTY := Index(map[], map[], {})

  datatype ToolsetError =
    | UnknownNamespace(toolset: string, namespaceId: string)
    | NamespaceClaimedTwice(namespaceId: string, prior: string, toolset: string)
    | ToolNamedTwice(tool: string, prior: string, toolset: string)

  /** An excluded tool is in no toolset; a tool named individually wins over its namespace's claim. */
  function For(index: Index, qualifiedName: string, namespaceId: string): Option<string> {
    if qualifiedName in index.excluded then None
    else if qualifiedName in index.byTool then Some(index.byTool[qualifiedName])
    else if namespaceId in index.byNamespace then Some(index.byNamespace[namespaceId])
    else None
  }

  // ---------------------------------------------------------------- the three loops over one toolset

  function ClaimNamespaces(claimed: map<string, string>, id: string, rest: seq<string>, known: set<string>)
    : Result<map<string, string>, ToolsetError>
    decreases |rest|
  {
    if rest == [] then Ok(claimed)
    else if rest[0] !in known then Err(UnknownNamespace(id, rest[0]))
    else if rest[0] in claimed then Err(NamespaceClaimedTwice(rest[0], claimed[rest[0]], id))
    else ClaimNamespaces(claimed[rest[0] := id], id, rest[1..], known)
  }

  function NameTools(named: map<string, string>, id: string,
                     rest: seq<string>): Result<map<string, string>, ToolsetError>
    decreases |rest|
  {
    if rest == [] then Ok(named)
    else if rest[0] in named then Err(ToolNamedTwice(rest[0], named[rest[0]], id))
    else NameTools(named[rest[0] := id], id, rest[1..])
  }

  function AddToolset(index: Index, ts: Toolset, known: set<string>): Result<Index, ToolsetError> {
    match ClaimNamespaces(index.byNamespace, ts.id, ts.namespaces, known)
    case Err(e) => Err(e)
    case Ok(claimed) =>
      match NameTools(index.byTool, ts.id, ts.tools)
      case Err(e) => Err(e)
      case Ok(named) => Ok(Index(named, claimed, index.excluded + set q | q in ts.exclude))
  }

  function Resolve(index: Index, rest: seq<Toolset>, known: set<string>): Result<Index, ToolsetError>
    decreases |rest|
  {
    if rest == [] then Ok(index)
    else
      match AddToolset(index, rest[0], known)
      case Err(e) => Err(e)
      case Ok(next) => Resolve(next, rest[1..], known)
  }

  /** The loops as the build runs them. */
  method ResolveToolsets(toolsets: seq<Toolset>, known: set<string>) returns (r: Result<Index, ToolsetError>)
    ensures r == Resolve(EMPTY, toolsets, known)
  {
    var index := EMPTY;
    for i := 0 to |toolsets|
      invariant Resolve(index, toolsets[i..], known) == Resolve(EMPTY, toolsets, known)
    {
      var ts := toolsets[i];
      ghost var before := index;
      assert toolsets[i..][0] == ts && toolsets[i..][1..] == toolsets[i + 1..];
      for k := 0 to |ts.namespaces|
        invariant ClaimNamespaces(index.byNamespace, ts.id, ts.namespaces[k..], known)
               == ClaimNamespaces(before.byNamespace, ts.id, ts.namespaces, known)
        invariant index == before.(byNamespace := index.byNamespace)
      {
        var ns := ts.namespaces[k];
        assert ts.namespaces[k..][0] == ns && ts.namespaces[k..][1..] == ts.namespaces[k + 1..];
        if ns !in known { return Err(UnknownNamespace(ts.id, ns)); }
        if ns in index.byNamespace { return Err(NamespaceClaimedTwice(ns, index.byNamespace[ns], ts.id)); }
        index := index.(byNamespace := index.byNamespace[ns := ts.id]);
      }
      ghost var claimed := index;
      for k := 0 to |ts.tools|
        invariant NameTools(index.byTool, ts.id, ts.tools[k..]) == NameTools(before.byTool, ts.id, ts.tools)
        invariant index == claimed.(byTool := index.byTool)
      {
        var q := ts.tools[k];
        assert ts.tools[k..][0] == q && ts.tools[k..][1..] == ts.tools[k + 1..];
        if q in index.byTool { return Err(ToolNamedTwice(q, index.byTool[q], ts.id)); }
        index := index.(byTool := index.byTool[q := ts.id]);
      }
      ghost var named := index;
      for k := 0 to |ts.exclude|
        invariant index == named.(excluded := named.excluded + set q | q in ts.exclude[..k])
      {
        index := index.(excluded := index.excluded + {ts.exclude[k]});
        assert ts.exclude[..k + 1] == ts.exclude[..k] + [ts.exclude[k]];
      }
      assert ts.exclude[..|ts.exclude|] == ts.exclude;
    }
    return Ok(index);
  }

  // ---------------------------------------------------------------- one toolset at once

  predicate Distinct(s: seq<string>) { s == [] || (s[0] !in s[1..] && Distinct(s[1..])) }

  /** `id` for every one of `s`. */
  function Owned(s: seq<string>, id: string): map<string, string> { map q | q in s :: id }

  predicate Free(s: seq<string>, m: map<string, string>) { forall q :: q in s ==> q !in m }

  predicate Known(s: seq<string>, known: set<string>) { forall q :: q in s ==> q in known }

  /** Nothing the toolset claims is claimed already, or twice by itself, and its namespaces exist. */
  predicate Addable(index: Index, ts: Toolset, known: set<string>) {
    && Distinct(ts.namespaces) && Known(ts.namespaces, known) && Free(ts.namespaces, index.byNamespace)
    && Distinct(ts.tools) && Free(ts.tools, index.byTool)
  }

  function Added(index: Index, ts: Toolset): Index {
    Index(index.byTool + Owned(ts.tools, ts.id), index.byNamespace + Owned(ts.namespaces, ts.id),
          index.excluded + set q | q in ts.exclude)
  }

  lemma {:induction false} OwnedCons(m: map<string, string>, s: seq<string>, id: string)
    requires s != []
    ensures m + Owned(s, id) == m[s[0] := id] + Owned(s[1..], id)
    ensures Free(s, m) && s[0] !in s[1..] <==> Free(s[1..], m[s[0] := id]) && s[0] !in m
  {
    assert s == [s[0]] + s[1..];
  }

  lemma {:induction false} ClaimsExact(m: map<string, string>, id: string, rest: seq<string>, known: set<string>)
    ensures ClaimNamespaces(m, id, rest, known).Ok? <==> Distinct(rest) && Known(rest, known) && Free(rest, m)
    ensures ClaimNamespaces(m, id, rest, known).Ok? ==> ClaimNamespaces(m, id, rest, known).value == m + Owned(rest, id)
    decreases |rest|
  {
    if rest == [] {
      assert m + Owned(rest, id) == m;
    } else {
      OwnedCons(m, rest, id);
      assert Known(rest, known) <==> rest[0] in known && Known(rest[1..], known) by {
        assert rest == [rest[0]] + rest[1..];
      }
      hide Owned, Free, Known;
      ClaimsExact(m[rest[0] := id], id, rest[1..], known);
      TakenIsNotFree(rest, m);
    }
  }

  lemma {:induction false} TakenIsNotFree(s: seq<string>, m: map<string, string>)
    requires s != []
    ensures s[0] in m ==> !Free(s, m)
  {
    assert s[0] in s;
  }

  lemma {:induction false} NamingsExact(m: map<string, string>, id: string, rest: seq<string>)
    ensures NameTools(m, id, rest).Ok? <==> Distinct(rest) && Free(rest, m)
    ensures NameTools(m, id, rest).Ok? ==> NameTools(m, id, rest).value == m + Owned(rest, id)
    decreases |rest|
  {
    if rest == [] {
      assert m + Owned(rest, id) == m;
    } else {
      OwnedCons(m, rest, id);
      hide Owned, Free;
      NamingsExact(m[rest[0] := id], id, rest[1..]);
      TakenIsNotFree(rest, m);
    }
  }

  lemma {:induction false} AddExact(index: Index, ts: Toolset, known: set<string>)
    ensures AddToolset(index, ts, known).Ok? <==> Addable(index, ts, known)
    ensures AddToolset(index, ts, known).Ok? ==> AddToolset(index, ts, known).value == Added(index, ts)
  {
    hide Distinct, ClaimNamespaces, NameTools, Owned, Free, Known;
    ClaimsExact(index.byNamespace, ts.id, ts.namespaces, known);
    NamingsExact(index.byTool, ts.id, ts.tools);
  }

  // ---------------------------------------------------------------- the order of the toolsets

  /** Both fail, or both give the same index. */
  predicate SameOutcome(a: Result<Index, ToolsetError>, b: Result<Index, ToolsetError>) {
    (a.Ok? <==> b.Ok?) && (a.Ok? ==> a == b)
  }

  lemma {:induction false} SwapMaps(m: map<string, string>, s: seq<string>, sid: string, t: seq<string>, tid: string)
    ensures Free(s, m) && Free(t, m + Owned(s, sid)) <==> Free(t, m) && Free(s, m + Owned(t, tid))
    ensures Free(s, m) && Free(t, m + Owned(s, sid)) ==>
              m + Owned(s, sid) + Owned(t, tid) == m + Owned(t, tid) + Owned(s, sid)
  {
  }

  lemma {:induction false} Swap(index: Index, a: Toolset, b: Toolset, known: set<string>)
    ensures Addable(index, a, known) && Addable(Added(index, a), b, known) <==>
              Addable(index, b, known) && Addable(Added(index, b), a, known)
    ensures Addable(index, a, known) && Addable(Added(index, a), b, known) ==>
              Added(Added(index, a), b) == Added(Added(index, b), a)
  {
    hide Distinct, Known, Free, Owned;
    SwapMaps(index.byNamespace, a.namespaces, a.id, b.namespaces, b.id);
    SwapMaps(index.byTool, a.tools, a.id, b.tools, b.id);
    assert index.excluded + (set q | q in a.exclude) + (set q | q in b.exclude)
        == index.excluded + (set q | q in b.exclude) + (set q | q in a.exclude);
  }

  lemma {:induction false} MoveToFront(index: Index, front: seq<Toolset>, x: Toolset, rest: seq<Toolset>,
                                       known: set<string>)
    ensures SameOutcome(Resolve(index, front + [x] + rest, known), Resolve(index, [x] + (front + rest), known))
    decreases |front|
  {
    hide AddToolset, Addable, Added;
    if front == [] {
      assert front + [x] + rest == [x] + (front + rest);
    } else {
      var a, more := front[0], front[1..];
      assert (front + [x] + rest)[1..] == more + [x] + rest && (front + rest)[1..] == more + rest;
      assert ([x] + (front + rest))[1..] == front + rest && ([x] + (more + rest))[1..] == more + rest;
      AddExact(index, a, known);
      AddExact(index, x, known);
      AddExact(Added(index, a), x, known);
      AddExact(Added(index, x), a, known);
      Swap(index, a, x, known);
      if Addable(index, a, known) { MoveToFront(Added(index, a), more, x, rest, known); }
    }
  }

  /** Permuting the toolsets changes neither whether they resolve nor any lookup. */
  lemma {:induction false} OrderIsImmaterial(index: Index, s: seq<Toolset>, t: seq<Toolset>, known: set<string>)
    requires multiset(s) == multiset(t)
    ensures SameOutcome(Resolve(index, s, known), Resolve(index, t, known))
    decreases |s|
  {
    hide AddToolset;
    if s == [] {
      EmptyOnly(t);
    } else {
      var x, more := s[0], s[1..];
      var i := FindHead(s, t);
      var front, rest := t[..i], t[i + 1..];
      MoveToFront(index, front, x, rest, known);
      assert ([x] + (front + rest))[1..] == front + rest;
      match AddToolset(index, x, known)
      case Err(_) =>
      case Ok(next) => OrderIsImmaterial(next, more, front + rest, known);
    }
  }

  // ---------------------------------------------------------------- what a lookup means

  datatype Kind = ByTool | ByNamespace

  function Claims(ts: Toolset, kind: Kind): seq<string> { if kind.ByTool? then ts.tools else ts.namespaces }

  function Claimed(index: Index, kind: Kind): map<string, string> {
    if kind.ByTool? then index.byTool else index.byNamespace
  }

  /** `out` holds the claims of `index` and, once each, those of `toolsets`. */
  ghost predicate Tells(index: Index, toolsets: seq<Toolset>, out: Index, kind: Kind) {
    && (forall q :: q in Claimed(out, kind) ==>
          (q in Claimed(index, kind) && Claimed(out, kind)[q] == Claimed(index, kind)[q])
          || exists ts :: ts in toolsets && q in Claims(ts, kind) && Claimed(out, kind)[q] == ts.id)
    && (forall q ::
          q in Claimed(index, kind) ==> q in Claimed(out, kind) && Claimed(out, kind)[q] == Claimed(index, kind)[q])
    && (forall ts, q ::
          ts in toolsets && q in Claims(ts, kind) ==> q in Claimed(out, kind) && Claimed(out, kind)[q] == ts.id)
  }

  lemma {:induction false} AddedClaims(index: Index, ts: Toolset, known: set<string>, kind: Kind)
    requires Addable(index, ts, known)
    ensures Claimed(Added(index, ts), kind) == Claimed(index, kind) + Owned(Claims(ts, kind), ts.id)
            && Free(Claims(ts, kind), Claimed(index, kind))
  {
  }

  lemma {:induction false} ResolveTells(index: Index, rest: seq<Toolset>, known: set<string>, kind: Kind)
    requires Resolve(index, rest, known).Ok?
    ensures Tells(index, rest, Resolve(index, rest, known).value, kind)
    decreases |rest|
  {
    hide AddToolset, Addable, Claims, Claimed, Added;
    if rest == [] {
      TellsNothing(index, kind);
    } else {
      hide Tells, Owned, Free;
      var ts, next := rest[0], Added(index, rest[0]);
      AddExact(index, ts, known);
      AddedClaims(index, ts, known, kind);
      ResolveTells(next, rest[1..], known, kind);
      assert rest == [ts] + rest[1..];
      OneMoreTells(index, ts, next, rest[1..], Resolve(index, rest, known).value, kind);
    }
  }

  lemma {:induction false} TellsNothing(index: Index, kind: Kind)
    ensures Tells(index, [], index, kind)
  {
  }

  lemma {:induction false} OneMoreTells(index: Index, ts: Toolset, next: Index, rest: seq<Toolset>, out: Index,
                                        kind: Kind)
    requires Tells(next, rest, out, kind)
    requires Claimed(next, kind) == Claimed(index, kind) + Owned(Claims(ts, kind), ts.id)
    requires Free(Claims(ts, kind), Claimed(index, kind))
    ensures Tells(index, [ts] + rest, out, kind)
  {
    hide Claims, Claimed;
  }

  lemma {:induction false} ResolveExcludes(index: Index, rest: seq<Toolset>, known: set<string>, q: string)
    requires Resolve(index, rest, known).Ok?
    ensures q in Resolve(index, rest, known).value.excluded <==>
              q in index.excluded || exists ts :: ts in rest && q in ts.exclude
    decreases |rest|
  {
    hide AddToolset, Addable, Owned;
    if rest != [] {
      AddExact(index, rest[0], known);
      ResolveExcludes(Added(index, rest[0]), rest[1..], known, q);
      assert rest == [rest[0]] + rest[1..];
    }
  }

  ghost predicate HasClaim(toolsets: seq<Toolset>, kind: Kind, key: string) {
    exists ts :: ts in toolsets && key in Claims(ts, kind)
  }

  /** Every toolset with this claim, and there is one, is `id`. */
  ghost predicate OnlyClaim(toolsets: seq<Toolset>, kind: Kind, key: string, id: string) {
    HasClaim(toolsets, kind, key) && forall ts :: ts in toolsets && key in Claims(ts, kind) ==> ts.id == id
  }

  /**
   A resolved lookup: the one toolset that names the tool, else the one that claims its namespace, unless some toolset
   excludes the tool. There is never a second candidate.
   */
  lemma {:induction false} LookupIsUnambiguous(toolsets: seq<Toolset>, known: set<string>, q: string, ns: string)
    requires Resolve(EMPTY, toolsets, known).Ok?
    ensures var found := For(Resolve(EMPTY, toolsets, known).value, q, ns);
            && (found.None? <==>
                  || (exists ts :: ts in toolsets && q in ts.exclude)
                  || (!HasClaim(toolsets, ByTool, q) && !HasClaim(toolsets, ByNamespace, ns)))
            && (found.Some? ==>
                  if HasClaim(toolsets, ByTool, q) then OnlyClaim(toolsets, ByTool, q, found.value)
                  else OnlyClaim(toolsets, ByNamespace, ns, found.value))
  {
    hide Resolve, Claims;
    ResolveTells(EMPTY, toolsets, known, ByTool);
    ResolveTells(EMPTY, toolsets, known, ByNamespace);
    ResolveExcludes(EMPTY, toolsets, known, q);
    var out := Resolve(EMPTY, toolsets, known).value;
    assert Claimed(EMPTY, ByTool) == map[] && Claimed(EMPTY, ByNamespace) == map[];
    assert Claimed(out, ByTool) == out.byTool && Claimed(out, ByNamespace) == out.byNamespace;
    assert q in out.byTool <==> HasClaim(toolsets, ByTool, q);
    assert ns in out.byNamespace <==> HasClaim(toolsets, ByNamespace, ns);
  }

  // ---------------------------------------------------------------- when the toolsets resolve

  /** The claims of one kind, in the order the toolsets make them. */
  function AllClaims(rest: seq<Toolset>, kind: Kind): seq<string> {
    if rest == [] then [] else Claims(rest[0], kind) + AllClaims(rest[1..], kind)
  }

  predicate Once(s: seq<string>) { forall i, j :: 0 <= i < j < |s| ==> s[i] != s[j] }

  predicate Twice(s: seq<string>, key: string) { exists i, j :: 0 <= i < j < |s| && s[i] == s[j] == key }

  lemma {:induction false} DistinctIsOnce(s: seq<string>)
    ensures Distinct(s) <==> Once(s)
  {
    if s != [] {
      DistinctIsOnce(s[1..]);
      assert forall i :: 0 < i < |s| ==> s[i] == s[1..][i - 1];
      if s[0] in s[1..] {
        var k :| 0 <= k < |s[1..]| && s[1..][k] == s[0];
        assert s[0] == s[k + 1];
      }
      if Once(s[1..]) && s[0] !in s[1..] {
        forall i, j | 0 <= i < j < |s| ensures s[i] != s[j] {
          assert s[j] == s[1..][j - 1];
        }
      }
      if Once(s) {
        forall i, j | 0 <= i < j < |s[1..]| ensures s[1..][i] != s[1..][j] {
          assert s[i + 1] != s[j + 1];
        }
      }
    }
  }

  lemma {:induction false} OnceAppends(a: seq<string>, b: seq<string>)
    ensures Once(a + b) <==> Once(a) && Once(b) && forall q :: q in a ==> q !in b
  {
    if Once(a + b) {
      forall i, j | 0 <= i < j < |a| ensures a[i] != a[j] { assert (a + b)[i] != (a + b)[j]; }
      forall i, j | 0 <= i < j < |b| ensures b[i] != b[j] { assert (a + b)[|a| + i] != (a + b)[|a| + j]; }
      forall i, j | 0 <= i < |a| && 0 <= j < |b| ensures a[i] != b[j] { assert (a + b)[i] != (a + b)[|a| + j]; }
    } else if Once(a) && Once(b) && forall q :: q in a ==> q !in b {
      forall i, j | 0 <= i < j < |a + b| ensures (a + b)[i] != (a + b)[j] {
        if i < |a| <= j { assert a[i] in a && b[j - |a|] in b; }
      }
      assert false;
    }
  }

  lemma {:induction false} FreeAppends(a: seq<string>, b: seq<string>, m: map<string, string>, id: string)
    ensures Once(a + b) && Free(a + b, m) <==> Once(a) && Free(a, m) && Once(b) && Free(b, m + Owned(a, id))
  {
    hide Once;
    OnceAppends(a, b);
  }

  /** No claim of that kind is made twice, here or before. */
  predicate Fresh(index: Index, rest: seq<Toolset>, kind: Kind) {
    Once(AllClaims(rest, kind)) && Free(AllClaims(rest, kind), Claimed(index, kind))
  }

  predicate NamespacesExist(rest: seq<Toolset>, known: set<string>) {
    forall ts, ns :: ts in rest && ns in ts.namespaces ==> ns in known
  }

  lemma {:induction false} FreshStep(index: Index, rest: seq<Toolset>, kind: Kind)
    requires rest != []
    ensures Fresh(index, rest, kind) <==>
              && Distinct(Claims(rest[0], kind)) && Free(Claims(rest[0], kind), Claimed(index, kind))
              && Fresh(Added(index, rest[0]), rest[1..], kind)
  {
    hide Once, Distinct, Free, Owned;
    DistinctIsOnce(Claims(rest[0], kind));
    FreeAppends(Claims(rest[0], kind), AllClaims(rest[1..], kind), Claimed(index, kind), rest[0].id);
    assert Claimed(Added(index, rest[0]), kind) == Claimed(index, kind) + Owned(Claims(rest[0], kind), rest[0].id);
  }

  lemma {:induction false} NamespacesStep(rest: seq<Toolset>, known: set<string>)
    requires rest != []
    ensures NamespacesExist(rest, known) <==> Known(rest[0].namespaces, known) && NamespacesExist(rest[1..], known)
  {
    assert rest == [rest[0]] + rest[1..];
  }

  lemma {:induction false} ResolvesIffFresh(index: Index, rest: seq<Toolset>, known: set<string>)
    ensures Resolve(index, rest, known).Ok? <==>
              NamespacesExist(rest, known) && Fresh(index, rest, ByTool) && Fresh(index, rest, ByNamespace)
    decreases |rest|
  {
    hide AddToolset, Distinct, Free, Known, Once, Added;
    if rest != [] {
      AddExact(index, rest[0], known);
      NamespacesStep(rest, known);
      FreshStep(index, rest, ByTool);
      FreshStep(index, rest, ByNamespace);
      hide Fresh, NamespacesExist;
      ResolvesIffFresh(Added(index, rest[0]), rest[1..], known);
    } else {
      NothingIsFresh(index);
    }
  }

  lemma {:induction false} NothingIsFresh(index: Index)
    ensures Fresh(index, [], ByTool) && Fresh(index, [], ByNamespace)
  {
  }

  /**
   Exactly when the toolsets resolve: every namespace they name exists, and over all of them no namespace is claimed
   twice and no tool is named twice.
   */
  lemma {:induction false} ResolvesIff(toolsets: seq<Toolset>, known: set<string>)
    ensures Resolve(EMPTY, toolsets, known).Ok? <==>
              && (forall ts, ns :: ts in toolsets && ns in ts.namespaces ==> ns in known)
              && Once(AllClaims(toolsets, ByNamespace)) && Once(AllClaims(toolsets, ByTool))
  {
    hide Resolve, Once, AllClaims;
    ResolvesIffFresh(EMPTY, toolsets, known);
  }

  // ---------------------------------------------------------------- why they do not

  /** A toolset `id` claims the key, and `prior` did before it: in `index`, in an earlier toolset, or in itself. */
  ghost predicate Doubled(index: Index, rest: seq<Toolset>, kind: Kind, key: string, prior: string, id: string) {
    exists j ::
      && 0 <= j < |rest| && rest[j].id == id && key in Claims(rest[j], kind)
      && (|| (key in Claimed(index, kind) && Claimed(index, kind)[key] == prior)
          || (prior == id && Twice(Claims(rest[j], kind), key))
          || exists i :: 0 <= i < j && rest[i].id == prior && key in Claims(rest[i], kind))
  }

  ghost predicate Faults(index: Index, rest: seq<Toolset>, known: set<string>, err: ToolsetError) {
    match err
    case UnknownNamespace(id, ns) =>
      ns !in known && exists ts :: ts in rest && ts.id == id && ns in ts.namespaces
    case NamespaceClaimedTwice(ns, prior, id) => Doubled(index, rest, ByNamespace, ns, prior, id)
    case ToolNamedTwice(tool, prior, id) => Doubled(index, rest, ByTool, tool, prior, id)
  }

  lemma {:induction false} TwiceGrows(s: seq<string>, key: string)
    requires s != [] && (Twice(s[1..], key) || (s[0] == key && key in s[1..]))
    ensures Twice(s, key)
  {
    if Twice(s[1..], key) {
      var i, j :| 0 <= i < j < |s[1..]| && s[1..][i] == s[1..][j] == key;
      assert s[i + 1] == s[j + 1] == key;
    } else {
      var k :| 0 <= k < |s[1..]| && s[1..][k] == key;
      assert s[0] == s[k + 1] == key;
    }
  }

  lemma {:induction false} ClaimFails(m: map<string, string>, id: string, rest: seq<string>, known: set<string>)
    requires ClaimNamespaces(m, id, rest, known).Err?
    ensures var err := ClaimNamespaces(m, id, rest, known).error;
            || (err.UnknownNamespace? && err.toolset == id && err.namespaceId in rest && err.namespaceId !in known)
            || (err.NamespaceClaimedTwice? && err.toolset == id && err.namespaceId in rest
                && (|| (err.namespaceId in m && m[err.namespaceId] == err.prior)
                    || (err.prior == id && Twice(rest, err.namespaceId))))
    decreases |rest|
  {
    if rest[0] in known && rest[0] !in m {
      ClaimFails(m[rest[0] := id], id, rest[1..], known);
      var err := ClaimNamespaces(m, id, rest, known).error;
      if Twice(rest[1..], err.namespaceId) || (rest[0] == err.namespaceId && rest[0] in rest[1..]) {
        TwiceGrows(rest, err.namespaceId);
      }
    }
  }

  lemma {:induction false} NamingFails(m: map<string, string>, id: string, rest: seq<string>)
    requires NameTools(m, id, rest).Err?
    ensures var err := NameTools(m, id, rest).error;
            && err.ToolNamedTwice? && err.toolset == id && err.tool in rest
            && (|| (err.tool in m && m[err.tool] == err.prior)
                || (err.prior == id && Twice(rest, err.tool)))
    decreases |rest|
  {
    if rest[0] !in m {
      NamingFails(m[rest[0] := id], id, rest[1..]);
      var err := NameTools(m, id, rest).error;
      if Twice(rest[1..], err.tool) || (rest[0] == err.tool && rest[0] in rest[1..]) {
        TwiceGrows(rest, err.tool);
      }
    }
  }

  lemma {:induction false} AddFails(index: Index, rest: seq<Toolset>, known: set<string>)
    requires rest != [] && AddToolset(index, rest[0], known).Err?
    ensures Faults(index, rest, known, AddToolset(index, rest[0], known).error)
  {
    hide ClaimNamespaces, NameTools, Twice;
    var ts := rest[0];
    assert ts in rest;
    if ClaimNamespaces(index.byNamespace, ts.id, ts.namespaces, known).Err? {
      ClaimFails(index.byNamespace, ts.id, ts.namespaces, known);
    } else {
      NamingFails(index.byTool, ts.id, ts.tools);
    }
  }

  lemma {:induction false} DoubledLater(index: Index, rest: seq<Toolset>, kind: Kind, key: string, prior: string,
                                        id: string)
    requires rest != [] && Doubled(Added(index, rest[0]), rest[1..], kind, key, prior, id)
    ensures Doubled(index, rest, kind, key, prior, id)
  {
    hide Twice;
    var ts, more := rest[0], rest[1..];
    assert Claimed(Added(index, ts), kind) == Claimed(index, kind) + Owned(Claims(ts, kind), ts.id);
    hide Added, Claimed, Claims;
    var j :| && 0 <= j < |more| && more[j].id == id && key in Claims(more[j], kind)
             && (|| (key in Claimed(Added(index, ts), kind) && Claimed(Added(index, ts), kind)[key] == prior)
                 || (prior == id && Twice(Claims(more[j], kind), key))
                 || exists i :: 0 <= i < j && more[i].id == prior && key in Claims(more[i], kind));
    assert more[j] == rest[j + 1];
    if i :| 0 <= i < j && more[i].id == prior && key in Claims(more[i], kind) {
      assert rest[i + 1] == more[i];
    }
  }

  lemma {:induction false} ResolveFails(index: Index, rest: seq<Toolset>, known: set<string>)
    requires Resolve(index, rest, known).Err?
    ensures Faults(index, rest, known, Resolve(index, rest, known).error)
    decreases |rest|
  {
    hide AddToolset, Added, Doubled, Addable;
    if AddToolset(index, rest[0], known).Err? {
      AddFails(index, rest, known);
    } else {
      AddExact(index, rest[0], known);
      ResolveFails(Added(index, rest[0]), rest[1..], known);
      assert rest == [rest[0]] + rest[1..];
      match Resolve(index, rest, known).error
      case UnknownNamespace(_, _) =>
      case NamespaceClaimedTwice(ns, prior, id) => DoubledLater(index, rest, ByNamespace, ns, prior, id);
      case ToolNamedTwice(tool, prior, id) => DoubledLater(index, rest, ByTool, tool, prior, id);
    }
  }

  /** `key` is claimed by a toolset `id` and, before that, by a toolset `prior`; or twice by one and the same. */
  ghost predicate ClaimedTwice(toolsets: seq<Toolset>, kind: Kind, key: string, prior: string, id: string) {
    exists i, j ::
      && 0 <= i <= j < |toolsets| && toolsets[i].id == prior && toolsets[j].id == id
      && key in Claims(toolsets[i], kind) && key in Claims(toolsets[j], kind)
      && (i == j ==> Twice(Claims(toolsets[j], kind), key))
  }

  /** Why toolsets do not resolve: whichever error comes out is true of them. */
  lemma {:induction false} FaultsAreTrue(toolsets: seq<Toolset>, known: set<string>)
    requires Resolve(EMPTY, toolsets, known).Err?
    ensures match Resolve(EMPTY, toolsets, known).error
            case UnknownNamespace(id, ns) =>
              ns !in known && exists ts :: ts in toolsets && ts.id == id && ns in ts.namespaces
            case NamespaceClaimedTwice(ns, prior, id) => ClaimedTwice(toolsets, ByNamespace, ns, prior, id)
            case ToolNamedTwice(tool, prior, id) => ClaimedTwice(toolsets, ByTool, tool, prior, id)
  {
    hide Resolve, Twice;
    ResolveFails(EMPTY, toolsets, known);
  }
}
