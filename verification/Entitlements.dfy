/**
 The entitlements plugin (plugins/entitlements/main.go) and what its catalog patch does once the gateway's
 patch engine applies it.
 */
module Entitlements {
  import opened Options
  import opened Json
  import opened Text
  import opened JsonPatch
  import opened Verdicts

  datatype Tool = Tool(name: string, effectClass: string)

  datatype Rule = Rule(pattern: string, allowGroups: seq<string>, denyGroups: seq<string>, effectClasses: seq<string>)

  /** The two library predicates the plugin relies on: glob matching and case-insensitive equality. */
  datatype Library = Library(glob: (string, string) -> bool, equalFold: (string, string) -> bool)

  datatype Config = Config(library: Library, groups: seq<string>, rules: seq<Rule>, defaultAllow: bool,
                           hideDenied: bool)

  // ---------------------------------------------------------------- the rules

  predicate Matches(lib: Library, pattern: string, name: string) {
    pattern == "" || pattern == "*" || lib.glob(pattern, name)
  }

  predicate Contains(lib: Library, haystack: seq<string>, needle: string) {
    exists i :: 0 <= i < |haystack| && lib.equalFold(haystack[i], needle)
  }

  predicate Intersects(a: seq<string>, b: seq<string>) {
    exists i :: 0 <= i < |a| && a[i] in b
  }

  predicate Applies(lib: Library, rule: Rule, tool: Tool) {
    Matches(lib, rule.pattern, tool.name) &&
    (rule.effectClasses == [] || Contains(lib, rule.effectClasses, tool.effectClass))
  }

  /** Deny wins inside a rule; a rule without allowed groups allows everyone it does not deny. */
  predicate Grants(rule: Rule, groups: seq<string>) {
    !Intersects(rule.denyGroups, groups) && (rule.allowGroups == [] || Intersects(rule.allowGroups, groups))
  }

  /** The first rule that applies decides. */
  ghost predicate Allowed(c: Config, tool: Tool) {
    if exists i :: DecidingRule(c, tool, i) then exists i :: DecidingRule(c, tool, i) && Grants(c.rules[i], c.groups)
    else c.defaultAllow
  }

  ghost predicate DecidingRule(c: Config, tool: Tool, i: int) {
    0 <= i < |c.rules| && Applies(c.library, c.rules[i], tool) &&
    forall j :: 0 <= j < i ==> !Applies(c.library, c.rules[j], tool)
  }

  /** The rule speaks to the tool: by name, and by effect class where it names any. */
  predicate SpeaksTo(c: Config, i: int, tool: Tool) {
    0 <= i < |c.rules|
    && var rule := c.rules[i];
       && (rule.pattern in {"", "*"} || c.library.glob(rule.pattern, tool.name))
       && (|rule.effectClasses| == 0
           || exists effect :: effect in rule.effectClasses && c.library.equalFold(effect, tool.effectClass))
  }

  /**
   What the rules come to. The first rule that speaks to a tool decides: a group it denies is refused, and so is
   everyone in none of the groups it allows, if it names any. Where no rule speaks, the default holds.
   */
  lemma {:induction false} RulesTell(c: Config, tool: Tool, i: int)
    ensures SpeaksTo(c, i, tool) && (forall j :: 0 <= j < i ==> !SpeaksTo(c, j, tool)) ==>
              (Allowed(c, tool) <==>
                 && (forall group :: group in c.groups ==> group !in c.rules[i].denyGroups)
                 && (c.rules[i].allowGroups == []
                     || exists group :: group in c.groups && group in c.rules[i].allowGroups))
    ensures (forall j :: !SpeaksTo(c, j, tool)) ==> (Allowed(c, tool) <==> c.defaultAllow)
  {
    forall j ensures SpeaksTo(c, j, tool) <==> 0 <= j < |c.rules| && Applies(c.library, c.rules[j], tool) {
      SpeaksIfApplies(c, j, tool);
    }
    hide SpeaksTo, Applies, Grants;
    if SpeaksTo(c, i, tool) && forall j :: 0 <= j < i ==> !SpeaksTo(c, j, tool) {
      assert DecidingRule(c, tool, i);
      assert forall j :: DecidingRule(c, tool, j) ==> j == i;
      GrantsTell(c.rules[i], c.groups);
    }
  }

  lemma {:induction false} SpeaksIfApplies(c: Config, j: int, tool: Tool)
    ensures SpeaksTo(c, j, tool) <==> 0 <= j < |c.rules| && Applies(c.library, c.rules[j], tool)
  {
  }

  lemma {:induction false} GrantsTell(rule: Rule, groups: seq<string>)
    ensures Grants(rule, groups) <==>
              && (forall group :: group in groups ==> group !in rule.denyGroups)
              && (rule.allowGroups == [] || exists group :: group in groups && group in rule.allowGroups)
  {
    if group :| group in groups && group in rule.denyGroups {
      var k :| 0 <= k < |rule.denyGroups| && rule.denyGroups[k] == group;
    }
    if group :| group in groups && group in rule.allowGroups {
      var k :| 0 <= k < |rule.allowGroups| && rule.allowGroups[k] == group;
    }
  }

  method ContainsFold(lib: Library, haystack: seq<string>, needle: string) returns (found: bool)
    ensures found <==> Contains(lib, haystack, needle)
  {
    for i := 0 to |haystack|
      invariant forall j :: 0 <= j < i ==> !lib.equalFold(haystack[j], needle)
    {
      if lib.equalFold(haystack[i], needle) { return true; }
    }
    return false;
  }

  method Meet(a: seq<string>, b: seq<string>) returns (found: bool)
    ensures found <==> Intersects(a, b)
  {
    for i := 0 to |a|
      invariant forall k :: 0 <= k < i ==> a[k] !in b
    {
      for j := 0 to |b|
        invariant a[i] !in b[..j]
      {
        if a[i] == b[j] { return true; }
        assert b[..j + 1] == b[..j] + [b[j]];
      }
      assert b[..|b|] == b;
    }
    return false;
  }

  method IsAllowed(c: Config, tool: Tool) returns (ok: bool)
    ensures ok <==> Allowed(c, tool)
  {
    for i := 0 to |c.rules|
      invariant forall j :: 0 <= j < i ==> !Applies(c.library, c.rules[j], tool)
    {
      var r := c.rules[i];
      if !Matches(c.library, r.pattern, tool.name) { continue; }
      if |r.effectClasses| > 0 {
        var covered := ContainsFold(c.library, r.effectClasses, tool.effectClass);
        if !covered { continue; }
      }
      assert DecidingRule(c, tool, i);
      assert forall j :: DecidingRule(c, tool, j) ==> j == i;
      if |r.denyGroups| > 0 {
        var denied := Meet(r.denyGroups, c.groups);
        if denied { return false; }
      }
      if |r.allowGroups| > 0 {
        ok := Meet(r.allowGroups, c.groups);
        return;
      }
      return true;
    }
    return c.defaultAllow;
  }

  // ---------------------------------------------------------------- the two hooks

  function DenyVerdict(reason: string): Verdict { ALLOW.(decision := Deny, reason := reason) }

  /** ON_TOOL_CALL: `tool` is None when the invocation names no tool. */
  method EnforceCall(c: Config, tool: Option<Tool>) returns (v: Verdict)
    ensures v.decision == if tool.None? || Allowed(c, tool.value) then Allow else Deny
    ensures v.patch.Absent?
  {
    if tool.None? { return ALLOW; }
    var ok := IsAllowed(c, tool.value);
    if ok { return ALLOW; }
    return DenyVerdict(tool.value.name + " requires an entitlement this principal does not hold");
  }

  function RemoveTool(i: nat): PatchOp { PatchOp("remove", "/catalog/" + Itoa(i), "", None) }

  /** The removals for the tools before `n` that are not kept, last one first. */
  function Removals(keep: seq<bool>, n: nat): seq<PatchOp>
    requires n <= |keep|
  {
    if n == 0 then [] else (if keep[n - 1] then [] else [RemoveTool(n - 1)]) + Removals(keep, n - 1)
  }

  ghost function Keep(c: Config, catalog: seq<Tool>): (keep: seq<bool>)
    ensures |keep| == |catalog|
  {
    seq(|catalog|, i requires 0 <= i < |catalog| => Allowed(c, catalog[i]))
  }

  /** ON_CATALOG: the reason text and the annotations are not modelled. */
  method FilterCatalog(c: Config, catalog: seq<Tool>) returns (v: Verdict)
    ensures var ops := Removals(Keep(c, catalog), |catalog|);
            if !c.hideDenied || ops == [] then v == ALLOW else v == ALLOW.(decision := Mutate, patch := Ops(ops))
  {
    hide Allowed, RemoveTool;
    if |catalog| == 0 || !c.hideDenied { return ALLOW; }
    ghost var keep := Keep(c, catalog);
    var ops: seq<PatchOp> := [];
    var i := |catalog| - 1;
    while i >= 0
      invariant -1 <= i < |catalog|
      invariant ops + Removals(keep, i + 1) == Removals(keep, |catalog|)
    {
      ghost var before := ops;
      var ok := IsAllowed(c, catalog[i]);
      if !ok { ops := ops + [RemoveTool(i)]; }
      assert ops + Removals(keep, i) == before + Removals(keep, i + 1);
      i := i - 1;
    }
    assert ops == Removals(keep, |catalog|) by { assert Removals(keep, 0) == [] && ops + [] == ops; }
    if |ops| == 0 { return ALLOW; }
    return ALLOW.(decision := Mutate, patch := Ops(ops));
  }

  // ---------------------------------------------------------------- what the patch does

  /** The items kept, in order. */
  function Kept<T>(items: seq<T>, keep: seq<bool>): seq<T>
    requires |items| == |keep|
  {
    if items == [] then []
    else Kept(items[..|items| - 1], keep[..|keep| - 1]) + (if keep[|keep| - 1] then [items[|items| - 1]] else [])
  }

  /** How many of the first `n` are kept. */
  function Rank(keep: seq<bool>, n: nat): nat
    requires n <= |keep|
  {
    if n == 0 then 0 else Rank(keep, n - 1) + if keep[n - 1] then 1 else 0
  }

  lemma {:induction false} RankOfPrefix(keep: seq<bool>, m: nat, n: nat)
    requires n <= m <= |keep|
    ensures Rank(keep[..m], n) == Rank(keep, n)
  {
    if n > 0 { RankOfPrefix(keep, m, n - 1); }
  }

  /** Kept is the subsequence: each kept item stands where the kept items before it leave it, and nothing else does. */
  lemma {:induction false} KeptIsSubsequence<T>(items: seq<T>, keep: seq<bool>)
    requires |items| == |keep|
    ensures |Kept(items, keep)| == Rank(keep, |keep|)
    ensures forall i ::
              0 <= i < |items| && keep[i] ==>
                Rank(keep, i) < |Kept(items, keep)| && Kept(items, keep)[Rank(keep, i)] == items[i]
  {
    if items != [] {
      var n := |items| - 1;
      KeptIsSubsequence(items[..n], keep[..n]);
      forall i | 0 <= i <= n ensures Rank(keep[..n], i) == Rank(keep, i) { RankOfPrefix(keep, n, i); }
      forall i | 0 <= i < |items| && keep[i]
        ensures Rank(keep, i) < |Kept(items, keep)| && Kept(items, keep)[Rank(keep, i)] == items[i]
      {
        if i < n { assert keep[..n][i] && items[..n][i] == items[i]; }
      }
    }
  }

  function WithCatalog(payload: Json, items: seq<Json>): Json
    requires payload.Obj?
  {
    Obj(payload.members["catalog" := Arr(items)])
  }

  /** A pointer of one plain name and an index. */
  lemma {:induction false} IndexPath(name: string, i: nat)
    requires '~' !in name && '/' !in name && !Numeric(name)
    ensures SplitPointer(['/'] + name + ['/'] + Itoa(i)) == Some([name, Itoa(i)])
    ensures i <= MAX_INT ==> PointerToDotted(['/'] + name + ['/'] + Itoa(i)) == name
  {
    var tail := Itoa(i);
    var pointer := ['/'] + name + ['/'] + tail;
    assert pointer[1..] == name + ['/'] + tail;
    SplitHead(name, tail, '/');
    SplitWhole(tail, '/');
    NoEscapes(name);
    NoEscapes(tail);
    var raw := [name] + [tail];
    assert raw[1..] == [tail] && [tail][1..] == [];
    assert UnescapeAll([tail]) == [tail];
    assert UnescapeAll(raw) == [name, tail];
    if i <= MAX_INT {
      AtoiOfItoa(i);
      var parts := [name, tail];
      assert parts[1..] == [tail];
      assert DropNumeric([tail]) == [];
      assert DropNumeric(parts) == [name];
    }
  }

  lemma {:induction false} CatalogPath(i: nat)
    ensures SplitPointer(RemoveTool(i).path) == Some(["catalog", Itoa(i)])
    ensures i <= MAX_INT ==> PointerToDotted(RemoveTool(i).path) == "catalog"
  {
    hide SplitPointer, PointerToDotted;
    var name := "catalog";
    assert !Numeric(name) by { assert !IsDigit(name[0]); }
    assert RemoveTool(i).path == ['/'] + name + ['/'] + Itoa(i);
    IndexPath(name, i);
  }

  lemma {:induction false} NoEscapes(s: string)
    requires '~' !in s
    ensures Unescape(s) == s
  {
    if s != "" { NoEscapes(s[1..]); }
  }

  predicate HasCatalog(payload: Json) {
    payload.Obj? && "catalog" in payload.members && payload.members["catalog"].Arr?
  }

  function CatalogOf(payload: Json): seq<Json>
    requires HasCatalog(payload)
  {
    payload.members["catalog"].items
  }

  lemma {:induction false} WithCatalogLaws(payload: Json, one: seq<Json>, two: seq<Json>)
    requires HasCatalog(payload)
    ensures HasCatalog(WithCatalog(payload, one)) && CatalogOf(WithCatalog(payload, one)) == one
    ensures WithCatalog(WithCatalog(payload, one), two) == WithCatalog(payload, two)
    ensures WithCatalog(payload, CatalogOf(payload)) == payload
  {
    assert payload.members["catalog" := Arr(one)]["catalog" := Arr(two)] == payload.members["catalog" := Arr(two)];
    assert payload.members["catalog" := payload.members["catalog"]] == payload.members;
  }

  lemma {:induction false} RemoveAtIndex(payload: Json, i: nat)
    requires i <= MAX_INT && HasCatalog(payload) && i < |CatalogOf(payload)|
    ensures ApplyOp(payload, RemoveTool(i)) ==
            Some(WithCatalog(payload, CatalogOf(payload)[..i] + CatalogOf(payload)[i + 1..]))
  {
    CatalogPath(i);
    AtoiOfItoa(i);
    var items := CatalogOf(payload);
    var parts := ["catalog", Itoa(i)];
    assert parts[1..] == [Itoa(i)];
    assert items[..i] + [] + items[i + 1..] == items[..i] + items[i + 1..];
    assert EditAt(Arr(items), [Itoa(i)], Remove) == Some(Arr(items[..i] + items[i + 1..]));
  }

  lemma {:induction false} KeptStep<T>(items: seq<T>, keep: seq<bool>, n: nat)
    requires 0 < n <= |items| && n <= |keep|
    ensures Kept(items[..n], keep[..n]) == Kept(items[..n - 1], keep[..n - 1]) + if keep[n - 1] then [items[n - 1]]
            else []
  {
    assert items[..n][..n - 1] == items[..n - 1] && keep[..n][..n - 1] == keep[..n - 1];
  }

  /** The items with those before `n` filtered. */
  function Trim<T>(items: seq<T>, keep: seq<bool>, n: nat): seq<T>
    requires n <= |keep| && n <= |items|
  {
    Kept(items[..n], keep[..n]) + items[n..]
  }

  lemma {:induction false} TrimStep<T>(items: seq<T>, keep: seq<bool>, n: nat)
    requires 0 < n <= |keep| && n <= |items|
    ensures Trim(items, keep, n) ==
            if keep[n - 1] then Trim(items, keep, n - 1) else Trim(items[..n - 1] + items[n..], keep, n - 1)
  {
    KeptStep(items, keep, n);
    var head := Kept(items[..n - 1], keep[..n - 1]);
    if keep[n - 1] {
      assert head + items[n - 1..] == head + [items[n - 1]] + items[n..];
    } else {
      var fewer := items[..n - 1] + items[n..];
      assert fewer[..n - 1] == items[..n - 1] && fewer[n - 1..] == items[n..];
      assert head + [] == head;
    }
  }

  lemma {:induction false} TrimNone<T>(items: seq<T>, keep: seq<bool>)
    ensures Trim(items, keep, 0) == items
  {
  }

  /** Applied one by one from the end, the index removals are a list filter. */
  lemma {:induction false} RemovalsFilter(payload: Json, keep: seq<bool>, n: nat)
    requires n <= |keep| && n <= MAX_INT && HasCatalog(payload) && n <= |CatalogOf(payload)|
    ensures ApplyOps(payload, Removals(keep, n)) == Some(WithCatalog(payload, Trim(CatalogOf(payload), keep, n)))
    decreases n
  {
    var items := CatalogOf(payload);
    if n == 0 {
      TrimNone(items, keep);
      WithCatalogLaws(payload, items, items);
    } else {
      TrimStep(items, keep, n);
      if keep[n - 1] {
        RemovalsFilter(payload, keep, n - 1);
        assert Removals(keep, n) == Removals(keep, n - 1);
      } else {
        var fewer := items[..n - 1] + items[n..];
        RemoveAtIndex(payload, n - 1);
        WithCatalogLaws(payload, fewer, Trim(fewer, keep, n - 1));
        RemovalsFilter(WithCatalog(payload, fewer), keep, n - 1);
        OpsStep(payload, Removals(keep, n), RemoveTool(n - 1), Removals(keep, n - 1));
      }
    }
  }

  lemma {:induction false} OpsStep(payload: Json, ops: seq<PatchOp>, first: PatchOp, rest: seq<PatchOp>)
    requires ops == [first] + rest && ApplyOp(payload, first).Some?
    ensures ApplyOps(payload, ops) == ApplyOps(ApplyOp(payload, first).value, rest)
  {
    assert ops[1..] == rest;
  }

  lemma {:induction false} RemovalPaths(keep: seq<bool>, n: nat)
    requires n <= |keep|
    ensures forall op :: op in Removals(keep, n) ==> exists j: nat :: j < n && op == RemoveTool(j)
    ensures |Removals(keep, n)| + Rank(keep, n) == n
  {
    if n > 0 {
      RemovalPaths(keep, n - 1);
      forall op | op in Removals(keep, n) ensures exists j: nat :: j < n && op == RemoveTool(j) {
        if op !in Removals(keep, n - 1) { assert op == RemoveTool(n - 1); }
      }
    }
  }

  /** All removals are in scope, or none. */
  lemma {:induction false} RemovalScope(keep: seq<bool>, n: nat, writes: seq<string>)
    requires n <= |keep| && n <= MAX_INT && Removals(keep, n) != []
    ensures AllInScope(Removals(keep, n), writes) <==> Covered("catalog", writes)
  {
    var ops := Removals(keep, n);
    RemovalPaths(keep, n);
    forall i | 0 <= i < |ops|
      ensures InScope(ops[i].path, writes) <==> Covered("catalog", writes)
      ensures ops[i].from == ""
    {
      assert ops[i] in ops;
      var j: nat :| j < n && ops[i] == RemoveTool(j);
      CatalogPath(j);
    }
    assert InScope(ops[0].path, writes) <==> Covered("catalog", writes);
  }

  /**
   End to end. For any payload carrying the catalog and any declared writes, the patch the plugin sends is
   accepted exactly when at most 256 tools are hidden and the writes cover `catalog`; then the catalog is
   exactly the allowed tools in their old order and nothing else in the payload changes.
   */
  lemma {:induction false} CatalogIsFiltered(c: Config, catalog: seq<Tool>, payload: Json, writes: seq<string>)
    requires HasCatalog(payload) && |CatalogOf(payload)| == |catalog| <= MAX_INT
    requires Removals(Keep(c, catalog), |catalog|) != []
    ensures var keep, ops := Keep(c, catalog), Removals(Keep(c, catalog), |catalog|);
            var r := ApplyPatch(payload, Ops(ops), writes);
            && (r.Ok? <==> |catalog| - Rank(keep, |catalog|) <= MAX_PATCH_OPERATIONS && Covered("catalog", writes))
            && (r.Ok? ==> r.value == WithCatalog(payload, Kept(CatalogOf(payload), keep)))
  {
    hide ApplyOps, ApplyPatch, Kept, AllInScope, FirstViolation, Removals, Covered, RemoveTool;
    var keep := Keep(c, catalog);
    var items := CatalogOf(payload);
    RemovalPaths(keep, |catalog|);
    RemovalsFilter(payload, keep, |catalog|);
    assert Trim(items, keep, |catalog|) == Kept(items, keep) by {
      assert items[..|catalog|] == items && keep[..|catalog|] == keep && items[|catalog|..] == [];
    }
    RemovalScope(keep, |catalog|, writes);
    PatchIsAllOrNothing(payload, Removals(keep, |catalog|), writes);
  }

  /** Which tools the catalog hook leaves: with `hideDenied` off, all of them. */
  ghost function Offered(c: Config, catalog: seq<Tool>): (offered: seq<bool>)
    ensures |offered| == |catalog|
  {
    seq(|catalog|, i requires 0 <= i < |catalog| => !c.hideDenied || Allowed(c, catalog[i]))
  }

  lemma {:induction false} KeptAll<T>(items: seq<T>, keep: seq<bool>)
    requires |items| == |keep| && forall i :: 0 <= i < |keep| ==> keep[i]
    ensures Kept(items, keep) == items
  {
    if items != [] { KeptAll(items[..|items| - 1], keep[..|keep| - 1]); }
  }

  lemma {:induction false} KeptMembers<T>(items: seq<T>, keep: seq<bool>, x: T)
    requires |items| == |keep|
    ensures x in Kept(items, keep) <==> exists i :: 0 <= i < |items| && keep[i] && items[i] == x
  {
    if items != [] {
      var front, kept := items[..|items| - 1], keep[..|keep| - 1];
      KeptMembers(front, kept, x);
      assert forall i :: 0 <= i < |front| ==> front[i] == items[i] && kept[i] == keep[i];
    }
  }

  /** What the payload's catalog is once the hook's verdict is applied, if its patch is accepted. */
  lemma {:induction false} CatalogLeft(c: Config, catalog: seq<Tool>, payload: Json, writes: seq<string>, v: Verdict)
    requires HasCatalog(payload) && |CatalogOf(payload)| == |catalog| <= MAX_INT
    requires var ops := Removals(Keep(c, catalog), |catalog|);
             if !c.hideDenied || ops == [] then v == ALLOW else v == ALLOW.(decision := Mutate, patch := Ops(ops))
    ensures var r := ApplyPatch(payload, v.patch, writes);
            r.Ok? ==> r.value == WithCatalog(payload, Kept(CatalogOf(payload), Offered(c, catalog)))
  {
    hide Kept, Removals, Trim, ApplyOps, AllInScope, FirstViolation, Allowed;
    var items, keep := CatalogOf(payload), Keep(c, catalog);
    WithCatalogLaws(payload, items, items);
    if !c.hideDenied {
      KeptAll(items, Offered(c, catalog));
    } else {
      assert Offered(c, catalog) == keep;
      if v == ALLOW {
        RemovalsFilter(payload, keep, |catalog|);
        WithCatalogLaws(payload, Trim(items, keep, |catalog|), items);
        TrimWhole(items, keep);
        NoOps(payload);
      } else {
        CatalogIsFiltered(c, catalog, payload, writes);
      }
    }
  }

  lemma {:induction false} TrimWhole<T>(items: seq<T>, keep: seq<bool>)
    requires |items| == |keep|
    ensures Trim(items, keep, |items|) == Kept(items, keep)
  {
    assert items[..|items|] == items && keep[..|keep|] == keep;
  }

  lemma {:induction false} NoOps(payload: Json)
    ensures ApplyOps(payload, []) == Some(payload)
  {
  }

  /** The name a tool is shown under: with a credential that spans tenants, behind its tenant's. */
  function ShownAs(tool: Tool, tenant: string, spanning: bool): Tool {
    if spanning then tool.(name := tenant + "." + tool.name) else tool
  }

  /**
   Both hooks together. The catalog hook judges the tools as they are shown, the call hook the tool as it is called. So
   the catalog the filter leaves offers a tool exactly if it is allowed as shown or denied tools are not hidden, and
   being offered means being callable exactly when the rules treat both names alike, and denied tools are hidden or
   this one is not denied.
   */
  method OfferedIffCallable(c: Config, catalog: seq<Tool>, payload: Json, writes: seq<string>, i: nat, called: Tool)
    returns (left: Result<Json, PatchError>, call: Verdict)
    requires HasCatalog(payload) && |CatalogOf(payload)| == |catalog| <= MAX_INT && i < |catalog|
    ensures call.decision in {Allow, Deny} && (call.decision == Allow <==> Allowed(c, called))
    ensures (Offered(c, catalog)[i] <==> call.decision == Allow)
              <==> if c.hideDenied then Allowed(c, catalog[i]) == Allowed(c, called) else Allowed(c, called)
    ensures left.Ok? ==> left.value == WithCatalog(payload, Kept(CatalogOf(payload), Offered(c, catalog)))
    ensures var items := CatalogOf(payload);
            left.Ok? && (forall j :: 0 <= j < |items| && j != i ==> items[j] != items[i]) ==>
              (items[i] in CatalogOf(left.value) <==> Offered(c, catalog)[i])
  {
    hide Kept, ApplyPatch, Removals, Allowed;
    var v := FilterCatalog(c, catalog);
    left := ApplyPatch(payload, v.patch, writes);
    call := EnforceCall(c, Some(called));
    CatalogLeft(c, catalog, payload, writes, v);
    ghost var items, kept := CatalogOf(payload), Kept(CatalogOf(payload), Offered(c, catalog));
    KeptMembers(items, Offered(c, catalog), items[i]);
    WithCatalogLaws(payload, kept, kept);
  }

  /** Within one tenant both hooks see the same name, and a hiding filter offers exactly what can be called. */
  lemma {:induction false} OneNameOneAnswer(c: Config, catalog: seq<Tool>, tool: Tool, tenant: string, i: nat)
    requires i < |catalog| && catalog[i] == ShownAs(tool, tenant, false) && c.hideDenied
    ensures Offered(c, catalog)[i] <==> Allowed(c, tool)
  {
    hide Allowed;
  }

  /**
   Across tenants it can differ. A rule written for a qualified name, which does not match the name behind its tenant's,
   refuses a group the call and still offers it the tool.
   */
  lemma {:induction false} SpanningOffersUncallable(lib: Library, pattern: string, group: string, tool: Tool,
                                                    tenant: string) returns (c: Config)
    requires pattern != "" && pattern != "*" && lib.glob(pattern, tool.name)
    requires !lib.glob(pattern, ShownAs(tool, tenant, true).name)
    ensures c.hideDenied && c.library == lib && c.groups == [group]
    ensures Offered(c, [ShownAs(tool, tenant, true)])[0] && !Allowed(c, tool)
  {
    c := Config(lib, [group], [Rule(pattern, [], [group], [])], true, true);
    assert DecidingRule(c, tool, 0);
    assert c.rules[0].denyGroups[0] in c.groups;
    assert forall j :: DecidingRule(c, tool, j) ==> j == 0;
  }
}
