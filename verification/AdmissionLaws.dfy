/**
 What admission guarantees about every snapshot it lets through, and about what can make it fail.
 */
module AdmissionLaws {
  import opened Options
  import opened Permutations
  import opened Text
  import opened Verdicts
  import opened Toolsets
  import opened Admission

  // ---------------------------------------------------------------- which tools are admitted

  /** Not dropped by the registry, and in a toolset. */
  predicate Admissible(s: Site, name: string) { !Dropped(s, name) && ToolsetOf(s, name).Some? }

  function AdmittedAs(s: Site, tool: Tool): AdmittedTool
    requires Admissible(s, tool.name)
  {
    AdmittedTool(s.tenant, s.srv.id, s.srv.namespaceId, ToolsetOf(s, tool.name).value, Qualified(s.prefix, tool.name),
                 tool, if EffectOf(s, tool.name).Some? then EffectOf(s, tool.name).value else s.fallback)
  }

  function AdmittedOf(s: Site, tools: seq<Tool>): seq<AdmittedTool> {
    if tools == [] then []
    else (if Admissible(s, tools[0].name) then [AdmittedAs(s, tools[0])] else []) + AdmittedOf(s, tools[1..])
  }

  function ExcludedOf(s: Site, tools: seq<Tool>): seq<string> {
    if tools == [] then []
    else (if Admissible(s, tools[0].name) then [] else [tools[0].name]) + ExcludedOf(s, tools[1..])
  }

  function QualifiedOf(tools: seq<AdmittedTool>): seq<string> {
    seq(|tools|, i requires 0 <= i < |tools| => tools[i].qualified)
  }

  predicate Unique(tools: seq<AdmittedTool>) {
    forall i, j ::
      0 <= i < j < |tools| ==> tools[i].tenant.slug != tools[j].tenant.slug || tools[i].qualified != tools[j].qualified
  }

  /** Every admitted name of this tenant is claimed. */
  predicate Covered(tools: seq<AdmittedTool>, slug: string, claimed: map<string, string>) {
    forall k :: 0 <= k < |tools| && tools[k].tenant.slug == slug ==> tools[k].qualified in claimed
  }

  lemma {:induction false} NoNames()
    ensures QualifiedOf([]) == []
  {
  }

  lemma {:induction false} NameFirst(one: AdmittedTool, more: seq<AdmittedTool>)
    ensures QualifiedOf([one] + more) == [one.qualified] + QualifiedOf(more)
  {
  }

  lemma {:induction false} AdmitOneIsFilter(s: Site, p: Pass, tool: Tool)
    requires AdmitOne(s, p, tool).Ok?
    ensures var r := AdmitOne(s, p, tool).value;
            if Admissible(s, tool.name)
            then r.tools == p.tools + [AdmittedAs(s, tool)] && r.excluded == p.excluded
                 && r.admitted == p.admitted + [AdmittedAs(s, tool).qualified]
            else r.tools == p.tools && r.excluded == p.excluded + [tool.name] && r.admitted == p.admitted
  {
    hide Qualified, For;
  }

  /** A binding that is let through admits exactly its admissible tools, in name order, and excludes the others. */
  lemma {:induction false} AdmitAllIsFilter(s: Site, p: Pass, rest: seq<Tool>)
    requires AdmitAll(s, p, rest).Ok?
    ensures var r := AdmitAll(s, p, rest).value;
            && r.tools == p.tools + AdmittedOf(s, rest)
            && r.excluded == p.excluded + ExcludedOf(s, rest)
            && r.admitted == p.admitted + QualifiedOf(AdmittedOf(s, rest))
    decreases |rest|
  {
    hide AdmitOne, Admissible, AdmittedAs, QualifiedOf;
    if rest == [] {
      NoNames();
    } else {
      AdmitOneIsFilter(s, p, rest[0]);
      AdmitAllIsFilter(s, AdmitOne(s, p, rest[0]).value, rest[1..]);
      if Admissible(s, rest[0].name) {
        var one, more := AdmittedAs(s, rest[0]), AdmittedOf(s, rest[1..]);
        assert p.tools + [one] + more == p.tools + ([one] + more);
        NameFirst(one, more);
        assert AdmittedOf(s, rest) == [one] + more;
        assert p.admitted + [one.qualified] + QualifiedOf(more) == p.admitted + ([one.qualified] + QualifiedOf(more));
      } else {
        assert AdmittedOf(s, rest) == AdmittedOf(s, rest[1..]);
      }
    }
  }

  lemma {:induction false} CountsAddUp(s: Site, tools: seq<Tool>)
    ensures |AdmittedOf(s, tools)| + |ExcludedOf(s, tools)| == |tools|
  {
    hide Admissible, AdmittedAs;
    if tools != [] { CountsAddUp(s, tools[1..]); }
  }

  /** Admitting a binding keeps the tenant's names unique. */
  lemma {:induction false} AdmitAllKeepsKeys(s: Site, p: Pass, rest: seq<Tool>)
    requires AdmitAll(s, p, rest).Ok? && Unique(p.tools) && Covered(p.tools, s.tenant.slug, p.claimed)
    ensures var r := AdmitAll(s, p, rest).value;
            && Unique(r.tools) && Covered(r.tools, s.tenant.slug, r.claimed)
            && p.tools <= r.tools && (forall k :: |p.tools| <= k < |r.tools| ==> r.tools[k].tenant == s.tenant)
            && (forall q :: q in p.claimed ==> q in r.claimed && r.claimed[q] == p.claimed[q])
            && (forall q ::
                  q in r.claimed && q !in p.claimed ==>
                    r.claimed[q] == s.srv.name && exists name :: q == Qualified(s.prefix, name))
    decreases |rest|
  {
    hide Qualified, For;
    if rest != [] {
      AdmitAllKeepsKeys(s, AdmitOne(s, p, rest[0]).value, rest[1..]);
    }
  }

  // ---------------------------------------------------------------- permutations of a backend's list

  lemma {:induction false} ClaimedBlocks(s: Site, p: Pass, rest: seq<Tool>, j: nat)
    requires j < |rest| && Admissible(s, rest[j].name) && Qualified(s.prefix, rest[j].name) in p.claimed
    ensures AdmitAll(s, p, rest).Err?
    decreases |rest|
  {
    hide Qualified, For;
    if j > 0 && AdmitOne(s, p, rest[0]).Ok? { ClaimedBlocks(s, AdmitOne(s, p, rest[0]).value, rest[1..], j - 1); }
  }

  /** Two admissible tools of one name cannot both be let through. */
  lemma {:induction false} NoneTwice(s: Site, p: Pass, rest: seq<Tool>, i: nat, j: nat)
    requires i < j < |rest| && rest[i].name == rest[j].name && Admissible(s, rest[i].name)
    ensures AdmitAll(s, p, rest).Err?
    decreases |rest|
  {
    hide Qualified, For;
    if AdmitOne(s, p, rest[0]).Ok? {
      var next := AdmitOne(s, p, rest[0]).value;
      if i == 0 { ClaimedBlocks(s, next, rest[1..], j - 1); } else { NoneTwice(s, next, rest[1..], i - 1, j - 1); }
    }
  }

  /** Only the names matter, except of the tools that are admitted. */
  predicate SameWhereItMatters(s: Site, a: seq<Tool>, b: seq<Tool>) {
    |a| == |b| && forall i :: 0 <= i < |a| ==> a[i].name == b[i].name && (Admissible(s, a[i].name) ==> a[i] == b[i])
  }

  lemma {:induction false} Pointwise(s: Site, p: Pass, a: seq<Tool>, b: seq<Tool>)
    requires SameWhereItMatters(s, a, b)
    ensures AdmitAll(s, p, a) == AdmitAll(s, p, b)
    decreases |a|
  {
    hide Qualified, For;
    if a != [] && AdmitOne(s, p, a[0]).Ok? { Pointwise(s, AdmitOne(s, p, a[0]).value, a[1..], b[1..]); }
  }

  /** Go's order on names, ties included. */
  predicate AtMost(a: string, b: string) { !Less(b, a) }

  lemma {:induction false} AtMostTransitive(a: string, b: string, c: string)
    requires AtMost(a, b) && AtMost(b, c)
    ensures AtMost(a, c)
  {
    hide Less;
    LessTotal(a, b);
    if Less(c, a) && Less(a, b) { LessTransitive(c, a, b); }
  }

  lemma {:induction false} LessIsAtMost(a: string, b: string)
    requires Less(a, b)
    ensures AtMost(a, b)
  {
    hide Less;
    LessIrreflexive(a);
    if Less(b, a) { LessTransitive(a, b, a); }
  }

  predicate InOrder(s: seq<Tool>) { forall i, j :: 0 <= i < j < |s| ==> AtMost(s[i].name, s[j].name) }

  lemma {:induction false} InsertHolds(s: seq<Tool>, x: Tool)
    ensures multiset(InsertTool(s, x)) == multiset(s) + multiset{x}
  {
    hide Less;
    if s != [] {
      InsertHolds(s[1..], x);
      assert s == [s[0]] + s[1..];
    }
  }

  lemma {:induction false} InsertKeepsOrder(s: seq<Tool>, x: Tool)
    requires InOrder(s)
    ensures InOrder(InsertTool(s, x))
  {
    hide Less, AtMost;
    if s != [] {
      var rest := s[1..];
      if Less(s[0].name, x.name) {
        InsertKeepsOrder(rest, x);
        InsertHolds(rest, x);
        LessIsAtMost(s[0].name, x.name);
        var t := InsertTool(rest, x);
        forall k | 0 <= k < |t| ensures AtMost(s[0].name, t[k].name) {
          assert t[k] in multiset(t);
          assert t[k] in rest || t[k] == x;
        }
      } else {
        assert AtMost(x.name, s[0].name) by { NotLess(x.name, s[0].name); }
        forall k | 0 <= k < |s| ensures AtMost(x.name, s[k].name) {
          if k > 0 { AtMostTransitive(x.name, s[0].name, s[k].name); }
        }
      }
    }
  }

  lemma {:induction false} NotLess(a: string, b: string)
    ensures AtMost(a, b) <==> !Less(b, a)
  {
  }

  lemma {:induction false} SortsInOrder(s: seq<Tool>)
    ensures InOrder(SortTools(s)) && multiset(SortTools(s)) == multiset(s) && |SortTools(s)| == |s|
  {
    hide InsertTool, InOrder;
    if s == [] {
      assert InOrder([]) by { EmptyInOrder(); }
    } else {
      SortsInOrder(s[1..]);
      InsertKeepsOrder(SortTools(s[1..]), s[0]);
      InsertHolds(SortTools(s[1..]), s[0]);
      assert s == [s[0]] + s[1..];
      assert |multiset(SortTools(s))| == |multiset(s)|;
    }
  }

  lemma {:induction false} EmptyInOrder()
    ensures InOrder([])
  {
  }

  /** Two sorted arrangements of the same tools carry the same names in the same places. */
  lemma {:induction false} NamesAgree(a: seq<Tool>, b: seq<Tool>)
    requires InOrder(a) && InOrder(b) && multiset(a) == multiset(b)
    ensures |a| == |b| && forall k :: 0 <= k < |a| ==> a[k].name == b[k].name
    decreases |a|
  {
    hide AtMost;
    if a == [] {
      EmptyOnly(b);
    } else {
      var i := FindHead(a, b);
      var less := b[..i] + b[i + 1..];
      assert forall k :: 0 <= k < |less| ==> less[k] == if k < i then b[k] else b[k + 1];
      NamesAgree(a[1..], less);
      forall k | 0 <= k <= i ensures b[k].name == a[0].name { SameFirstName(a, b, i, k); }
      forall k | 0 <= k < |a| ensures a[k].name == b[k].name {
        if k > 0 { assert a[k] == a[1..][k - 1]; }
      }
    }
  }

  /** Up to the place where the first of `a` stands in `b`, all names are its name. */
  lemma {:induction false} SameFirstName(a: seq<Tool>, b: seq<Tool>, i: nat, k: nat)
    requires InOrder(a) && InOrder(b) && multiset(a) == multiset(b) && a != [] && k <= i < |b| && b[i] == a[0]
    ensures b[k].name == a[0].name
  {
    if k < i {
      assert b[k] in multiset(a);
      var j :| 0 <= j < |a| && a[j] == b[k];
      assert AtMost(b[k].name, b[i].name);
      assert j == 0 || AtMost(a[0].name, a[j].name);
      LessTotal(a[0].name, b[k].name);
    }
  }

  /** Both fail, or both give the same. */
  predicate SameOutcome<T(==)>(a: Result<T, BuildError>, b: Result<T, BuildError>) {
    (a.Ok? <==> b.Ok?) && (a.Ok? ==> a == b)
  }

  /** If the first arrangement is let through, so is the second, with the same result. */
  lemma {:induction false} ArrangedAlike(s: Site, p: Pass, a: seq<Tool>, b: seq<Tool>)
    requires InOrder(a) && InOrder(b) && multiset(a) == multiset(b) && AdmitAll(s, p, a).Ok?
    ensures AdmitAll(s, p, a) == AdmitAll(s, p, b)
  {
    hide Admissible, AdmitAll;
    NamesAgree(a, b);
    forall i | 0 <= i < |a| && Admissible(s, a[i].name) ensures a[i] == b[i] {
      assert b[i] in multiset(a);
      var j :| 0 <= j < |a| && a[j] == b[i];
      if j < i { NoneTwice(s, p, a, j, i); } else if i < j { NoneTwice(s, p, a, i, j); }
    }
    Pointwise(s, p, a, b);
  }

  lemma {:induction false} ListOrderIsImmaterial(s: Site, p: Pass, one: seq<Tool>, two: seq<Tool>)
    requires multiset(one) == multiset(two)
    ensures SameOutcome(AdmitAll(s, p, SortTools(one)), AdmitAll(s, p, SortTools(two)))
            && |SortTools(one)| == |SortTools(two)|
  {
    hide AdmitAll, InOrder;
    SortsInOrder(one);
    SortsInOrder(two);
    assert |multiset(one)| == |one| && |multiset(two)| == |two|;
    if AdmitAll(s, p, SortTools(one)).Ok? {
      ArrangedAlike(s, p, SortTools(one), SortTools(two));
    } else if AdmitAll(s, p, SortTools(two)).Ok? {
      ArrangedAlike(s, p, SortTools(two), SortTools(one));
    }
  }

  // ---------------------------------------------------------------- the whole build, backends reordered

  /** The same bindings were reached, and each published the same tools in some order. */
  predicate SamePublications(a: Reports, b: Reports) {
    a.Keys == b.Keys && forall k :: k in a ==> multiset(a[k]) == multiset(b[k])
  }

  lemma {:induction false} BindingsReordered(e: Env, reports: Reports, srv: ServerSpec, fallback: EffectClass, b: Built,
                                             rest: seq<BindingSpec>)
    requires TenantsKnown(e, rest) && SamePublications(e.reports, reports)
    ensures TenantsKnown(e.(reports := reports), rest)
    ensures SameOutcome(AdmitBindings(e, srv, fallback, b, rest),
                        AdmitBindings(e.(reports := reports), srv, fallback, b, rest))
    decreases |rest|
  {
    hide AdmitAll, SortTools;
    if rest != [] {
      var key := BindingKey(srv.id, rest[0].tenant);
      if key in reports {
        ListOrderIsImmaterial(SiteOf(e, srv, fallback, rest[0]), Pass(ClaimedBy(b, rest[0].tenant), b.tools, [], []),
                              e.reports[key], reports[key]);
      }
      if AdmitBinding(e, srv, fallback, b, rest[0]).Ok? {
        BindingsReordered(e, reports, srv, fallback, AdmitBinding(e, srv, fallback, b, rest[0]).value, rest[1..]);
      }
    }
  }

  lemma {:induction false} SameUnknown(e: Env, reports: Reports, bindings: seq<BindingSpec>)
    ensures FirstUnknown(e.(reports := reports), bindings) == FirstUnknown(e, bindings)
  {
    if bindings != [] { SameUnknown(e, reports, bindings[1..]); }
  }

  lemma {:induction false} ServersReordered(e: Env, reports: Reports, b: Built, rest: seq<ServerSpec>)
    requires SamePublications(e.reports, reports)
    ensures SameOutcome(AdmitServers(e, b, rest), AdmitServers(e.(reports := reports), b, rest))
    decreases |rest|
  {
    hide AdmitBindings, SamePublications;
    if rest != [] {
      var srv := rest[0];
      SameUnknown(e, reports, srv.bindings);
      if e.g.effect(srv.defaultEffect).Some? && FirstUnknown(e, srv.bindings).None? {
        BindingsReordered(e, reports, srv, e.g.effect(srv.defaultEffect).value, b, srv.bindings);
      }
      if AdmitServer(e, b, srv).Ok? { ServersReordered(e, reports, AdmitServer(e, b, srv).value, rest[1..]); }
    }
  }

  /**
   The order in which backends list their tools decides nothing: the build fails for both or gives the same catalog.
   */
  lemma {:induction false} BackendOrderIsImmaterial(g: Grammar, spec: Spec, tenants: seq<Tenant>, one: Reports,
                                                    two: Reports)
    requires SamePublications(one, two)
    ensures SameOutcome(Build(g, spec, tenants, one), Build(g, spec, tenants, two))
  {
    hide AdmitServers, SamePublications, IndexTenants, IndexNamespaces, Resolve;
    if EnvOf(g, spec, tenants, one).Ok? {
      ServersReordered(EnvOf(g, spec, tenants, one).value, two, NOTHING, spec.servers);
    }
  }

  /** Nor does the order of the toolsets. */
  lemma {:induction false} ToolsetOrderIsImmaterial(g: Grammar, spec: Spec, toolsets: seq<Toolset>,
                                                    tenants: seq<Tenant>, reports: Reports)
    requires multiset(spec.toolsets) == multiset(toolsets)
    ensures SameOutcome(Build(g, spec, tenants, reports), Build(g, spec.(toolsets := toolsets), tenants, reports))
  {
    hide AdmitServers, IndexTenants, IndexNamespaces, Resolve;
    OrderIsImmaterial(EMPTY, spec.toolsets, toolsets, IndexNamespaces(spec.namespaces).Keys);
  }

  // ---------------------------------------------------------------- what every catalog satisfies

  /** The tool was published by a binding of a server of the spec, and admitted there under its own rules. */
  predicate Published(e: Env, srv: ServerSpec, binding: BindingSpec, t: AdmittedTool) {
    && binding in srv.bindings && binding.tenant in e.tenants && e.g.effect(srv.defaultEffect).Some?
    && BindingKey(srv.id, binding.tenant) in e.reports && t.tool in e.reports[BindingKey(srv.id, binding.tenant)]
    && var s := SiteOf(e, srv, e.g.effect(srv.defaultEffect).value, binding);
    Admissible(s, t.tool.name) && t == AdmittedAs(s, t.tool)
  }

  ghost predicate FromSpec(e: Env, servers: seq<ServerSpec>, t: AdmittedTool) {
    exists srv, binding :: srv in servers && Published(e, srv, binding, t)
  }

  /** Every tenant's admitted names are claimed, and by whom is known. */
  ghost predicate Keyed(e: Env, servers: seq<ServerSpec>, b: Built) {
    && Unique(b.tools)
    && (forall slug :: Covered(b.tools, slug, ClaimedBy(b, slug)))
    && (forall slug :: AllClaimed(e, servers, ClaimedBy(b, slug)))
    && AllFromSpec(e, servers, b.tools) && AllCounted(e, b.discovered)
  }

  ghost predicate AllClaimed(e: Env, servers: seq<ServerSpec>, claimed: map<string, string>) {
    forall q :: q in claimed ==> Claimant(e, servers, q, claimed[q])
  }

  ghost predicate AllFromSpec(e: Env, servers: seq<ServerSpec>, tools: seq<AdmittedTool>) {
    forall k :: 0 <= k < |tools| ==> FromSpec(e, servers, tools[k])
  }

  /** A report accounts for exactly what its backend published. */
  predicate Counted(e: Env, s: Summary) {
    var key := BindingKey(s.serverId, s.tenant);
    key in e.reports && s.toolCount == |e.reports[key]| == |s.admitted| + |s.excluded|
  }

  predicate AllCounted(e: Env, discovered: seq<Summary>) {
    forall k :: 0 <= k < |discovered| ==> Counted(e, discovered[k])
  }

  /** A server of this name, in whose namespace the qualified name lies. */
  ghost predicate Claimant(e: Env, servers: seq<ServerSpec>, q: string, serverName: string) {
    exists srv, name :: srv in servers && srv.name == serverName && q == Qualified(PrefixOf(e, srv), name)
  }

  lemma {:induction false} AdmittedIn(s: Site, tools: seq<Tool>, k: nat)
    requires k < |AdmittedOf(s, tools)|
    ensures var t := AdmittedOf(s, tools)[k];
            t.tool in tools && Admissible(s, t.tool.name) && t == AdmittedAs(s, t.tool)
  {
    hide Admissible;
    if tools != [] {
      assert tools == [tools[0]] + tools[1..];
      if !Admissible(s, tools[0].name) {
        AdmittedIn(s, tools[1..], k);
      } else if k > 0 {
        AdmittedIn(s, tools[1..], k - 1);
      }
    }
  }

  lemma {:induction false} TenantsBySlug(m: map<string, Tenant>, rest: seq<Tenant>)
    requires IndexTenants(m, rest).Ok? && forall slug :: slug in m ==> m[slug].slug == slug
    ensures forall slug :: slug in IndexTenants(m, rest).value ==> IndexTenants(m, rest).value[slug].slug == slug
    decreases |rest|
  {
    if rest != [] { TenantsBySlug(m[rest[0].slug := rest[0]], rest[1..]); }
  }

  lemma {:induction false} BindingKeeps(e: Env, servers: seq<ServerSpec>, srv: ServerSpec, b: Built,
                                        binding: BindingSpec)
    requires Keyed(e, servers, b) && srv in servers && binding in srv.bindings && binding.tenant in e.tenants
    requires e.tenants[binding.tenant].slug == binding.tenant && e.g.effect(srv.defaultEffect).Some?
    requires AdmitBinding(e, srv, e.g.effect(srv.defaultEffect).value, b, binding).Ok?
    ensures Keyed(e, servers, AdmitBinding(e, srv, e.g.effect(srv.defaultEffect).value, b, binding).value)
  {
    var key := BindingKey(srv.id, binding.tenant);
    if key in e.reports {
      hide AdmitAll, SortTools, Admissible, AdmittedAs, AdmittedOf, ExcludedOf, QualifiedOf, Qualified, Unique, Covered,
           SiteOf, AllClaimed, AllFromSpec;
      var fallback := e.g.effect(srv.defaultEffect).value;
      var s := SiteOf(e, srv, fallback, binding);
      var p, tools := Pass(ClaimedBy(b, binding.tenant), b.tools, [], []), SortTools(e.reports[key]);
      var r := AdmitAll(s, p, tools).value;
      var next := AdmitBinding(e, srv, fallback, b, binding).value;
      SiteFacts(e, srv, fallback, binding);
      AdmitAllIsFilter(s, p, tools);
      AdmitAllKeepsKeys(s, p, tools);
      CountsAddUp(s, tools);
      NamesCount(AdmittedOf(s, tools));
      SortsInOrder(e.reports[key]);
      NewlyClaimed(e, servers, srv, p.claimed, r.claimed);
      NewlyAdmitted(e, servers, srv, binding, b.tools);
      forall slug
        ensures Covered(next.tools, slug, ClaimedBy(next, slug)) && AllClaimed(e, servers, ClaimedBy(next, slug))
      {
        if slug != binding.tenant { StillCovered(b.tools, next.tools, slug, ClaimedBy(b, slug), s.tenant); }
      }
    }
  }

  lemma {:induction false} SiteFacts(e: Env, srv: ServerSpec, fallback: EffectClass, binding: BindingSpec)
    requires binding.tenant in e.tenants
    ensures var s := SiteOf(e, srv, fallback, binding);
            s.tenant == e.tenants[binding.tenant] && s.srv == srv && s.prefix == PrefixOf(e, srv)
  {
  }

  lemma {:induction false} NewlyClaimed(e: Env, servers: seq<ServerSpec>, srv: ServerSpec, before: map<string, string>,
                                        after: map<string, string>)
    requires srv in servers && AllClaimed(e, servers, before)
    requires forall q :: q in before ==> q in after && after[q] == before[q]
    requires forall q ::
               q in after && q !in before ==>
                 after[q] == srv.name && exists name :: q == Qualified(PrefixOf(e, srv), name)
    ensures AllClaimed(e, servers, after)
  {
    hide Qualified, PrefixOf, Claimant;
    forall q | q in after ensures Claimant(e, servers, q, after[q]) {
      if q !in before { IsClaimant(e, servers, srv, q); } else { assert Claimant(e, servers, q, before[q]); }
    }
  }

  lemma {:induction false} NewlyAdmitted(e: Env, servers: seq<ServerSpec>, srv: ServerSpec, binding: BindingSpec,
                                         before: seq<AdmittedTool>)
    requires srv in servers && binding in srv.bindings && binding.tenant in e.tenants
             && e.g.effect(srv.defaultEffect).Some?
    requires BindingKey(srv.id, binding.tenant) in e.reports && AllFromSpec(e, servers, before)
    ensures var s := SiteOf(e, srv, e.g.effect(srv.defaultEffect).value, binding);
            AllFromSpec(e, servers, before + AdmittedOf(s, SortTools(e.reports[BindingKey(srv.id, binding.tenant)])))
  {
    hide AdmittedOf, SortTools, SiteOf, FromSpec;
    var more := AdmittedOf(SiteOf(e, srv, e.g.effect(srv.defaultEffect).value, binding),
                           SortTools(e.reports[BindingKey(srv.id, binding.tenant)]));
    forall k | 0 <= k < |before + more| ensures FromSpec(e, servers, (before + more)[k]) {
      if k >= |before| { IsFromSpec(e, servers, srv, binding, k - |before|); }
    }
  }

  lemma {:induction false} NamesCount(tools: seq<AdmittedTool>)
    ensures |QualifiedOf(tools)| == |tools|
  {
  }

  lemma {:induction false} StillCovered(before: seq<AdmittedTool>, after: seq<AdmittedTool>, slug: string,
                                        claimed: map<string, string>, t: Tenant)
    requires Covered(before, slug, claimed) && before <= after && t.slug != slug
    requires forall k :: |before| <= k < |after| ==> after[k].tenant == t
    ensures Covered(after, slug, claimed)
  {
  }

  lemma {:induction false} IsClaimant(e: Env, servers: seq<ServerSpec>, srv: ServerSpec, q: string)
    requires srv in servers && exists name :: q == Qualified(PrefixOf(e, srv), name)
    ensures Claimant(e, servers, q, srv.name)
  {
    hide Qualified, PrefixOf;
  }

  lemma {:induction false} IsFromSpec(e: Env, servers: seq<ServerSpec>, srv: ServerSpec, binding: BindingSpec, k: nat)
    requires srv in servers && binding in srv.bindings && binding.tenant in e.tenants
             && e.g.effect(srv.defaultEffect).Some?
    requires BindingKey(srv.id, binding.tenant) in e.reports
    requires var s := SiteOf(e, srv, e.g.effect(srv.defaultEffect).value, binding);
             k < |AdmittedOf(s, SortTools(e.reports[BindingKey(srv.id, binding.tenant)]))|
    ensures var s := SiteOf(e, srv, e.g.effect(srv.defaultEffect).value, binding);
            FromSpec(e, servers, AdmittedOf(s, SortTools(e.reports[BindingKey(srv.id, binding.tenant)]))[k])
  {
    hide Admissible, AdmittedAs, SortTools, SiteOf;
    var s, tools :=
      SiteOf(e, srv, e.g.effect(srv.defaultEffect).value, binding), e.reports[BindingKey(srv.id, binding.tenant)];
    AdmittedIn(s, SortTools(tools), k);
    SortsInOrder(tools);
    var t := AdmittedOf(s, SortTools(tools))[k];
    assert t.tool in multiset(SortTools(tools));
    assert Published(e, srv, binding, t);
  }

  lemma {:induction false} BindingsKeep(e: Env, servers: seq<ServerSpec>, srv: ServerSpec, b: Built,
                                        rest: seq<BindingSpec>)
    requires Keyed(e, servers, b) && srv in servers && TenantsKnown(e, rest) && e.g.effect(srv.defaultEffect).Some?
    requires forall i :: 0 <= i < |rest| ==> rest[i] in srv.bindings && e.tenants[rest[i].tenant].slug == rest[i].tenant
    ensures match AdmitBindings(e, srv, e.g.effect(srv.defaultEffect).value, b, rest)
            case Ok(next) => Keyed(e, servers, next)
            case Err(Collision(q, _, prior, server)) =>
              Claimant(e, servers, q, prior) && Claimant(e, servers, q, server) && server == srv.name
            case Err(_) => true
    decreases |rest|
  {
    hide AdmitBinding, Keyed, Claimant;
    if rest != [] {
      var fallback := e.g.effect(srv.defaultEffect).value;
      if AdmitBinding(e, srv, fallback, b, rest[0]).Ok? {
        BindingKeeps(e, servers, srv, b, rest[0]);
        BindingsKeep(e, servers, srv, AdmitBinding(e, srv, fallback, b, rest[0]).value, rest[1..]);
      } else {
        BindingCollides(e, servers, srv, fallback, b, rest[0]);
      }
    }
  }

  /** A collision is with a claim made before, or within one backend's own list. */
  lemma {:induction false} PassCollides(s: Site, p: Pass, rest: seq<Tool>)
    requires AdmitAll(s, p, rest).Err? && AdmitAll(s, p, rest).error.Collision?
    ensures var c := AdmitAll(s, p, rest).error;
            && c.server == s.srv.name && c.tenant == s.tenant.slug
            && (exists name :: c.qualified == Qualified(s.prefix, name))
            && (c.prior == s.srv.name || (c.qualified in p.claimed && c.prior == p.claimed[c.qualified]))
    decreases |rest|
  {
    hide Qualified, For;
    if rest != [] && AdmitOne(s, p, rest[0]).Ok? { PassCollides(s, AdmitOne(s, p, rest[0]).value, rest[1..]); }
  }

  lemma {:induction false} BindingCollides(e: Env, servers: seq<ServerSpec>, srv: ServerSpec, fallback: EffectClass,
                                           b: Built, binding: BindingSpec)
    requires Keyed(e, servers, b) && srv in servers && binding.tenant in e.tenants
    requires AdmitBinding(e, srv, fallback, b, binding).Err?
    ensures match AdmitBinding(e, srv, fallback, b, binding).error
            case Collision(q, _, prior, server) =>
              Claimant(e, servers, q, prior) && Claimant(e, servers, q, server) && server == srv.name
            case _ => true
  {
    hide AdmitAll, SortTools, Qualified, Claimant;
    var s := SiteOf(e, srv, fallback, binding);
    var p, tools :=
      Pass(ClaimedBy(b, binding.tenant), b.tools, [], []), SortTools(e.reports[BindingKey(srv.id, binding.tenant)]);
    if AdmitAll(s, p, tools).error.Collision? {
      PassCollides(s, p, tools);
      IsClaimant(e, servers, srv, AdmitAll(s, p, tools).error.qualified);
    }
  }

  lemma {:induction false} ServersKeep(e: Env, servers: seq<ServerSpec>, b: Built, rest: seq<ServerSpec>)
    requires Keyed(e, servers, b) && (forall i :: 0 <= i < |rest| ==> rest[i] in servers)
    requires forall slug :: slug in e.tenants ==> e.tenants[slug].slug == slug
    ensures match AdmitServers(e, b, rest)
            case Ok(next) => Keyed(e, servers, next)
            case Err(Collision(q, _, prior, server)) =>
              Claimant(e, servers, q, prior) && Claimant(e, servers, q, server)
            case Err(_) => true
    decreases |rest|
  {
    hide AdmitBindings, Keyed, Claimant;
    if rest != [] {
      var srv := rest[0];
      if e.g.mode(srv.servingMode) && e.g.effect(srv.defaultEffect).Some? && FirstUnknown(e, srv.bindings).None? {
        BindingsKeep(e, servers, srv, b, srv.bindings);
      }
      if AdmitServer(e, b, srv).Ok? { ServersKeep(e, servers, AdmitServer(e, b, srv).value, rest[1..]); }
    }
  }

  lemma {:induction false} NothingIsKeyed(e: Env, servers: seq<ServerSpec>)
    ensures Keyed(e, servers, NOTHING)
  {
  }

  // ---------------------------------------------------------------- the theorems

  /**
   Every catalog that is let through: a tenant and a qualified name stand for one tool; each tool was published by a
   reached binding of the spec, is not dropped, and belongs to the toolset the index gives it; and each backend report
   accounts for all it discovered.
   */
  lemma {:induction false} CatalogIsKeyed(g: Grammar, spec: Spec, tenants: seq<Tenant>, reports: Reports)
    requires Build(g, spec, tenants, reports).Ok?
    ensures var b, e := Build(g, spec, tenants, reports).value, EnvOf(g, spec, tenants, reports).value;
            && (forall i, j :: 0 <= i < j < |b.tools| ==>
                  b.tools[i].tenant.slug != b.tools[j].tenant.slug || b.tools[i].qualified != b.tools[j].qualified)
            && (forall k :: 0 <= k < |b.tools| ==> FromSpec(e, spec.servers, b.tools[k]))
            && (forall k :: 0 <= k < |b.discovered| ==> Counted(e, b.discovered[k]))
  {
    hide AdmitServers, IndexTenants, IndexNamespaces, Resolve, FromSpec, Covered, Claimant;
    var e := EnvOf(g, spec, tenants, reports).value;
    TenantsBySlug(map[], tenants);
    NothingIsKeyed(e, spec.servers);
    ServersKeep(e, spec.servers, NOTHING, spec.servers);
  }

  // ---------------------------------------------------------------- nothing is forgotten

  lemma {:induction false} AdmissibleIsAdmitted(s: Site, tools: seq<Tool>, tool: Tool)
    requires tool in tools && Admissible(s, tool.name)
    ensures AdmittedAs(s, tool) in AdmittedOf(s, tools)
  {
    hide Admissible, AdmittedAs;
    assert tools == [tools[0]] + tools[1..];
    if tool != tools[0] { AdmissibleIsAdmitted(s, tools[1..], tool); }
  }

  /** Every admissible tool this binding published is in the catalog. */
  ghost predicate Carries(e: Env, srv: ServerSpec, fallback: EffectClass, binding: BindingSpec,
                          tools: seq<AdmittedTool>)
    requires binding.tenant in e.tenants
  {
    var key, s := BindingKey(srv.id, binding.tenant), SiteOf(e, srv, fallback, binding);
    key in e.reports ==>
      forall tool :: tool in e.reports[key] && Admissible(s, tool.name) ==> AdmittedAs(s, tool) in tools
  }

  lemma {:induction false} BindingCarries(e: Env, srv: ServerSpec, fallback: EffectClass, b: Built,
                                          binding: BindingSpec)
    requires binding.tenant in e.tenants && AdmitBinding(e, srv, fallback, b, binding).Ok?
    ensures b.tools <= AdmitBinding(e, srv, fallback, b, binding).value.tools
    ensures Carries(e, srv, fallback, binding, AdmitBinding(e, srv, fallback, b, binding).value.tools)
  {
    var key := BindingKey(srv.id, binding.tenant);
    if key in e.reports {
      hide AdmitAll, SortTools, Admissible, AdmittedAs, AdmittedOf, SiteOf;
      var s, p, tools :=
        SiteOf(e, srv, fallback, binding), Pass(ClaimedBy(b, binding.tenant), b.tools, [], []),
          SortTools(e.reports[key]);
      AdmitAllIsFilter(s, p, tools);
      SortsInOrder(e.reports[key]);
      forall tool | tool in e.reports[key] && Admissible(s, tool.name)
        ensures AdmittedAs(s, tool) in AdmittedOf(s, tools)
      {
        assert tool in multiset(e.reports[key]);
        AdmissibleIsAdmitted(s, tools, tool);
      }
    }
  }

  lemma {:induction false} StillCarries(e: Env, srv: ServerSpec, fallback: EffectClass, binding: BindingSpec,
                                        before: seq<AdmittedTool>, after: seq<AdmittedTool>)
    requires binding.tenant in e.tenants && Carries(e, srv, fallback, binding, before) && before <= after
    ensures Carries(e, srv, fallback, binding, after)
  {
    hide Admissible, AdmittedAs, SiteOf;
    assert forall t :: t in before ==> t in after by {
      assert after == before + after[|before|..];
    }
  }

  lemma {:induction false} BindingsCarry(e: Env, srv: ServerSpec, fallback: EffectClass, b: Built,
                                         rest: seq<BindingSpec>)
    requires TenantsKnown(e, rest) && AdmitBindings(e, srv, fallback, b, rest).Ok?
    ensures var r := AdmitBindings(e, srv, fallback, b, rest).value;
            b.tools <= r.tools && forall i :: 0 <= i < |rest| ==> Carries(e, srv, fallback, rest[i], r.tools)
    decreases |rest|
  {
    hide AdmitBinding, Carries;
    if rest != [] {
      var next := AdmitBinding(e, srv, fallback, b, rest[0]).value;
      BindingCarries(e, srv, fallback, b, rest[0]);
      BindingsCarry(e, srv, fallback, next, rest[1..]);
      var r := AdmitBindings(e, srv, fallback, b, rest).value;
      StillCarries(e, srv, fallback, rest[0], next.tools, r.tools);
      assert forall i :: 0 < i < |rest| ==> rest[i] == rest[1..][i - 1];
    }
  }

  /** All bindings of the server are in the catalog. */
  ghost predicate Represented(e: Env, srv: ServerSpec, tools: seq<AdmittedTool>) {
    && e.g.effect(srv.defaultEffect).Some? && TenantsKnown(e, srv.bindings)
    && forall i ::
         0 <= i < |srv.bindings| ==> Carries(e, srv, e.g.effect(srv.defaultEffect).value, srv.bindings[i], tools)
  }

  lemma {:induction false} ServersCarry(e: Env, b: Built, rest: seq<ServerSpec>)
    requires AdmitServers(e, b, rest).Ok?
    ensures var r := AdmitServers(e, b, rest).value;
            b.tools <= r.tools && forall i :: 0 <= i < |rest| ==> Represented(e, rest[i], r.tools)
    decreases |rest|
  {
    hide AdmitBindings, Carries;
    if rest != [] {
      var srv, next := rest[0], AdmitServer(e, b, rest[0]).value;
      BindingsCarry(e, srv, e.g.effect(srv.defaultEffect).value, b, srv.bindings);
      ServersCarry(e, next, rest[1..]);
      var r := AdmitServers(e, b, rest).value;
      forall i | 0 <= i < |srv.bindings|
        ensures Carries(e, srv, e.g.effect(srv.defaultEffect).value, srv.bindings[i], r.tools)
      {
        StillCarries(e, srv, e.g.effect(srv.defaultEffect).value, srv.bindings[i], next.tools, r.tools);
      }
      assert forall i :: 0 < i < |rest| ==> rest[i] == rest[1..][i - 1];
    }
  }

  /** No admissible tool of any reached binding of any server is missing from the catalog. */
  lemma {:induction false} CatalogIsComplete(g: Grammar, spec: Spec, tenants: seq<Tenant>, reports: Reports, i: nat)
    requires Build(g, spec, tenants, reports).Ok? && i < |spec.servers|
    ensures Represented(EnvOf(g, spec, tenants, reports).value, spec.servers[i],
                        Build(g, spec, tenants, reports).value.tools)
  {
    hide AdmitServers, EnvOf, Represented;
    ServersCarry(EnvOf(g, spec, tenants, reports).value, NOTHING, spec.servers);
  }

  /** What registry validation promises: prefixes without dots, no two alike, and every server in a known namespace. */
  predicate ValidNamespaces(spec: Spec) {
    && (forall i :: 0 <= i < |spec.namespaces| ==> '.' !in spec.namespaces[i].prefix)
    && (forall i, j :: 0 <= i < j < |spec.namespaces| ==> spec.namespaces[i].prefix != spec.namespaces[j].prefix)
    && (forall srv ::
          srv in spec.servers ==> exists i :: 0 <= i < |spec.namespaces| && spec.namespaces[i].id == srv.namespaceId)
  }

  /** A dot-free prefix can be read back off a qualified name. */
  lemma {:induction false} PrefixIsReadable(p: string, m: string, q: string, n: string)
    requires '.' !in p && '.' !in q && Qualified(p, m) == Qualified(q, n)
    ensures p == q && m == n
  {
    var s := Qualified(p, m);
    assert s[|p|] == '.' && s[|q|] == '.';
    assert forall k :: 0 <= k < |p| ==> s[k] == p[k];
    assert forall k :: 0 <= k < |q| ==> s[k] == q[k];
    assert |p| == |q|;
    assert p == s[..|p|] && q == s[..|q|] && m == s[|p| + 1..] && n == s[|q| + 1..];
  }

  lemma {:induction false} NamespaceAt(all: seq<Namespace>, id: string) returns (i: int)
    ensures id in IndexNamespaces(all) ==> 0 <= i < |all| && all[i].id == id && IndexNamespaces(all)[id] == all[i]
    ensures id in IndexNamespaces(all) <==> exists k :: 0 <= k < |all| && all[k].id == id
  {
    i := -1;
    if all != [] {
      var front := all[..|all| - 1];
      i := NamespaceAt(front, id);
      assert forall k :: 0 <= k < |front| ==> front[k] == all[k];
      if all[|all| - 1].id == id { i := |all| - 1; }
    }
  }

  lemma {:induction false} TenantsDoNotCollide(m: map<string, Tenant>, rest: seq<Tenant>)
    ensures IndexTenants(m, rest).Err? ==> IndexTenants(m, rest).error.TenantTwice?
    decreases |rest|
  {
    if rest != [] && rest[0].slug !in m { TenantsDoNotCollide(m[rest[0].slug := rest[0]], rest[1..]); }
  }

  /** Under a validated registry two tools can only collide within one namespace. */
  lemma {:induction false} CollisionsStayInTheirNamespace(g: Grammar, spec: Spec, tenants: seq<Tenant>,
                                                          reports: Reports)
    requires ValidNamespaces(spec) && Build(g, spec, tenants, reports).Err?
             && Build(g, spec, tenants, reports).error.Collision?
    ensures var c := Build(g, spec, tenants, reports).error;
            exists one, two :: one in spec.servers && two in spec.servers && one.name == c.prior && two.name == c.server
              && one.namespaceId == two.namespaceId
  {
    hide AdmitServers, IndexTenants, IndexNamespaces, Resolve, Qualified, Keyed;
    TenantsDoNotCollide(map[], tenants);
    var e := EnvOf(g, spec, tenants, reports).value;
    TenantsBySlug(map[], tenants);
    NothingIsKeyed(e, spec.servers);
    ServersKeep(e, spec.servers, NOTHING, spec.servers);
    var c := Build(g, spec, tenants, reports).error;
    var one, m :| one in spec.servers && one.name == c.prior && c.qualified == Qualified(PrefixOf(e, one), m);
    var two, n :| two in spec.servers && two.name == c.server && c.qualified == Qualified(PrefixOf(e, two), n);
    var i := NamespaceAt(spec.namespaces, one.namespaceId);
    var j := NamespaceAt(spec.namespaces, two.namespaceId);
    PrefixIsReadable(PrefixOf(e, one), m, PrefixOf(e, two), n);
  }
}
