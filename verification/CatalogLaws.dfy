/**
 What a build says of each tool it admits, and of itself when it fails, in terms of the registry document, the tenants
 and what the backends published.
 */
module CatalogLaws {
  import opened Options
  import opened Text
  import opened Verdicts
  import opened Toolsets
  import opened Admission
  import opened AdmissionLaws

  // ---------------------------------------------------------------- one binding

  /** The effect class declared for a tool: the override's where it names one, else the server's default. */
  predicate HasEffect(g: Grammar, srv: ServerSpec, name: string, effect: EffectClass) {
    if name in srv.overrides && srv.overrides[name].effectClass != ""
    then g.effect(srv.overrides[name].effectClass) == Some(effect)
    else g.effect(srv.defaultEffect) == Some(effect)
  }

  predicate Excluded(srv: ServerSpec, name: string) { name in srv.overrides && srv.overrides[name].exclude }

  /** The entry of a published tool, field by field. */
  predicate EntryOf(s: Site, tools: seq<Tool>, t: AdmittedTool) {
    && t.tool in tools && t.tenant == s.tenant && t.serverId == s.srv.id && t.namespaceId == s.srv.namespaceId
    && t.qualified == s.prefix + "." + t.tool.name && |t.qualified| <= 64
    && !Excluded(s.srv, t.tool.name) && HasEffect(s.g, s.srv, t.tool.name, t.effect)
    && For(s.index, t.qualified, s.srv.namespaceId) == Some(t.toolsetId)
  }

  lemma {:induction false} OneEntry(s: Site, p: Pass, tool: Tool)
    requires AdmitOne(s, p, tool).Ok? && s.g.effect(s.srv.defaultEffect) == Some(s.fallback)
    ensures var r := AdmitOne(s, p, tool).value;
            && p.tools <= r.tools && |r.tools| <= |p.tools| + 1
            && forall k :: |p.tools| <= k < |r.tools| ==> EntryOf(s, [tool], r.tools[k])
  {
    hide For;
    assert tool in [tool];
  }

  lemma {:induction false} EntriesOf(s: Site, p: Pass, rest: seq<Tool>)
    requires AdmitAll(s, p, rest).Ok? && s.g.effect(s.srv.defaultEffect) == Some(s.fallback)
    ensures var r := AdmitAll(s, p, rest).value;
            p.tools <= r.tools && forall k :: |p.tools| <= k < |r.tools| ==> EntryOf(s, rest, r.tools[k])
    decreases |rest|
  {
    hide AdmitOne, For, HasEffect, Excluded;
    if rest != [] {
      OneEntry(s, p, rest[0]);
      EntriesOf(s, AdmitOne(s, p, rest[0]).value, rest[1..]);
      assert rest == [rest[0]] + rest[1..];
    }
  }

  /** Why the tools a server published for a tenant stop the build. */
  predicate Stops(g: Grammar, srv: ServerSpec, prefix: string, slug: string, tools: seq<Tool>, e: BuildError) {
    match e
    case BadEffect(id, name) =>
      && id == srv.id && (exists tool :: tool in tools && tool.name == name) && !Excluded(srv, name)
      && name in srv.overrides && srv.overrides[name].effectClass != ""
      && g.effect(srv.overrides[name].effectClass).None?
    case NameTooLong(q) =>
      |q| > 64 && exists tool :: tool in tools && q == prefix + "." + tool.name && !Excluded(srv, tool.name)
    case Collision(q, tenant, _, server) =>
      && tenant == slug && server == srv.name
      && exists tool :: tool in tools && q == prefix + "." + tool.name && !Excluded(srv, tool.name)
    case TenantTwice(_) => false
    case BadToolsets(_) => false
    case BadServingMode(_) => false
    case UnknownTenant(_, _) => false
    case BadDefaultEffect(_) => false
  }

  lemma {:induction false} OneStops(s: Site, p: Pass, tool: Tool)
    requires AdmitOne(s, p, tool).Err?
    ensures Stops(s.g, s.srv, s.prefix, s.tenant.slug, [tool], AdmitOne(s, p, tool).error)
  {
    hide For;
    assert tool in [tool];
  }

  lemma {:induction false} StopsWithMore(g: Grammar, srv: ServerSpec, prefix: string, slug: string, one: seq<Tool>,
                                         more: seq<Tool>, e: BuildError)
    requires Stops(g, srv, prefix, slug, one, e) && forall tool :: tool in one ==> tool in more
    ensures Stops(g, srv, prefix, slug, more, e)
  {
  }

  lemma {:induction false} PassStops(s: Site, p: Pass, rest: seq<Tool>)
    requires AdmitAll(s, p, rest).Err?
    ensures Stops(s.g, s.srv, s.prefix, s.tenant.slug, rest, AdmitAll(s, p, rest).error)
    decreases |rest|
  {
    hide AdmitOne, Stops;
    assert rest == [rest[0]] + rest[1..];
    if AdmitOne(s, p, rest[0]).Err? {
      OneStops(s, p, rest[0]);
      StopsWithMore(s.g, s.srv, s.prefix, s.tenant.slug, [rest[0]], rest, AdmitOne(s, p, rest[0]).error);
    } else {
      PassStops(s, AdmitOne(s, p, rest[0]).value, rest[1..]);
      StopsWithMore(s.g, s.srv, s.prefix, s.tenant.slug, rest[1..], rest, AdmitAll(s, p, rest).error);
    }
  }

  /** A published tool that no build lets through: too long a name, or an override that cannot be read. */
  predicate Unfit(g: Grammar, srv: ServerSpec, prefix: string, tool: Tool) {
    && !Excluded(srv, tool.name)
    && (|prefix + "." + tool.name| > 64
        || (tool.name in srv.overrides && srv.overrides[tool.name].effectClass != ""
            && g.effect(srv.overrides[tool.name].effectClass).None?))
  }

  lemma {:induction false} NoneUnfit(s: Site, p: Pass, rest: seq<Tool>)
    requires AdmitAll(s, p, rest).Ok?
    ensures forall tool :: tool in rest ==> !Unfit(s.g, s.srv, s.prefix, tool)
    decreases |rest|
  {
    hide For;
    if rest != [] {
      NoneUnfit(s, AdmitOne(s, p, rest[0]).value, rest[1..]);
      assert rest == [rest[0]] + rest[1..];
    }
  }

  // ---------------------------------------------------------------- all of them

  /** The tool comes from a binding of a server of the document. */
  predicate FromBinding(e: Env, srv: ServerSpec, binding: BindingSpec, t: AdmittedTool) {
    && binding in srv.bindings && binding.tenant in e.tenants && e.g.effect(srv.defaultEffect).Some?
    && BindingKey(srv.id, binding.tenant) in e.reports
    && EntryOf(SiteOf(e, srv, e.g.effect(srv.defaultEffect).value, binding),
               e.reports[BindingKey(srv.id, binding.tenant)], t)
  }

  ghost predicate FromServers(e: Env, servers: seq<ServerSpec>, t: AdmittedTool) {
    exists srv, binding :: srv in servers && FromBinding(e, srv, binding, t)
  }

  ghost predicate AllFrom(e: Env, servers: seq<ServerSpec>, tools: seq<AdmittedTool>) {
    forall k :: 0 <= k < |tools| ==> FromServers(e, servers, tools[k])
  }

  lemma {:induction false} SortedTools(tools: seq<Tool>)
    ensures forall tool :: tool in SortTools(tools) <==> tool in tools
  {
    SortsInOrder(tools);
    forall tool ensures tool in SortTools(tools) <==> tool in tools {
      assert tool in multiset(SortTools(tools)) <==> tool in multiset(tools);
    }
  }

  lemma {:induction false} BindingAdmits(e: Env, servers: seq<ServerSpec>, srv: ServerSpec, b: Built,
                                         binding: BindingSpec)
    requires srv in servers && binding in srv.bindings && binding.tenant in e.tenants
    requires e.g.effect(srv.defaultEffect).Some? && AllFrom(e, servers, b.tools)
    requires AdmitBinding(e, srv, e.g.effect(srv.defaultEffect).value, b, binding).Ok?
    ensures AllFrom(e, servers, AdmitBinding(e, srv, e.g.effect(srv.defaultEffect).value, b, binding).value.tools)
  {
    hide AdmitAll, SortTools, EntryOf;
    var fallback, key := e.g.effect(srv.defaultEffect).value, BindingKey(srv.id, binding.tenant);
    if key in e.reports {
      var s, tools := SiteOf(e, srv, fallback, binding), SortTools(e.reports[key]);
      var p := Pass(ClaimedBy(b, binding.tenant), b.tools, [], []);
      EntriesOf(s, p, tools);
      SortedTools(e.reports[key]);
      var r := AdmitAll(s, p, tools).value;
      forall k | 0 <= k < |r.tools| ensures FromServers(e, servers, r.tools[k]) {
        if k >= |b.tools| {
          AsPublished(s, tools, e.reports[key], r.tools[k]);
          assert FromBinding(e, srv, binding, r.tools[k]);
        } else {
          assert r.tools[k] == b.tools[k];
        }
      }
    }
  }

  lemma {:induction false} AsPublished(s: Site, one: seq<Tool>, two: seq<Tool>, t: AdmittedTool)
    requires EntryOf(s, one, t) && forall tool :: tool in one <==> tool in two
    ensures EntryOf(s, two, t)
  {
  }

  lemma {:induction false} BindingsAdmit(e: Env, servers: seq<ServerSpec>, srv: ServerSpec, b: Built,
                                         rest: seq<BindingSpec>)
    requires srv in servers && TenantsKnown(e, rest) && e.g.effect(srv.defaultEffect).Some?
    requires (forall i :: 0 <= i < |rest| ==> rest[i] in srv.bindings) && AllFrom(e, servers, b.tools)
    requires AdmitBindings(e, srv, e.g.effect(srv.defaultEffect).value, b, rest).Ok?
    ensures AllFrom(e, servers, AdmitBindings(e, srv, e.g.effect(srv.defaultEffect).value, b, rest).value.tools)
    decreases |rest|
  {
    hide AdmitBinding, AllFrom;
    if rest != [] {
      var fallback := e.g.effect(srv.defaultEffect).value;
      BindingAdmits(e, servers, srv, b, rest[0]);
      BindingsAdmit(e, servers, srv, AdmitBinding(e, srv, fallback, b, rest[0]).value, rest[1..]);
    }
  }

  lemma {:induction false} ServersAdmit(e: Env, servers: seq<ServerSpec>, b: Built, rest: seq<ServerSpec>)
    requires (forall i :: 0 <= i < |rest| ==> rest[i] in servers) && AllFrom(e, servers, b.tools)
    requires AdmitServers(e, b, rest).Ok?
    ensures AllFrom(e, servers, AdmitServers(e, b, rest).value.tools)
    decreases |rest|
  {
    hide AdmitBindings, AllFrom;
    if rest != [] {
      BindingsAdmit(e, servers, rest[0], b, rest[0].bindings);
      ServersAdmit(e, servers, AdmitServer(e, b, rest[0]).value, rest[1..]);
    }
  }

  /** The prefix of the last namespace with this id; without one, none. */
  predicate HasPrefix(spec: Spec, id: string, prefix: string) {
    if exists i :: 0 <= i < |spec.namespaces| && spec.namespaces[i].id == id
    then exists i :: 0 <= i < |spec.namespaces| && spec.namespaces[i] == Namespace(id, prefix)
                     && forall k :: i < k < |spec.namespaces| ==> spec.namespaces[k].id != id
    else prefix == ""
  }

  lemma {:induction false} PrefixIsDeclared(all: seq<Namespace>, id: string) returns (i: int)
    ensures id in IndexNamespaces(all) <==> exists k :: 0 <= k < |all| && all[k].id == id
    ensures id in IndexNamespaces(all) ==>
              0 <= i < |all| && all[i].id == id && IndexNamespaces(all)[id] == all[i]
              && forall k :: i < k < |all| ==> all[k].id != id
  {
    i := -1;
    if all != [] {
      var front := all[..|all| - 1];
      i := PrefixIsDeclared(front, id);
      assert forall k :: 0 <= k < |front| ==> front[k] == all[k];
      if all[|all| - 1].id == id { i := |all| - 1; }
    }
  }

  /** The toolset the tool is filed under: excluded from none, named by it, or else in a namespace it claims. */
  ghost predicate FiledUnder(spec: Spec, q: string, namespaceId: string, toolset: string) {
    && (forall ts :: ts in spec.toolsets ==> q !in ts.exclude)
    && if exists ts :: ts in spec.toolsets && q in ts.tools
       then exists ts :: ts in spec.toolsets && q in ts.tools && ts.id == toolset
       else exists ts :: ts in spec.toolsets && namespaceId in ts.namespaces && ts.id == toolset
  }

  lemma {:induction false} IsFiled(spec: Spec, known: set<string>, q: string, namespaceId: string)
    requires Resolve(EMPTY, spec.toolsets, known).Ok?
    requires For(Resolve(EMPTY, spec.toolsets, known).value, q, namespaceId).Some?
    ensures FiledUnder(spec, q, namespaceId, For(Resolve(EMPTY, spec.toolsets, known).value, q, namespaceId).value)
  {
    hide Resolve, For;
    LookupIsUnambiguous(spec.toolsets, known, q, namespaceId);
    var id := For(Resolve(EMPTY, spec.toolsets, known).value, q, namespaceId).value;
    if HasClaim(spec.toolsets, ByTool, q) {
      var ts :| ts in spec.toolsets && q in Claims(ts, ByTool);
      assert q in ts.tools && ts.id == id;
    } else {
      assert forall ts :: ts in spec.toolsets && q in ts.tools ==> q in Claims(ts, ByTool);
      var ts :| ts in spec.toolsets && namespaceId in Claims(ts, ByNamespace);
      assert namespaceId in ts.namespaces && ts.id == id;
    }
  }

  /** An admitted tool, wholly in terms of what the build was given. */
  ghost predicate Declared(g: Grammar, spec: Spec, tenants: seq<Tenant>, reports: Reports, srv: ServerSpec,
                           binding: BindingSpec, t: AdmittedTool)
  {
    && binding in srv.bindings && t.tenant in tenants && t.tenant.slug == binding.tenant
    && t.serverId == srv.id && t.namespaceId == srv.namespaceId
    && BindingKey(srv.id, binding.tenant) in reports && t.tool in reports[BindingKey(srv.id, binding.tenant)]
    && |t.qualified| <= 64
    && (exists prefix :: HasPrefix(spec, srv.namespaceId, prefix) && t.qualified == prefix + "." + t.tool.name)
    && !Excluded(srv, t.tool.name) && HasEffect(g, srv, t.tool.name, t.effect)
    && FiledUnder(spec, t.qualified, srv.namespaceId, t.toolsetId)
  }

  lemma {:induction false} TenantsOfList(m: map<string, Tenant>, rest: seq<Tenant>)
    requires IndexTenants(m, rest).Ok?
    ensures var out := IndexTenants(m, rest).value;
            && (forall slug :: slug in out ==>
                  (slug in m && out[slug] == m[slug]) || (out[slug] in rest && out[slug].slug == slug))
            && (forall slug :: slug in m ==> slug in out)
            && (forall t :: t in rest ==> t.slug in out && t.slug !in m)
    decreases |rest|
  {
    if rest != [] {
      TenantsOfList(m[rest[0].slug := rest[0]], rest[1..]);
      assert rest == [rest[0]] + rest[1..];
    }
  }

  /**
   Every tool a build admits is the entry the document declares for a tool that a reached binding published: tenant,
   server, namespace, prefix and name, effect class, with the override where there is one, and toolset.
   */
  lemma {:induction false} CatalogIsDeclared(g: Grammar, spec: Spec, tenants: seq<Tenant>, reports: Reports, k: nat)
    returns (srv: ServerSpec, binding: BindingSpec)
    requires Build(g, spec, tenants, reports).Ok? && k < |Build(g, spec, tenants, reports).value.tools|
    ensures srv in spec.servers
    ensures Declared(g, spec, tenants, reports, srv, binding, Build(g, spec, tenants, reports).value.tools[k])
  {
    hide AdmitServers, IndexTenants, IndexNamespaces, Resolve, For, HasPrefix, FiledUnder, HasEffect, Excluded;
    var e := EnvOf(g, spec, tenants, reports).value;
    ServersAdmit(e, spec.servers, NOTHING, spec.servers);
    var t := Build(g, spec, tenants, reports).value.tools[k];
    assert FromServers(e, spec.servers, t);
    srv, binding :| srv in spec.servers && FromBinding(e, srv, binding, t);
    TenantsOfList(map[], tenants);
    IsFiled(spec, e.namespaces.Keys, t.qualified, srv.namespaceId);
    assert HasPrefix(spec, srv.namespaceId, PrefixOf(e, srv)) by { PrefixStands(spec, srv.namespaceId); }
  }

  lemma {:induction false} PrefixStands(spec: Spec, id: string)
    ensures var m := IndexNamespaces(spec.namespaces);
            HasPrefix(spec, id, if id in m then m[id].prefix else "")
  {
    hide IndexNamespaces;
    var i := PrefixIsDeclared(spec.namespaces, id);
    if id in IndexNamespaces(spec.namespaces) {
      assert spec.namespaces[i] == Namespace(id, spec.namespaces[i].prefix);
    }
  }

  // ---------------------------------------------------------------- when a build fails

  /** Something in a server's declaration, or in what its bindings published, stops the build. */
  ghost predicate ServerStops(e: Env, srv: ServerSpec, err: BuildError) {
    || (err == BadServingMode(srv.id) && !e.g.mode(srv.servingMode))
    || (err == BadDefaultEffect(srv.id) && e.g.effect(srv.defaultEffect).None?)
    || (err.UnknownTenant? && err.serverId == srv.id && err.tenant !in e.tenants
        && exists binding :: binding in srv.bindings && binding.tenant == err.tenant)
    || BindingStops(e, srv, srv.bindings, err)
  }

  ghost predicate BindingStops(e: Env, srv: ServerSpec, bindings: seq<BindingSpec>, err: BuildError) {
    exists binding :: binding in bindings && binding.tenant in e.tenants
      && BindingKey(srv.id, binding.tenant) in e.reports
      && Stops(e.g, srv, PrefixOf(e, srv), e.tenants[binding.tenant].slug,
               e.reports[BindingKey(srv.id, binding.tenant)], err)
  }

  lemma {:induction false} UnknownTells(e: Env, bindings: seq<BindingSpec>)
    requires FirstUnknown(e, bindings).Some?
    ensures var t := FirstUnknown(e, bindings).value;
            t !in e.tenants && exists binding :: binding in bindings && binding.tenant == t
  {
    assert bindings == [bindings[0]] + bindings[1..];
    if bindings[0].tenant in e.tenants { UnknownTells(e, bindings[1..]); } else { assert bindings[0] in bindings; }
  }

  lemma {:induction false} BindingFails(e: Env, srv: ServerSpec, fallback: EffectClass, b: Built, binding: BindingSpec)
    requires binding.tenant in e.tenants && AdmitBinding(e, srv, fallback, b, binding).Err?
    ensures BindingStops(e, srv, [binding], AdmitBinding(e, srv, fallback, b, binding).error)
  {
    hide AdmitAll, SortTools, Stops;
    var key := BindingKey(srv.id, binding.tenant);
    var s, tools := SiteOf(e, srv, fallback, binding), SortTools(e.reports[key]);
    var p := Pass(ClaimedBy(b, binding.tenant), b.tools, [], []);
    PassStops(s, p, tools);
    SortedTools(e.reports[key]);
    StopsWithMore(s.g, srv, s.prefix, s.tenant.slug, tools, e.reports[key], AdmitAll(s, p, tools).error);
    assert binding in [binding];
  }

  lemma {:induction false} BindingsFail(e: Env, srv: ServerSpec, fallback: EffectClass, b: Built,
                                        rest: seq<BindingSpec>)
    requires TenantsKnown(e, rest) && AdmitBindings(e, srv, fallback, b, rest).Err?
    ensures BindingStops(e, srv, rest, AdmitBindings(e, srv, fallback, b, rest).error)
    decreases |rest|
  {
    hide AdmitBinding, Stops;
    assert rest == [rest[0]] + rest[1..];
    if AdmitBinding(e, srv, fallback, b, rest[0]).Err? {
      BindingFails(e, srv, fallback, b, rest[0]);
    } else {
      BindingsFail(e, srv, fallback, AdmitBinding(e, srv, fallback, b, rest[0]).value, rest[1..]);
    }
  }

  lemma {:induction false} ServersFail(e: Env, b: Built, rest: seq<ServerSpec>) returns (srv: ServerSpec)
    requires AdmitServers(e, b, rest).Err?
    ensures srv in rest && ServerStops(e, srv, AdmitServers(e, b, rest).error)
    decreases |rest|
  {
    hide AdmitBindings, BindingStops;
    assert rest == [rest[0]] + rest[1..];
    if AdmitServer(e, b, rest[0]).Ok? {
      srv := ServersFail(e, AdmitServer(e, b, rest[0]).value, rest[1..]);
    } else {
      srv := rest[0];
      if FirstUnknown(e, srv.bindings).Some? {
        UnknownTells(e, srv.bindings);
      } else if e.g.mode(srv.servingMode) && e.g.effect(srv.defaultEffect).Some? {
        BindingsFail(e, srv, e.g.effect(srv.defaultEffect).value, b, srv.bindings);
      }
    }
  }

  lemma {:induction false} TenantRepeats(m: map<string, Tenant>, rest: seq<Tenant>)
    requires IndexTenants(m, rest).Err?
    ensures var slug := IndexTenants(m, rest).error;
            slug.TenantTwice? && ((slug.tenant in m && exists t :: t in rest && t.slug == slug.tenant)
                                  || exists i, j :: 0 <= i < j < |rest| && rest[i].slug == rest[j].slug == slug.tenant)
    decreases |rest|
  {
    assert rest == [rest[0]] + rest[1..];
    if rest[0].slug in m {
      assert rest[0] in rest;
    } else {
      TenantRepeats(m[rest[0].slug := rest[0]], rest[1..]);
      assert forall i :: 0 <= i < |rest[1..]| ==> rest[1..][i] == rest[i + 1];
    }
  }

  /** Why a build fails: each error is true of the document, the tenants or what was published. */
  lemma {:induction false} FailureTells(g: Grammar, spec: Spec, tenants: seq<Tenant>, reports: Reports)
    requires Build(g, spec, tenants, reports).Err?
    ensures var err := Build(g, spec, tenants, reports).error;
            match err
            case TenantTwice(slug) =>
              exists i, j :: 0 <= i < j < |tenants| && tenants[i].slug == tenants[j].slug == slug
            case BadToolsets(why) =>
              Resolve(EMPTY, spec.toolsets, set ns | ns in spec.namespaces :: ns.id) == Err(why)
            case _ =>
              && EnvOf(g, spec, tenants, reports).Ok?
              && exists srv :: srv in spec.servers && ServerStops(EnvOf(g, spec, tenants, reports).value, srv, err)
  {
    hide AdmitServers, IndexTenants, IndexNamespaces, Resolve, ServerStops;
    if IndexTenants(map[], tenants).Err? {
      TenantRepeats(map[], tenants);
    } else {
      NamespaceIds(spec.namespaces);
      if EnvOf(g, spec, tenants, reports).Ok? {
        var e := EnvOf(g, spec, tenants, reports).value;
        var srv := ServersFail(e, NOTHING, spec.servers);
        StopsLate(e, srv, Build(g, spec, tenants, reports).error);
      }
    }
  }

  lemma {:induction false} StopsLate(e: Env, srv: ServerSpec, err: BuildError)
    requires ServerStops(e, srv, err)
    ensures !err.TenantTwice? && !err.BadToolsets?
  {
  }

  lemma {:induction false} NamespaceIds(all: seq<Namespace>)
    ensures IndexNamespaces(all).Keys == set ns | ns in all :: ns.id
  {
    hide IndexNamespaces;
    forall id ensures id in IndexNamespaces(all) <==> id in set ns | ns in all :: ns.id {
      var i := PrefixIsDeclared(all, id);
      if id in set ns | ns in all :: ns.id {
        var ns :| ns in all && ns.id == id;
        var k :| 0 <= k < |all| && all[k] == ns;
      }
    }
  }

  /** Nothing about a server stops the build. */
  ghost predicate ServerFits(e: Env, srv: ServerSpec) {
    && e.g.mode(srv.servingMode) && e.g.effect(srv.defaultEffect).Some?
    && forall binding :: binding in srv.bindings ==> BindingFits(e, srv, binding)
  }

  ghost predicate BindingFits(e: Env, srv: ServerSpec, binding: BindingSpec) {
    var key := BindingKey(srv.id, binding.tenant);
    && binding.tenant in e.tenants
    && (key in e.reports ==> forall tool :: tool in e.reports[key] ==> !Unfit(e.g, srv, PrefixOf(e, srv), tool))
  }

  lemma {:induction false} BindingIsFit(e: Env, srv: ServerSpec, fallback: EffectClass, b: Built, binding: BindingSpec)
    requires binding.tenant in e.tenants && AdmitBinding(e, srv, fallback, b, binding).Ok?
    ensures BindingFits(e, srv, binding)
  {
    hide AdmitAll, SortTools, Unfit;
    var key := BindingKey(srv.id, binding.tenant);
    if key in e.reports {
      NoneUnfit(SiteOf(e, srv, fallback, binding), Pass(ClaimedBy(b, binding.tenant), b.tools, [], []),
                SortTools(e.reports[key]));
      SortedTools(e.reports[key]);
    }
  }

  lemma {:induction false} BindingsAreFit(e: Env, srv: ServerSpec, fallback: EffectClass, b: Built,
                                          rest: seq<BindingSpec>)
    requires TenantsKnown(e, rest) && AdmitBindings(e, srv, fallback, b, rest).Ok?
    ensures forall binding :: binding in rest ==> BindingFits(e, srv, binding)
    decreases |rest|
  {
    hide AdmitBinding, BindingFits;
    if rest != [] {
      BindingIsFit(e, srv, fallback, b, rest[0]);
      BindingsAreFit(e, srv, fallback, AdmitBinding(e, srv, fallback, b, rest[0]).value, rest[1..]);
      assert rest == [rest[0]] + rest[1..];
    }
  }

  lemma {:induction false} ServersAreFit(e: Env, b: Built, rest: seq<ServerSpec>)
    requires AdmitServers(e, b, rest).Ok?
    ensures forall srv :: srv in rest ==> ServerFits(e, srv)
    decreases |rest|
  {
    hide AdmitBindings, BindingFits;
    if rest != [] {
      var srv := rest[0];
      BindingsAreFit(e, srv, e.g.effect(srv.defaultEffect).value, b, srv.bindings);
      ServersAreFit(e, AdmitServer(e, b, srv).value, rest[1..]);
      assert rest == [rest[0]] + rest[1..];
    }
  }

  /** And what a build that succeeds rules out: none of those errors was there to be found. */
  lemma {:induction false} SuccessTells(g: Grammar, spec: Spec, tenants: seq<Tenant>, reports: Reports)
    requires Build(g, spec, tenants, reports).Ok?
    ensures forall i, j :: 0 <= i < j < |tenants| ==> tenants[i].slug != tenants[j].slug
    ensures Resolve(EMPTY, spec.toolsets, set ns | ns in spec.namespaces :: ns.id).Ok?
    ensures EnvOf(g, spec, tenants, reports).Ok?
    ensures forall srv :: srv in spec.servers ==> ServerFits(EnvOf(g, spec, tenants, reports).value, srv)
  {
    hide AdmitServers, IndexTenants, IndexNamespaces, Resolve, ServerFits;
    SlugsDiffer(map[], tenants);
    NamespaceIds(spec.namespaces);
    ServersAreFit(EnvOf(g, spec, tenants, reports).value, NOTHING, spec.servers);
  }

  lemma {:induction false} SlugsDiffer(m: map<string, Tenant>, rest: seq<Tenant>)
    requires IndexTenants(m, rest).Ok?
    ensures forall i, j :: 0 <= i < j < |rest| ==> rest[i].slug != rest[j].slug
    ensures forall t :: t in rest ==> t.slug !in m
    decreases |rest|
  {
    if rest != [] {
      SlugsDiffer(m[rest[0].slug := rest[0]], rest[1..]);
      assert forall i :: 0 < i < |rest| ==> rest[i] == rest[1..][i - 1];
      assert rest == [rest[0]] + rest[1..];
    }
  }
}
