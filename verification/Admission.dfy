/**
 Admission: from what the backends publish to the tools a snapshot serves, the loop at the centre of Build in
 internal/controlplane/snapshotter/snapshotter.go. Names are lists of characters of one byte each, as prefixes are.
 */
module Admission {
  import opened Options
  import opened Text
  import opened Verdicts
  import opened Toolsets

  const MAX_QUALIFIED_NAME := 64

  /** A published tool: its name, and everything else about it. */
  datatype Tool = Tool(name: string, definition: string)

  datatype Override = Override(exclude: bool, effectClass: string)

  datatype BindingSpec = BindingSpec(tenant: string, primary: string)

  datatype ServerSpec = ServerSpec(
    id: string,
    name: string,
    namespaceId: string,
    servingMode: string,
    defaultEffect: string,
    bindings: seq<BindingSpec>,
    overrides: map<string, Override>)

  datatype Namespace = Namespace(id: string, prefix: string)

  datatype Tenant = Tenant(id: string, slug: string)

  datatype Spec = Spec(namespaces: seq<Namespace>, toolsets: seq<Toolset>, servers: seq<ServerSpec>)

  /** How effect classes are spelled, and which serving modes exist. */
  datatype Grammar = Grammar(effect: string -> Option<EffectClass>, mode: string -> bool)

  datatype BindingKey = BindingKey(serverId: string, tenant: string)

  /** What discovery found for each binding it could reach. */
  type Reports = map<BindingKey, seq<Tool>>

  datatype AdmittedTool = AdmittedTool(
    tenant: Tenant,
    serverId: string,
    namespaceId: string,
    toolsetId: string,
    qualified: string,
    tool: Tool,
    effect: EffectClass)

  datatype Summary = Summary(serverId: string, tenant: string, toolCount: int, admitted: seq<string>,
                             excluded: seq<string>)

  datatype BuildError =
    | TenantTwice(tenant: string)
    | BadToolsets(error: ToolsetError)
    | BadServingMode(serverId: string)
    | UnknownTenant(serverId: string, tenant: string)
    | BadDefaultEffect(serverId: string)
    | BadEffect(serverId: string, tool: string)
    | NameTooLong(qualified: string)
    | Collision(qualified: string, tenant: string, prior: string, server: string)

  // ---------------------------------------------------------------- one tool

  /** Everything the admission of one binding's tools depends on. */
  datatype Site = Site(g: Grammar, index: Index, srv: ServerSpec, prefix: string, tenant: Tenant, fallback: EffectClass)

  /** `claimed` is this tenant's: qualified name to server name. */
  datatype Pass = Pass(claimed: map<string, string>, tools: seq<AdmittedTool>, admitted: seq<string>,
                       excluded: seq<string>)

  predicate Dropped(s: Site, name: string) { name in s.srv.overrides && s.srv.overrides[name].exclude }

  function EffectOf(s: Site, name: string): Option<EffectClass> {
    if name in s.srv.overrides && s.srv.overrides[name].effectClass != ""
    then s.g.effect(s.srv.overrides[name].effectClass)
    else Some(s.fallback)
  }

  function Qualified(prefix: string, name: string): string { prefix + ['.'] + name }

  function ToolsetOf(s: Site, name: string): Option<string> {
    For(s.index, Qualified(s.prefix, name), s.srv.namespaceId)
  }

  function AdmitOne(s: Site, p: Pass, tool: Tool): Result<Pass, BuildError> {
    var q := Qualified(s.prefix, tool.name);
    if Dropped(s, tool.name) then Ok(p.(excluded := p.excluded + [tool.name]))
    else if EffectOf(s, tool.name).None? then Err(BadEffect(s.srv.id, tool.name))
    else if |q| > MAX_QUALIFIED_NAME then Err(NameTooLong(q))
    else if q in p.claimed then Err(Collision(q, s.tenant.slug, p.claimed[q], s.srv.name))
    else
      match ToolsetOf(s, tool.name)
      case None => Ok(p.(excluded := p.excluded + [tool.name]))
      case Some(toolset) =>
        var one := AdmittedTool(s.tenant, s.srv.id, s.srv.namespaceId, toolset, q, tool, EffectOf(s, tool.name).value);
        Ok(Pass(p.claimed[q := s.srv.name], p.tools + [one], p.admitted + [q], p.excluded))
  }

  function AdmitAll(s: Site, p: Pass, rest: seq<Tool>): Result<Pass, BuildError>
    decreases |rest|
  {
    if rest == [] then Ok(p)
    else match AdmitOne(s, p, rest[0])
      case Err(e) => Err(e)
      case Ok(next) => AdmitAll(s, next, rest[1..])
  }

  function InsertTool(s: seq<Tool>, x: Tool): seq<Tool> {
    if s == [] then [x] else if Less(s[0].name, x.name) then [s[0]] + InsertTool(s[1..], x) else [x] + s
  }

  /** A sort by name; tools of the same name may come in either order. */
  function SortTools(s: seq<Tool>): seq<Tool> {
    if s == [] then [] else InsertTool(SortTools(s[1..]), s[0])
  }

  // ---------------------------------------------------------------- all bindings of all servers

  datatype Env = Env(g: Grammar, index: Index, tenants: map<string, Tenant>, namespaces: map<string, Namespace>,
                     reports: Reports)

  datatype Built = Built(claimed: map<string, map<string, string>>, tools: seq<AdmittedTool>, discovered: seq<Summary>)

  const NOTHING := Built(map[], [], [])

  function PrefixOf(e: Env, srv: ServerSpec): string {
    if srv.namespaceId in e.namespaces then e.namespaces[srv.namespaceId].prefix else ""
  }

  function ClaimedBy(b: Built, tenant: string): map<string, string> {
    if tenant in b.claimed then b.claimed[tenant] else map[]
  }

  function SiteOf(e: Env, srv: ServerSpec, fallback: EffectClass, binding: BindingSpec): Site
    requires binding.tenant in e.tenants
  {
    Site(e.g, e.index, srv, PrefixOf(e, srv), e.tenants[binding.tenant], fallback)
  }

  /** One binding; one that discovery could not reach only loses its own tools. */
  function AdmitBinding(e: Env, srv: ServerSpec, fallback: EffectClass, b: Built,
                        binding: BindingSpec): Result<Built, BuildError>
    requires binding.tenant in e.tenants
  {
    var key := BindingKey(srv.id, binding.tenant);
    if key !in e.reports then Ok(b)
    else
      var tools := SortTools(e.reports[key]);
      match AdmitAll(SiteOf(e, srv, fallback, binding), Pass(ClaimedBy(b, binding.tenant), b.tools, [], []), tools)
      case Err(err) => Err(err)
      case Ok(p) =>
        Ok(Built(b.claimed[binding.tenant := p.claimed], p.tools,
                 b.discovered + [Summary(srv.id, binding.tenant, |tools|, p.admitted, p.excluded)]))
  }

  predicate TenantsKnown(e: Env, bindings: seq<BindingSpec>) {
    forall i :: 0 <= i < |bindings| ==> bindings[i].tenant in e.tenants
  }

  function AdmitBindings(e: Env, srv: ServerSpec, fallback: EffectClass, b: Built,
                         rest: seq<BindingSpec>): Result<Built, BuildError>
    requires TenantsKnown(e, rest)
    decreases |rest|
  {
    if rest == [] then Ok(b)
    else match AdmitBinding(e, srv, fallback, b, rest[0])
      case Err(err) => Err(err)
      case Ok(next) => AdmitBindings(e, srv, fallback, next, rest[1..])
  }

  function FirstUnknown(e: Env, bindings: seq<BindingSpec>): (r: Option<string>)
    ensures r.None? <==> TenantsKnown(e, bindings)
  {
    if bindings == [] then None
    else if bindings[0].tenant !in e.tenants then Some(bindings[0].tenant)
    else FirstUnknown(e, bindings[1..])
  }

  function AdmitServer(e: Env, b: Built, srv: ServerSpec): Result<Built, BuildError> {
    if !e.g.mode(srv.servingMode) then Err(BadServingMode(srv.id))
    else if FirstUnknown(e, srv.bindings).Some? then Err(UnknownTenant(srv.id, FirstUnknown(e, srv.bindings).value))
    else if e.g.effect(srv.defaultEffect).None? then Err(BadDefaultEffect(srv.id))
    else AdmitBindings(e, srv, e.g.effect(srv.defaultEffect).value, b, srv.bindings)
  }

  function AdmitServers(e: Env, b: Built, rest: seq<ServerSpec>): Result<Built, BuildError>
    decreases |rest|
  {
    if rest == [] then Ok(b)
    else match AdmitServer(e, b, rest[0])
      case Err(err) => Err(err)
      case Ok(next) => AdmitServers(e, next, rest[1..])
  }

  function IndexTenants(m: map<string, Tenant>, rest: seq<Tenant>): Result<map<string, Tenant>, BuildError>
    decreases |rest|
  {
    if rest == [] then Ok(m)
    else if rest[0].slug in m then Err(TenantTwice(rest[0].slug))
    else IndexTenants(m[rest[0].slug := rest[0]], rest[1..])
  }

  function IndexNamespaces(all: seq<Namespace>): map<string, Namespace> {
    if all == [] then map[] else IndexNamespaces(all[..|all| - 1])[all[|all| - 1].id := all[|all| - 1]]
  }

  function EnvOf(g: Grammar, spec: Spec, tenants: seq<Tenant>, reports: Reports): Result<Env, BuildError> {
    match IndexTenants(map[], tenants)
    case Err(e) => Err(e)
    case Ok(bySlug) =>
      var namespaces := IndexNamespaces(spec.namespaces);
      match Resolve(EMPTY, spec.toolsets, namespaces.Keys)
      case Err(e) => Err(BadToolsets(e))
      case Ok(index) => Ok(Env(g, index, bySlug, namespaces, reports))
  }

  function Build(g: Grammar, spec: Spec, tenants: seq<Tenant>, reports: Reports): Result<Built, BuildError> {
    match EnvOf(g, spec, tenants, reports)
    case Err(e) => Err(e)
    case Ok(e) => AdmitServers(e, NOTHING, spec.servers)
  }

  // ---------------------------------------------------------------- the code's own form

  method BuildCatalog(g: Grammar, spec: Spec, tenants: seq<Tenant>, reports: Reports)
    returns (r: Result<Built, BuildError>)
    ensures r == Build(g, spec, tenants, reports)
  {
    hide AdmitBindings, SortTools, Resolve, For;
    var bySlug: map<string, Tenant> := map[];
    for i := 0 to |tenants|
      invariant IndexTenants(bySlug, tenants[i..]) == IndexTenants(map[], tenants)
    {
      assert tenants[i..][0] == tenants[i] && tenants[i..][1..] == tenants[i + 1..];
      if tenants[i].slug in bySlug { return Err(TenantTwice(tenants[i].slug)); }
      bySlug := bySlug[tenants[i].slug := tenants[i]];
    }
    var namespaces: map<string, Namespace> := map[];
    for i := 0 to |spec.namespaces|
      invariant namespaces == IndexNamespaces(spec.namespaces[..i])
    {
      assert spec.namespaces[..i + 1][..i] == spec.namespaces[..i];
      namespaces := namespaces[spec.namespaces[i].id := spec.namespaces[i]];
    }
    assert spec.namespaces[..|spec.namespaces|] == spec.namespaces;
    var index := ResolveToolsets(spec.toolsets, namespaces.Keys);
    if index.Err? { return Err(BadToolsets(index.error)); }
    var e := Env(g, index.value, bySlug, namespaces, reports);
    var b := NOTHING;
    for i := 0 to |spec.servers|
      invariant AdmitServers(e, b, spec.servers[i..]) == AdmitServers(e, NOTHING, spec.servers)
    {
      assert spec.servers[i..][0] == spec.servers[i] && spec.servers[i..][1..] == spec.servers[i + 1..];
      var next := BuildServer(e, b, spec.servers[i]);
      if next.Err? { return next; }
      b := next.value;
    }
    return Ok(b);
  }

  /** The loop body for one server. */
  method BuildServer(e: Env, before: Built, srv: ServerSpec) returns (r: Result<Built, BuildError>)
    ensures r == AdmitServer(e, before, srv)
  {
    hide AdmitAll, SortTools;
    if !e.g.mode(srv.servingMode) { return Err(BadServingMode(srv.id)); }
    for i := 0 to |srv.bindings|
      invariant forall k :: 0 <= k < i ==> srv.bindings[k].tenant in e.tenants
      invariant FirstUnknown(e, srv.bindings[i..]) == FirstUnknown(e, srv.bindings)
    {
      assert srv.bindings[i..][0] == srv.bindings[i] && srv.bindings[i..][1..] == srv.bindings[i + 1..];
      if srv.bindings[i].tenant !in e.tenants { return Err(UnknownTenant(srv.id, srv.bindings[i].tenant)); }
    }
    var fallback := e.g.effect(srv.defaultEffect);
    if fallback.None? { return Err(BadDefaultEffect(srv.id)); }
    var b := before;
    for i := 0 to |srv.bindings|
      invariant TenantsKnown(e, srv.bindings[i..])
      invariant AdmitBindings(e, srv, fallback.value, b, srv.bindings[i..])
                == AdmitBindings(e, srv, fallback.value, before, srv.bindings)
    {
      var binding := srv.bindings[i];
      assert srv.bindings[i..][0] == binding && srv.bindings[i..][1..] == srv.bindings[i + 1..];
      var key := BindingKey(srv.id, binding.tenant);
      if key !in e.reports { continue; }
      var tools := SortTools(e.reports[key]);
      var claimed := if binding.tenant in b.claimed then b.claimed[binding.tenant] else map[];
      var pass := BuildTools(SiteOf(e, srv, fallback.value, binding), Pass(claimed, b.tools, [], []), tools);
      if pass.Err? { return Err(pass.error); }
      var summary := Summary(srv.id, binding.tenant, |tools|, pass.value.admitted, pass.value.excluded);
      b := Built(b.claimed[binding.tenant := pass.value.claimed], pass.value.tools, b.discovered + [summary]);
    }
    return Ok(b);
  }

  /** The innermost loop: one binding's tools, already sorted. */
  method BuildTools(s: Site, before: Pass, tools: seq<Tool>) returns (r: Result<Pass, BuildError>)
    ensures r == AdmitAll(s, before, tools)
  {
    var p := before;
    for i := 0 to |tools|
      invariant AdmitAll(s, p, tools[i..]) == AdmitAll(s, before, tools)
    {
      var name := tools[i].name;
      assert tools[i..][0] == tools[i] && tools[i..][1..] == tools[i + 1..];
      if name in s.srv.overrides && s.srv.overrides[name].exclude {
        p := p.(excluded := p.excluded + [name]);
        continue;
      }
      var effect := Some(s.fallback);
      if name in s.srv.overrides && s.srv.overrides[name].effectClass != "" {
        effect := s.g.effect(s.srv.overrides[name].effectClass);
        if effect.None? { return Err(BadEffect(s.srv.id, name)); }
      }
      var qualified := s.prefix + ['.'] + name;
      if |qualified| > MAX_QUALIFIED_NAME { return Err(NameTooLong(qualified)); }
      if qualified in p.claimed { return Err(Collision(qualified, s.tenant.slug, p.claimed[qualified], s.srv.name)); }
      var toolset := For(s.index, qualified, s.srv.namespaceId);
      if toolset.None? {
        p := p.(excluded := p.excluded + [name]);
        continue;
      }
      var one := AdmittedTool(s.tenant, s.srv.id, s.srv.namespaceId, toolset.value, qualified, tools[i], effect.value);
      p := Pass(p.claimed[qualified := s.srv.name], p.tools + [one], p.admitted + [qualified], p.excluded);
    }
    return Ok(p);
  }
}
