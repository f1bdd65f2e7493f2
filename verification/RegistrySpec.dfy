/**
 The namespace and server checks of Validate in internal/controlplane/registry/spec.go: every problem is reported, and
 a document without problems is one the admission of Build can rely on.
 */
module RegistrySpec {
  import opened Options
  import opened Admission
  import opened AdmissionLaws
  import opened Verdicts
  import Toolsets

  const MAX_PREFIX := 12

  datatype PrefixFault = TooLong | HasDot | BadCharacter(c: char)

  datatype Problem =
    | NoNamespaceId
    | NoPrefix(id: string)
    | NamespaceRepeated(id: string)
    | PrefixShared(prior: string, id: string, prefix: string)
    | BadPrefix(id: string, fault: PrefixFault)
    | NoServerId
    | ServerRepeated(id: string)
    | NamespaceUnknown(id: string, namespaceId: string)
    | NoBindings(id: string)
    | NoTenant(id: string)
    | TenantRepeated(id: string, tenant: string)
    | NoPrimary(id: string, tenant: string)
    | ModeUnknown(id: string)
    | DefaultMissing(id: string)
    | DefaultUnknown(id: string)
    | EffectMissing(id: string, tool: string)
    | EffectUnknown(id: string, tool: string)

  // ---------------------------------------------------------------- what a document should be

  predicate PrefixChar(c: char) { 'a' <= c <= 'z' || '0' <= c <= '9' || c == '_' || c == '-' }

  predicate GoodPrefix(p: string) { |p| <= MAX_PREFIX && forall k :: 0 <= k < |p| ==> PrefixChar(p[k]) }

  /** What makes a good prefix. */
  lemma {:induction false} PrefixTells(p: string)
    ensures GoodPrefix(p) <==>
              |p| <= 12 && forall c :: c in p ==> c in "abcdefghijklmnopqrstuvwxyz" || c in "0123456789_-"
  {
    hide PrefixChar;
    forall c: char { LettersTell(c); }
  }

  lemma {:induction false} LettersTell(c: char)
    ensures PrefixChar(c) <==> c in "abcdefghijklmnopqrstuvwxyz" || c in "0123456789_-"
  {
    SmallLetters(c);
    NumeralsAndMarks(c);
  }

  lemma {:induction false} SmallLetters(c: char)
    ensures c in "abcdefghijklmnopqrstuvwxyz" <==> 'a' <= c <= 'z'
  {
    var letters := "abcdefghijklmnopqrstuvwxyz";
    if 'a' <= c <= 'z' { assert letters[c as int - 'a' as int] == c; }
  }

  lemma {:induction false} NumeralsAndMarks(c: char)
    ensures c in "0123456789_-" <==> '0' <= c <= '9' || c == '_' || c == '-'
  {
    var marks := "0123456789_-";
    if '0' <= c <= '9' { assert marks[c as int - '0' as int] == c; }
    assert marks[10] == '_' && marks[11] == '-';
  }

  predicate Faulty(p: string, fault: PrefixFault) {
    match fault
    case TooLong => |p| > MAX_PREFIX
    case HasDot => |p| <= MAX_PREFIX && '.' in p
    case BadCharacter(c) => |p| <= MAX_PREFIX && '.' !in p && c in p && !PrefixChar(c)
  }

  predicate NamespaceFits(all: seq<Namespace>, i: nat)
    requires i < |all|
  {
    && all[i].id != "" && all[i].prefix != "" && GoodPrefix(all[i].prefix)
    && forall k :: 0 <= k < i ==> all[k].id != all[i].id && all[k].prefix != all[i].prefix
  }

  predicate NamespacesFit(all: seq<Namespace>) { forall i :: 0 <= i < |all| ==> NamespaceFits(all, i) }

  predicate NamespaceKnown(all: seq<Namespace>, id: string) {
    id != "" && exists i :: 0 <= i < |all| && all[i].id == id
  }

  predicate BindingsFit(bindings: seq<BindingSpec>) {
    && (forall k :: 0 <= k < |bindings| ==> bindings[k].tenant != "" && bindings[k].primary != "")
    && (forall j, k :: 0 <= j < k < |bindings| ==> bindings[j].tenant != bindings[k].tenant)
  }

  predicate EffectFits(g: Grammar, name: string) { name != "" && g.effect(name).Some? }

  predicate OverrideFits(g: Grammar, o: Override) { o.exclude || EffectFits(g, o.effectClass) }

  predicate OverridesFit(g: Grammar, overrides: map<string, Override>) {
    forall name :: name in overrides ==> OverrideFits(g, overrides[name])
  }

  predicate ServerFits(g: Grammar, all: seq<Namespace>, srv: ServerSpec) {
    && NamespaceKnown(all, srv.namespaceId) && srv.bindings != [] && BindingsFit(srv.bindings)
    && g.mode(srv.servingMode) && EffectFits(g, srv.defaultEffect) && OverridesFit(g, srv.overrides)
  }

  predicate ServersFit(g: Grammar, all: seq<Namespace>, servers: seq<ServerSpec>) {
    && (forall i :: 0 <= i < |servers| ==> servers[i].id != "" && ServerFits(g, all, servers[i]))
    && (forall i, j :: 0 <= i < j < |servers| ==> servers[i].id != servers[j].id)
  }

  predicate Fits(g: Grammar, spec: Spec) {
    NamespacesFit(spec.namespaces) && ServersFit(g, spec.namespaces, spec.servers)
  }

  // ---------------------------------------------------------------- the code's own form

  method ValidatePrefix(prefix: string) returns (fault: Option<PrefixFault>)
    ensures fault.None? <==> GoodPrefix(prefix)
    ensures fault.Some? ==> Faulty(prefix, fault.value)
  {
    if |prefix| > MAX_PREFIX { return Some(TooLong); }
    if '.' in prefix {
      var k :| 0 <= k < |prefix| && prefix[k] == '.';
      return Some(HasDot);
    }
    for k := 0 to |prefix|
      invariant forall j :: 0 <= j < k ==> PrefixChar(prefix[j])
    {
      if !PrefixChar(prefix[k]) { return Some(BadCharacter(prefix[k])); }
    }
    return None;
  }

  /** A reported problem of a namespace is one it has. */
  predicate Reported(all: seq<Namespace>, p: Problem) {
    match p
    case NoNamespaceId => exists i :: 0 <= i < |all| && all[i].id == ""
    case NoPrefix(id) => Namespace(id, "") in all
    case NamespaceRepeated(id) => exists i, j :: 0 <= i < j < |all| && all[i].id == id == all[j].id
    case PrefixShared(prior, id, prefix) =>
      exists i, j :: 0 <= i < j < |all| && all[i] == Namespace(prior, prefix) && all[j] == Namespace(id, prefix)
    case BadPrefix(id, fault) => exists i :: 0 <= i < |all| && all[i].id == id && Faulty(all[i].prefix, fault)
    case _ => false
  }

  /** What the loop has gathered from the first `i` namespaces; a prefix keeps its last user. */
  ghost predicate Gathered(all: seq<Namespace>, i: nat, known: set<string>, prefixes: map<string, string>)
    requires i <= |all|
  {
    && (forall id :: id in known <==> id != "" && exists k :: 0 <= k < i && all[k].id == id)
    && (forall p :: p in prefixes ==> exists k :: 0 <= k < i && all[k] == Namespace(prefixes[p], p))
    && (forall k :: 0 <= k < i && all[k].id != "" ==> all[k].prefix in prefixes)
  }

  predicate Trouble(ns: Namespace, known: set<string>, prefixes: map<string, string>, p: Problem) {
    match p
    case NoPrefix(id) => ns == Namespace(id, "")
    case NamespaceRepeated(id) => ns.id == id && id in known
    case PrefixShared(prior, id, prefix) =>
      ns == Namespace(id, prefix) && prefix in prefixes && prefixes[prefix] == prior
    case BadPrefix(id, fault) => ns.id == id && Faulty(ns.prefix, fault)
    case _ => false
  }

  /** One turn of the first loop. */
  method ValidateNamespace(ns: Namespace, known: set<string>, prefixes: map<string, string>)
    returns (problems: seq<Problem>)
    ensures problems == [] <==> ns.prefix != "" && ns.id !in known && ns.prefix !in prefixes && GoodPrefix(ns.prefix)
    ensures forall k :: 0 <= k < |problems| ==> Trouble(ns, known, prefixes, problems[k])
  {
    hide Faulty, GoodPrefix;
    problems := [];
    if ns.prefix == "" { problems := problems + [NoPrefix(ns.id)]; }
    if ns.id in known { problems := problems + [NamespaceRepeated(ns.id)]; }
    if ns.prefix in prefixes { problems := problems + [PrefixShared(prefixes[ns.prefix], ns.id, ns.prefix)]; }
    var fault := ValidatePrefix(ns.prefix);
    if fault.Some? { problems := problems + [BadPrefix(ns.id, fault.value)]; }
  }

  /** The first loop. */
  method ValidateNamespaces(all: seq<Namespace>) returns (problems: seq<Problem>, known: set<string>)
    ensures problems == [] <==> NamespacesFit(all)
    ensures forall id :: id in known <==> NamespaceKnown(all, id)
    ensures forall k :: 0 <= k < |problems| ==> Reported(all, problems[k])
  {
    hide Gathered, Reported, Trouble, NamespaceFits, GoodPrefix;
    problems, known := [], {};
    var prefixes: map<string, string> := map[];
    NothingGathered(all);
    for i := 0 to |all|
      invariant problems == [] <==> forall k :: 0 <= k < i ==> NamespaceFits(all, k)
      invariant Gathered(all, i, known, prefixes)
      invariant forall k :: 0 <= k < |problems| ==> Reported(all, problems[k])
    {
      var ns := all[i];
      GatherOne(all, i, known, prefixes);
      if ns.id == "" {
        problems := problems + [NoNamespaceId];
        continue;
      }
      var more := ValidateNamespace(ns, known, prefixes);
      forall k | 0 <= k < |more| ensures Reported(all, more[k]) { TroubleIsReal(all, i, known, prefixes, more[k]); }
      problems := problems + more;
      known, prefixes := known + {ns.id}, prefixes[ns.prefix := ns.id];
    }
    EverythingGathered(all, known, prefixes);
  }

  lemma {:induction false} NothingGathered(all: seq<Namespace>)
    ensures Gathered(all, 0, {}, map[])
  {
  }

  lemma {:induction false} EverythingGathered(all: seq<Namespace>, known: set<string>, prefixes: map<string, string>)
    requires Gathered(all, |all|, known, prefixes)
    ensures forall id :: id in known <==> NamespaceKnown(all, id)
  {
  }

  /** The maps tell whether a namespace fits behind fitting ones, and take it in. */
  lemma {:induction false} GatherOne(all: seq<Namespace>, i: nat, known: set<string>, prefixes: map<string, string>)
    requires i < |all| && Gathered(all, i, known, prefixes)
    ensures var ns := all[i];
            if ns.id == ""
            then !NamespaceFits(all, i) && Reported(all, NoNamespaceId) && Gathered(all, i + 1, known, prefixes)
            else
              && Gathered(all, i + 1, known + {ns.id}, prefixes[ns.prefix := ns.id])
              && ((forall k :: 0 <= k < i ==> NamespaceFits(all, k)) ==>
                    (NamespaceFits(all, i) <==>
                       ns.prefix != "" && GoodPrefix(ns.prefix) && ns.id !in known && ns.prefix !in prefixes))
  {
    hide GoodPrefix;
    assert all[i] == Namespace(all[i].id, all[i].prefix);
    if forall k :: 0 <= k < i ==> NamespaceFits(all, k) {
      forall k | 0 <= k < i ensures all[k].id != "" { assert NamespaceFits(all, k); }
    }
  }

  lemma {:induction false} TroubleIsReal(all: seq<Namespace>, i: nat, known: set<string>, prefixes: map<string, string>,
                                         p: Problem)
    requires i < |all| && Gathered(all, i, known, prefixes) && Trouble(all[i], known, prefixes, p)
    ensures Reported(all, p)
  {
    hide Faulty;
  }

  /** A reported problem of a server is one it has. */
  predicate ServerTrouble(g: Grammar, all: seq<Namespace>, srv: ServerSpec, p: Problem) {
    match p
    case NamespaceUnknown(id, namespaceId) =>
      id == srv.id && namespaceId == srv.namespaceId && !NamespaceKnown(all, namespaceId)
    case NoBindings(id) => id == srv.id && |srv.bindings| == 0
    case ModeUnknown(id) => id == srv.id && !g.mode(srv.servingMode)
    case DefaultMissing(id) => id == srv.id && srv.defaultEffect == ""
    case DefaultUnknown(id) => id == srv.id && g.effect(srv.defaultEffect).None?
    case EffectMissing(id, tool) =>
      id == srv.id && tool in srv.overrides && !srv.overrides[tool].exclude && srv.overrides[tool].effectClass == ""
    case EffectUnknown(id, tool) =>
      id == srv.id && tool in srv.overrides && !srv.overrides[tool].exclude
      && g.effect(srv.overrides[tool].effectClass).None?
    case _ => BindingTrouble(srv.id, srv.bindings, p)
  }

  predicate BindingTrouble(id: string, bindings: seq<BindingSpec>, p: Problem) {
    match p
    case NoTenant(of) => of == id && exists k :: 0 <= k < |bindings| && bindings[k].tenant == ""
    case TenantRepeated(of, tenant) =>
      of == id && exists j, k :: 0 <= j < k < |bindings| && bindings[j].tenant == tenant == bindings[k].tenant
    case NoPrimary(of, tenant) => of == id && BindingSpec(tenant, "") in bindings
    case _ => false
  }

  predicate ServerReported(g: Grammar, all: seq<Namespace>, servers: seq<ServerSpec>, p: Problem) {
    match p
    case NoServerId => exists i :: 0 <= i < |servers| && servers[i].id == ""
    case ServerRepeated(id) => exists i, j :: 0 <= i < j < |servers| && servers[i].id == id == servers[j].id
    case _ => exists i :: 0 <= i < |servers| && ServerTrouble(g, all, servers[i], p)
  }

  method ValidateBindings(id: string, bindings: seq<BindingSpec>) returns (problems: seq<Problem>)
    ensures problems == [] <==> BindingsFit(bindings)
    ensures forall p :: p in problems ==> BindingTrouble(id, bindings, p)
  {
    problems := [];
    var seen: set<string> := {};
    for k := 0 to |bindings|
      invariant forall p :: p in problems ==> BindingTrouble(id, bindings, p)
      invariant forall j :: 0 <= j < k && bindings[j].tenant != "" ==> bindings[j].tenant in seen
      invariant forall t :: t in seen ==> exists j :: 0 <= j < k && bindings[j].tenant == t
      invariant problems == [] <==> BindingsFit(bindings[..k])
    {
      var b := bindings[k];
      BindingsFitStep(bindings, k);
      if b.tenant == "" {
        problems := problems + [NoTenant(id)];
      } else if b.tenant in seen {
        problems := problems + [TenantRepeated(id, b.tenant)];
      } else {
        seen := seen + {b.tenant};
      }
      assert b == BindingSpec(b.tenant, b.primary);
      if b.primary == "" { problems := problems + [NoPrimary(id, b.tenant)]; }
    }
    assert bindings[..|bindings|] == bindings;
  }

  lemma {:induction false} BindingsFitStep(bindings: seq<BindingSpec>, k: nat)
    requires k < |bindings|
    ensures BindingsFit(bindings[..k + 1]) <==>
              BindingsFit(bindings[..k]) && bindings[k].tenant != "" && bindings[k].primary != ""
              && forall j :: 0 <= j < k ==> bindings[j].tenant != bindings[k].tenant
  {
    var more, less := bindings[..k + 1], bindings[..k];
    assert forall j :: 0 <= j < k ==> more[j] == less[j] == bindings[j];
    assert more[k] == bindings[k];
  }

  /** The tools of a server in any map order. */
  method ValidateOverrides(g: Grammar, all: seq<Namespace>, srv: ServerSpec) returns (problems: seq<Problem>)
    ensures problems == [] <==> OverridesFit(g, srv.overrides)
    ensures forall p :: p in problems ==> ServerTrouble(g, all, srv, p)
  {
    problems := [];
    var id, overrides := srv.id, srv.overrides;
    var left := overrides.Keys;
    while left != {}
      invariant forall p :: p in problems ==> ServerTrouble(g, all, srv, p)
      invariant left <= overrides.Keys
      invariant problems == [] <==>
                  forall name :: name in overrides && name !in left ==> OverrideFits(g, overrides[name])
      decreases |left|
    {
      var name :| name in left;
      left := left - {name};
      var o := overrides[name];
      if o.exclude { continue; }
      if o.effectClass == "" {
        problems := problems + [EffectMissing(id, name)];
      } else if g.effect(o.effectClass).None? {
        problems := problems + [EffectUnknown(id, name)];
      }
    }
  }

  /** One turn of the second loop, for a server with an id. */
  method ValidateServer(g: Grammar, all: seq<Namespace>, known: set<string>, srv: ServerSpec)
    returns (problems: seq<Problem>)
    requires forall id :: id in known <==> NamespaceKnown(all, id)
    ensures problems == [] <==> ServerFits(g, all, srv)
    ensures forall p :: p in problems ==> ServerTrouble(g, all, srv, p)
  {
    hide BindingsFit, OverridesFit, BindingTrouble, NamespaceKnown;
    problems := [];
    if srv.namespaceId !in known { problems := problems + [NamespaceUnknown(srv.id, srv.namespaceId)]; }
    if |srv.bindings| == 0 { problems := problems + [NoBindings(srv.id)]; }
    var more := ValidateBindings(srv.id, srv.bindings);
    forall p | p in more ensures ServerTrouble(g, all, srv, p) { AlsoServerTrouble(g, all, srv, p); }
    problems := problems + more;
    if !g.mode(srv.servingMode) { problems := problems + [ModeUnknown(srv.id)]; }
    if srv.defaultEffect == "" {
      problems := problems + [DefaultMissing(srv.id)];
    } else if g.effect(srv.defaultEffect).None? {
      problems := problems + [DefaultUnknown(srv.id)];
    }
    more := ValidateOverrides(g, all, srv);
    problems := problems + more;
  }

  lemma {:induction false} AlsoServerTrouble(g: Grammar, all: seq<Namespace>, srv: ServerSpec, p: Problem)
    requires BindingTrouble(srv.id, srv.bindings, p)
    ensures ServerTrouble(g, all, srv, p)
  {
  }

  /** The second loop. */
  method ValidateServers(g: Grammar, all: seq<Namespace>, known: set<string>, servers: seq<ServerSpec>)
    returns (problems: seq<Problem>)
    requires forall id :: id in known <==> NamespaceKnown(all, id)
    ensures problems == [] <==> ServersFit(g, all, servers)
    ensures forall p :: p in problems ==> ServerReported(g, all, servers, p)
  {
    hide NamespaceKnown, ServerFits, ServerTrouble;
    problems := [];
    var ids: set<string> := {};
    for i := 0 to |servers|
      invariant forall k :: 0 <= k < i && servers[k].id != "" ==> servers[k].id in ids
      invariant forall id :: id in ids ==> exists k :: 0 <= k < i && servers[k].id == id
      invariant problems == [] <==> ServersFit(g, all, servers[..i])
      invariant forall p :: p in problems ==> ServerReported(g, all, servers, p)
    {
      var srv := servers[i];
      ServersFitStep(g, all, servers, i);
      if srv.id == "" {
        problems := problems + [NoServerId];
        continue;
      }
      if srv.id in ids { problems := problems + [ServerRepeated(srv.id)]; }
      ids := ids + {srv.id};
      var more := ValidateServer(g, all, known, srv);
      forall p | p in more ensures ServerReported(g, all, servers, p) { OfServer(g, all, servers, i, p); }
      problems := problems + more;
    }
    assert servers[..|servers|] == servers;
  }

  lemma {:induction false} OfServer(g: Grammar, all: seq<Namespace>, servers: seq<ServerSpec>, i: nat, p: Problem)
    requires i < |servers| && ServerTrouble(g, all, servers[i], p)
    ensures ServerReported(g, all, servers, p)
  {
  }

  lemma {:induction false} ServersFitStep(g: Grammar, all: seq<Namespace>, servers: seq<ServerSpec>, i: nat)
    requires i < |servers|
    ensures ServersFit(g, all, servers[..i + 1]) <==>
              ServersFit(g, all, servers[..i]) && servers[i].id != "" && ServerFits(g, all, servers[i])
              && forall k :: 0 <= k < i ==> servers[k].id != servers[i].id
  {
    hide ServerFits;
    var more, less := servers[..i + 1], servers[..i];
    assert forall k :: 0 <= k < i ==> more[k] == less[k] == servers[k];
    assert more[i] == servers[i];
  }

  /** No problem is reported exactly when the namespaces and the servers are as they should be. */
  method Validate(g: Grammar, spec: Spec) returns (problems: seq<Problem>)
    ensures problems == [] <==> Fits(g, spec)
    ensures forall p :: p in problems ==>
              Reported(spec.namespaces, p) || ServerReported(g, spec.namespaces, spec.servers, p)
  {
    hide NamespacesFit, ServersFit, NamespaceKnown, Reported, ServerReported;
    var known;
    problems, known := ValidateNamespaces(spec.namespaces);
    var more := ValidateServers(g, spec.namespaces, known, spec.servers);
    problems := problems + more;
  }

  /** What it takes to be without problems. */
  lemma {:induction false} FitsTells(g: Grammar, spec: Spec)
    ensures Fits(g, spec) <==>
              && (forall ns :: ns in spec.namespaces ==>
                    && ns.id != "" && ns.prefix != "" && |ns.prefix| <= 12
                    && forall c :: c in ns.prefix ==> c in "abcdefghijklmnopqrstuvwxyz" || c in "0123456789_-")
              && (forall i, j :: 0 <= i < j < |spec.namespaces| ==>
                    spec.namespaces[i].id != spec.namespaces[j].id
                    && spec.namespaces[i].prefix != spec.namespaces[j].prefix)
              && (forall srv :: srv in spec.servers ==> ServerSound(g, spec.namespaces, srv))
              && (forall i, j :: 0 <= i < j < |spec.servers| ==> spec.servers[i].id != spec.servers[j].id)
  {
    hide NamespacesFit, ServersFit, ServerSound;
    NamespacesTell(spec.namespaces);
    ServersTell(g, spec.namespaces, spec.servers);
  }

  lemma {:induction false} NamespacesTell(all: seq<Namespace>)
    ensures NamespacesFit(all) <==>
              && (forall ns :: ns in all ==>
                    && ns.id != "" && ns.prefix != "" && |ns.prefix| <= 12
                    && forall c :: c in ns.prefix ==> c in "abcdefghijklmnopqrstuvwxyz" || c in "0123456789_-")
              && (forall i, j :: 0 <= i < j < |all| ==> all[i].id != all[j].id && all[i].prefix != all[j].prefix)
  {
    hide GoodPrefix;
    forall ns: Namespace
      ensures GoodPrefix(ns.prefix) <==>
                && |ns.prefix| <= 12
                && forall c :: c in ns.prefix ==> c in "abcdefghijklmnopqrstuvwxyz" || c in "0123456789_-"
    {
      PrefixTells(ns.prefix);
    }
    if NamespacesFit(all) {
      forall i, j | 0 <= i < j < |all| ensures all[i].id != all[j].id && all[i].prefix != all[j].prefix {
        assert NamespaceFits(all, j);
      }
      forall i: nat | i < |all| ensures all[i].id != "" && all[i].prefix != "" && GoodPrefix(all[i].prefix) {
        assert NamespaceFits(all, i);
      }
    }
  }

  lemma {:induction false} ServersTell(g: Grammar, all: seq<Namespace>, servers: seq<ServerSpec>)
    ensures ServersFit(g, all, servers) <==>
              && (forall srv :: srv in servers ==> ServerSound(g, all, srv))
              && (forall i, j :: 0 <= i < j < |servers| ==> servers[i].id != servers[j].id)
  {
    hide ServerFits, ServerSound;
    forall srv ensures ServerSound(g, all, srv) <==> srv.id != "" && ServerFits(g, all, srv) {
      SoundIfFits(g, all, srv);
    }
  }

  /** An id, a known namespace, bindings to different tenants, each with a primary, and spellings that exist. */
  predicate ServerSound(g: Grammar, all: seq<Namespace>, srv: ServerSpec) {
    && srv.id != "" && srv.namespaceId != "" && (exists ns :: ns in all && ns.id == srv.namespaceId)
    && |srv.bindings| > 0 && (forall b :: b in srv.bindings ==> b.tenant != "" && b.primary != "")
    && (forall j, k :: 0 <= j < k < |srv.bindings| ==> srv.bindings[j].tenant != srv.bindings[k].tenant)
    && g.mode(srv.servingMode) && srv.defaultEffect != "" && g.effect(srv.defaultEffect).Some?
    && (forall name :: name in srv.overrides && !srv.overrides[name].exclude ==>
          srv.overrides[name].effectClass != "" && g.effect(srv.overrides[name].effectClass).Some?)
  }

  lemma {:induction false} SoundIfFits(g: Grammar, all: seq<Namespace>, srv: ServerSpec)
    ensures ServerSound(g, all, srv) <==> srv.id != "" && ServerFits(g, all, srv)
  {
    if ns :| ns in all && ns.id == srv.namespaceId {
      var i :| 0 <= i < |all| && all[i] == ns;
    }
  }

  // ---------------------------------------------------------------- what validation is worth

  /** Validation gives admission what it relies on: readable prefixes, no two alike, and known namespaces. */
  lemma {:induction false} FitsIsValid(g: Grammar, spec: Spec)
    requires Fits(g, spec)
    ensures ValidNamespaces(spec)
  {
    hide BindingsFit, OverridesFit, EffectFits;
    forall i | 0 <= i < |spec.namespaces| ensures '.' !in spec.namespaces[i].prefix {
      assert NamespaceFits(spec.namespaces, i);
    }
    forall i, j | 0 <= i < j < |spec.namespaces| ensures spec.namespaces[i].prefix != spec.namespaces[j].prefix {
      assert NamespaceFits(spec.namespaces, j);
    }
    forall srv | srv in spec.servers
      ensures exists i :: 0 <= i < |spec.namespaces| && spec.namespaces[i].id == srv.namespaceId
    {
      var k :| 0 <= k < |spec.servers| && spec.servers[k] == srv;
      assert NamespaceKnown(spec.namespaces, srv.namespaceId);
    }
  }

  /** What can still go wrong once the document is validated. */
  predicate BeyondValidation(e: BuildError) {
    e.TenantTwice? || e.BadToolsets? || e.UnknownTenant? || e.NameTooLong? || e.Collision?
  }

  lemma {:induction false} PassAfterValidation(s: Site, p: Pass, rest: seq<Tool>)
    requires OverridesFit(s.g, s.srv.overrides) && AdmitAll(s, p, rest).Err?
    ensures BeyondValidation(AdmitAll(s, p, rest).error)
    decreases |rest|
  {
    hide Qualified, ToolsetOf;
    if AdmitOne(s, p, rest[0]).Err? {
      var name := rest[0].name;
      if name in s.srv.overrides { assert OverrideFits(s.g, s.srv.overrides[name]); }
    } else {
      PassAfterValidation(s, AdmitOne(s, p, rest[0]).value, rest[1..]);
    }
  }

  lemma {:induction false} BindingsAfterValidation(e: Env, srv: ServerSpec, fallback: EffectClass, b: Built,
                                                   rest: seq<BindingSpec>)
    requires TenantsKnown(e, rest) && OverridesFit(e.g, srv.overrides) && AdmitBindings(e, srv, fallback, b, rest).Err?
    ensures BeyondValidation(AdmitBindings(e, srv, fallback, b, rest).error)
    decreases |rest|
  {
    hide AdmitAll, SortTools, OverridesFit, PrefixOf;
    if AdmitBinding(e, srv, fallback, b, rest[0]).Err? {
      var tools := SortTools(e.reports[BindingKey(srv.id, rest[0].tenant)]);
      PassAfterValidation(SiteOf(e, srv, fallback, rest[0]), Pass(ClaimedBy(b, rest[0].tenant), b.tools, [], []),
                          tools);
    } else {
      BindingsAfterValidation(e, srv, fallback, AdmitBinding(e, srv, fallback, b, rest[0]).value, rest[1..]);
    }
  }

  lemma {:induction false} ServersAfterValidation(e: Env, all: seq<Namespace>, b: Built, rest: seq<ServerSpec>)
    requires (forall i :: 0 <= i < |rest| ==> ServerFits(e.g, all, rest[i])) && AdmitServers(e, b, rest).Err?
    ensures BeyondValidation(AdmitServers(e, b, rest).error)
    decreases |rest|
  {
    hide AdmitBindings, BindingsFit, OverridesFit, NamespaceKnown, TenantsKnown;
    assert ServerFits(e.g, all, rest[0]);
    if AdmitServer(e, b, rest[0]).Err? {
      if FirstUnknown(e, rest[0].bindings).None? {
        BindingsAfterValidation(e, rest[0], e.g.effect(rest[0].defaultEffect).value, b, rest[0].bindings);
      }
    } else {
      assert forall i :: 0 <= i < |rest[1..]| ==> rest[1..][i] == rest[i + 1];
      ServersAfterValidation(e, all, AdmitServer(e, b, rest[0]).value, rest[1..]);
    }
  }

  /**
   A build of a validated document never fails on a serving mode or an effect class, and where it fails on a name
   collision, the two servers share a namespace.
   */
  lemma {:induction false} ValidatedBuilds(g: Grammar, spec: Spec, tenants: seq<Tenant>, reports: Reports)
    requires Fits(g, spec) && Build(g, spec, tenants, reports).Err?
    ensures var error := Build(g, spec, tenants, reports).error;
            && BeyondValidation(error)
            && (error.Collision? ==>
                  exists one, two :: one in spec.servers && two in spec.servers && one.name == error.prior
                    && two.name == error.server && one.namespaceId == two.namespaceId)
  {
    hide AdmitServers, NamespacesFit, ServerFits, IndexTenants, Toolsets.Resolve, IndexNamespaces;
    FitsIsValid(g, spec);
    if Build(g, spec, tenants, reports).error.Collision? { CollisionsStayInTheirNamespace(g, spec, tenants, reports); }
    TenantsDoNotCollide(map[], tenants);
    if EnvOf(g, spec, tenants, reports).Ok? {
      ServersAfterValidation(EnvOf(g, spec, tenants, reports).value, spec.namespaces, NOTHING, spec.servers);
    }
  }
}
