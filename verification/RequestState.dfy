/**
 The signed requestState envelope of internal/dataplane/edge/requeststate.go: printing, parsing, and redeeming a
 token. JSON encoding, the MAC and the hash are functions. What is assumed of them is named where it is needed and
 only about the envelopes, tokens and arguments that occur: Faithful, Unforgeable, CollisionFree.
 */
module RequestState {
  import opened Options
  import opened Json
  import opened Base64

  const SECOND := 1_000_000_000
  const TTL := 600 * SECOND
  const SKEW := 60 * SECOND

  const DOT: string := "."
  const VERSION: string := "mcpd1"

  datatype Source = Nobody | Backend | Plugin | Other(text: string)

  datatype Envelope = Envelope(
    version: string,
    tenant: string,
    tool: string,
    principal: string,
    argsDigest: string,
    source: Source,
    backend: string,
    plugin: string,
    issuedAt: int,
    nonce: string)

  /**
   Call arguments: what they mean, and the text the encoder gives for them, if any. One tree has many texts: a client's
   arguments keep the order of their members, a rewritten tree is encoded in the encoder's own.
   */
  datatype Args = Args(tree: Json, text: Option<seq<Byte>>)

  datatype Suite = Suite(
    marshal: Envelope -> seq<Byte>,
    unmarshal: seq<Byte> -> Option<Envelope>,
    mac: string -> seq<Byte>,
    sha: seq<Byte> -> seq<Byte>)

  datatype StateError = Invalid | Expired | Mismatched | NoSigner

  // ---------------------------------------------------------------- cut

  /** The parts before and behind the first `sep` at or after `i`. */
  function CutFrom(s: string, sep: string, i: nat): (string, string, bool)
    decreases |s| - i
  {
    if i + |sep| > |s| then (s, "", false)
    else if s[i..i + |sep|] == sep then (s[..i], s[i + |sep|..], true)
    else CutFrom(s, sep, i + 1)
  }

  method Cut(s: string, sep: string) returns (before: string, after: string, found: bool)
    ensures (before, after, found) == CutFrom(s, sep, 0)
  {
    var i := 0;
    while i + |sep| <= |s|
      invariant i <= |s| && CutFrom(s, sep, i) == CutFrom(s, sep, 0)
    {
      if s[i..i + |sep|] == sep { return s[..i], s[i + |sep|..], true; }
      i := i + 1;
    }
    return s, "", false;
  }

  /** Cutting finds the first dot. */
  lemma {:induction false} CutAtDot(before: string, after: string, i: nat)
    requires i <= |before| && '.' !in before
    ensures CutFrom(before + DOT + after, DOT, i) == (before, after, true)
    decreases |before| - i
  {
    var s := before + DOT + after;
    if i == |before| {
      assert s[i..i + 1] == DOT && s[..i] == before && s[i + 1..] == after;
    } else {
      assert s[i] == before[i];
      assert s[i..i + 1][0] != '.';
      CutAtDot(before, after, i + 1);
    }
  }

  // ---------------------------------------------------------------- printing and parsing

  /** Whole seconds since the epoch. */
  function Unix(now: int): int { now / SECOND }

  /** What Wrap fills in before it signs. */
  function Stamped(env: Envelope, now: int, nonce: string): Envelope {
    env.(version := VERSION,
         issuedAt := if env.issuedAt == 0 then Unix(now) else env.issuedAt,
         nonce := if env.nonce == "" then nonce else env.nonce)
  }

  function Wrap(su: Suite, env: Envelope, now: int, nonce: string): string {
    var encoded := Encode(su.marshal(Stamped(env, now, nonce)));
    VERSION + DOT + (encoded + DOT + Encode(su.mac(encoded)))
  }

  /** The part of a token its signature vouches for, if it does. */
  function Vouched(su: Suite, token: string): Option<string> {
    var (version, rest, ok) := CutFrom(token, DOT, 0);
    if !ok || version != VERSION then None
    else
      var (encoded, macPart, signed) := CutFrom(rest, DOT, 0);
      if !signed || Decode(macPart) != Some(su.mac(encoded)) then None else Some(encoded)
  }

  /** Too old, or too far in the future. */
  function Aged(env: Envelope, now: int): Result<Envelope, StateError> {
    if now - env.issuedAt * SECOND > TTL then Err(Expired)
    else if env.issuedAt * SECOND - now > SKEW then Err(Invalid)
    else Ok(env)
  }

  function Unwrap(su: Suite, token: string, now: int): Result<Envelope, StateError> {
    match Vouched(su, token)
    case None => Err(Invalid)
    case Some(encoded) =>
      match Decode(encoded)
      case None => Err(Invalid)
      case Some(payload) =>
        match su.unmarshal(payload)
        case None => Err(Invalid)
        case Some(env) => if env.version != VERSION then Err(Invalid) else Aged(env, now)
  }

  /** JSON gives the envelope back. */
  ghost predicate Survives(su: Suite, env: Envelope) { su.unmarshal(su.marshal(env)) == Some(env) }

  lemma {:induction false} NoDots(b: seq<Byte>)
    ensures '.' !in Encode(b)
  {
    EncodeInAlphabet(b);
    assert Value('.').None?;
  }

  lemma {:induction false} WrapIsVouched(su: Suite, env: Envelope, now: int, nonce: string)
    ensures Vouched(su, Wrap(su, env, now, nonce)) == Some(Encode(su.marshal(Stamped(env, now, nonce))))
  {
    hide Encode, Decode, CutFrom;
    var encoded := Encode(su.marshal(Stamped(env, now, nonce)));
    NoDots(su.marshal(Stamped(env, now, nonce)));
    CutAtDot(VERSION, encoded + DOT + Encode(su.mac(encoded)), 0);
    CutAtDot(encoded, Encode(su.mac(encoded)), 0);
    Base64RoundTrip(su.mac(encoded));
  }

  /** The token is `mcpd1`, a text without dots, and a MAC that decodes to the text's own. */
  predicate Bears(su: Suite, token: string, encoded: string, mac: string) {
    token == "mcpd1." + encoded + "." + mac && '.' !in encoded && Decode(mac) == Some(su.mac(encoded))
  }

  lemma {:induction false} CutTells(s: string, i: nat)
    requires i <= |s|
    ensures var (before, after, found) := CutFrom(s, DOT, i);
            && (found ==> i <= |before| && s == before + "." + after && '.' !in before[i..])
            && (!found ==> '.' !in s[i..])
    decreases |s| - i
  {
    if i < |s| && s[i..i + 1] != DOT {
      assert s[i..i + 1] == [s[i]];
      CutTells(s, i + 1);
      HeadAt(s, i);
      var (before, after, found) := CutFrom(s, DOT, i);
      if found {
        HeadAt(before, i);
        assert before[i] == s[i];
      }
    }
  }

  lemma {:induction false} HeadAt(s: string, i: nat)
    requires i < |s|
    ensures s[i..] == [s[i]] + s[i + 1..]
  {
  }

  lemma {:induction false} BornIsVouched(su: Suite, token: string, encoded: string, mac: string)
    requires Bears(su, token, encoded, mac)
    ensures Vouched(su, token) == Some(encoded)
  {
    hide Decode, CutFrom;
    CutAtDot(VERSION, encoded + DOT + mac, 0);
    CutAtDot(encoded, mac, 0);
    assert token == VERSION + DOT + (encoded + DOT + mac);
  }

  /** A signature vouches for a text exactly if the token bears that text with its MAC. */
  lemma {:induction false} VouchedTells(su: Suite, token: string, encoded: string)
    ensures Vouched(su, token) == Some(encoded) <==> exists mac :: Bears(su, token, encoded, mac)
  {
    hide Decode, CutFrom;
    CutTells(token, 0);
    var (version, rest, ok) := CutFrom(token, DOT, 0);
    CutTells(rest, 0);
    if Vouched(su, token) == Some(encoded) {
      var (text, mac, signed) := CutFrom(rest, DOT, 0);
      assert text[0..] == text && version[0..] == version;
      assert token == "mcpd1" + "." + (text + "." + mac) == "mcpd1." + text + "." + mac;
      assert Bears(su, token, encoded, mac);
    }
    forall mac | Bears(su, token, encoded, mac) ensures Vouched(su, token) == Some(encoded) {
      BornIsVouched(su, token, encoded, mac);
    }
  }

  /** The token vouches for the JSON text of this envelope, of the one version there is. */
  ghost predicate Carries(su: Suite, token: string, env: Envelope) {
    exists encoded, mac :: Bears(su, token, encoded, mac) && Decode(encoded).Some?
      && su.unmarshal(Decode(encoded).value) == Some(env) && env.version == "mcpd1"
  }

  /**
   Which tokens are read: those that carry an envelope at most ten minutes old and at most a minute ahead. One too old
   is expired; everything else is invalid.
   */
  lemma {:induction false} UnwrapTells(su: Suite, token: string, now: int)
    ensures var r := Unwrap(su, token, now);
            && (forall env :: r == Ok(env) <==>
                  && Carries(su, token, env)
                  && now - env.issuedAt * 1_000_000_000 <= 600_000_000_000
                  && env.issuedAt * 1_000_000_000 - now <= 60_000_000_000)
            && (r == Err(Expired) <==>
                  exists env :: Carries(su, token, env) && now - env.issuedAt * 1_000_000_000 > 600_000_000_000)
            && (r.Err? ==> r.error in {Expired, Invalid})
  {
    hide Vouched, Decode, Bears;
    forall env ensures Carries(su, token, env) <==> Reads(su, token, env) { ReadsIfCarries(su, token, env); }
    hide Carries;
    if Unwrap(su, token, now) == Err(Expired) {
      assert Reads(su, token, su.unmarshal(Decode(Vouched(su, token).value).value).value);
    }
  }

  lemma {:induction false} ReadsIfCarries(su: Suite, token: string, env: Envelope)
    ensures Carries(su, token, env) <==> Reads(su, token, env)
  {
    hide Vouched, Decode, Bears;
    if Reads(su, token, env) {
      VouchedTells(su, token, Vouched(su, token).value);
      var mac :| Bears(su, token, Vouched(su, token).value, mac);
    }
    if Carries(su, token, env) {
      var encoded, mac :| Bears(su, token, encoded, mac) && Decode(encoded).Some?
        && su.unmarshal(Decode(encoded).value) == Some(env) && env.version == "mcpd1";
      VouchedTells(su, token, encoded);
    }
  }

  predicate Reads(su: Suite, token: string, env: Envelope) {
    && Vouched(su, token).Some? && Decode(Vouched(su, token).value).Some?
    && su.unmarshal(Decode(Vouched(su, token).value).value) == Some(env) && env.version == VERSION
  }

  /** Parsing what was printed gives the same envelope back, for as long as it is valid. */
  lemma {:induction false} UnwrapOfWrap(su: Suite, env: Envelope, at: int, nonce: string, now: int)
    requires Survives(su, Stamped(env, at, nonce))
    ensures Unwrap(su, Wrap(su, env, at, nonce), now) == Aged(Stamped(env, at, nonce), now)
  {
    hide Encode, Decode, CutFrom, Vouched, Wrap, Aged;
    WrapIsVouched(su, env, at, nonce);
    Base64RoundTrip(su.marshal(Stamped(env, at, nonce)));
  }

  // ---------------------------------------------------------------- binding to the arguments

  /** The digest a call's arguments are bound by; arguments without JSON text share one sentinel. */
  function ArgsDigest(su: Suite, args: Args): string {
    match args.text case None => "unbindable" case Some(raw) => Encode(su.sha(raw))
  }

  /** Two different texts with one hash. */
  predicate Collide(su: Suite, a: Args, b: Args) {
    a.text.Some? && b.text.Some? && a.text != b.text && su.sha(a.text.value) == su.sha(b.text.value)
  }

  /** A 256-bit hash under which no two of these arguments' texts collide. */
  ghost predicate CollisionFree(su: Suite, args: seq<Args>) {
    (forall x :: |su.sha(x)| == 32) && forall a, b :: a in args && b in args ==> !Collide(su, a, b)
  }

  /**
   Digests agree exactly when the JSON texts do. Arguments that have none agree with each other: the sentinel meant
   to match nothing matches itself.
   */
  lemma {:induction false} DigestBinds(su: Suite, a: Args, b: Args)
    requires CollisionFree(su, [a, b])
    ensures ArgsDigest(su, a) == ArgsDigest(su, b) <==> a.text == b.text
    ensures ArgsDigest(su, a) != ""
  {
    hide Encode, Decode;
    assert a in [a, b] && b in [a, b];
    assert !Collide(su, a, b);
    forall args: Args | args.text.Some? ensures |ArgsDigest(su, args)| == 43 {
      EncodeInAlphabet(su.sha(args.text.value));
    }
    if a.text.Some? && b.text.Some? {
      Base64RoundTrip(su.sha(a.text.value));
      Base64RoundTrip(su.sha(b.text.value));
    }
  }

  // ---------------------------------------------------------------- the assumption has a model

  /** The last `k` digits of `n` to base 256. */
  function Digits(n: nat, k: nat): (d: seq<Byte>)
    ensures |d| == k
  {
    if k == 0 then [] else Digits(n / 256, k - 1) + [n % 256]
  }

  function Pow256(k: nat): nat { if k == 0 then 1 else 256 * Pow256(k - 1) }

  lemma {:induction false} DigitsDiffer(n: nat, m: nat, k: nat)
    requires n < Pow256(k) && m < Pow256(k) && Digits(n, k) == Digits(m, k)
    ensures n == m
  {
    if k > 0 {
      var d, e := Digits(n, k), Digits(m, k);
      assert d[k - 1] == n % 256 && e[k - 1] == m % 256;
      assert d[..k - 1] == Digits(n / 256, k - 1) && e[..k - 1] == Digits(m / 256, k - 1);
      DigitsDiffer(n / 256, m / 256, k - 1);
    }
  }

  /** Where a text first occurs among the arguments. */
  function PlaceOf(args: seq<Args>, text: seq<Byte>): (i: nat)
    ensures i <= |args|
    ensures i < |args| ==> args[i].text == Some(text)
    ensures i == |args| ==> forall a :: a in args ==> a.text != Some(text)
  {
    if args == [] then 0
    else if args[0].text == Some(text) then 0
    else
      var i := PlaceOf(args[1..], text);
      assert args == [args[0]] + args[1..];
      1 + i
  }

  /** Any fewer than 256 to the 32nd arguments have a 256-bit hash without collisions among them. */
  lemma {:induction false} CollisionFreeHasAModel(su: Suite, args: seq<Args>) returns (out: Suite)
    requires |args| < Pow256(32)
    ensures out == su.(sha := out.sha) && CollisionFree(out, args)
  {
    hide Digits, Pow256;
    out := su.(sha := text => Digits(PlaceOf(args, text), 32));
    forall a, b | a in args && b in args && a.text.Some? && b.text.Some?
                  && out.sha(a.text.value) == out.sha(b.text.value)
      ensures a.text == b.text
    {
      DigitsDiffer(PlaceOf(args, a.text.value), PlaceOf(args, b.text.value), 32);
    }
  }

  // ---------------------------------------------------------------- issuing and redeeming

  /** What a retry may rely on. */
  datatype Retry = Retry(source: Source, backendState: string, pluginState: string)

  const NO_RETRY := Retry(Nobody, "", "")

  /** A deferral handed to the client: who asked, about which call, with which inner state, and when. */
  datatype Issue = Issue(
    source: Source,
    tool: string,
    principal: string,
    tenant: string,
    args: Args,
    inner: string,
    at: int,
    nonce: string)

  /** The envelope of a deferral: the inner state goes in the field of whoever asked. */
  function EnvelopeOf(su: Suite, i: Issue): Envelope {
    Envelope("", i.tenant, i.tool, i.principal, ArgsDigest(su, i.args), i.source,
             if i.source.Backend? then i.inner else "", if i.source.Plugin? then i.inner else "", 0, "")
  }

  /** The envelope as it is signed. */
  function Signed(su: Suite, i: Issue): Envelope { Stamped(EnvelopeOf(su, i), i.at, i.nonce) }

  function TokenOf(su: Suite, i: Issue): string { Wrap(su, EnvelopeOf(su, i), i.at, i.nonce) }

  /** JSON gives back the envelopes of these deferrals. */
  ghost predicate Faithful(su: Suite, issued: seq<Issue>) {
    forall k :: 0 <= k < |issued| ==> Survives(su, Signed(su, issued[k]))
  }

  /** `signer` is None when the gateway has no signing key. */
  function UnwrapForRetry(signer: Option<Suite>, tool: string, principal: string, tenant: string, args: Args,
                          token: string, now: int)
    : Result<Retry, StateError>
  {
    if token == "" then Ok(NO_RETRY)
    else if signer.None? then Err(NoSigner)
    else
      match Unwrap(signer.value, token, now)
      case Err(e) => Err(e)
      case Ok(env) =>
        if env.tool != "" && env.tool != tool then Err(Mismatched)
        else if env.principal != "" && env.principal != principal then Err(Mismatched)
        else if env.tenant != "" && env.tenant != tenant then Err(Mismatched)
        else if env.argsDigest != "" && env.argsDigest != ArgsDigest(signer.value, args) then Err(Mismatched)
        else Ok(Retry(env.source, env.backend, env.plugin))
  }

  /** A name binds unless it is empty. */
  predicate Binds(issued: string, presented: string) { issued == "" || issued == presented }

  /** The call is the one the deferral was issued for. */
  predicate SameCall(su: Suite, i: Issue, tool: string, principal: string, tenant: string, args: Args) {
    && Binds(i.tool, tool) && Binds(i.principal, principal) && Binds(i.tenant, tenant)
    && ArgsDigest(su, i.args) == ArgsDigest(su, args)
  }

  /** At most ten minutes old, and at most a minute ahead of the clock. */
  predicate Timely(i: Issue, now: int) { now - Unix(i.at) * SECOND <= TTL && Unix(i.at) * SECOND - now <= SKEW }

  lemma {:induction false} TimelyTells(i: Issue, now: int)
    ensures var at := i.at - i.at % 1_000_000_000;
            Timely(i, now) <==> now - at <= 600_000_000_000 && at - now <= 60_000_000_000
  {
  }

  /** What a deferral says to the retry that redeems it. */
  function Redeemed(i: Issue): Retry {
    Retry(i.source, if i.source.Backend? then i.inner else "", if i.source.Plugin? then i.inner else "")
  }

  /**
   An honest token is redeemed exactly by the same call in time, and gives back exactly the inner state; any other
   use fails, and the error says only whether it was too late or for something else.
   */
  lemma {:induction false} RetryOutcome(su: Suite, i: Issue, tool: string, principal: string, tenant: string,
                                        args: Args, now: int)
    requires Faithful(su, [i]) && CollisionFree(su, [i.args, args])
    ensures var at := i.at - i.at % 1_000_000_000;
            UnwrapForRetry(Some(su), tool, principal, tenant, args, TokenOf(su, i), now) ==
              if now - at > 600_000_000_000 then Err(Expired)
              else if at - now > 60_000_000_000 then Err(Invalid)
              else if !SameCall(su, i, tool, principal, tenant, args) then Err(Mismatched)
              else Ok(Redeemed(i))
  {
    hide ArgsDigest, Unwrap, Encode;
    assert Survives(su, Signed(su, [i][0]));
    UnwrapOfWrap(su, EnvelopeOf(su, i), i.at, i.nonce, now);
    DigestBinds(su, i.args, args);
  }

  /** Arguments with another text are refused, even if they are the same tree with its members in another order. */
  lemma {:induction false} OtherTextIsRefused(su: Suite, i: Issue, tool: string, principal: string, tenant: string,
                                              args: Args, now: int)
    requires Faithful(su, [i]) && CollisionFree(su, [i.args, args]) && args.text != i.args.text
    ensures UnwrapForRetry(Some(su), tool, principal, tenant, args, TokenOf(su, i), now).Err?
    ensures Timely(i, now) ==>
              UnwrapForRetry(Some(su), tool, principal, tenant, args, TokenOf(su, i), now) == Err(Mismatched)
  {
    hide ArgsDigest, TokenOf, UnwrapForRetry;
    RetryOutcome(su, i, tool, principal, tenant, args, now);
    DigestBinds(su, i.args, args);
  }

  /** No client can make the MAC of a text the gateway has not signed. */
  ghost predicate Unforgeable(su: Suite, issued: seq<Issue>, token: string) {
    forall encoded, mac :: Bears(su, token, encoded, mac) ==>
      exists k :: 0 <= k < |issued| && encoded == Encode(su.marshal(Signed(su, issued[k])))
  }

  /** The arguments of the deferrals. */
  function ArgsOf(issued: seq<Issue>): seq<Args> { seq(|issued|, k requires 0 <= k < |issued| => issued[k].args) }

  /** Without a token nothing is redeemed; with one, a key is needed and every binding the envelope has must hold. */
  lemma {:induction false} RedeemingTells(signer: Option<Suite>, tool: string, principal: string, tenant: string,
                                          args: Args, token: string, now: int)
    ensures var r := UnwrapForRetry(signer, tool, principal, tenant, args, token, now);
            && (token == "" ==> r == Ok(Retry(Nobody, "", "")))
            && (token != "" && signer.None? ==> r == Err(NoSigner))
            && (token != "" && signer.Some? ==>
                  match Unwrap(signer.value, token, now)
                  case Err(e) => r == Err(e)
                  case Ok(env) =>
                    if && env.tool in {"", tool} && env.principal in {"", principal} && env.tenant in {"", tenant}
                       && env.argsDigest in {"", ArgsDigest(signer.value, args)}
                    then r == Ok(Retry(env.source, env.backend, env.plugin))
                    else r == Err(Mismatched))
  {
    hide Unwrap, ArgsDigest;
  }

  /** Whatever token is accepted, it redeems one of the deferrals issued before, for the same call and in time. */
  lemma {:induction false} AcceptedWasIssued(su: Suite, issued: seq<Issue>, tool: string, principal: string,
                                             tenant: string, args: Args, token: string, now: int) returns (k: int)
    requires Faithful(su, issued) && CollisionFree(su, [args] + ArgsOf(issued)) && Unforgeable(su, issued, token)
             && token != ""
    requires UnwrapForRetry(Some(su), tool, principal, tenant, args, token, now).Ok?
    ensures 0 <= k < |issued| && SameCall(su, issued[k], tool, principal, tenant, args) && Timely(issued[k], now)
    ensures issued[k].args.text == args.text
    ensures UnwrapForRetry(Some(su), tool, principal, tenant, args, token, now) == Ok(Redeemed(issued[k]))
  {
    hide ArgsDigest, Encode, Decode, Vouched, Bears;
    VouchedTells(su, token, Vouched(su, token).value);
    var mac :| Bears(su, token, Vouched(su, token).value, mac);
    k :| 0 <= k < |issued| && Vouched(su, token).value == Encode(su.marshal(Signed(su, issued[k])));
    Base64RoundTrip(su.marshal(Signed(su, issued[k])));
    assert Survives(su, Signed(su, issued[k]));
    assert issued[k].args == ArgsOf(issued)[k];
    DigestBinds(su, issued[k].args, args);
  }
}
