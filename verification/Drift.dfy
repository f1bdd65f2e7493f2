/**
 What a backend publishes against what was admitted: internal/dataplane/health/drift.go. Diff walks two maps in
 whatever order they come; its result depends on neither.
 */
module Drift {
  import opened Options
  import opened Text

  datatype DriftKind = Cosmetic | Semantic | Removed | Added

  function Severity(k: DriftKind): int {
    match k case Removed => 3 case Semantic => 2 case Cosmetic => 1 case Added => 0
  }

  /** Unfit to serve in strict mode. */
  predicate Blocking(k: DriftKind) { k.Semantic? || k.Removed? }

  datatype Definition = Definition(qualifiedName: string, digest: string, semanticDigest: string)

  datatype Digests = Digests(full: string, semantic: string)

  /** The words a report is written in, by tool name; they are not interpreted. */
  datatype Wording = Wording(
    removed: string,
    added: string,
    cosmetic: (string, Definition, Digests) -> string,
    semantic: (string, Definition, Digests) -> string)

  datatype ToolDrift = ToolDrift(
    name: string,
    qualifiedName: string,
    kind: DriftKind,
    admittedDigest: string,
    observedDigest: string,
    detail: string)

  type Admitted = map<string, Definition>
  type Observed = map<string, Digests>

  // ---------------------------------------------------------------- what a diff has to be

  /** How one name differs, if it does. */
  function DriftOf(w: Wording, admitted: Admitted, observed: Observed, name: string): Option<ToolDrift> {
    if name in admitted then
      var def := admitted[name];
      if name !in observed then Some(ToolDrift(name, def.qualifiedName, Removed, def.digest, "", w.removed))
      else
        var obs := observed[name];
        if obs.full == def.digest then None
        else if obs.semantic == def.semanticDigest then
          Some(ToolDrift(name, def.qualifiedName, Cosmetic, def.digest, obs.full, w.cosmetic(name, def, obs)))
        else Some(ToolDrift(name, def.qualifiedName, Semantic, def.semanticDigest, obs.semantic,
                            w.semantic(name, def, obs)))
    else if name in observed then Some(ToolDrift(name, "", Added, "", "", w.added))
    else None
  }

  /** Most severe first, then by name. */
  predicate Before(a: ToolDrift, b: ToolDrift) {
    Severity(a.kind) > Severity(b.kind) || (Severity(a.kind) == Severity(b.kind) && Less(a.name, b.name))
  }

  ghost predicate StrictlySorted(s: seq<ToolDrift>) { forall i, j :: 0 <= i < j < |s| ==> Before(s[i], s[j]) }

  /** Exactly the differing names, each once, in the report's order. */
  ghost predicate IsDiff(w: Wording, admitted: Admitted, observed: Observed, out: seq<ToolDrift>) {
    StrictlySorted(out) && forall d :: d in out <==> DriftOf(w, admitted, observed, d.name) == Some(d)
  }

  // ---------------------------------------------------------------- the order is strict and total

  lemma {:induction false} BeforeIsStrict(a: ToolDrift, b: ToolDrift)
    ensures !(Before(a, b) && Before(b, a)) && !Before(a, a)
  {
    hide Less;
    LessIrreflexive(a.name);
    if Less(a.name, b.name) && Less(b.name, a.name) { LessTransitive(a.name, b.name, a.name); }
  }

  lemma {:induction false} BeforeIsTotal(a: ToolDrift, b: ToolDrift)
    requires a.name != b.name
    ensures Before(a, b) || Before(b, a)
  {
    hide Less;
    LessTotal(a.name, b.name);
  }

  lemma {:induction false} BeforeTransitive(a: ToolDrift, b: ToolDrift, c: ToolDrift)
    requires Before(a, b) && Before(b, c)
    ensures Before(a, c)
  {
    hide Less;
    if Less(a.name, b.name) && Less(b.name, c.name) { LessTransitive(a.name, b.name, c.name); }
  }

  /** Two sorted lists of the same entries are the same list. */
  lemma {:induction false} SortedUnique(s: seq<ToolDrift>, t: seq<ToolDrift>)
    requires StrictlySorted(s) && StrictlySorted(t) && forall d :: d in s <==> d in t
    ensures s == t
  {
    hide Before;
    assert (s != [] ==> s[0] in t) && (t != [] ==> t[0] in s);
    if s != [] && t != [] {
      FirstIsFirst(s, t);
      var a := s[0];
      forall d ensures d in s[1..] <==> d in t[1..] {
        BeforeIsStrict(a, a);
        assert a !in s[1..] by { assert forall i :: 0 <= i < |s[1..]| ==> s[1..][i] == s[i + 1]; }
        assert a !in t[1..] by { assert forall i :: 0 <= i < |t[1..]| ==> t[1..][i] == t[i + 1]; }
        assert s == [a] + s[1..] && t == [a] + t[1..];
        assert d in s <==> d in [a] || d in s[1..];
        assert d in t <==> d in [a] || d in t[1..];
      }
      SortedUnique(s[1..], t[1..]);
      assert s == [a] + s[1..] && t == [a] + t[1..];
    }
  }

  lemma {:induction false} FirstIsFirst(s: seq<ToolDrift>, t: seq<ToolDrift>)
    requires StrictlySorted(s) && StrictlySorted(t) && s != [] && t != [] && forall d :: d in s <==> d in t
    ensures s[0] == t[0]
  {
    hide Before;
    assert s[0] in t && t[0] in s;
    var i :| 0 <= i < |t| && t[i] == s[0];
    var j :| 0 <= j < |s| && s[j] == t[0];
    if i > 0 && j > 0 { BeforeIsStrict(s[0], t[0]); }
  }

  // ---------------------------------------------------------------- the theorems about a diff

  /** However the maps were walked and the list was sorted, there is only one right answer. */
  lemma {:induction false} DiffIsUnique(w: Wording, admitted: Admitted, observed: Observed, one: seq<ToolDrift>,
                                        two: seq<ToolDrift>)
    requires IsDiff(w, admitted, observed, one) && IsDiff(w, admitted, observed, two)
    ensures one == two
  {
    hide DriftOf, Before;
    SortedUnique(one, two);
  }

  /** The two catalogs agree: the same names with the same full digests. */
  ghost predicate Agree(admitted: Admitted, observed: Observed) {
    admitted.Keys == observed.Keys && forall name :: name in admitted ==> observed[name].full == admitted[name].digest
  }

  lemma {:induction false} EmptyIffAgree(w: Wording, admitted: Admitted, observed: Observed, out: seq<ToolDrift>)
    requires IsDiff(w, admitted, observed, out)
    ensures out == [] <==> Agree(admitted, observed)
  {
    hide Before;
    forall name ensures DriftOf(w, admitted, observed, name).Some? ==> out != [] {
      var d := DriftOf(w, admitted, observed, name);
      if d.Some? { assert d.value.name == name && d.value in out; }
    }
    if out == [] {
      forall name ensures name in admitted <==> name in observed {
        assert DriftOf(w, admitted, observed, name).None?;
      }
      forall name | name in admitted ensures observed[name].full == admitted[name].digest {
        assert DriftOf(w, admitted, observed, name).None?;
      }
    } else {
      assert out[0] in out;
      assert DriftOf(w, admitted, observed, out[0].name) == Some(out[0]);
    }
  }

  /** One entry per differing name, and its kind tells which digests differ. */
  lemma {:induction false} OnePerName(w: Wording, admitted: Admitted, observed: Observed, out: seq<ToolDrift>, i: nat,
                                      j: nat)
    requires IsDiff(w, admitted, observed, out) && i < |out| && j < |out|
    ensures out[i].name == out[j].name ==> i == j
    ensures var n := out[i].name;
            match out[i].kind
            case Removed => n in admitted && n !in observed
            case Added => n !in admitted && n in observed
            case Cosmetic => n in admitted && n in observed && observed[n].full != admitted[n].digest
                             && observed[n].semantic == admitted[n].semanticDigest
            case Semantic => n in admitted && n in observed && observed[n].full != admitted[n].digest
                             && observed[n].semantic != admitted[n].semanticDigest
  {
    hide Before;
    assert out[i] in out && out[j] in out;
    assert DriftOf(w, admitted, observed, out[i].name) == Some(out[i]);
    assert DriftOf(w, admitted, observed, out[j].name) == Some(out[j]);
    BeforeIsStrict(out[i], out[j]);
  }

  /** What an entry says: the admitted side, the observed side, and the words for it, field by field. */
  lemma {:induction false} EntryTells(w: Wording, admitted: Admitted, observed: Observed, out: seq<ToolDrift>, i: nat)
    requires IsDiff(w, admitted, observed, out) && i < |out|
    ensures var n := out[i].name;
            match out[i].kind
            case Removed =>
              n in admitted
              && out[i] == ToolDrift(n, admitted[n].qualifiedName, Removed, admitted[n].digest, "", w.removed)
            case Added => out[i] == ToolDrift(n, "", Added, "", "", w.added)
            case Cosmetic =>
              && n in admitted && n in observed && out[i].qualifiedName == admitted[n].qualifiedName
              && out[i].admittedDigest == admitted[n].digest && out[i].observedDigest == observed[n].full
              && out[i].detail == w.cosmetic(n, admitted[n], observed[n])
            case Semantic =>
              && n in admitted && n in observed && out[i].qualifiedName == admitted[n].qualifiedName
              && out[i].admittedDigest == admitted[n].semanticDigest && out[i].observedDigest == observed[n].semantic
              && out[i].detail == w.semantic(n, admitted[n], observed[n])
  {
    hide Before;
    assert out[i] in out;
    assert DriftOf(w, admitted, observed, out[i].name) == Some(out[i]);
  }

  /** Which names are listed: those on one side only, and those whose full digests differ. */
  lemma {:induction false} ListedIffDiffers(w: Wording, admitted: Admitted, observed: Observed, out: seq<ToolDrift>,
                                            name: string)
    requires IsDiff(w, admitted, observed, out)
    ensures (exists i :: 0 <= i < |out| && out[i].name == name) <==>
              || (name in admitted) != (name in observed)
              || (name in admitted && name in observed && admitted[name].digest != observed[name].full)
  {
    hide Before;
    var d := DriftOf(w, admitted, observed, name);
    if d.Some? {
      assert d.value.name == name && d.value in out;
      var i :| 0 <= i < |out| && out[i] == d.value;
    }
    forall i | 0 <= i < |out| && out[i].name == name ensures d.Some? {
      assert out[i] in out;
      assert DriftOf(w, admitted, observed, out[i].name) == Some(out[i]);
    }
  }

  /** The order of the report: removed, semantic, cosmetic, added, and by name within a kind. */
  lemma {:induction false} OrderTells(w: Wording, admitted: Admitted, observed: Observed, out: seq<ToolDrift>, i: nat,
                                      j: nat)
    requires IsDiff(w, admitted, observed, out) && i < j < |out|
    ensures if out[i].kind == out[j].kind then Less(out[i].name, out[j].name)
            else out[i].kind == Removed || out[j].kind == Added || (out[i].kind == Semantic && out[j].kind == Cosmetic)
  {
    hide DriftOf;
    assert Before(out[i], out[j]);
  }

  // ---------------------------------------------------------------- sorting

  function Insert(s: seq<ToolDrift>, d: ToolDrift): seq<ToolDrift> {
    if s == [] then [d] else if Before(d, s[0]) then [d] + s else [s[0]] + Insert(s[1..], d)
  }

  /** A sort by `Before`. */
  function Sort(s: seq<ToolDrift>): seq<ToolDrift> {
    if s == [] then [] else Insert(Sort(s[1..]), s[0])
  }

  ghost predicate DistinctNames(s: seq<ToolDrift>) { forall i, j :: 0 <= i < j < |s| ==> s[i].name != s[j].name }

  lemma {:induction false} InsertHolds(s: seq<ToolDrift>, d: ToolDrift, e: ToolDrift)
    ensures e in Insert(s, d) <==> e in s || e == d
  {
    hide Before;
    if s != [] {
      InsertHolds(s[1..], d, e);
      assert s == [s[0]] + s[1..];
    }
  }

  lemma {:induction false} InsertSorts(s: seq<ToolDrift>, d: ToolDrift)
    requires StrictlySorted(s) && forall e :: e in s ==> e.name != d.name
    ensures StrictlySorted(Insert(s, d))
  {
    hide Before;
    if s != [] {
      var rest := s[1..];
      assert forall i :: 0 <= i < |rest| ==> rest[i] == s[i + 1];
      if Before(d, s[0]) {
        forall i | 0 <= i < |s| ensures Before(d, s[i]) {
          if i > 0 { BeforeTransitive(d, s[0], s[i]); }
        }
      } else {
        assert s[0] in s;
        BeforeIsTotal(d, s[0]);
        InsertSorts(rest, d);
        var t := Insert(rest, d);
        forall k | 0 <= k < |t| ensures Before(s[0], t[k]) {
          InsertHolds(rest, d, t[k]);
          assert t[k] in t;
        }
      }
    }
  }

  lemma {:induction false} SortSorts(s: seq<ToolDrift>)
    requires DistinctNames(s)
    ensures StrictlySorted(Sort(s)) && forall e :: e in Sort(s) <==> e in s
  {
    hide Before, Insert;
    if s != [] {
      assert forall i :: 0 <= i < |s[1..]| ==> s[1..][i] == s[i + 1];
      SortSorts(s[1..]);
      forall e ensures e in Sort(s) <==> e in s {
        InsertHolds(Sort(s[1..]), s[0], e);
        assert s == [s[0]] + s[1..];
      }
      assert forall e :: e in Sort(s[1..]) ==> e.name != s[0].name;
      InsertSorts(Sort(s[1..]), s[0]);
    }
  }

  // ---------------------------------------------------------------- the walk

  /** The entries for exactly the names in `done`, in some order. */
  ghost predicate Covers(w: Wording, admitted: Admitted, observed: Observed, done: set<string>, out: seq<ToolDrift>) {
    && DistinctNames(out)
    && forall d :: d in out <==> d.name in done && DriftOf(w, admitted, observed, d.name) == Some(d)
  }

  lemma {:induction false} CoverOne(w: Wording, admitted: Admitted, observed: Observed, done: set<string>,
                                    out: seq<ToolDrift>, name: string)
    requires Covers(w, admitted, observed, done, out) && name !in done
    ensures var d := DriftOf(w, admitted, observed, name);
            Covers(w, admitted, observed, done + {name}, out + if d.Some? then [d.value] else [])
  {
    var d := DriftOf(w, admitted, observed, name);
    var more := out + if d.Some? then [d.value] else [];
    assert forall i :: 0 <= i < |out| ==> out[i] in out && more[i] == out[i];
    assert d.Some? ==> d.value.name == name;
  }

  method Diff(w: Wording, admitted: Admitted, observed: Observed) returns (out: seq<ToolDrift>)
    ensures IsDiff(w, admitted, observed, out)
  {
    hide Before, Covers;
    out := [];
    NothingCovered(w, admitted, observed);
    var left := admitted.Keys;
    assert admitted.Keys - left == {};
    while left != {}
      invariant left <= admitted.Keys && Covers(w, admitted, observed, admitted.Keys - left, out)
      decreases |left|
    {
      var name :| name in left;
      CoverOne(w, admitted, observed, admitted.Keys - left, out, name);
      assert admitted.Keys - left + {name} == admitted.Keys - (left - {name});
      assert out + [] == out;
      left := left - {name};
      var def := admitted[name];
      if name !in observed {
        out := out + [ToolDrift(name, def.qualifiedName, Removed, def.digest, "", w.removed)];
        continue;
      }
      var obs := observed[name];
      if obs.full == def.digest { continue; }
      if obs.semantic == def.semanticDigest {
        out := out + [ToolDrift(name, def.qualifiedName, Cosmetic, def.digest, obs.full, w.cosmetic(name, def, obs))];
        continue;
      }
      out := out + [ToolDrift(name, def.qualifiedName, Semantic, def.semanticDigest, obs.semantic,
                              w.semantic(name, def, obs))];
    }
    assert admitted.Keys - left == admitted.Keys;
    out := AddUnadmitted(w, admitted, observed, out);
    CoveredIsDiff(w, admitted, observed, out);
    out := Sort(out);
  }

  /** The second loop of Diff. */
  method AddUnadmitted(w: Wording, admitted: Admitted, observed: Observed, known: seq<ToolDrift>)
    returns (out: seq<ToolDrift>)
    requires Covers(w, admitted, observed, admitted.Keys, known)
    ensures Covers(w, admitted, observed, admitted.Keys + observed.Keys, out)
  {
    hide Before, Covers, DriftOf, Walked;
    out := known;
    var left := observed.Keys;
    ghost var done := admitted.Keys;
    AllLeft(admitted.Keys, observed.Keys);
    while left != {}
      invariant left <= observed.Keys && done == Walked(admitted.Keys, observed.Keys, left)
      invariant Covers(w, admitted, observed, done, out)
      decreases |left|
    {
      var name :| name in left;
      WalkOne(admitted.Keys, observed.Keys, left, name);
      if name !in admitted {
        CoverAdded(w, admitted, observed, done, out, name);
        out := out + [ToolDrift(name, "", Added, "", "", w.added)];
      }
      left := left - {name};
      done := Walked(admitted.Keys, observed.Keys, left);
    }
  }

  /** The names of the first walk, and those of the second that are no longer left. */
  ghost function Walked(first: set<string>, second: set<string>, left: set<string>): set<string> {
    first + (second - left)
  }

  lemma {:induction false} AllLeft(first: set<string>, second: set<string>)
    ensures Walked(first, second, second) == first && Walked(first, second, {}) == first + second
  {
  }

  lemma {:induction false} WalkOne(first: set<string>, second: set<string>, left: set<string>, name: string)
    requires name in left && left <= second
    ensures name !in first ==> name !in Walked(first, second, left)
    ensures Walked(first, second, left - {name})
         == if name in first then Walked(first, second, left) else Walked(first, second, left) + {name}
  {
  }

  lemma {:induction false} CoverAdded(w: Wording, admitted: Admitted, observed: Observed, done: set<string>,
                                      out: seq<ToolDrift>, name: string)
    requires Covers(w, admitted, observed, done, out) && name !in done && name !in admitted && name in observed
    ensures Covers(w, admitted, observed, done + {name}, out + [ToolDrift(name, "", Added, "", "", w.added)])
  {
    hide Covers;
    CoverOne(w, admitted, observed, done, out, name);
  }

  lemma {:induction false} NothingCovered(w: Wording, admitted: Admitted, observed: Observed)
    ensures Covers(w, admitted, observed, {}, [])
  {
  }

  lemma {:induction false} CoveredIsDiff(w: Wording, admitted: Admitted, observed: Observed, out: seq<ToolDrift>)
    requires Covers(w, admitted, observed, admitted.Keys + observed.Keys, out)
    ensures IsDiff(w, admitted, observed, Sort(out))
  {
    hide Before, Sort;
    SortSorts(out);
  }
}
