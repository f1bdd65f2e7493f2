/** Taking one element out of two arrangements of the same elements. */
module Permutations {
  lemma {:induction false} FindHead<T>(s: seq<T>, t: seq<T>) returns (i: nat)
    requires s != [] && multiset(s) == multiset(t)
    ensures i < |t| && t[i] == s[0] && t == t[..i] + [s[0]] + t[i + 1..]
    ensures multiset(s[1..]) == multiset(t[..i] + t[i + 1..])
  {
    var x := s[0];
    assert s == [x] + s[1..];
    assert x in multiset(s);
    i :| 0 <= i < |t| && t[i] == x;
    var front, rest := t[..i], t[i + 1..];
    assert t == front + [x] + rest;
    assert multiset(s) == multiset{x} + multiset(s[1..]);
    assert multiset(t) == multiset(front) + multiset{x} + multiset(rest);
    assert multiset(front + rest) == multiset(front) + multiset(rest);
    assert multiset(s[1..]) == multiset(s) - multiset{x};
    assert multiset(front + rest) == multiset(t) - multiset{x};
  }

  lemma {:induction false} EmptyOnly<T>(t: seq<T>)
    requires multiset(t) == multiset{}
    ensures t == []
  {
    assert |multiset(t)| == |t|;
  }
}
