/**
 Facts about the orders in which a Go program may range over a map used as a
 set, and about strings built by prepending a fixed selector key.
 */
module Enumerations {

  predicate Distinct<T(==)>(xs: seq<T>) {
    forall i, j :: 0 <= i < j < |xs| ==> xs[i] != xs[j]
  }

  /** xs lists every element of s exactly once, in some order: one possible
      order of ranging over a Go map whose key set is s. */
  ghost predicate IsEnumeration<T>(xs: seq<T>, s: set<T>) {
    Distinct(xs) && (set x | x in xs) == s
  }

  /** Appending an element not yet listed extends an enumeration. */
  lemma EnumerationExtend<T>(xs: seq<T>, s: set<T>, x: T)
    requires IsEnumeration(xs, s) && x !in s
    ensures IsEnumeration(xs + [x], s + {x})
  {
    assert (set y | y in xs + [x]) == (set y | y in xs) + {x};
  }

  /** An enumeration has exactly as many entries as the set has elements. */
  lemma {:induction false} EnumerationLength<T>(xs: seq<T>, s: set<T>)
    requires IsEnumeration(xs, s)
    ensures |xs| == |s|
  {
    if xs != [] {
      var last := xs[|xs| - 1];
      var init := xs[..|xs| - 1];
      assert xs == init + [last];
      assert last !in init;
      assert (set x | x in init) == s - {last};
      EnumerationLength(init, s - {last});
    } else {
      assert s == {};
    }
  }

  /** In an enumeration, each element of the set occurs once and nothing else occurs. */
  lemma {:induction false} EnumerationMultiplicity<T>(xs: seq<T>, s: set<T>, y: T)
    requires IsEnumeration(xs, s)
    ensures multiset(xs)[y] == if y in s then 1 else 0
  {
    if xs != [] {
      var last := xs[|xs| - 1];
      var init := xs[..|xs| - 1];
      assert xs == init + [last];
      assert last !in init;
      assert (set x | x in init) == s - {last};
      EnumerationMultiplicity(init, s - {last}, y);
      if y == last {
        assert y !in init;
      }
    } else {
      assert s == {};
    }
  }

  predicate HasPrefix(s: string, p: string) {
    |p| <= |s| && s[..|p|] == p
  }

  /** The selector strings key + v for each v of xs, in the order of xs. */
  function Prefixed(key: string, xs: seq<string>): seq<string> {
    seq(|xs|, i requires 0 <= i < |xs| => key + xs[i])
  }

  lemma PrefixedAppend(key: string, xs: seq<string>, x: string)
    ensures Prefixed(key, xs + [x]) == Prefixed(key, xs) + [key + x]
  {
  }

  /** Prepending a key is injective, so a distinct list stays distinct and
      each value v of xs yields key + v exactly once. */
  lemma PrefixedMultiplicity(key: string, xs: seq<string>, s: set<string>, y: string)
    requires IsEnumeration(xs, s)
    ensures multiset(Prefixed(key, xs))[key + y] == if y in s then 1 else 0
  {
    var ps := Prefixed(key, xs);
    forall i, j | 0 <= i < j < |ps| ensures ps[i] != ps[j] {
      assert (key + xs[i])[|key|..] == xs[i];
      assert (key + xs[j])[|key|..] == xs[j];
    }
    assert (key + y in ps) <==> y in xs by {
      if key + y in ps {
        var i :| 0 <= i < |ps| && ps[i] == key + y;
        assert (key + y)[|key|..] == y;
        assert (key + xs[i])[|key|..] == xs[i];
      }
      if y in xs {
        var i :| 0 <= i < |xs| && xs[i] == y;
        assert ps[i] == key + y;
      }
    }
    var pset := set v | v in ps;
    EnumerationMultiplicity(ps, pset, key + y);
  }

  /** Every string of ss starts with key. */
  predicate AllPrefixed(ss: seq<string>, key: string) {
    forall i :: 0 <= i < |ss| ==> HasPrefix(ss[i], key)
  }

  /** No string of ss starts with key. */
  predicate NoneHavePrefix(ss: seq<string>, key: string) {
    forall i :: 0 <= i < |ss| ==> !HasPrefix(ss[i], key)
  }

  lemma PrefixedAllPrefixed(key: string, xs: seq<string>)
    ensures AllPrefixed(Prefixed(key, xs), key)
  {
    forall i | 0 <= i < |xs| ensures HasPrefix(Prefixed(key, xs)[i], key) {
      assert (key + xs[i])[..|key|] == key;
    }
  }

  /** Two keys that differ at some position inside both exclude each other. */
  lemma DivergentKeys(ss: seq<string>, key: string, other: string, k: nat)
    requires AllPrefixed(ss, key)
    requires k < |key| && k < |other| && key[k] != other[k]
    ensures NoneHavePrefix(ss, other)
  {
    forall i | 0 <= i < |ss| ensures !HasPrefix(ss[i], other) {
      assert ss[i][k] == key[k];
    }
  }

  /** The number of strings of ss that start with key. */
  function CountPrefixed(ss: seq<string>, key: string): (n: nat)
    ensures n <= |ss|
    ensures AllPrefixed(ss, key) ==> n == |ss|
    ensures NoneHavePrefix(ss, key) ==> n == 0
  {
    if ss == [] then 0
    else CountPrefixed(ss[..|ss| - 1], key) + (if HasPrefix(ss[|ss| - 1], key) then 1 else 0)
  }

  lemma {:induction false} CountPrefixedConcat(a: seq<string>, b: seq<string>, key: string)
    ensures CountPrefixed(a + b, key) == CountPrefixed(a, key) + CountPrefixed(b, key)
  {
    if b != [] {
      assert (a + b)[..|a + b| - 1] == a + b[..|b| - 1];
      CountPrefixedConcat(a, b[..|b| - 1], key);
    } else {
      assert a + b == a;
    }
  }

  lemma CountPrefixedSnoc(ss: seq<string>, s: string, key: string)
    ensures CountPrefixed(ss + [s], key) == CountPrefixed(ss, key) + (if HasPrefix(s, key) then 1 else 0)
  {
    assert (ss + [s])[..|ss|] == ss;
  }

  /** A string that starts with key is not among strings none of which do. */
  lemma NotAmongUnprefixed(ss: seq<string>, key: string, v: string)
    requires NoneHavePrefix(ss, key)
    ensures CountPrefixed(ss, key) == 0
    ensures multiset(ss)[key + v] == 0
  {
    assert HasPrefix(key + v, key) by {
      assert (key + v)[..|key|] == key;
    }
  }
}
