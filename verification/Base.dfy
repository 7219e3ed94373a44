/** Building blocks shared by every part of the model. */
module Base {
  datatype Option<+T> = None | Some(value: T)

  /** CloudSigma UUIDs, IP addresses and names are strings; "" stands for "not set". */
  type Id = string

  /** The elements of `s` that satisfy `keep`, in their order: what every list-rebuilding loop
      of the repository computes. It peels the last element, as those loops append. */
  function Filter<T(!new)>(s: seq<T>, keep: T -> bool): (r: seq<T>)
    ensures |r| <= |s|
    ensures forall x :: x in r <==> x in s && keep(x)
  {
    if s == [] then [] else
      var rest := Filter(s[..|s| - 1], keep);
      if keep(s[|s| - 1]) then rest + [s[|s| - 1]] else rest
  }

  lemma FilterSnoc<T(!new)>(s: seq<T>, x: T, keep: T -> bool)
    ensures Filter(s + [x], keep) == Filter(s, keep) + if keep(x) then [x] else []
  {
    assert (s + [x])[..|s|] == s;
  }

  /** Filtering goes element by element, so it never reorders. */
  lemma {:induction false} FilterAppend<T(!new)>(s: seq<T>, t: seq<T>, keep: T -> bool)
    ensures Filter(s + t, keep) == Filter(s, keep) + Filter(t, keep)
  {
    if t == [] {
      assert s + t == s;
    } else {
      var front, last := t[..|t| - 1], t[|t| - 1];
      var kept := if keep(last) then [last] else [];
      calc {
        Filter(s + t, keep);
        { assert s + t == (s + front) + [last]; FilterSnoc(s + front, last, keep); }
        Filter(s + front, keep) + kept;
        { FilterAppend(s, front, keep); }
        Filter(s, keep) + Filter(front, keep) + kept;
        { assert t == front + [last]; FilterSnoc(front, last, keep); }
        Filter(s, keep) + Filter(t, keep);
      }
    }
  }

  lemma {:induction false} FilterKeepsAll<T(!new)>(s: seq<T>, keep: T -> bool)
    requires forall x :: x in s ==> keep(x)
    ensures Filter(s, keep) == s
  {
    if s != [] {
      FilterKeepsAll(s[..|s| - 1], keep);
      assert s == s[..|s| - 1] + [s[|s| - 1]];
    }
  }

  /** Two filters in a row are one filter. */
  lemma {:induction false} FilterTwice<T(!new)>(s: seq<T>, p: T -> bool, q: T -> bool, both: T -> bool)
    requires forall x :: x in s ==> (both(x) <==> p(x) && q(x))
    ensures Filter(Filter(s, p), q) == Filter(s, both)
  {
    if s != [] {
      var n := |s| - 1;
      FilterTwice(s[..n], p, q, both);
      FilterSnoc(Filter(s[..n], p), s[n], q);
    }
  }

  /** Substring search, which is how errors are told apart. */
  predicate Contains(s: string, t: string) {
    exists i :: 0 <= i <= |s| && OccursAt(s, t, i)
  }

  predicate OccursAt(s: string, t: string, i: nat) {
    i + |t| <= |s| && s[i..i + |t|] == t
  }

  lemma ContainsInside(before: string, t: string, after: string, word: string)
    requires Contains(t, word)
    ensures Contains(before + t + after, word)
  {
    var i :| 0 <= i <= |t| && OccursAt(t, word, i);
    var s := before + t + after;
    assert s[|before| + i..|before| + i + |word|] == t[i..i + |word|];
    assert OccursAt(s, word, |before| + i);
  }

  predicate Injective<K, V(==)>(m: map<K, V>) {
    forall j, k :: j in m && k in m && m[j] == m[k] ==> j == k
  }
}
