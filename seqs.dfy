/** `Array.prototype.filter` on sequences, with the facts the contact queries rely on:
    what it keeps, that it keeps the input order, and how its lengths add up. */
module Seqs {

  /** `s.filter(p)`: the elements of `s` that satisfy `p`, in their original order. */
  function Filter<T(!new)>(p: T -> bool, s: seq<T>): (r: seq<T>)
    ensures |r| <= |s|
    ensures forall x :: x in r <==> x in s && p(x)
  {
    if s == [] then []
    else if p(s[0]) then [s[0]] + Filter(p, s[1..])
    else Filter(p, s[1..])
  }

  /** Filtering a concatenation filters each part and keeps them in order: no element
      of `b` can move in front of an element of `a`. */
  lemma {:induction false} FilterConcat<T(!new)>(p: T -> bool, a: seq<T>, b: seq<T>)
    ensures Filter(p, a + b) == Filter(p, a) + Filter(p, b)
  {
    if a == [] {
      assert a + b == b;
    } else {
      assert (a + b)[1..] == a[1..] + b;
      FilterConcat(p, a[1..], b);
    }
  }

  /** When every element passes, the filter returns its input unchanged. */
  lemma {:induction false} FilterAll<T(!new)>(p: T -> bool, s: seq<T>)
    requires forall x :: x in s ==> p(x)
    ensures Filter(p, s) == s
  {
    if s != [] {
      FilterAll(p, s[1..]);
    }
  }

  /** When no element passes, the filter returns nothing. */
  lemma FilterNone<T(!new)>(p: T -> bool, s: seq<T>)
    requires forall x :: x in s ==> !p(x)
    ensures Filter(p, s) == []
  {
  }

  /** Filtering twice with the same predicate is filtering once. */
  lemma FilterIdempotent<T(!new)>(p: T -> bool, s: seq<T>)
    ensures Filter(p, Filter(p, s)) == Filter(p, s)
  {
    FilterAll(p, Filter(p, s));
  }

  /** A filter keeps every element exactly when it drops nothing. */
  lemma {:induction false} FilterKeepsLength<T(!new)>(p: T -> bool, s: seq<T>)
    ensures |Filter(p, s)| == |s| <==> forall x :: x in s ==> p(x)
  {
    if s != [] {
      FilterKeepsLength(p, s[1..]);
      if !p(s[0]) {
        assert s[0] in s;
      } else if forall x :: x in s[1..] ==> p(x) {
        assert forall x :: x in s ==> x == s[0] || x in s[1..];
      } else {
        var y :| y in s[1..] && !p(y);
        assert y in s;
      }
    }
  }

  /** Two filters whose predicates never both hold on an element keep at most
      `|s|` elements between them. */
  lemma {:induction false} FilterDisjoint<T(!new)>(p: T -> bool, q: T -> bool, s: seq<T>)
    requires forall x :: x in s ==> !(p(x) && q(x))
    ensures |Filter(p, s)| + |Filter(q, s)| <= |s|
  {
    if s != [] {
      assert forall x :: x in s[1..] ==> x in s;
      FilterDisjoint(p, q, s[1..]);
      assert s[0] in s;
    }
  }

  /** When exactly the first `k` elements pass, the filter returns them. */
  lemma FilterPrefix<T(!new)>(p: T -> bool, s: seq<T>, k: nat)
    requires k <= |s|
    requires forall i :: 0 <= i < k ==> p(s[i])
    requires forall i :: k <= i < |s| ==> !p(s[i])
    ensures Filter(p, s) == s[..k]
  {
    assert s == s[..k] + s[k..];
    FilterConcat(p, s[..k], s[k..]);
    FilterAll(p, s[..k]);
    FilterNone(p, s[k..]);
  }

  /** When exactly the elements from index `k` on pass, the filter returns them. */
  lemma FilterSuffix<T(!new)>(p: T -> bool, s: seq<T>, k: nat)
    requires k <= |s|
    requires forall i :: 0 <= i < k ==> !p(s[i])
    requires forall i :: k <= i < |s| ==> p(s[i])
    ensures Filter(p, s) == s[k..]
  {
    assert s == s[..k] + s[k..];
    FilterConcat(p, s[..k], s[k..]);
    FilterNone(p, s[..k]);
    FilterAll(p, s[k..]);
  }

  /** When every element but the one at index `k` passes, the filter drops just that one. */
  lemma FilterAllBut<T(!new)>(p: T -> bool, s: seq<T>, k: nat)
    requires k < |s|
    requires forall i :: 0 <= i < |s| && i != k ==> p(s[i])
    requires !p(s[k])
    ensures Filter(p, s) == s[..k] + s[k + 1..]
  {
    FilterSkip(p, s, k);
    FilterAllAt(p, s[..k]);
    FilterAllAt(p, s[k + 1..]);
  }

  lemma FilterSkip<T(!new)>(p: T -> bool, s: seq<T>, k: nat)
    requires k < |s| && !p(s[k])
    ensures Filter(p, s) == Filter(p, s[..k]) + Filter(p, s[k + 1..])
  {
    var front, rest := s[..k], s[k..];
    calc {
      Filter(p, s);
      == { assert s == front + rest; }
      Filter(p, front + rest);
      == { FilterConcat(p, front, rest); }
      Filter(p, front) + Filter(p, rest);
      == { assert rest[0] == s[k] && rest[1..] == s[k + 1..]; }
      Filter(p, front) + Filter(p, s[k + 1..]);
    }
  }

  /** FilterAll with the condition stated per index: the entry point FilterAllBut uses. */
  lemma FilterAllAt<T(!new)>(p: T -> bool, s: seq<T>)
    requires forall i :: 0 <= i < |s| ==> p(s[i])
    ensures Filter(p, s) == s
  {
    FilterAll(p, s);
  }

  /** When exactly the element at index `k` passes, the filter returns it alone. */
  lemma FilterOnly<T(!new)>(p: T -> bool, s: seq<T>, k: nat)
    requires k < |s|
    requires forall i :: 0 <= i < |s| && i != k ==> !p(s[i])
    requires p(s[k])
    ensures Filter(p, s) == [s[k]]
  {
    FilterKeep(p, s, k);
    FilterNoneAt(p, s[..k]);
    FilterNoneAt(p, s[k + 1..]);
  }

  lemma FilterKeep<T(!new)>(p: T -> bool, s: seq<T>, k: nat)
    requires k < |s| && p(s[k])
    ensures Filter(p, s) == Filter(p, s[..k]) + ([s[k]] + Filter(p, s[k + 1..]))
  {
    var front, rest := s[..k], s[k..];
    calc {
      Filter(p, s);
      == { assert s == front + rest; }
      Filter(p, front + rest);
      == { FilterConcat(p, front, rest); }
      Filter(p, front) + Filter(p, rest);
      == { assert rest[0] == s[k] && rest[1..] == s[k + 1..]; }
      Filter(p, front) + ([s[k]] + Filter(p, s[k + 1..]));
    }
  }

  /** FilterNone with the condition stated per index: the entry point FilterOnly uses. */
  lemma FilterNoneAt<T(!new)>(p: T -> bool, s: seq<T>)
    requires forall i :: 0 <= i < |s| ==> !p(s[i])
    ensures Filter(p, s) == []
  {
    FilterNone(p, s);
  }

  /** Two predicates that agree on every element of `s` filter it alike. */
  lemma {:induction false} FilterAgree<T(!new)>(p: T -> bool, q: T -> bool, s: seq<T>)
    requires forall x :: x in s ==> p(x) == q(x)
    ensures Filter(p, s) == Filter(q, s)
  {
    if s != [] {
      assert forall x :: x in s[1..] ==> x in s;
      FilterAgree(p, q, s[1..]);
      assert s[0] in s;
    }
  }
}
