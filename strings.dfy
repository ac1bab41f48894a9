/** The JavaScript string operations the contact tracker relies on, restricted to what the
    model needs: comparison with `<` and `<=`, ASCII case mapping, `includes`, `startsWith`,
    `split` on one character, `join` and `trim`. */
module Strings {

  // ---------------------------------------------------------------------------------------
  // Ordering: JavaScript compares strings character by character, and a proper prefix comes
  // first. Dafny's own `<` on sequences is "proper prefix", so the order is defined here.
  // ---------------------------------------------------------------------------------------

  /** `a < b` on JavaScript strings. */
  predicate LexLt(a: string, b: string)
  {
    if a == [] then b != []
    else if b == [] then false
    else a[0] < b[0] || (a[0] == b[0] && LexLt(a[1..], b[1..]))
  }

  /** `a <= b` on JavaScript strings, which the language defines as `!(b < a)`. */
  predicate LexLe(a: string, b: string)
  {
    !LexLt(b, a)
  }

  lemma {:induction false} LexLtIrreflexive(a: string)
    ensures !LexLt(a, a)
  {
    if a != [] {
      LexLtIrreflexive(a[1..]);
    }
  }

  lemma {:induction false} LexLtTransitive(a: string, b: string, c: string)
    requires LexLt(a, b) && LexLt(b, c)
    ensures LexLt(a, c)
  {
    if a != [] && b != [] && c != [] && a[0] == b[0] == c[0] {
      LexLtTransitive(a[1..], b[1..], c[1..]);
    }
  }

  /** Exactly one of `a < b`, `a == b`, `b < a` holds. */
  lemma {:induction false} LexLtTrichotomy(a: string, b: string)
    ensures LexLt(a, b) || a == b || LexLt(b, a)
    ensures !(LexLt(a, b) && LexLt(b, a))
    ensures a == b ==> !LexLt(a, b)
  {
    if a != [] && b != [] && a[0] == b[0] {
      LexLtTrichotomy(a[1..], b[1..]);
      if a[1..] == b[1..] {
        assert a == [a[0]] + a[1..] && b == [b[0]] + b[1..];
      }
    }
  }

  /** Strings that agree up to `k` and differ first at `k` compare as their `k`th
      characters do. */
  lemma {:induction false} LexLtAt(a: string, b: string, k: nat)
    requires k < |a| && k < |b| && a[k] < b[k]
    requires forall i :: 0 <= i < k ==> a[i] == b[i]
    ensures LexLt(a, b)
  {
    if k > 0 {
      assert a[0] == b[0];
      LexLtAt(a[1..], b[1..], k - 1);
    }
  }

  /** `<=` is `<` or equality, as for numbers. */
  lemma LexLeIff(a: string, b: string)
    ensures LexLe(a, b) <==> LexLt(a, b) || a == b
  {
    LexLtTrichotomy(a, b);
  }

  /** Comparing two strings that share a prefix of equal length: the prefixes decide,
      and only when they are equal do the rests. */
  lemma {:induction false} LexLtConcat(x: string, y: string, x': string, y': string)
    requires |x| == |x'|
    ensures LexLt(x + y, x' + y') <==> LexLt(x, x') || (x == x' && LexLt(y, y'))
  {
    if x == [] {
      assert x + y == y && x' + y' == y';
    } else {
      assert (x + y)[1..] == x[1..] + y && (x' + y')[1..] == x'[1..] + y';
      LexLtConcat(x[1..], y, x'[1..], y');
      if x[0] == x'[0] && x[1..] == x'[1..] {
        assert x == [x[0]] + x[1..] && x' == [x'[0]] + x'[1..];
      }
    }
  }

  // ---------------------------------------------------------------------------------------
  // ASCII case mapping (`toLowerCase`, `toUpperCase` restricted to A-Z and a-z)
  // ---------------------------------------------------------------------------------------

  function LowerChar(c: char): char
  {
    if 'A' <= c <= 'Z' then (c as int + 32) as char else c
  }

  function UpperChar(c: char): char
  {
    if 'a' <= c <= 'z' then (c as int - 32) as char else c
  }

  /** `s.toLowerCase()`, character by character. */
  function Lower(s: string): (r: string)
    ensures |r| == |s|
    ensures forall i :: 0 <= i < |s| ==> r[i] == LowerChar(s[i])
  {
    seq(|s|, i requires 0 <= i < |s| => LowerChar(s[i]))
  }

  /** `s.toUpperCase()`, character by character. */
  function Upper(s: string): (r: string)
    ensures |r| == |s|
    ensures forall i :: 0 <= i < |s| ==> r[i] == UpperChar(s[i])
  {
    seq(|s|, i requires 0 <= i < |s| => UpperChar(s[i]))
  }

  // ---------------------------------------------------------------------------------------
  // Searching
  // ---------------------------------------------------------------------------------------

  /** `s.startsWith(prefix)` */
  predicate StartsWith(s: string, prefix: string)
  {
    |prefix| <= |s| && s[..|prefix|] == prefix
  }

  /** `sub` sits in `s` starting at index `i`. */
  predicate OccursAt(s: string, sub: string, i: int)
  {
    0 <= i <= |s| - |sub| && s[i..i + |sub|] == sub
  }

  /** `s.includes(sub)`: `sub` occurs in `s`, tried at each start position in turn. */
  predicate Contains(s: string, sub: string)
    decreases |s|
  {
    StartsWith(s, sub) || (s != [] && Contains(s[1..], sub))
  }

  /** `includes` holds exactly when `sub` sits in `s` at some index. */
  lemma {:induction false} ContainsIff(s: string, sub: string)
    ensures Contains(s, sub) <==> exists i :: OccursAt(s, sub, i)
    decreases |s|
  {
    if s == [] {
      if Contains(s, sub) {
        assert OccursAt(s, sub, 0);
      }
      if exists i :: OccursAt(s, sub, i) {
        var i :| OccursAt(s, sub, i);
        assert StartsWith(s, sub);
      }
    } else {
      ContainsIff(s[1..], sub);
      if StartsWith(s, sub) {
        assert OccursAt(s, sub, 0);
      } else if Contains(s[1..], sub) {
        var i :| OccursAt(s[1..], sub, i);
        assert s[1..][i..i + |sub|] == s[i + 1..i + 1 + |sub|];
        assert OccursAt(s, sub, i + 1);
      }
      if exists i :: OccursAt(s, sub, i) {
        var i :| OccursAt(s, sub, i);
        if i > 0 {
          assert s[1..][i - 1..i - 1 + |sub|] == s[i..i + |sub|];
          assert OccursAt(s[1..], sub, i - 1);
        } else {
          assert StartsWith(s, sub);
        }
      }
    }
  }

  /** The empty string is found in every string. */
  lemma ContainsEmpty(s: string)
    ensures Contains(s, [])
  {
  }

  // ---------------------------------------------------------------------------------------
  // Split and join
  // ---------------------------------------------------------------------------------------

  /** `s.split(d)` for a one-character separator: the pieces between separators, in order.
      There is always at least one piece, and no piece contains the separator. */
  function Split(s: string, d: char): (r: seq<string>)
    ensures |r| >= 1
    ensures forall k :: 0 <= k < |r| ==> d !in r[k]
    decreases |s|
  {
    if s == [] then [[]]
    else
      var rest := Split(s[1..], d);
      if s[0] == d then [[]] + rest
      else [[s[0]] + rest[0]] + rest[1..]
  }

  /** A string is truthy exactly when it is non-empty: the callback of `.filter(Boolean)`
      on strings. */
  function NonEmpty(): string -> bool
  {
    (t: string) => t != []
  }

  /** `parts.join(sep)` */
  function Join(parts: seq<string>, sep: string): string
  {
    if parts == [] then []
    else if |parts| == 1 then parts[0]
    else parts[0] + sep + Join(parts[1..], sep)
  }

  /** Splitting and joining again with the same separator restores the string. */
  lemma {:induction false} JoinSplit(s: string, d: char)
    ensures Join(Split(s, d), [d]) == s
    decreases |s|
  {
    if s != [] {
      var rest := Split(s[1..], d);
      JoinSplit(s[1..], d);
      if s[0] == d {
        assert s == [d] + s[1..];
      } else if |rest| == 1 {
        assert s == [s[0]] + s[1..];
      } else {
        assert rest == [rest[0]] + rest[1..];
        assert Join(rest, [d]) == rest[0] + [d] + Join(rest[1..], [d]);
        assert s == [s[0]] + s[1..];
      }
    }
  }

  /** A piece free of the separator splits off as one piece. */
  lemma {:induction false} SplitConcat(t: string, x: string, d: char)
    requires d !in t
    ensures Split(t + [d] + x, d) == [t] + Split(x, d)
    decreases |t|
  {
    if t == [] {
      assert t + [d] + x == [d] + x;
      assert ([d] + x)[1..] == x;
    } else {
      assert (t + [d] + x)[1..] == t[1..] + [d] + x;
      SplitConcat(t[1..], x, d);
      assert [t[0]] + t[1..] == t;
    }
  }

  /** A string free of the separator splits into itself alone. */
  lemma {:induction false} SplitWithout(t: string, d: char)
    requires d !in t
    ensures Split(t, d) == [t]
    decreases |t|
  {
    if t != [] {
      SplitWithout(t[1..], d);
      assert [t[0]] + t[1..] == t;
    }
  }

  /** Joining separator-free pieces and splitting again gives the pieces back. */
  lemma {:induction false} SplitJoin(parts: seq<string>, d: char)
    requires parts != []
    requires forall k :: 0 <= k < |parts| ==> d !in parts[k]
    ensures Split(Join(parts, [d]), d) == parts
    decreases |parts|
  {
    if |parts| == 1 {
      SplitWithout(parts[0], d);
    } else {
      SplitJoin(parts[1..], d);
      SplitConcat(parts[0], Join(parts[1..], [d]), d);
      assert parts == [parts[0]] + parts[1..];
    }
  }

  // ---------------------------------------------------------------------------------------
  // Trimming (`trim`, with the ASCII whitespace characters)
  // ---------------------------------------------------------------------------------------

  predicate IsSpace(c: char)
  {
    c == ' ' || c == '\t' || c == '\n' || c == '\r' || c == '\U{000B}' || c == '\U{000C}'
  }

  predicate AllSpace(s: string)
  {
    forall k :: 0 <= k < |s| ==> IsSpace(s[k])
  }

  /** Neither end of `s` is whitespace. */
  predicate Trimmed(s: string)
  {
    s == [] || (!IsSpace(s[0]) && !IsSpace(s[|s| - 1]))
  }

  /** The first index at or after `i` that does not hold whitespace, or `|s|`. */
  function SpaceEnd(s: string, i: nat): (n: nat)
    requires i <= |s|
    ensures i <= n <= |s|
    ensures forall k :: i <= k < n ==> IsSpace(s[k])
    ensures n == |s| || !IsSpace(s[n])
    decreases |s| - i
  {
    if i < |s| && IsSpace(s[i]) then SpaceEnd(s, i + 1) else i
  }

  /** The index just after the last character before `j`, and not before `lo`, that is
      not whitespace, or `lo`. */
  function SpaceStart(s: string, lo: nat, j: nat): (n: nat)
    requires lo <= j <= |s|
    ensures lo <= n <= j
    ensures forall k :: n <= k < j ==> IsSpace(s[k])
    ensures n == lo || !IsSpace(s[n - 1])
    decreases j - lo
  {
    if lo < j && IsSpace(s[j - 1]) then SpaceStart(s, lo, j - 1) else j
  }

  /** `s.trim()`: the middle of `s` between leading and trailing whitespace. It starts
      where the leading whitespace ends, only whitespace follows it, and neither of its
      ends is whitespace. */
  function Trim(s: string): (r: string)
    ensures Trimmed(r)
    ensures exists i :: 0 <= i <= |s| - |r| && s[i..i + |r|] == r
                        && AllSpace(s[..i]) && AllSpace(s[i + |r|..])
  {
    var lo := SpaceEnd(s, 0);
    var hi := SpaceStart(s, lo, |s|);
    assert AllSpace(s[..lo]) && AllSpace(s[hi..]);
    s[lo..hi]
  }

  /** Trimming removes only characters at the ends, so it cannot bring in a character. */
  lemma TrimKeeps(s: string, c: char)
    requires c !in s
    ensures c !in Trim(s)
  {
  }

  /** Padding a trimmed string with whitespace in front and trimming again gives it back. */
  lemma TrimPadded(p: string, t: string)
    requires AllSpace(p) && Trimmed(t)
    ensures Trim(p + t) == t
  {
    var s := p + t;
    SpaceEndPadded(p, t, 0);
    assert SpaceEnd(s, 0) == |p|;
    assert s[|p|..] == t;
  }

  lemma {:induction false} SpaceEndPadded(p: string, t: string, i: nat)
    requires AllSpace(p) && Trimmed(t) && i <= |p|
    ensures SpaceEnd(p + t, i) == |p|
    decreases |p| - i
  {
    if i < |p| {
      assert (p + t)[i] == p[i];
      SpaceEndPadded(p, t, i + 1);
    } else if t != [] {
      assert (p + t)[i] == t[0];
    }
  }
}
