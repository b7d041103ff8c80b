/** Small building blocks shared by the proxy handlers and the dashboard pages:
    an Option type, JavaScript's `String.prototype.includes` and `trim`,
    and the order-keeping `Array.prototype.filter`. */
module Common {

  datatype Option<+T> = None | Some(value: T)

  // ---------------------------------------------------------------------------
  // Substring containment (`s.includes(sub)`)
  // ---------------------------------------------------------------------------

  /** `s.includes(sub)`: `sub` occurs in `s` starting at some position. */
  predicate Contains(s: string, sub: string)
    decreases |s|
  {
    sub <= s || (|s| > 0 && Contains(s[1..], sub))
  }

  /** `sub` occurs in `s` starting at position `i`. */
  predicate OccursAt(s: string, sub: string, i: int) {
    0 <= i && i + |sub| <= |s| && s[i..i + |sub|] == sub
  }

  /** `Contains` agrees with the positional definition of an occurrence. */
  lemma {:induction false} ContainsIff(s: string, sub: string)
    ensures Contains(s, sub) <==> exists i :: OccursAt(s, sub, i)
    decreases |s|
  {
    if sub <= s {
      assert OccursAt(s, sub, 0);
    } else if |s| == 0 {
      assert |sub| > 0;
    } else {
      ContainsIff(s[1..], sub);
      if Contains(s[1..], sub) {
        var i :| OccursAt(s[1..], sub, i);
        assert s[1..][i..i + |sub|] == s[i + 1..i + 1 + |sub|];
        assert OccursAt(s, sub, i + 1);
      } else {
        forall i | 0 < i && i + |sub| <= |s|
          ensures !OccursAt(s, sub, i)
        {
          assert s[i..i + |sub|] == s[1..][i - 1..i - 1 + |sub|];
          assert !OccursAt(s[1..], sub, i - 1);
        }
        assert !OccursAt(s, sub, 0);
      }
    }
  }

  /** A string shorter than a needle does not contain it. */
  lemma {:induction false} ShorterDoesNotContain(s: string, sub: string)
    requires |s| < |sub|
    ensures !Contains(s, sub)
    decreases |s|
  {
    if |s| > 0 {
      ShorterDoesNotContain(s[1..], sub);
    }
  }

  // ---------------------------------------------------------------------------
  // Whitespace and `trim`
  // ---------------------------------------------------------------------------

  /** The characters `String.prototype.trim` strips (WhiteSpace and
      LineTerminator of section 12.2 and 12.3 of ECMA-262). */
  predicate IsJsWhitespace(c: char) {
    c == '\t' || c == '\n' || c == '\U{000B}' || c == '\U{000C}' || c == '\r' || c == ' ' ||
    c == '\U{00A0}' || c == '\U{1680}' || ('\U{2000}' <= c <= '\U{200A}') ||
    c == '\U{2028}' || c == '\U{2029}' || c == '\U{202F}' || c == '\U{205F}' ||
    c == '\U{3000}' || c == '\U{FEFF}'
  }

  function TrimStart(s: string): (r: string)
    ensures |r| <= |s|
    ensures r == s[|s| - |r|..]
    ensures r == [] || !IsJsWhitespace(r[0])
    ensures forall i :: 0 <= i < |s| - |r| ==> IsJsWhitespace(s[i])
    decreases |s|
  {
    if s != [] && IsJsWhitespace(s[0]) then TrimStart(s[1..]) else s
  }

  function TrimEnd(s: string): (r: string)
    ensures |r| <= |s|
    ensures r == s[..|r|]
    ensures r == [] || !IsJsWhitespace(r[|r| - 1])
    ensures forall i :: |r| <= i < |s| ==> IsJsWhitespace(s[i])
    decreases |s|
  {
    if s != [] && IsJsWhitespace(s[|s| - 1]) then TrimEnd(s[..|s| - 1]) else s
  }

  /** `s.trim()`. */
  function Trim(s: string): string {
    TrimStart(TrimEnd(s))
  }

  /** `s.trim() === ''` exactly when every character of `s` is whitespace. */
  lemma TrimEmptyIffBlank(s: string)
    ensures Trim(s) == "" <==> forall i :: 0 <= i < |s| ==> IsJsWhitespace(s[i])
  {
    var e := TrimEnd(s);
    if Trim(s) == "" {
      forall i | 0 <= i < |s|
        ensures IsJsWhitespace(s[i])
      {
        if i < |e| {
          assert e[i] == s[i];
        }
      }
    } else {
      var r := Trim(s);
      var k := |e| - |r|;
      assert r[0] == e[k] == s[k];
    }
  }

  // ---------------------------------------------------------------------------
  // Order-keeping filter (`Array.prototype.filter`)
  // ---------------------------------------------------------------------------

  /** `s.filter(keep)`. */
  function Filter<T(==,!new)>(s: seq<T>, keep: T -> bool): (r: seq<T>)
    ensures |r| <= |s|
    ensures forall x :: x in r <==> x in s && keep(x)
    decreases |s|
  {
    if s == [] then []
    else
      assert s == [s[0]] + s[1..];
      (if keep(s[0]) then [s[0]] else []) + Filter(s[1..], keep)
  }

  /** `a` is `b` with some elements left out and the rest in their order. */
  predicate IsSubsequence<T(==)>(a: seq<T>, b: seq<T>)
    decreases |b|
  {
    if a == [] then true
    else if b == [] then false
    else (a[0] == b[0] && IsSubsequence(a[1..], b[1..])) || IsSubsequence(a, b[1..])
  }

  /** Filtering keeps the survivors in their original order. */
  lemma {:induction false} FilterIsSubsequence<T(!new)>(s: seq<T>, keep: T -> bool)
    ensures IsSubsequence(Filter(s, keep), s)
    decreases |s|
  {
    if s != [] {
      FilterIsSubsequence(s[1..], keep);
      var rest := Filter(s[1..], keep);
      if keep(s[0]) {
        assert Filter(s, keep) == [s[0]] + rest;
        assert ([s[0]] + rest)[1..] == rest;
      } else {
        assert Filter(s, keep) == rest;
      }
    }
  }

  /** Filtering keeps every copy of a kept element and no copy of the others. */
  lemma {:induction false} FilterCounts<T(!new)>(s: seq<T>, keep: T -> bool)
    ensures forall x :: multiset(Filter(s, keep))[x] == if keep(x) then multiset(s)[x] else 0
    decreases |s|
  {
    if s != [] {
      FilterCounts(s[1..], keep);
      var head := if keep(s[0]) then [s[0]] else [];
      assert s == [s[0]] + s[1..];
      assert multiset(s) == multiset([s[0]]) + multiset(s[1..]);
      assert Filter(s, keep) == head + Filter(s[1..], keep);
      assert multiset(Filter(s, keep)) == multiset(head) + multiset(Filter(s[1..], keep));
    }
  }

  /** Filtering with a predicate every element satisfies changes nothing. */
  lemma {:induction false} FilterKeepsAll<T(!new)>(s: seq<T>, keep: T -> bool)
    requires forall x :: x in s ==> keep(x)
    ensures Filter(s, keep) == s
    decreases |s|
  {
    if s != [] {
      assert s == [s[0]] + s[1..];
      FilterKeepsAll(s[1..], keep);
    }
  }
}
