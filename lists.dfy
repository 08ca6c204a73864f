/** Order-preserving list operations that the filter panel performs on its
    multi-select id lists, stated once and proved once. */
module Lists {

  /** The lists hold party, status and payment-status ids and kapan numbers, all strings. */
  type Value = string

  /** No value occurs twice. */
  predicate NoDups(s: seq<Value>) {
    forall i, j :: 0 <= i < j < |s| ==> s[i] != s[j]
  }

  /** `list.filter(v => v !== x)`: every occurrence of `x` dropped, the rest in order. */
  function Without(s: seq<Value>, x: Value): (r: seq<Value>)
    ensures forall y :: y in r <==> y in s && y != x
    ensures |r| <= |s|
  {
    if s == [] then [] else (if s[0] == x then [] else [s[0]]) + Without(s[1..], x)
  }

  /** Checkbox toggling: a selected value is removed, an unselected one appended. */
  function Toggle(s: seq<Value>, x: Value): (r: seq<Value>)
    ensures x in r <==> x !in s
    ensures forall y :: y != x ==> (y in r <==> y in s)
  {
    if x in s then Without(s, x) else s + [x]
  }

  /** `list.filter(v => options.includes(v))`. */
  function KeepIn(s: seq<Value>, options: seq<Value>): (r: seq<Value>)
    ensures forall y :: y in r <==> y in s && y in options
    ensures |r| <= |s|
  {
    if s == [] then [] else (if s[0] in options then [s[0]] else []) + KeepIn(s[1..], options)
  }

  /** JavaScript's `Array.prototype.indexOf`: the first position of `x`, or -1. */
  function IndexOf(s: seq<Value>, x: Value): (r: int)
    ensures -1 <= r < |s|
    ensures r == -1 <==> x !in s
    ensures r >= 0 ==> s[r] == x && x !in s[..r]
  {
    if s == [] then -1
    else if s[0] == x then 0
    else
      var k := IndexOf(s[1..], x);
      assert s[1..][..k + 1] == s[1..k + 2];
      if k == -1 then -1 else k + 1
  }

  /** `s.filter((v, i, arr) => arr.indexOf(v) === i)` over the first `n`
      positions of `s`: each value kept at its first occurrence only. */
  function FirstOccurrencesUpTo(s: seq<Value>, n: nat): seq<Value>
    requires n <= |s|
  {
    if n == 0 then []
    else FirstOccurrencesUpTo(s, n - 1) + (if IndexOf(s, s[n - 1]) == n - 1 then [s[n - 1]] else [])
  }

  /** The whole list with each value kept at its first occurrence only. */
  function FirstOccurrences(s: seq<Value>): (r: seq<Value>)
    ensures forall x :: x in r <==> x in s
  {
    FirstOccurrencesMembership(s, |s|);
    assert s[..|s|] == s;
    FirstOccurrencesUpTo(s, |s|)
  }

  // ---------------------------------------------------------------- lemmas

  /** Position k holds the first occurrence of its value exactly when the value
      does not occur earlier. */
  lemma IndexOfIsFirst(s: seq<Value>, k: nat)
    requires k < |s|
    ensures IndexOf(s, s[k]) == k <==> s[k] !in s[..k]
  {
    assert forall j :: 0 <= j < k ==> s[..k][j] == s[j];
    var i := IndexOf(s, s[k]);
    assert forall j :: 0 <= j < i ==> s[..i][j] == s[j];
  }

  /** Removing a value that occurs once, at position i, removes exactly that
      position and keeps the others in order. */
  lemma {:induction false} WithoutRemovesExactlyOne(s: seq<Value>, i: nat)
    requires NoDups(s) && i < |s|
    ensures Without(s, s[i]) == s[..i] + s[i + 1..]
    ensures |Without(s, s[i])| == |s| - 1
  {
    if i == 0 {
      WithoutAbsent(s[1..], s[0]);
    } else {
      assert s[1..][i - 1] == s[i];
      assert NoDups(s[1..]) by {
        forall a, b | 0 <= a < b < |s[1..]| ensures s[1..][a] != s[1..][b] {
          assert s[1..][a] == s[a + 1] && s[1..][b] == s[b + 1];
        }
      }
      WithoutRemovesExactlyOne(s[1..], i - 1);
      assert s[0] != s[i];
      assert s[1..][..i - 1] + s[1..][i..] == s[1..i] + s[i + 1..];
      assert s[..i] + s[i + 1..] == [s[0]] + (s[1..i] + s[i + 1..]);
    }
  }

  /** Removing an absent value changes nothing. */
  lemma {:induction false} WithoutAbsent(s: seq<Value>, x: Value)
    requires x !in s
    ensures Without(s, x) == s
  {
    if s != [] {
      WithoutAbsent(s[1..], x);
      assert [s[0]] + s[1..] == s;
    }
  }

  /** Removal distributes over concatenation. */
  lemma {:induction false} WithoutAppend(a: seq<Value>, b: seq<Value>, x: Value)
    ensures Without(a + b, x) == Without(a, x) + Without(b, x)
  {
    if a != [] {
      assert (a + b)[1..] == a[1..] + b;
      WithoutAppend(a[1..], b, x);
    } else {
      assert a + b == b;
    }
  }

  /** Removal keeps a duplicate-free list duplicate-free. */
  lemma {:induction false} WithoutNoDups(s: seq<Value>, x: Value)
    requires NoDups(s)
    ensures NoDups(Without(s, x))
  {
    if s != [] {
      assert NoDups(s[1..]) by {
        forall a, b | 0 <= a < b < |s[1..]| ensures s[1..][a] != s[1..][b] {
          assert s[1..][a] == s[a + 1] && s[1..][b] == s[b + 1];
        }
      }
      WithoutNoDups(s[1..], x);
      assert s[0] !in s[1..] by {
        forall k | 0 <= k < |s[1..]| ensures s[1..][k] != s[0] {
          assert s[1..][k] == s[k + 1];
        }
      }
    }
  }

  /** Toggling keeps the list duplicate-free, flips membership of `x`, and
      leaves the membership of every other value alone. */
  lemma ToggleSpec(s: seq<Value>, x: Value)
    requires NoDups(s)
    ensures NoDups(Toggle(s, x))
    ensures x in Toggle(s, x) <==> x !in s
    ensures forall y :: y != x ==> (y in Toggle(s, x) <==> y in s)
    ensures x !in s ==> Toggle(s, x) == s + [x]
  {
    if x in s {
      WithoutNoDups(s, x);
    } else {
      assert NoDups(s + [x]) by {
        forall a, b | 0 <= a < b < |s + [x]| ensures (s + [x])[a] != (s + [x])[b] {
          if b == |s| { assert (s + [x])[a] == s[a]; }
        }
      }
    }
  }

  /** Toggling a value on and off again restores the list. */
  lemma ToggleTwice(s: seq<Value>, x: Value)
    requires x !in s
    ensures Toggle(Toggle(s, x), x) == s
  {
    WithoutAppend(s, [x], x);
    WithoutAbsent(s, x);
    assert Without([x], x) == [];
  }

  /** Filtering keeps a duplicate-free list duplicate-free. */
  lemma {:induction false} KeepInNoDups(s: seq<Value>, options: seq<Value>)
    requires NoDups(s)
    ensures NoDups(KeepIn(s, options))
  {
    if s != [] {
      assert NoDups(s[1..]) by {
        forall a, b | 0 <= a < b < |s[1..]| ensures s[1..][a] != s[1..][b] {
          assert s[1..][a] == s[a + 1] && s[1..][b] == s[b + 1];
        }
      }
      KeepInNoDups(s[1..], options);
      assert s[0] !in s[1..] by {
        forall k | 0 <= k < |s[1..]| ensures s[1..][k] != s[0] {
          assert s[1..][k] == s[k + 1];
        }
      }
    }
  }

  /** Filtering a list whose values are all allowed changes nothing; in
      particular filtering twice is filtering once. */
  lemma {:induction false} KeepInAllAllowed(s: seq<Value>, options: seq<Value>)
    requires forall y :: y in s ==> y in options
    ensures KeepIn(s, options) == s
  {
    if s != [] {
      KeepInAllAllowed(s[1..], options);
      assert [s[0]] + s[1..] == s;
    }
  }

  /** Filtering distributes over concatenation, so the kept values stay in
      their original order. */
  lemma {:induction false} KeepInAppend(a: seq<Value>, b: seq<Value>, options: seq<Value>)
    ensures KeepIn(a + b, options) == KeepIn(a, options) + KeepIn(b, options)
  {
    if a != [] {
      assert (a + b)[1..] == a[1..] + b;
      KeepInAppend(a[1..], b, options);
    } else {
      assert a + b == b;
    }
  }

  lemma KeepInIdempotent(s: seq<Value>, options: seq<Value>)
    ensures KeepIn(KeepIn(s, options), options) == KeepIn(s, options)
  {
    KeepInAllAllowed(KeepIn(s, options), options);
  }

  /** A value is among the first occurrences of a prefix exactly when it occurs
      in that prefix. */
  lemma {:induction false} FirstOccurrencesMembership(s: seq<Value>, n: nat)
    requires n <= |s|
    ensures forall x :: x in FirstOccurrencesUpTo(s, n) <==> x in s[..n]
  {
    if n > 0 {
      FirstOccurrencesMembership(s, n - 1);
      IndexOfIsFirst(s, n - 1);
      assert s[..n] == s[..n - 1] + [s[n - 1]];
    }
  }

  /** Every value of `r` first occurs in `s` before position `n`, and the
      first positions increase along `r`. */
  ghost predicate InFirstOccurrenceOrder(s: seq<Value>, r: seq<Value>, n: int) {
    && (forall i :: 0 <= i < |r| ==> 0 <= IndexOf(s, r[i]) < n)
    && (forall i, j :: 0 <= i < j < |r| ==> IndexOf(s, r[i]) < IndexOf(s, r[j]))
  }

  /** Appending a value first seen at position n-1 extends the order. */
  lemma OrderedAppend(s: seq<Value>, prev: seq<Value>, n: int)
    requires 0 < n <= |s| && IndexOf(s, s[n - 1]) == n - 1
    requires InFirstOccurrenceOrder(s, prev, n - 1)
    ensures InFirstOccurrenceOrder(s, prev + [s[n - 1]], n)
  {
    var r := prev + [s[n - 1]];
    forall i | 0 <= i < |r|
      ensures 0 <= IndexOf(s, r[i]) < n
    {
      if i < |prev| {
        assert r[i] == prev[i];
      }
    }
    forall i, j | 0 <= i < j < |r|
      ensures IndexOf(s, r[i]) < IndexOf(s, r[j])
    {
      assert r[i] == prev[i];
      if j < |prev| {
        assert r[j] == prev[j];
      }
    }
  }

  /** The first occurrences appear in the order of their first positions in `s`. */
  lemma {:induction false} FirstOccurrencesOrdered(s: seq<Value>, n: nat)
    requires n <= |s|
    ensures InFirstOccurrenceOrder(s, FirstOccurrencesUpTo(s, n), n)
  {
    if n > 0 {
      FirstOccurrencesOrdered(s, n - 1);
      var prev := FirstOccurrencesUpTo(s, n - 1);
      if IndexOf(s, s[n - 1]) == n - 1 {
        OrderedAppend(s, prev, n);
        assert FirstOccurrencesUpTo(s, n) == prev + [s[n - 1]];
      } else {
        assert FirstOccurrencesUpTo(s, n) == prev + [];
        assert prev + [] == prev;
      }
    }
  }

  /** Strictly increasing first positions imply no duplicates. */
  lemma FirstOccurrencesNoDups(s: seq<Value>)
    ensures NoDups(FirstOccurrences(s))
  {
    FirstOccurrencesOrdered(s, |s|);
    var r := FirstOccurrences(s);
    forall i, j | 0 <= i < j < |r| ensures r[i] != r[j] {
      assert IndexOf(s, r[i]) < IndexOf(s, r[j]);
    }
  }
}
