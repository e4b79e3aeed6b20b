/**
 * Value types and sequence helpers shared by every module of the model:
 * optional values, results of calls that may throw, the JavaScript
 * truthiness tests the front-end relies on, and `Array.prototype.filter`.
 */
module Common {

  /** A value that may be `null`/`undefined`. */
  datatype Option<+T> = None | Some(value: T)

  /** The outcome of a call that either returns a value or throws an `Error` with a message. */
  datatype Result<+T, +E> = Success(value: T) | Failure(error: E)

  /** JavaScript truthiness of an optional string: present and not the empty string. */
  predicate Truthy(s: Option<string>)
  {
    s.Some? && s.value != ""
  }

  /** The string that `s || ""` yields. */
  function OrEmpty(s: Option<string>): (r: string)
    ensures Truthy(s) ==> r == s.value
    ensures !Truthy(s) ==> r == ""
  {
    if s.Some? then s.value else ""
  }

  /** JavaScript truthiness of an optional boolean: `null`, `undefined` and `false` are all falsy. */
  predicate IsTrue(b: Option<bool>)
  {
    b == Some(true)
  }

  function Min(a: int, b: int): int
  {
    if a <= b then a else b
  }

  /** `s.slice(0, k)`: at most the first k elements. */
  function Take<T>(s: seq<T>, k: nat): (r: seq<T>)
    ensures |r| == Min(|s|, k)
    ensures r <= s
  {
    s[..Min(|s|, k)]
  }

  /** `s.filter(p)`: the elements that satisfy p, in their original order. */
  function Filter<T>(s: seq<T>, p: T -> bool): (r: seq<T>)
    ensures |r| <= |s|
    ensures forall x :: x in r ==> x in s && p(x)
    decreases |s|
  {
    if s == [] then []
    else (if p(s[0]) then [s[0]] else []) + Filter(s[1..], p)
  }

  /** `s.filter(p).length`. */
  function Count<T>(s: seq<T>, p: T -> bool): nat
  {
    |Filter(s, p)|
  }

  /**
   * r occurs in s in the same order, possibly with gaps (greedy matching
   * of r's first element is complete for this relation).
   */
  predicate Embeds<T(==)>(r: seq<T>, s: seq<T>)
    decreases |s|
  {
    r == [] || (s != [] && if r[0] == s[0] then Embeds(r[1..], s[1..]) else Embeds(r, s[1..]))
  }

  /** Every element of s that satisfies p is kept by the filter. */
  lemma {:induction false} FilterKeeps<T>(s: seq<T>, p: T -> bool, x: T)
    requires x in s && p(x)
    ensures x in Filter(s, p)
    decreases |s|
  {
    if s[0] != x {
      FilterKeeps(s[1..], p, x);
    }
  }

  /** The filter keeps the relative order of what it keeps. */
  lemma {:induction false} FilterEmbeds<T>(s: seq<T>, p: T -> bool)
    ensures Embeds(Filter(s, p), s)
    decreases |s|
  {
    if s != [] {
      FilterEmbeds(s[1..], p);
      if p(s[0]) {
        assert Filter(s, p) == [s[0]] + Filter(s[1..], p);
      } else {
        assert Filter(s, p) == Filter(s[1..], p);
        EmbedsSkip(Filter(s[1..], p), s);
      }
    }
  }

  /** A subsequence of the tail of s is a subsequence of s. */
  lemma {:induction false} EmbedsSkip<T>(r: seq<T>, s: seq<T>)
    requires s != [] && Embeds(r, s[1..])
    ensures Embeds(r, s)
    decreases |s|, 0
  {
    if r != [] && r[0] == s[0] {
      EmbedsTail(r, s[1..]);
    }
  }

  /** Dropping the first element of a subsequence keeps it a subsequence. */
  lemma {:induction false} EmbedsTail<T>(r: seq<T>, s: seq<T>)
    requires r != [] && Embeds(r, s)
    ensures Embeds(r[1..], s)
    decreases |s|, 1
  {
    if r[0] == s[0] {
      if r[1..] != [] {
        EmbedsSkip(r[1..], s);
      }
    } else {
      EmbedsTail(r, s[1..]);
      if r[1..] != [] {
        EmbedsSkip(r[1..], s);
      }
    }
  }

  /** A prefix of a subsequence of s is a subsequence of s. */
  lemma {:induction false} EmbedsPrefix<T>(r: seq<T>, s: seq<T>, k: nat)
    requires Embeds(r, s) && k <= |r|
    ensures Embeds(r[..k], s)
    decreases |s|
  {
    if k > 0 {
      if r[0] == s[0] {
        EmbedsPrefix(r[1..], s[1..], k - 1);
        assert r[..k][1..] == r[1..][..k - 1];
      } else {
        EmbedsPrefix(r, s[1..], k);
      }
    }
  }

  /**
   * Two complementary filters split a sequence: their lengths add up to
   * the whole and their elements, counted with multiplicity, make up the whole.
   */
  lemma {:induction false} FilterPartition<T>(s: seq<T>, p: T -> bool, q: T -> bool)
    requires forall x :: q(x) == !p(x)
    ensures |Filter(s, p)| + |Filter(s, q)| == |s|
    ensures multiset(Filter(s, p)) + multiset(Filter(s, q)) == multiset(s)
    decreases |s|
  {
    if s != [] {
      FilterPartition(s[1..], p, q);
      assert s == [s[0]] + s[1..];
    }
  }

  /** Filtering distributes over concatenation. */
  lemma {:induction false} FilterAppend<T>(s: seq<T>, t: seq<T>, p: T -> bool)
    ensures Filter(s + t, p) == Filter(s, p) + Filter(t, p)
    decreases |s|
  {
    if s != [] {
      FilterAppend(s[1..], t, p);
      assert (s + t)[1..] == s[1..] + t;
    } else {
      assert s + t == t;
    }
  }

  /** A filter whose predicate holds everywhere keeps the whole sequence. */
  lemma {:induction false} FilterAll<T>(s: seq<T>, p: T -> bool)
    requires forall x :: x in s ==> p(x)
    ensures Filter(s, p) == s
    decreases |s|
  {
    if s != [] {
      FilterAll(s[1..], p);
    }
  }

  /** A filter whose predicate holds nowhere keeps nothing. */
  lemma {:induction false} FilterNone<T>(s: seq<T>, p: T -> bool)
    requires forall x :: x in s ==> !p(x)
    ensures Filter(s, p) == []
    decreases |s|
  {
    if s != [] {
      FilterNone(s[1..], p);
    }
  }

  /** Two filter callbacks that agree everywhere keep the same elements. */
  lemma {:induction false} FilterSame<T>(s: seq<T>, p: T -> bool, q: T -> bool)
    requires forall x :: p(x) == q(x)
    ensures Filter(s, p) == Filter(s, q)
    decreases |s|
  {
    if s != [] {
      FilterSame(s[1..], p, q);
    }
  }
}
