/** The option type used for Python's `None`. */
module Wrappers {
  datatype Option<+T> = None | Some(value: T)
}

/** Concatenation of a list of strings, and first-occurrence search in a string. */
module Text {
  import opened Wrappers

  function Concat(parts: seq<string>): string {
    if parts == [] then "" else Concat(parts[..|parts| - 1]) + parts[|parts| - 1]
  }

  lemma ConcatSnoc(parts: seq<string>, part: string)
    ensures Concat(parts + [part]) == Concat(parts) + part
  {
    assert (parts + [part])[..|parts|] == parts;
  }

  predicate OccursAt(s: string, tag: string, i: nat) {
    i + |tag| <= |s| && s[i..i + |tag|] == tag
  }

  /** Index of the first occurrence of `tag`, as `in` and `partition` find it. */
  function Find(s: string, tag: string): (r: Option<nat>)
    ensures r.Some? ==> r.value + |tag| <= |s| && OccursAt(s, tag, r.value)
                        && forall i: nat | i < r.value :: !OccursAt(s, tag, i)
    ensures r.None? ==> forall i: nat :: !OccursAt(s, tag, i)
  {
    FindFrom(s, tag, 0)
  }

  function FindFrom(s: string, tag: string, from: nat): (r: Option<nat>)
    requires from <= |s|
    ensures r.Some? ==> from <= r.value && OccursAt(s, tag, r.value)
                        && forall i: nat | from <= i < r.value :: !OccursAt(s, tag, i)
    ensures r.None? ==> forall i: nat | from <= i :: !OccursAt(s, tag, i)
    decreases |s| - from
  {
    if OccursAt(s, tag, from) then Some(from)
    else if from == |s| then None
    else FindFrom(s, tag, from + 1)
  }

  /** An occurrence in a slice is an occurrence in the whole string, shifted. */
  lemma OccursInSlice(s: string, tag: string, lo: nat, hi: nat, i: nat)
    requires lo <= hi <= |s|
    ensures OccursAt(s[lo..hi], tag, i) <==> lo + i + |tag| <= hi && OccursAt(s, tag, lo + i)
  {
    if lo + i + |tag| <= hi {
      var inner, outer := s[lo..hi][i..i + |tag|], s[lo + i..lo + i + |tag|];
      assert forall k | 0 <= k < |tag| :: inner[k] == outer[k];
      assert inner == outer;
    }
  }

  /** Python's `str.isspace` for one character. */
  predicate IsSpace(c: char) {
    var n := c as int;
    9 <= n <= 13 || 28 <= n <= 32 || n == 0x85 || n == 0xA0 || n == 0x1680
    || 0x2000 <= n <= 0x200A || n == 0x2028 || n == 0x2029 || n == 0x202F || n == 0x205F || n == 0x3000
  }

  const LOW_SPACES := "\t\n\U{0B}\U{0C}\r\U{1C}\U{1D}\U{1E}\U{1F} \U{85}\U{A0}\U{1680}"
  const HIGH_SPACES :=
    "\U{2000}\U{2001}\U{2002}\U{2003}\U{2004}\U{2005}\U{2006}\U{2007}\U{2008}\U{2009}\U{200A}"
    + "\U{2028}\U{2029}\U{202F}\U{205F}\U{3000}"
  const WHITESPACE := LOW_SPACES + HIGH_SPACES

  /** The characters that count as whitespace, one by one. */
  lemma WhitespaceIs(c: char)
    ensures IsSpace(c) <==> c in WHITESPACE
  {
    assert WHITESPACE == LOW_SPACES + HIGH_SPACES;
    assert c in WHITESPACE <==> c in LOW_SPACES || c in HIGH_SPACES;
  }

  /** `not s.strip()`: nothing is left once surrounding whitespace is removed. */
  predicate Blank(s: string) {
    forall i | 0 <= i < |s| :: IsSpace(s[i])
  }
}

/** Listing the elements of a set of integers. */
module Ordering {
  predicate Enumerates(xs: seq<int>, s: set<int>) {
    (forall x <- xs :: x in s) && (forall x <- s :: x in xs) && (forall i, j | 0 <= i < j < |xs| :: xs[i] != xs[j])
  }

  lemma EnumerateMore(m: int, xs: seq<int>, s: set<int>)
    requires m in s && Enumerates(xs, s - {m})
    ensures Enumerates([m] + xs, s)
  {
    forall x <- s ensures x in [m] + xs {
      if x != m { assert x in s - {m}; }
    }
  }

  lemma Inhabited(s: set<int>)
    requires |s| > 0
    ensures exists x :: x in s
  {
    if !exists x :: x in s { assert false; }
  }

  ghost function SomeOrder(s: set<int>): (xs: seq<int>)
    ensures Enumerates(xs, s)
  {
    if |s| == 0 then [] else
      Inhabited(s);
      var x :| x in s;
      EnumerateMore(x, SomeOrder(s - {x}), s);
      [x] + SomeOrder(s - {x})
  }

  predicate IsLeast(m: int, s: set<int>) {
    m in s && forall x <- s :: m <= x
  }

  predicate Ascending(xs: seq<int>) {
    forall i, j | 0 <= i < j < |xs| :: xs[i] < xs[j]
  }

  /** The built-in `sorted`. */
  function Sorted(s: set<int>): (xs: seq<int>)
    ensures Enumerates(xs, s) && Ascending(xs)
  {
    if |s| == 0 then [] else
      LeastExists(s);
      var m :| IsLeast(m, s);
      var rest := Sorted(s - {m});
      EnumerateMore(m, rest, s);
      assert forall x <- rest :: x in s - {m};
      [m] + rest
  }

  lemma {:induction false} LeastExists(s: set<int>)
    requires |s| > 0
    ensures exists m :: IsLeast(m, s)
  {
    Inhabited(s);
    var x :| x in s;
    var rest := s - {x};
    if |rest| == 0 {
      assert forall y <- s :: y == x || y in rest;
      assert IsLeast(x, s);
    } else {
      LeastExists(rest);
      var m :| IsLeast(m, rest);
      assert forall y <- s :: y == x || y in rest;
      assert IsLeast(if x <= m then x else m, s);
    }
  }
}
