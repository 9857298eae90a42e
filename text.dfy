/** String helpers: Python's `str.join`, character counts, and the small
    splitting functions the text parsers are built from. */
module Text {
  import opened Wrappers

  /** Python's `sep.join(parts)`. */
  function Join(sep: string, parts: seq<string>): string
  {
    if |parts| == 0 then ""
    else if |parts| == 1 then parts[0]
    else Join(sep, parts[..|parts| - 1]) + sep + parts[|parts| - 1]
  }

  /** Number of occurrences of `c` in `s`. */
  function Count(c: char, s: string): nat
  {
    if s == [] then 0 else (if s[0] == c then 1 else 0) + Count(c, s[1..])
  }

  lemma {:induction false} CountAppend(c: char, a: string, b: string)
    ensures Count(c, a + b) == Count(c, a) + Count(c, b)
  {
    if a == [] {
      assert a + b == b;
    } else {
      assert (a + b)[1..] == a[1..] + b;
      CountAppend(c, a[1..], b);
    }
  }

  lemma {:induction false} CountAbsent(c: char, s: string)
    requires c !in s
    ensures Count(c, s) == 0
  {
    if s != [] {
      assert s[0] in s;
      assert forall x :: x in s[1..] ==> x in s;
      CountAbsent(c, s[1..]);
    }
  }

  /** Joining parts that do not contain `c` with a separator that holds `c`
      once leaves exactly one `c` between consecutive parts: the number of
      parts can be read back from the text. */
  lemma {:induction false} JoinCount(c: char, sep: string, parts: seq<string>)
    requires |parts| >= 1
    requires Count(c, sep) == 1
    requires forall i :: 0 <= i < |parts| ==> c !in parts[i]
    ensures Count(c, Join(sep, parts)) == |parts| - 1
  {
    if |parts| == 1 {
      CountAbsent(c, parts[0]);
    } else {
      var init := parts[..|parts| - 1];
      JoinCount(c, sep, init);
      CountAppend(c, Join(sep, init), sep);
      CountAppend(c, Join(sep, init) + sep, parts[|parts| - 1]);
      CountAbsent(c, parts[|parts| - 1]);
    }
  }

  /** A character that is in neither the separator nor any part is not in the joined text. */
  lemma {:induction false} JoinAvoids(c: char, sep: string, parts: seq<string>)
    requires c !in sep
    requires forall i :: 0 <= i < |parts| ==> c !in parts[i]
    ensures c !in Join(sep, parts)
  {
    if |parts| > 1 {
      JoinAvoids(c, sep, parts[..|parts| - 1]);
    }
  }

  /** The rest of `s` after the literal `p`, if `s` starts with it. */
  function StripPrefix(s: string, p: string): (r: Option<string>)
    ensures r.Some? <==> (|p| <= |s| && s[..|p|] == p)
    ensures r.Some? ==> s == p + r.value
  {
    if |p| <= |s| && s[..|p|] == p then Some(s[|p|..]) else None
  }

  lemma StripPrefixOf(p: string, t: string)
    ensures StripPrefix(p + t, p) == Some(t)
  {
    assert (p + t)[..|p|] == p;
    assert (p + t)[|p|..] == t;
  }

  /** The text before the first `d` and the text after it, if `s` holds a `d`. */
  function SplitAt(s: string, d: char): (r: Option<(string, string)>)
    ensures r.Some? ==> s == r.value.0 + [d] + r.value.1 && d !in r.value.0
    ensures r.None? ==> d !in s
  {
    if s == [] then None
    else if s[0] == d then Some(([], s[1..]))
    else match SplitAt(s[1..], d)
      case None => None
      case Some(p) => Some(([s[0]] + p.0, p.1))
  }

  /** Splitting at `d` finds the first `d`, so it undoes `a + [d] + b`
      whenever `a` holds no `d`. */
  lemma {:induction false} SplitAtOf(a: string, d: char, b: string)
    requires d !in a
    ensures SplitAt(a + [d] + b, d) == Some((a, b))
  {
    if a == [] {
      assert a + [d] + b == [d] + b;
    } else {
      assert a[0] in a;
      assert forall x :: x in a[1..] ==> x in a;
      SplitAtOf(a[1..], d, b);
      assert (a + [d] + b)[1..] == a[1..] + [d] + b;
      assert [a[0]] + a[1..] == a;
    }
  }
}
