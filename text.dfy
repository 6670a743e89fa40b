/**
 * String helpers shared by the SQL text builders and the schema formatter:
 * Python's `sep.join(parts)` and, as its partner, a split on one character.
 */
module Text {

  /** Python's `sep.join(parts)`: the parts in order, with `sep` between neighbours. */
  function Join(sep: string, parts: seq<string>): string
    decreases |parts|
  {
    if |parts| == 0 then ""
    else if |parts| == 1 then parts[0]
    else parts[0] + sep + Join(sep, parts[1..])
  }

  /** A join of several parts is the first part, the separator and the join of the others. */
  lemma JoinCons(sep: string, parts: seq<string>)
    requires |parts| > 1
    ensures Join(sep, parts) == parts[0] + (sep + Join(sep, parts[1..]))
  {
  }

  /** Index of the first `c` in `s`, or `|s|` when `c` does not occur. */
  function IndexOf(s: string, c: char): (i: nat)
    ensures i <= |s|
    ensures i < |s| ==> s[i] == c
    ensures forall j :: 0 <= j < i ==> s[j] != c
    decreases |s|
  {
    if |s| == 0 then 0
    else if s[0] == c then 0
    else 1 + IndexOf(s[1..], c)
  }

  /** The pieces of `s` between occurrences of `c` (as Python's `s.split(c)`). */
  function Split(s: string, c: char): (parts: seq<string>)
    ensures |parts| >= 1
    decreases |s|
  {
    var i := IndexOf(s, c);
    if i == |s| then [s] else [s[..i]] + Split(s[i + 1..], c)
  }

  /** The first `c` after a `c`-free prefix is the one that ends that prefix. */
  lemma IndexOfAfter(x: string, c: char, y: string)
    requires c !in x
    ensures IndexOf(x + [c] + y, c) == |x|
  {
    var s := x + [c] + y;
    assert s[|x|] == c;
    assert forall j :: 0 <= j < |x| ==> s[j] == x[j];
  }

  /** `tail + p` for each part `p`, in order. */
  function Prefixed(tail: string, parts: seq<string>): (r: seq<string>)
    ensures |r| == |parts|
    ensures forall k :: 0 <= k < |parts| ==> r[k] == tail + parts[k]
    decreases |parts|
  {
    if |parts| == 0 then [] else [tail + parts[0]] + Prefixed(tail, parts[1..])
  }

  /**
   * Splitting a joined list on the first character of the separator gives the
   * parts back, each but the first prefixed by the rest of the separator, as
   * long as that character occurs in no part and not later in the separator.
   */
  lemma {:induction false} SplitJoin(c: char, tail: string, parts: seq<string>)
    requires |parts| >= 1
    requires c !in tail
    requires forall k :: 0 <= k < |parts| ==> c !in parts[k]
    ensures Split(Join([c] + tail, parts), c) == [parts[0]] + Prefixed(tail, parts[1..])
    decreases |parts|
  {
    if |parts| == 1 {
      SplitNotFound(parts[0], c);
    } else {
      var sep := [c] + tail;
      var rest := Join(sep, parts[1..]);
      assert Join(sep, parts) == parts[0] + [c] + (tail + rest);
      SplitAfterFirst(parts[0], c, tail + rest);
      SplitJoin(c, tail, parts[1..]);
      var later := Split(rest, c);
      assert later[0] == parts[1];
      assert later[1..] == Prefixed(tail, parts[2..]) by {
        assert parts[1..][1..] == parts[2..];
      }
      SplitPrefixed(tail, rest, c);
      assert Prefixed(tail, parts[1..]) == [tail + parts[1]] + Prefixed(tail, parts[2..]) by {
        assert parts[1..][1..] == parts[2..];
      }
    }
  }

  /** `Split` when `c` occurs: the piece before the first `c`, then the pieces after it. */
  lemma SplitFound(s: string, c: char)
    requires IndexOf(s, c) < |s|
    ensures Split(s, c) == [s[..IndexOf(s, c)]] + Split(s[IndexOf(s, c) + 1..], c)
  {
  }

  /** `Split` when `c` does not occur: the whole text. */
  lemma SplitNotFound(s: string, c: char)
    requires IndexOf(s, c) == |s|
    ensures Split(s, c) == [s]
  {
  }

  /** Splitting `x c y`, with no `c` in `x`, gives `x` followed by the pieces of `y`. */
  lemma SplitAfterFirst(x: string, c: char, y: string)
    requires c !in x
    ensures Split(x + [c] + y, c) == [x] + Split(y, c)
  {
    var s := x + [c] + y;
    IndexOfAfter(x, c, y);
    SplitFound(s, c);
    assert s[..|x|] == x;
    assert s[|x| + 1..] == y;
  }

  /** Text without `c` in front of a string only lengthens its first split piece. */
  lemma SplitPrefixed(t: string, rest: string, c: char)
    requires c !in t
    ensures Split(t + rest, c) == [t + Split(rest, c)[0]] + Split(rest, c)[1..]
  {
    IndexOfShift(t, rest, c);
    if IndexOf(rest, c) < |rest| {
      SplitPrefixedFound(t, rest, c);
    } else {
      SplitNotFound(t + rest, c);
      SplitNotFound(rest, c);
    }
  }

  /** `SplitPrefixed` when `rest` holds a `c`: the first cut moves right by `|t|`. */
  lemma SplitPrefixedFound(t: string, rest: string, c: char)
    requires IndexOf(rest, c) < |rest|
    requires IndexOf(t + rest, c) == |t| + IndexOf(rest, c)
    ensures Split(t + rest, c) == [t + Split(rest, c)[0]] + Split(rest, c)[1..]
  {
    var i := IndexOf(rest, c);
    var later := Split(rest[i + 1..], c);
    SplitFound(rest, c);
    assert Split(rest, c) == [rest[..i]] + later;
    SplitFound(t + rest, c);
    ConcatSlices(t, rest, i);
  }

  /** Cutting `t + rest` at `|t| + i` cuts `rest` at `i`. */
  lemma ConcatSlices(t: string, rest: string, i: nat)
    requires i < |rest|
    ensures (t + rest)[..|t| + i] == t + rest[..i]
    ensures (t + rest)[|t| + i + 1..] == rest[i + 1..]
  {
  }

  /** Prefixing `c`-free text shifts the first `c` by the prefix length. */
  lemma {:induction false} IndexOfShift(t: string, rest: string, c: char)
    requires c !in t
    ensures IndexOf(t + rest, c) == |t| + IndexOf(rest, c)
    decreases |t|
  {
    if |t| > 0 {
      assert t[0] in t;
      assert (t + rest)[0] == t[0];
      assert (t + rest)[1..] == t[1..] + rest;
      IndexOfShift(t[1..], rest, c);
      assert IndexOf(t + rest, c) == 1 + IndexOf(t[1..] + rest, c);
    } else {
      assert t + rest == rest;
    }
  }

  /** Prefixing nothing changes nothing. */
  lemma PrefixedEmpty(parts: seq<string>)
    ensures Prefixed([], parts) == parts
  {
    forall k | 0 <= k < |parts|
      ensures Prefixed([], parts)[k] == parts[k]
    {
      assert [] + parts[k] == parts[k];
    }
  }

  /** Splitting on a one-character separator undoes joining with it. */
  lemma SplitJoinChar(c: char, parts: seq<string>)
    requires |parts| >= 1
    requires forall k :: 0 <= k < |parts| ==> c !in parts[k]
    ensures Split(Join([c], parts), c) == parts
  {
    SplitJoin(c, [], parts);
    assert [c] + [] == [c];
    PrefixedEmpty(parts[1..]);
    assert parts == [parts[0]] + parts[1..];
  }

  /** A character found neither in the separator nor in any part is not in the joined text. */
  lemma {:induction false} JoinAvoids(c: char, sep: string, parts: seq<string>)
    requires c !in sep
    requires forall k :: 0 <= k < |parts| ==> c !in parts[k]
    ensures c !in Join(sep, parts)
    decreases |parts|
  {
    if |parts| > 1 {
      JoinAvoids(c, sep, parts[1..]);
    }
  }
}
