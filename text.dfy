/** Python's `str.join` and `str.split` on Dafny strings, and the facts
    that let a rendered report be taken apart again line by line. */
module Text {

  /** `sep.join(parts)`: the parts in order, with `sep` between neighbours. */
  function Join(sep: string, parts: seq<string>): (r: string)
  {
    if |parts| == 0 then ""
    else if |parts| == 1 then parts[0]
    else parts[0] + sep + Join(sep, parts[1..])
  }

  /** `s.split(c)` for a one-character separator: the pieces between the
      occurrences of `c`; there is always at least one piece. */
  function Split(c: char, s: string): (r: seq<string>)
    ensures |r| >= 1
  {
    if |s| == 0 then [""]
    else
      var rest := Split(c, s[1..]);
      if s[0] == c then [""] + rest
      else [[s[0]] + rest[0]] + rest[1..]
  }

  /** A prefix without the separator sticks to the first piece. */
  lemma {:induction false} SplitPrefix(c: char, a: string, s: string)
    requires c !in a
    ensures Split(c, a + s) == [a + Split(c, s)[0]] + Split(c, s)[1..]
  {
    var pieces := Split(c, s);
    if |a| == 0 {
      assert a + s == s;
      assert a + pieces[0] == pieces[0];
      assert [pieces[0]] + pieces[1..] == pieces;
    } else {
      assert (a + s)[1..] == a[1..] + s;
      SplitPrefix(c, a[1..], s);
      assert [a[0]] + (a[1..] + Split(c, s)[0]) == a + Split(c, s)[0];
    }
  }

  /** Splitting undoes joining, as long as no part holds the separator. */
  lemma {:induction false} SplitJoin(c: char, parts: seq<string>)
    requires |parts| > 0
    requires forall i :: 0 <= i < |parts| ==> c !in parts[i]
    ensures Split(c, Join([c], parts)) == parts
  {
    if |parts| > 1 {
      var rest := Join([c], parts[1..]);
      SplitJoin(c, parts[1..]);
      assert ([c] + rest)[1..] == rest;
      assert Split(c, [c] + rest) == [""] + parts[1..];
      assert Join([c], parts) == parts[0] + ([c] + rest);
      SplitPrefix(c, parts[0], [c] + rest);
      assert parts[0] + "" == parts[0];
      assert [parts[0]] + parts[1..] == parts;
    } else {
      SplitPrefix(c, parts[0], "");
      assert parts[0] + "" == parts[0];
    }
  }

  /** A header without the separator in front of a join is glued to the
      first part. */
  lemma SplitJoinAfter(c: char, header: string, parts: seq<string>)
    requires |parts| > 0 && c !in header
    requires forall i :: 0 <= i < |parts| ==> c !in parts[i]
    ensures Split(c, header + Join([c], parts)) == [header + parts[0]] + parts[1..]
  {
    SplitJoin(c, parts);
    SplitPrefix(c, header, Join([c], parts));
  }

  /** The lines of `(c + c).join(parts)`: every part but the last is
      followed by an empty line. */
  function Spaced(parts: seq<string>): (r: seq<string>)
    ensures |parts| > 0 ==> |r| == 2 * |parts| - 1
  {
    if |parts| <= 1 then parts
    else [parts[0], ""] + Spaced(parts[1..])
  }

  /** Even lines of `Spaced(parts)` are the parts, odd lines are empty. */
  lemma {:induction false} SpacedAt(parts: seq<string>, k: nat)
    requires k < 2 * |parts| - 1
    ensures Spaced(parts)[k] == if k % 2 == 0 then parts[k / 2] else ""
  {
    if k >= 2 {
      SpacedAt(parts[1..], k - 2);
      assert Spaced(parts) == [parts[0], ""] + Spaced(parts[1..]);
    }
  }

  /** The last `n` characters of `a + b` are the last `n` of `b`. */
  lemma EndsWith(a: string, b: string, n: nat)
    requires n <= |b|
    ensures (a + b)[|a + b| - n..] == b[|b| - n..]
  {
    assert a + b == (a + b[..|b| - n]) + b[|b| - n..];
  }

  /** Joining a part in front of a non-empty list adds one separator. */
  lemma JoinCons(sep: string, x: string, xs: seq<string>)
    requires |xs| > 0
    ensures Join(sep, [x] + xs) == x + sep + Join(sep, xs)
  {
    assert ([x] + xs)[1..] == xs;
  }

  /** Joining with a doubled separator is joining the spaced-out lines. */
  lemma {:induction false} JoinDoubled(c: char, parts: seq<string>)
    ensures Join([c, c], parts) == Join([c], Spaced(parts))
  {
    if |parts| > 1 {
      var p := parts[0];
      var tail := Spaced(parts[1..]);
      var rest := Join([c], tail);
      JoinDoubled(c, parts[1..]);
      assert Join([c, c], parts) == p + [c, c] + rest;
      JoinCons([c], "", tail);
      JoinCons([c], p, [""] + tail);
      assert [p] + ([""] + tail) == Spaced(parts);
      assert Join([c], Spaced(parts)) == p + [c] + ("" + [c] + rest);
      assert p + [c] + ("" + [c] + rest) == p + [c, c] + rest;
    }
  }

  /** Splitting `(c + c).join(parts)` at `c` gives each part with an empty
      line between neighbours. */
  lemma SplitJoinDoubled(c: char, parts: seq<string>)
    requires |parts| > 0
    requires forall i :: 0 <= i < |parts| ==> c !in parts[i]
    ensures Split(c, Join([c, c], parts)) == Spaced(parts)
  {
    JoinDoubled(c, parts);
    var lines := Spaced(parts);
    forall k | 0 <= k < |lines| ensures c !in lines[k] {
      SpacedAt(parts, k);
    }
    SplitJoin(c, lines);
  }
}
