/** The string operations the parsers use, with Python's meaning: `str.split(c)`,
    `str.split(sep, 1)`, `str.rfind(c)` and `c.join(parts)`. */
module Strings {
  import opened Wrappers

  /** A byte string that Python 2 can decode as ASCII. Byte strings are modelled with one
      character per byte; mixing one with a unicode string (as `str.split(u' ')` and
      `u'%s' % s` do under `unicode_literals`) decodes it as ASCII first, and raises
      UnicodeDecodeError, a ValueError, on any byte above 127. */
  predicate IsAscii(s: string)
  {
    forall i :: 0 <= i < |s| ==> s[i] < 128 as char
  }

  /** `s` holds `sep` starting at position `i`. */
  predicate OccursAt(s: string, sep: string, i: nat)
  {
    i + |sep| <= |s| && s[i..i + |sep|] == sep
  }

  /** First position at or after `k` where `sep` occurs in `s`. */
  function FindFrom(s: string, sep: string, k: nat): (r: Option<nat>)
    requires |sep| > 0
    ensures r.Some? ==> k <= r.value && OccursAt(s, sep, r.value)
    ensures forall i :: k <= i < (if r.Some? then r.value else |s|) ==> !OccursAt(s, sep, i)
    decreases |s| - k
  {
    if k + |sep| > |s| then None
    else if s[k..k + |sep|] == sep then Some(k)
    else FindFrom(s, sep, k + 1)
  }

  /** First position of `sep` in `s` (`str.find`, with None for its -1). */
  function Find(s: string, sep: string): (r: Option<nat>)
    requires |sep| > 0
    ensures r.Some? ==> OccursAt(s, sep, r.value)
    ensures forall i :: 0 <= i < (if r.Some? then r.value else |s|) ==> !OccursAt(s, sep, i)
  {
    FindFrom(s, sep, 0)
  }

  /** `s.split(sep, 1)` unpacked into two names: the text before the first `sep` and everything
      after it, or None where Python raises `ValueError` because `sep` does not occur. */
  function Partition(s: string, sep: string): (r: Option<(string, string)>)
    requires |sep| > 0
    ensures r.Some? ==> s == r.value.0 + sep + r.value.1
    ensures r.Some? ==> forall i :: 0 <= i < |r.value.0| ==> !OccursAt(s, sep, i)
    ensures r.None? <==> forall i :: 0 <= i < |s| ==> !OccursAt(s, sep, i)
  {
    match Find(s, sep)
    case None => None
    case Some(i) =>
      assert s == s[..i] + sep + s[i + |sep|..];
      Some((s[..i], s[i + |sep|..]))
  }

  /** The split text is determined by where `sep` first occurs: any `a + sep + b` with no
      earlier `sep` in front partitions back into `a` and `b`. */
  lemma PartitionOf(a: string, sep: string, b: string)
    requires |sep| > 0
    requires forall i :: 0 <= i < |a| ==> !OccursAt(a + sep + b, sep, i)
    ensures Partition(a + sep + b, sep) == Some((a, b))
  {
    var s := a + sep + b;
    assert OccursAt(s, sep, |a|) by { assert s[|a|..|a| + |sep|] == sep; }
    var f := Find(s, sep);
    assert f == Some(|a|);
  }

  /** Splitting at a one-character separator that `a` does not hold gives back `a` and `b`. */
  lemma PartitionAtChar(a: string, c: char, b: string)
    requires c !in a
    ensures Partition(a + [c] + b, [c]) == Some((a, b))
  {
    forall i | 0 <= i < |a|
      ensures !OccursAt(a + [c] + b, [c], i)
    {
      assert (a + [c] + b)[i] == a[i];
      assert (a + [c] + b)[i..i + 1] == [a[i]];
    }
    PartitionOf(a, [c], b);
  }

  /** `c.join(parts)`. */
  function Join(parts: seq<string>, c: char): (s: string)
  {
    if |parts| == 0 then ""
    else if |parts| == 1 then parts[0]
    else parts[0] + [c] + Join(parts[1..], c)
  }

  /** `s.split(c)`: the pieces between the occurrences of `c`, scanned from the front. */
  function Split(s: string, c: char): (parts: seq<string>)
    ensures |parts| >= 1
  {
    if |s| == 0 then [""]
    else
      var rest := Split(s[1..], c);
      if s[0] == c then [""] + rest
      else [[s[0]] + rest[0]] + rest[1..]
  }

  /** Joining a piece in front of a non-empty list puts one separator between them. */
  lemma {:induction false} JoinCons(p: string, ps: seq<string>, c: char)
    requires |ps| >= 1
    ensures Join([p] + ps, c) == p + [c] + Join(ps, c)
  {
    assert ([p] + ps)[1..] == ps;
  }

  /** A character put in front of the first piece comes out in front of the joined text. */
  lemma {:induction false} JoinHead(x: char, ps: seq<string>, c: char)
    requires |ps| >= 1
    ensures Join([[x] + ps[0]] + ps[1..], c) == [x] + Join(ps, c)
  {
    if |ps| > 1 {
      JoinCons([x] + ps[0], ps[1..], c);
      JoinCons(ps[0], ps[1..], c);
      assert [ps[0]] + ps[1..] == ps;
    }
  }

  /** Joining the pieces back with the separator gives the original text. */
  lemma {:induction false} SplitJoin(s: string, c: char)
    ensures Join(Split(s, c), c) == s
  {
    if |s| > 0 {
      var rest := Split(s[1..], c);
      SplitJoin(s[1..], c);
      if s[0] == c {
        JoinCons("", rest, c);
      } else {
        JoinHead(s[0], rest, c);
      }
      assert s == [s[0]] + s[1..];
    }
  }

  /** No piece holds the separator. */
  lemma {:induction false} SplitPieces(s: string, c: char)
    ensures forall k :: 0 <= k < |Split(s, c)| ==> c !in Split(s, c)[k]
  {
    if |s| > 0 {
      SplitPieces(s[1..], c);
    }
  }

  /** Text without the separator is a single piece. */
  lemma {:induction false} SplitNone(s: string, c: char)
    requires c !in s
    ensures Split(s, c) == [s]
  {
    if |s| > 0 {
      SplitNone(s[1..], c);
      assert s == [s[0]] + s[1..];
    }
  }

  /** Text `a`, a separator, then `b`, where `a` holds no separator, splits into `a` and the
      pieces of `b`. */
  lemma {:induction false} SplitAt(a: string, b: string, c: char)
    requires c !in a
    ensures Split(a + [c] + b, c) == [a] + Split(b, c)
  {
    if |a| > 0 {
      SplitAt(a[1..], b, c);
      assert (a + [c] + b)[1..] == a[1..] + [c] + b;
      assert a == [a[0]] + a[1..];
    } else {
      assert a + [c] + b == [c] + b;
      assert ([c] + b)[1..] == b;
    }
  }

  /** `s.split(c)` has exactly two pieces when, and only when, `s` is a text without `c`, one
      `c`, and a text without `c`; the two pieces are those texts. */
  lemma SplitInTwo(s: string, c: char)
    ensures |Split(s, c)| == 2 ==>
      var parts := Split(s, c);
      s == parts[0] + [c] + parts[1] && c !in parts[0] && c !in parts[1]
    ensures forall a, b :: s == a + [c] + b && c !in a && c !in b ==> Split(s, c) == [a, b]
  {
    var parts := Split(s, c);
    SplitPieces(s, c);
    if |parts| == 2 {
      SplitJoin(s, c);
      assert Join(parts, c) == parts[0] + [c] + Join(parts[1..], c);
    }
    forall a, b | s == a + [c] + b && c !in a && c !in b
      ensures Split(s, c) == [a, b]
    {
      SplitAt(a, b, c);
      SplitNone(b, c);
    }
  }

  /** `s.rfind(c)`: the position of the last `c`, or -1. */
  function RFind(s: string, c: char): (r: int)
    ensures -1 <= r < |s|
    ensures r >= 0 ==> s[r] == c
    ensures forall j :: r < j < |s| ==> s[j] != c
  {
    if |s| == 0 then -1
    else if s[|s| - 1] == c then |s| - 1
    else RFind(s[..|s| - 1], c)
  }

  /** Only the last `c` has no `c` after it. */
  lemma RFindUnique(s: string, c: char, k: nat)
    requires k < |s| && s[k] == c
    requires forall j :: k < j < |s| ==> s[j] != c
    ensures RFind(s, c) == k
  {
  }

  /** `c.join(s.split(c)[:-1])`: `s` without its last `c`-separated component. */
  function DropLast(s: string, c: char): (r: string)
  {
    var parts := Split(s, c);
    Join(parts[..|parts| - 1], c)
  }

  /** When the rest of `s` still holds a separator, the first character survives dropping the
      last component. */
  lemma {:induction false} DropLastHead(s: string, c: char)
    requires |s| > 0 && c in s[1..]
    ensures DropLast(s, c) == [s[0]] + DropLast(s[1..], c)
  {
    var rest := Split(s[1..], c);
    assert |rest| >= 2 by {
      SplitJoin(s[1..], c);
      if |rest| == 1 { SplitPieces(s[1..], c); }
    }
    var q := rest[..|rest| - 1];
    if s[0] == c {
      assert Split(s, c)[..|Split(s, c)| - 1] == [""] + q;
      JoinCons("", q, c);
    } else {
      assert Split(s, c)[..|Split(s, c)| - 1] == [[s[0]] + q[0]] + q[1..];
      JoinHead(s[0], q, c);
    }
  }

  /** Dropping the last component leaves the text before the last separator, or nothing when
      there is no separator. */
  lemma {:induction false} DropLastComponent(s: string, c: char)
    ensures DropLast(s, c) == if c in s then s[..RFind(s, c)] else ""
  {
    if |s| > 0 {
      var t := s[1..];
      DropLastComponent(t, c);
      if c in t {
        DropLastHead(s, c);
        var k := RFind(t, c);
        RFindUnique(s, c, k + 1);
        assert s[..k + 1] == [s[0]] + t[..k];
      } else {
        SplitNone(t, c);
        if s[0] == c {
          RFindUnique(s, c, 0);
        }
      }
    }
  }
}
