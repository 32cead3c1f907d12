/**
 String helpers with Python semantics: `sep.join(parts)`, the inverse split
 on a separator, and ASCII lower-casing.
 */
module Text {

  /** Sum of the lengths of `parts`. */
  function TotalLength(parts: seq<string>): nat
  {
    if |parts| == 0 then 0 else |parts[0]| + TotalLength(parts[1..])
  }

  /** Python's `sep.join(parts)`: the parts in order, `sep` between neighbours. */
  function Join(parts: seq<string>, sep: string): (r: string)
    ensures |parts| == 0 ==> r == ""
    ensures |parts| > 0 ==> |r| == TotalLength(parts) + (|parts| - 1) * |sep|
    ensures |parts| > 0 ==> r[..|parts[0]|] == parts[0]
    decreases |parts|
  {
    if |parts| == 0 then ""
    else if |parts| == 1 then parts[0]
    else parts[0] + sep + Join(parts[1..], sep)
  }

  /** Python's `"".join(parts)`. */
  function Concat(parts: seq<string>): (r: string)
    ensures |r| == TotalLength(parts)
    ensures |parts| > 0 ==> r[..|parts[0]|] == parts[0]
  {
    Join(parts, "")
  }

  /** Joining a concatenation of two non-empty lists puts one separator at the seam. */
  lemma {:induction false} JoinAppend(a: seq<string>, b: seq<string>, sep: string)
    requires |a| > 0 && |b| > 0
    ensures Join(a + b, sep) == Join(a, sep) + sep + Join(b, sep)
    decreases |a|
  {
    if |a| == 1 {
      assert a + b == [a[0]] + b;
    } else {
      JoinAppend(a[1..], b, sep);
      assert (a + b)[1..] == a[1..] + b;
    }
  }

  /** `"".join` distributes over concatenation, for any two lists. */
  lemma ConcatAppend(a: seq<string>, b: seq<string>)
    ensures Concat(a + b) == Concat(a) + Concat(b)
  {
    if |a| == 0 {
      assert a + b == b;
    } else if |b| == 0 {
      assert a + b == a;
    } else {
      JoinAppend(a, b, "");
    }
  }

  /** Joining a part in front of a non-empty list puts one separator after it. */
  lemma JoinCons(x: string, rest: seq<string>, sep: string)
    requires |rest| > 0
    ensures Join([x] + rest, sep) == x + sep + Join(rest, sep)
  {
    assert ([x] + rest)[1..] == rest;
  }

  /** `sep` is a prefix of `s`. */
  predicate StartsWith(s: string, sep: string)
  {
    |sep| <= |s| && s[..|sep|] == sep
  }

  /**
   Splits `s` at every leftmost non-overlapping occurrence of `sep`, the
   field being built so far held in `acc` (Python's `s.split(sep)` with a
   non-empty separator).
   */
  function SplitFrom(s: string, sep: string, acc: string): (r: seq<string>)
    requires |sep| > 0
    ensures |r| > 0
    ensures Join(r, sep) == acc + s
    decreases |s|
  {
    if StartsWith(s, sep) then
      var rest := SplitFrom(s[|sep|..], sep, "");
      JoinCons(acc, rest, sep);
      assert s == sep + s[|sep|..];
      [acc] + rest
    else if |s| == 0 then [acc]
    else
      assert s == [s[0]] + s[1..];
      SplitFrom(s[1..], sep, acc + [s[0]])
  }

  /** Python's `s.split(sep)`; joining the fields again gives `s` back. */
  function Split(s: string, sep: string): (r: seq<string>)
    requires |sep| > 0
    ensures |r| > 0
    ensures Join(r, sep) == s
  {
    SplitFrom(s, sep, "")
  }

  /**
   Position `m` of `sep` holds a character that occurs nowhere else in
   `sep` (the `|` of `" | "`, the only character of `"\n"`).
   */
  predicate IsMarker(sep: string, m: int)
  {
    && 0 <= m < |sep|
    && forall j :: 0 <= j < |sep| && j != m ==> sep[j] != sep[m]
  }

  /**
   No separator starts inside a non-empty field free of the marker
   character when the field is followed by nothing or by a separator.
   */
  lemma NoSeparatorInField(p: string, t: string, sep: string, m: int)
    requires IsMarker(sep, m)
    requires |p| > 0 && sep[m] !in p
    requires |t| == 0 || StartsWith(t, sep)
    ensures !StartsWith(p + t, sep)
  {
    var s := p + t;
    if |sep| <= |s| {
      if m < |p| {
        assert s[..|sep|][m] == p[m] != sep[m];
      } else {
        assert |t| > 0 && t[..|sep|] == sep;
        assert s[m] == t[m - |p|] == sep[m - |p|];
        assert s[..|sep|][m] != sep[m];
      }
    }
  }

  /** Scanning a field free of the marker character never stops inside it. */
  lemma {:induction false} SplitSkipsField(p: string, t: string, sep: string, m: int, acc: string)
    requires IsMarker(sep, m)
    requires sep[m] !in p
    requires |t| == 0 || StartsWith(t, sep)
    ensures SplitFrom(p + t, sep, acc) == SplitFrom(t, sep, acc + p)
    decreases |p|
  {
    if |p| == 0 {
      assert p + t == t;
      assert acc + p == acc;
    } else {
      var s := p + t;
      NoSeparatorInField(p, t, sep, m);
      assert s[0] == p[0];
      assert s[1..] == p[1..] + t;
      assert SplitFrom(s, sep, acc) == SplitFrom(s[1..], sep, acc + [s[0]]);
      assert sep[m] !in p[1..];
      SplitSkipsField(p[1..], t, sep, m, acc + [p[0]]);
      assert acc + [p[0]] + p[1..] == acc + p;
    }
  }

  /** A separator at the front of the text ends the field being built. */
  lemma SplitFromSeparator(rest: string, sep: string, acc: string)
    requires |sep| > 0
    ensures SplitFrom(sep + rest, sep, acc) == [acc] + SplitFrom(rest, sep, "")
  {
    var t := sep + rest;
    assert t[..|sep|] == sep;
    assert t[|sep|..] == rest;
  }

  /**
   Splitting a joined list recovers the list, provided no part contains the
   separator's marker character.
   */
  lemma {:induction false} SplitJoin(parts: seq<string>, sep: string, m: int)
    requires IsMarker(sep, m)
    requires |parts| > 0
    requires forall i :: 0 <= i < |parts| ==> sep[m] !in parts[i]
    ensures Split(Join(parts, sep), sep) == parts
    decreases |parts|
  {
    if |parts| == 1 {
      SplitSkipsField(parts[0], "", sep, m, "");
      assert parts[0] + "" == parts[0];
      assert "" + parts[0] == parts[0];
    } else {
      var tail := parts[1..];
      var rest := Join(tail, sep);
      var t := sep + rest;
      assert parts == [parts[0]] + tail;
      JoinCons(parts[0], tail, sep);
      assert StartsWith(t, sep) by { assert t[..|sep|] == sep; }
      SplitSkipsField(parts[0], t, sep, m, "");
      assert "" + parts[0] == parts[0];
      SplitFromSeparator(rest, sep, parts[0]);
      assert forall i :: 0 <= i < |tail| ==> tail[i] == parts[i + 1];
      SplitJoin(tail, sep, m);
    }
  }


  /** Python's `str.lower()` restricted to ASCII letters. */
  function LowerChar(c: char): char
  {
    if 'A' <= c <= 'Z' then (c as int - 'A' as int + 'a' as int) as char else c
  }

  function Lower(s: string): (r: string)
    ensures |r| == |s|
    ensures forall i :: 0 <= i < |s| ==> r[i] == LowerChar(s[i])
  {
    if |s| == 0 then "" else [LowerChar(s[0])] + Lower(s[1..])
  }
}
