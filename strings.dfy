/** Python string operations the core relies on: `split`, `join`, `strip` and `<=` on `str`. */
module Strings {

  /** Python's `s.split(sep)` for a one-character separator: there is always at least one piece,
      and no piece contains the separator. */
  function Split(s: string, sep: char): (pieces: seq<string>)
    ensures |pieces| >= 1
    ensures forall p | p in pieces :: sep !in p
  {
    if s == [] then [[]]
    else
      var rest := Split(s[1..], sep);
      if s[0] == sep then [[]] + rest
      else [[s[0]] + rest[0]] + rest[1..]
  }

  /** Python's `sep.join(parts)` for a one-character separator: the pieces' characters plus
      one separator between each pair. */
  function Join(parts: seq<string>, sep: char): (r: string)
    ensures parts == [] ==> r == []
    ensures parts != [] ==> |r| == TotalLength(parts) + |parts| - 1
  {
    if parts == [] then []
    else if |parts| == 1 then parts[0]
    else parts[0] + [sep] + Join(parts[1..], sep)
  }

  /** Python's `filter(None, parts)`: the non-empty pieces, in order. */
  function NonEmpty(parts: seq<string>): (r: seq<string>)
    ensures |r| <= |parts|
    ensures forall p | p in r :: p != [] && p in parts
  {
    if parts == [] then []
    else if parts[0] == [] then NonEmpty(parts[1..])
    else [parts[0]] + NonEmpty(parts[1..])
  }

  /** Sum of the lengths of the pieces. */
  function TotalLength(parts: seq<string>): nat
  {
    if parts == [] then 0 else |parts[0]| + TotalLength(parts[1..])
  }

  /** No leading or trailing separator and no two adjacent separators. */
  predicate NoStraySep(s: string, sep: char)
  {
    && (s != [] ==> s[0] != sep && s[|s| - 1] != sep)
    && forall i | 0 <= i < |s| - 1 :: !(s[i] == sep && s[i + 1] == sep)
  }

  /** Joining the pieces of a split gives back the string. */
  lemma {:induction false} JoinSplit(s: string, sep: char)
    ensures Join(Split(s, sep), sep) == s
  {
    if s != [] {
      var rest := Split(s[1..], sep);
      JoinSplit(s[1..], sep);
      if s[0] != sep && |rest| > 1 {
        assert Split(s, sep) == [[s[0]] + rest[0]] + rest[1..];
        assert Join(rest, sep) == rest[0] + [sep] + Join(rest[1..], sep);
      }
    }
  }

  /** A string without the separator splits into itself alone. */
  lemma {:induction false} SplitWithoutSep(s: string, sep: char)
    requires sep !in s
    ensures Split(s, sep) == [s]
  {
    if s != [] {
      assert s == [s[0]] + s[1..];
      SplitWithoutSep(s[1..], sep);
    }
  }

  /** Splitting `x + sep + y` where `x` has no separator: `x` is the first piece. */
  lemma {:induction false} SplitAtSep(x: string, y: string, sep: char)
    requires sep !in x
    ensures Split(x + [sep] + y, sep) == [x] + Split(y, sep)
  {
    var s := x + [sep] + y;
    if x == [] {
      assert s[1..] == y;
    } else {
      assert x == [x[0]] + x[1..];
      assert s[1..] == x[1..] + [sep] + y;
      SplitAtSep(x[1..], y, sep);
    }
  }

  /** Splitting a join gives back the pieces, provided no piece holds the separator. */
  lemma {:induction false} SplitJoin(parts: seq<string>, sep: char)
    requires |parts| >= 1
    requires forall p | p in parts :: sep !in p
    ensures Split(Join(parts, sep), sep) == parts
  {
    if |parts| == 1 {
      SplitWithoutSep(parts[0], sep);
    } else {
      SplitJoin(parts[1..], sep);
      SplitAtSep(parts[0], Join(parts[1..], sep), sep);
    }
  }

  /** Dropping empty pieces keeps the total length and never adds pieces. */
  lemma {:induction false} NonEmptyLength(parts: seq<string>)
    ensures TotalLength(NonEmpty(parts)) == TotalLength(parts)
  {
    if parts != [] {
      NonEmptyLength(parts[1..]);
    }
  }

  /** A piece list without empty pieces is left alone by `NonEmpty`. */
  lemma {:induction false} NonEmptyIdentity(parts: seq<string>)
    requires forall p | p in parts :: p != []
    ensures NonEmpty(parts) == parts
  {
    if parts != [] {
      assert parts[0] in parts;
      assert forall p | p in parts[1..] :: p in parts;
      NonEmptyIdentity(parts[1..]);
    }
  }

  /** Every character of a join is the separator or a character of one of the pieces. */
  lemma {:induction false} JoinChars(parts: seq<string>, sep: char, c: char)
    requires c in Join(parts, sep)
    ensures c == sep || exists p | p in parts :: c in p
  {
    if |parts| > 1 {
      var j := Join(parts[1..], sep);
      assert Join(parts, sep) == parts[0] + [sep] + j;
      if c !in parts[0] && c != sep {
        JoinChars(parts[1..], sep, c);
        var p :| p in parts[1..] && c in p;
        assert p in parts;
      }
    }
  }

  /** Every character of a piece of `Split(s, sep)` occurs in `s`. */
  lemma {:induction false} SplitChars(s: string, sep: char, p: string, c: char)
    requires p in Split(s, sep) && c in p
    ensures c in s
  {
    if s != [] {
      var rest := Split(s[1..], sep);
      if s[0] == sep {
        assert p in rest;
        SplitChars(s[1..], sep, p, c);
      } else if p == [s[0]] + rest[0] {
        if c != s[0] {
          SplitChars(s[1..], sep, rest[0], c);
        }
      } else {
        assert p in rest;
        SplitChars(s[1..], sep, p, c);
      }
    }
  }

  /** Joining non-empty pieces without separators leaves no stray separator. */
  lemma {:induction false} JoinNoStraySep(parts: seq<string>, sep: char)
    requires forall p | p in parts :: p != [] && sep !in p
    ensures NoStraySep(Join(parts, sep), sep)
    ensures Join(parts, sep) == [] <==> parts == []
  {
    if |parts| == 1 {
      assert parts[0] in parts;
    } else if |parts| > 1 {
      var a, j := parts[0], Join(parts[1..], sep);
      assert a in parts;
      assert forall p | p in parts[1..] :: p in parts;
      JoinNoStraySep(parts[1..], sep);
      var s := a + [sep] + j;
      assert s == Join(parts, sep);
      forall i | 0 <= i < |s| - 1
        ensures !(s[i] == sep && s[i + 1] == sep)
      {
        if i < |a| {
          assert s[i] == a[i];
        } else if i == |a| {
          assert s[i + 1] == j[0];
        } else {
          assert s[i] == j[i - |a| - 1] && s[i + 1] == j[i - |a|];
        }
      }
      assert s[0] == a[0];
      assert s[|s| - 1] == j[|j| - 1];
    }
  }

  /** A suffix of a string without stray separators that does not start with one has none either. */
  lemma NoStraySepSuffix(s: string, sep: char, k: nat)
    requires NoStraySep(s, sep) && k < |s| && s[k] != sep
    ensures NoStraySep(s[k..], sep)
  {
    var t := s[k..];
    forall i | 0 <= i < |t| - 1
      ensures !(t[i] == sep && t[i + 1] == sep)
    {
      assert t[i] == s[k + i] && t[i + 1] == s[k + i + 1];
    }
  }

  /** A non-empty string without stray separators splits into non-empty pieces only. */
  lemma {:induction false} SplitPiecesNonEmpty(s: string, sep: char)
    requires s != [] && NoStraySep(s, sep)
    ensures forall p | p in Split(s, sep) :: p != []
  {
    var tail := s[1..];
    var rest := Split(tail, sep);
    assert Split(s, sep) == [[s[0]] + rest[0]] + rest[1..];
    if tail == [] {
    } else if tail[0] == sep {
      assert s[1] == sep;
      assert |s| >= 3 by { assert s[|s| - 1] != sep; }
      assert s[2] != sep;
      NoStraySepSuffix(s, sep, 2);
      assert tail[1..] == s[2..];
      SplitPiecesNonEmpty(s[2..], sep);
      assert rest == [[]] + Split(s[2..], sep);
    } else {
      NoStraySepSuffix(s, sep, 1);
      SplitPiecesNonEmpty(tail, sep);
      assert forall p | p in rest[1..] :: p in rest;
    }
  }

  // ---------------------------------------------------------------------------------------
  // Whitespace and `str.strip()`

  /** The 29 characters for which Python's `str.isspace()` holds, one by one. */
  const Whitespace: string :=
    "\t\n\U{000B}\U{000C}\r\U{001C}\U{001D}\U{001E}\U{001F} \U{0085}\U{00A0}\U{1680}"
    + "\U{2000}\U{2001}\U{2002}\U{2003}\U{2004}\U{2005}\U{2006}\U{2007}\U{2008}\U{2009}\U{200A}"
    + "\U{2028}\U{2029}\U{202F}\U{205F}\U{3000}"

  /** Python's `str.isspace()` on one character: the ASCII controls 0x09 to 0x0D and 0x1C
      to 0x1F, the space, and the Unicode spaces and line separators. */
  predicate IsSpace(c: char)
  {
    || '\U{0009}' <= c <= '\U{000D}' || '\U{001C}' <= c <= '\U{0020}'
    || c == '\U{0085}' || c == '\U{00A0}' || c == '\U{1680}'
    || '\U{2000}' <= c <= '\U{200A}' || c == '\U{2028}' || c == '\U{2029}'
    || c == '\U{202F}' || c == '\U{205F}' || c == '\U{3000}'
  }

  /** The ranges of `IsSpace` hold exactly the listed whitespace characters. */
  lemma IsSpaceTable(c: char)
    ensures IsSpace(c) <==> c in Whitespace
  {
  }

  function LStrip(s: string): (r: string)
    ensures |r| <= |s|
    ensures r != [] ==> !IsSpace(r[0])
  {
    if s != [] && IsSpace(s[0]) then LStrip(s[1..]) else s
  }

  function RStrip(s: string): (r: string)
    ensures |r| <= |s|
    ensures r != [] ==> !IsSpace(r[|r| - 1])
  {
    if s != [] && IsSpace(s[|s| - 1]) then RStrip(s[..|s| - 1]) else s
  }

  /** Python's `s.strip()`: leading and trailing whitespace removed, so that what is left
      starts and ends with a character that is not whitespace. */
  function Strip(s: string): (r: string)
    ensures |r| <= |s|
    ensures r != [] ==> !IsSpace(r[0]) && !IsSpace(r[|r| - 1])
  {
    var l := LStrip(s);
    RStripPrefix(l);
    RStrip(l)
  }

  /** The result of `strip` is a contiguous part of the input, starting where the leading
      whitespace ends. */
  lemma StripSlice(s: string)
    ensures var r, i := Strip(s), |s| - |LStrip(s)|; i + |r| <= |s| && s[i..i + |r|] == r
  {
    var l := LStrip(s);
    LStripSuffix(s);
    RStripPrefix(l);
    PrefixOfSuffix(s, l, RStrip(l));
  }

  lemma {:induction false} LStripSuffix(s: string)
    ensures LStrip(s) == s[|s| - |LStrip(s)|..]
  {
    if s != [] && IsSpace(s[0]) {
      LStripSuffix(s[1..]);
    }
  }

  lemma {:induction false} RStripPrefix(s: string)
    ensures RStrip(s) == s[..|RStrip(s)|]
  {
    if s != [] && IsSpace(s[|s| - 1]) {
      RStripPrefix(s[..|s| - 1]);
    }
  }

  /** A prefix `r` of a suffix `l` of `s` is the slice of `s` from `l`'s start. */
  lemma PrefixOfSuffix<T>(s: seq<T>, l: seq<T>, r: seq<T>)
    requires |l| <= |s| && l == s[|s| - |l|..] && |r| <= |l| && r == l[..|r|]
    ensures var i := |s| - |l|; i + |r| <= |s| && s[i..i + |r|] == r
  {
  }

  /** Everything `strip` cuts off on either side is whitespace. */
  lemma StripCutsSpace(s: string)
    ensures var r, i := Strip(s), |s| - |LStrip(s)|;
      && (forall k | 0 <= k < i :: IsSpace(s[k]))
      && (forall k | i + |r| <= k < |s| :: IsSpace(s[k]))
  {
    var l := LStrip(s);
    LStripCut(s);
    RStripCut(l);
    LStripSuffix(s);
    SpacesAfter(s, l, RStrip(l));
  }

  /** Whitespace after a prefix `r` of a suffix `l` of `s` is whitespace after `r` in `s`. */
  lemma SpacesAfter(s: string, l: string, r: string)
    requires |l| <= |s| && l == s[|s| - |l|..] && |r| <= |l|
    requires forall k | |r| <= k < |l| :: IsSpace(l[k])
    ensures forall k | |s| - |l| + |r| <= k < |s| :: IsSpace(s[k])
  {
    var i := |s| - |l|;
    forall k | i + |r| <= k < |s| ensures IsSpace(s[k]) {
      assert s[k] == l[k - i];
    }
  }

  lemma {:induction false} LStripCut(s: string)
    ensures forall k | 0 <= k < |s| - |LStrip(s)| :: IsSpace(s[k])
  {
    if s != [] && IsSpace(s[0]) {
      LStripCut(s[1..]);
      forall k | 1 <= k < |s| - |LStrip(s)| ensures IsSpace(s[k]) {
        assert s[k] == s[1..][k - 1];
      }
    }
  }

  lemma {:induction false} RStripCut(s: string)
    ensures forall k | |RStrip(s)| <= k < |s| :: IsSpace(s[k])
  {
    if s != [] && IsSpace(s[|s| - 1]) {
      RStripCut(s[..|s| - 1]);
    }
  }

  /** Stripping twice is the same as stripping once. */
  lemma StripIdempotent(s: string)
    ensures Strip(Strip(s)) == Strip(s)
  {
  }

  // ---------------------------------------------------------------------------------------
  // Python's `<=` on `str`: lexicographic order of code points

  /** Python's `a <= b` on `str`: the first differing code point decides, and a prefix comes
      first. */
  predicate LexLe(a: string, b: string)
    ensures a <= b ==> LexLe(a, b)
  {
    if a == [] then true
    else if b == [] then false
    else if a[0] != b[0] then a[0] < b[0]
    else LexLe(a[1..], b[1..])
  }

  lemma {:induction false} LexLeTotal(a: string, b: string)
    ensures LexLe(a, b) || LexLe(b, a)
  {
    if a != [] && b != [] && a[0] == b[0] {
      LexLeTotal(a[1..], b[1..]);
    }
  }

  /** Two strings each at most the other are equal. */
  lemma {:induction false} LexLeAntisymmetric(a: string, b: string)
    requires LexLe(a, b) && LexLe(b, a)
    ensures a == b
  {
    if a != [] && b != [] {
      LexLeAntisymmetric(a[1..], b[1..]);
      assert a == [a[0]] + a[1..] && b == [b[0]] + b[1..];
    }
  }

  lemma {:induction false} LexLeTransitive(a: string, b: string, c: string)
    requires LexLe(a, b) && LexLe(b, c)
    ensures LexLe(a, c)
  {
    if a != [] && b != [] && c != [] && a[0] == b[0] && b[0] == c[0] {
      LexLeTransitive(a[1..], b[1..], c[1..]);
    }
  }
}
