/**
 * The few Python `str` operations the URL sanitiser uses, written out over
 * `seq<char>`: `startswith`, `replace` (all occurrences, or the first one),
 * `strip()` without arguments, and the notion "a keeps the characters of b
 * that survive, in order" (subsequence) that describes deleting steps.
 */
module PyStr {

  /** Python's `str.isspace()` for one character: the characters that
      `str.strip()` without arguments removes. */
  predicate IsSpace(c: char) {
    || ('\t' <= c <= '\r')                 // \t \n \v \f \r
    || ('\U{1C}' <= c <= '\U{1F}')         // file, group, record, unit separators
    || c == ' '
    || c == '\U{85}' || c == '\U{A0}' || c == '\U{1680}'
    || ('\U{2000}' <= c <= '\U{200A}')
    || c == '\U{2028}' || c == '\U{2029}' || c == '\U{202F}'
    || c == '\U{205F}' || c == '\U{3000}'
  }

  /** `s.startswith(p)` */
  predicate StartsWith(s: string, p: string) {
    |p| <= |s| && s[..|p|] == p
  }

  /** `p in s` for a non-empty pattern: `p` occurs somewhere in `s`. */
  predicate Occurs(p: string, s: string)
    decreases |s|
  {
    StartsWith(s, p) || (s != [] && Occurs(p, s[1..]))
  }

  /** `s.replace(p, r)`: every non-overlapping occurrence of `p`, scanning
      left to right, is replaced by `r`. An empty `p` inserts `r` before
      every character and at the end, as Python does. */
  function ReplaceAll(s: string, p: string, r: string): string
    decreases |s|
  {
    if p == [] then
      if s == [] then r else r + [s[0]] + ReplaceAll(s[1..], p, r)
    else if |s| < |p| then s
    else if s[..|p|] == p then r + ReplaceAll(s[|p|..], p, r)
    else [s[0]] + ReplaceAll(s[1..], p, r)
  }

  /** `s.replace(p, r, 1)`: only the leftmost occurrence of `p` is replaced. */
  function ReplaceFirst(s: string, p: string, r: string): string
    decreases |s|
  {
    if StartsWith(s, p) then r + s[|p|..]
    else if s == [] then s
    else [s[0]] + ReplaceFirst(s[1..], p, r)
  }

  /** `s.lstrip()`: the longest suffix of `s` that does not start with
      whitespace; everything cut off is whitespace. */
  function LStrip(s: string): (r: string)
    ensures |r| <= |s| && r == s[|s| - |r|..]
    ensures forall i :: 0 <= i < |s| - |r| ==> IsSpace(s[i])
    ensures r == [] || !IsSpace(r[0])
    decreases |s|
  {
    if s != [] && IsSpace(s[0]) then LStrip(s[1..]) else s
  }

  /** `s.rstrip()`: the longest prefix of `s` that does not end with
      whitespace; everything cut off is whitespace. */
  function RStrip(s: string): (r: string)
    ensures |r| <= |s| && r == s[..|r|]
    ensures forall i :: |r| <= i < |s| ==> IsSpace(s[i])
    ensures r == [] || !IsSpace(r[|r| - 1])
    decreases |s|
  {
    if s != [] && IsSpace(s[|s| - 1]) then RStrip(s[..|s| - 1]) else s
  }

  /** `s.strip()` */
  function Strip(s: string): string {
    RStrip(LStrip(s))
  }

  /** Neither end of `s` is whitespace. */
  predicate Trimmed(s: string) {
    s == [] || (!IsSpace(s[0]) && !IsSpace(s[|s| - 1]))
  }

  /** `a` is what remains of `b` after deleting some characters. */
  predicate IsSubseq(a: string, b: string)
    decreases |b|
  {
    if b == [] then a == []
    else IsSubseq(a, b[1..]) || (a != [] && a[0] == b[0] && IsSubseq(a[1..], b[1..]))
  }

  // ---------------------------------------------------------------------
  // Strip

  lemma StripTrims(s: string)
    ensures Trimmed(Strip(s))
    ensures IsSubseq(Strip(s), s)
  {
    var l := LStrip(s);
    var r := RStrip(l);
    if r != [] {
      assert r[0] == l[0];
    }
    SubseqRefl(l);
    SubseqPrefix(r, l);
    SubseqSuffix(l, s, |s| - |l|);
    SubseqTrans(r, l, s);
  }

  lemma StripKeepsTrimmed(s: string)
    requires Trimmed(s)
    ensures Strip(s) == s
  {
  }

  // ---------------------------------------------------------------------
  // ReplaceAll

  /** A pattern that does not occur is not replaced. */
  lemma {:induction false} ReplaceAllAbsent(s: string, p: string, r: string)
    requires p != [] && !Occurs(p, s)
    ensures ReplaceAll(s, p, r) == s
    decreases |s|
  {
    if |s| >= |p| {
      ReplaceAllAbsent(s[1..], p, r);
    }
  }

  /** A one-character pattern occurs exactly where that character does. */
  lemma {:induction false} OccursChar(s: string, c: char)
    ensures Occurs([c], s) <==> c in s
    decreases |s|
  {
    if s != [] {
      OccursChar(s[1..], c);
      assert s == [s[0]] + s[1..];
    }
  }

  /** Deleting every occurrence of a pattern only deletes characters. */
  lemma {:induction false} ReplaceAllDeletes(s: string, p: string)
    requires p != []
    ensures IsSubseq(ReplaceAll(s, p, []), s)
    decreases |s|
  {
    if |s| < |p| {
      SubseqRefl(s);
    } else if s[..|p|] == p {
      ReplaceAllDeletes(s[|p|..], p);
      assert [] + ReplaceAll(s[|p|..], p, []) == ReplaceAll(s[|p|..], p, []);
      SubseqSuffix(ReplaceAll(s[|p|..], p, []), s, |p|);
    } else {
      ReplaceAllDeletes(s[1..], p);
      var t := [s[0]] + ReplaceAll(s[1..], p, []);
      assert t[1..] == ReplaceAll(s[1..], p, []);
    }
  }

  /** Deleting every `c` leaves no `c`. */
  lemma {:induction false} ReplaceAllRemovesChar(s: string, c: char)
    ensures c !in ReplaceAll(s, [c], [])
    decreases |s|
  {
    if s != [] {
      ReplaceAllRemovesChar(s[1..], c);
      if s[0] == c {
        assert s[..1] == [c];
        assert ReplaceAll(s, [c], []) == ReplaceAll(s[1..], [c], []);
      } else {
        assert s[..1] != [c];
      }
    }
  }

  // ---------------------------------------------------------------------
  // ReplaceFirst

  /** When `s` starts with `p`, only that leading occurrence is replaced and
      the rest of `s` is kept as it is. */
  lemma ReplaceFirstAtStart(s: string, p: string, r: string)
    requires StartsWith(s, p)
    ensures ReplaceFirst(s, p, r) == r + s[|p|..]
  {
  }

  /** The leftmost-occurrence search rewrites nothing when the pattern
      does not occur. */
  lemma {:induction false} ReplaceFirstAbsent(s: string, p: string, r: string)
    requires p != [] && !Occurs(p, s)
    ensures ReplaceFirst(s, p, r) == s
    decreases |s|
  {
    if s != [] {
      ReplaceFirstAbsent(s[1..], p, r);
    }
  }

  // ---------------------------------------------------------------------
  // Subsequences

  lemma {:induction false} SubseqRefl(s: string)
    ensures IsSubseq(s, s)
    decreases |s|
  {
    if s != [] {
      SubseqRefl(s[1..]);
    }
  }

  lemma {:induction false} SubseqLength(a: string, b: string)
    requires IsSubseq(a, b)
    ensures |a| <= |b|
    decreases |b|
  {
    if b != [] {
      if IsSubseq(a, b[1..]) {
        SubseqLength(a, b[1..]);
      } else {
        SubseqLength(a[1..], b[1..]);
      }
    }
  }

  /** A character that survives a deletion was already there. */
  lemma {:induction false} SubseqMembers(a: string, b: string, c: char)
    requires IsSubseq(a, b) && c in a
    ensures c in b
    decreases |b|
  {
    if b != [] {
      if IsSubseq(a, b[1..]) {
        SubseqMembers(a, b[1..], c);
      } else if a[0] != c {
        assert c in a[1..];
        SubseqMembers(a[1..], b[1..], c);
      }
    }
  }

  lemma {:induction false} SubseqTrans(a: string, b: string, c: string)
    requires IsSubseq(a, b) && IsSubseq(b, c)
    ensures IsSubseq(a, c)
    decreases |c|
  {
    if c != [] {
      if IsSubseq(b, c[1..]) {
        SubseqTrans(a, b, c[1..]);
      } else if IsSubseq(a, b[1..]) {
        SubseqTrans(a, b[1..], c[1..]);
      } else {
        SubseqTrans(a[1..], b[1..], c[1..]);
      }
    }
  }

  /** Whatever is a subsequence of a suffix is a subsequence of the whole. */
  lemma {:induction false} SubseqSuffix(a: string, b: string, k: nat)
    requires k <= |b| && IsSubseq(a, b[k..])
    ensures IsSubseq(a, b)
    decreases k
  {
    if k > 0 {
      assert b[1..][k - 1..] == b[k..];
      SubseqSuffix(a, b[1..], k - 1);
    }
  }

  /** A prefix of a string is a subsequence of it. */
  lemma {:induction false} SubseqPrefix(a: string, b: string)
    requires |a| <= |b| && a == b[..|a|]
    ensures IsSubseq(a, b)
    decreases |b|
  {
    if b != [] {
      if a == [] {
        SubseqPrefix(a, b[1..]);
      } else {
        SubseqPrefix(a[1..], b[1..]);
      }
    }
  }
}
