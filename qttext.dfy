/*
 * The QString operations the directive parser relies on: `trimmed`,
 * `indexOf`, `split` (with and without `SkipEmptyParts`) and the
 * case-insensitive comparison of `QString::compare`.
 */
module QtText {
  import Sequences

  /** `QChar::isSpace`: tab to carriage return, space, NEL, NBSP and the Unicode separators (Zs, Zl, Zp). */
  predicate IsSpace(c: char)
  {
    c == ' ' || ('\t' <= c <= '\r') || c == '\U{0085}' || c == '\U{00A0}' || c == '\U{1680}'
    || ('\U{2000}' <= c <= '\U{200A}') || c == '\U{2028}' || c == '\U{2029}'
    || c == '\U{202F}' || c == '\U{205F}' || c == '\U{3000}'
  }

  /** Drops the leading white space. */
  function TrimStart(s: string): string
  {
    if s != [] && IsSpace(s[0]) then TrimStart(s[1..]) else s
  }

  /** What is left after TrimStart is a suffix that does not start with a space, and all that was dropped is space. */
  lemma {:induction false} TrimStartSpec(s: string)
    ensures var r := TrimStart(s);
      && |r| <= |s| && r == s[|s| - |r|..]
      && (r == [] || !IsSpace(r[0]))
      && (forall i :: 0 <= i < |s| - |r| ==> IsSpace(s[i]))
  {
    if s != [] && IsSpace(s[0]) {
      var t := s[1..];
      TrimStartSpec(t);
      var r := TrimStart(t);
      assert TrimStart(s) == r;
      assert t[|t| - |r|..] == s[|s| - |r|..];
      forall i | 0 <= i < |s| - |r|
        ensures IsSpace(s[i])
      {
        if i > 0 {
          assert s[i] == t[i - 1];
        }
      }
    }
  }

  /** Drops the trailing white space. */
  function TrimEnd(s: string): string
  {
    if s != [] && IsSpace(s[|s| - 1]) then TrimEnd(s[..|s| - 1]) else s
  }

  /** What is left after TrimEnd is a prefix that does not end with a space, and all that was dropped is space. */
  lemma {:induction false} TrimEndSpec(s: string)
    ensures var r := TrimEnd(s);
      && |r| <= |s| && r == s[..|r|]
      && (r == [] || !IsSpace(r[|r| - 1]))
      && (forall i :: |r| <= i < |s| ==> IsSpace(s[i]))
  {
    if s != [] && IsSpace(s[|s| - 1]) {
      TrimEndSpec(s[..|s| - 1]);
    }
  }

  /** `QString::trimmed`. */
  function Trim(s: string): string
  {
    TrimEnd(TrimStart(s))
  }

  /** Trimming cuts the slice `s[i..j]` out of the text and removes only white space around it. */
  lemma TrimIsSlice(s: string) returns (i: nat, j: nat)
    ensures i <= j <= |s| && Trim(s) == s[i..j]
    ensures forall k :: 0 <= k < i ==> IsSpace(s[k])
    ensures forall k :: j <= k < |s| ==> IsSpace(s[k])
  {
    var t := TrimStart(s);
    TrimStartSpec(s);
    TrimEndSpec(t);
    var r := TrimEnd(t);
    i := |s| - |t|;
    j := i + |r|;
    assert t[..|r|] == s[i..j];
    forall k | j <= k < |s|
      ensures IsSpace(s[k])
    {
      assert s[k] == t[k - i];
    }
  }

  /** A trimmed text has no white space at either end. */
  lemma TrimEnds(s: string)
    ensures Trim(s) == [] || (!IsSpace(Trim(s)[0]) && !IsSpace(Trim(s)[|Trim(s)| - 1]))
  {
    var t := TrimStart(s);
    TrimStartSpec(s);
    TrimEndSpec(t);
    if TrimEnd(t) != [] {
      assert TrimEnd(t)[0] == t[0];
    }
  }

  /** A text with no space at either end is its own trim. */
  lemma TrimUnspaced(s: string)
    requires s == [] || (!IsSpace(s[0]) && !IsSpace(s[|s| - 1]))
    ensures Trim(s) == s
  {
  }

  /** Leading white space in front of a text that starts with something else is trimmed away. */
  lemma {:induction false} TrimStartAfterSpaces(lead: string, s: string)
    requires forall i :: 0 <= i < |lead| ==> IsSpace(lead[i])
    requires s == [] || !IsSpace(s[0])
    ensures TrimStart(lead + s) == s
  {
    if lead != [] {
      assert (lead + s)[1..] == lead[1..] + s;
      TrimStartAfterSpaces(lead[1..], s);
    } else {
      assert lead + s == s;
    }
  }

  /** A text with no space at either end, after some white space, trims to itself. */
  lemma TrimAfterSpaces(lead: string, s: string)
    requires forall i :: 0 <= i < |lead| ==> IsSpace(lead[i])
    requires s == [] || (!IsSpace(s[0]) && !IsSpace(s[|s| - 1]))
    ensures Trim(lead + s) == s
  {
    TrimStartAfterSpaces(lead, s);
    TrimUnspaced(s);
  }

  /** Trimming twice is trimming once. */
  lemma TrimIdempotent(s: string)
    ensures Trim(Trim(s)) == Trim(s)
  {
    TrimEnds(s);
    TrimUnspaced(Trim(s));
  }

  /** `QString::indexOf(c)`: the position of the first `c`, or -1 when there is none. */
  function IndexOf(s: string, c: char): (r: int)
    ensures -1 <= r < |s|
    ensures r == -1 <==> c !in s
    ensures r >= 0 ==> s[r] == c
  {
    if s == [] then -1
    else if s[0] == c then 0
    else
      var k := IndexOf(s[1..], c);
      if k == -1 then -1 else k + 1
  }

  /** No `c` comes before the position IndexOf finds. */
  lemma {:induction false} IndexOfFirst(s: string, c: char)
    ensures var r := IndexOf(s, c);
      r >= 0 ==> c !in s[..r]
  {
    if s != [] && s[0] != c {
      var k := IndexOf(s[1..], c);
      IndexOfFirst(s[1..], c);
      if k != -1 {
        assert s[..k + 1] == [s[0]] + s[1..][..k];
      }
    }
  }

  /** `QString::split(sep)`: the texts between separators, empty ones included; never an empty list. */
  function Split(s: string, sep: char): (r: seq<string>)
    ensures |r| > 0
    decreases |s|
  {
    var i := IndexOf(s, sep);
    if i == -1 then [s] else [s[..i]] + Split(s[i + 1..], sep)
  }

  /** No part of a split contains the separator. */
  lemma {:induction false} SplitSeparatorFree(s: string, sep: char)
    ensures forall p :: p in Split(s, sep) ==> sep !in p
    decreases |s|
  {
    var i := IndexOf(s, sep);
    if i != -1 {
      IndexOfFirst(s, sep);
      SplitSeparatorFree(s[i + 1..], sep);
    }
  }

  /** `QStringList::join(sep)`, the inverse of Split. */
  function Join(parts: seq<string>, sep: char): string
  {
    if parts == [] then ""
    else if |parts| == 1 then parts[0]
    else parts[0] + [sep] + Join(parts[1..], sep)
  }

  /** Joining a part in front of a non-empty list puts one separator between them. */
  lemma JoinCons(p: string, parts: seq<string>, sep: char)
    requires parts != []
    ensures Join([p] + parts, sep) == p + [sep] + Join(parts, sep)
  {
    assert ([p] + parts)[1..] == parts;
  }

  /** Joining the parts of a split gives the text back. */
  lemma {:induction false} JoinSplit(s: string, sep: char)
    ensures Join(Split(s, sep), sep) == s
    decreases |s|
  {
    var i := IndexOf(s, sep);
    if i == -1 {
      assert Split(s, sep) == [s];
      assert Join([s], sep) == s;
    } else {
      var head, rest := s[..i], s[i + 1..];
      var parts := Split(rest, sep);
      calc {
        Join(Split(s, sep), sep);
        Join([head] + parts, sep);
        { JoinCons(head, parts, sep); }
        head + [sep] + Join(parts, sep);
        { JoinSplit(rest, sep); }
        head + [sep] + rest;
        { Sequences.SplitAround(s, i); }
        s;
      }
    }
  }

  /** The first separator of a joined text sits right after the first part. */
  lemma FirstSeparator(p: string, sep: char, rest: string)
    requires sep !in p
    ensures IndexOf(p + [sep] + rest, sep) == |p|
  {
    var s := p + [sep] + rest;
    IndexOfFirst(s, sep);
    assert s[|p|] == sep;
    assert s[..|p|] == p;
  }

  /** Splitting at a first separator gives the part before it, then the split of the rest. */
  lemma SplitAtFirst(p: string, sep: char, rest: string)
    requires sep !in p
    ensures Split(p + [sep] + rest, sep) == [p] + Split(rest, sep)
  {
    var s := p + [sep] + rest;
    FirstSeparator(p, sep, rest);
    assert s[..|p|] == p;
    assert s[|p| + 1..] == rest;
  }

  /** Splitting separator-free parts after joining them gives the parts back. */
  lemma {:induction false} SplitJoin(parts: seq<string>, sep: char)
    requires |parts| > 0
    requires forall p :: p in parts ==> sep !in p
    ensures Split(Join(parts, sep), sep) == parts
  {
    if |parts| == 1 {
      assert IndexOf(parts[0], sep) == -1;
    } else {
      SplitAtFirst(parts[0], sep, Join(parts[1..], sep));
      SplitJoin(parts[1..], sep);
      assert parts == [parts[0]] + parts[1..];
    }
  }

  /** The non-empty parts, in order (`QString::SkipEmptyParts`). */
  function SkipEmpty(parts: seq<string>): (r: seq<string>)
    ensures |r| <= |parts|
  {
    if parts == [] then []
    else if parts[0] == [] then SkipEmpty(parts[1..])
    else [parts[0]] + SkipEmpty(parts[1..])
  }

  /** SkipEmpty keeps only parts of its input, and none of them empty. */
  lemma {:induction false} SkipEmptySpec(parts: seq<string>)
    ensures forall p :: p in SkipEmpty(parts) ==> p != [] && p in parts
  {
    if parts != [] {
      SkipEmptySpec(parts[1..]);
    }
  }

  /** SkipEmpty leaves a list without empty parts as it is. */
  lemma {:induction false} SkipEmptyOfNonEmpty(parts: seq<string>)
    requires forall i :: 0 <= i < |parts| ==> parts[i] != []
    ensures SkipEmpty(parts) == parts
  {
    if parts != [] {
      SkipEmptyOfNonEmpty(parts[1..]);
    }
  }

  /** Every non-empty part survives SkipEmpty. */
  lemma {:induction false} SkipEmptyKeeps(parts: seq<string>, p: string)
    requires p in parts && p != []
    ensures p in SkipEmpty(parts)
  {
    if parts[0] != p {
      SkipEmptyKeeps(parts[1..], p);
    }
  }

  /**
   * Simple Unicode case folding, as `QString::compare` with `Qt::CaseInsensitive`
   * applies it. The characters whose fold is an ASCII letter are exactly the ASCII
   * capitals, LATIN SMALL LETTER LONG S and KELVIN SIGN; every other character is
   * kept as it is, which cannot change a comparison with an ASCII keyword.
   */
  function FoldCase(c: char): (r: char)
    ensures 'a' <= r <= 'z' <==> ('a' <= c <= 'z' || 'A' <= c <= 'Z' || c == '\U{017F}' || c == '\U{212A}')
  {
    if 'A' <= c <= 'Z' then (c as int + 32) as char
    else if c == '\U{017F}' then 's'
    else if c == '\U{212A}' then 'k'
    else c
  }

  /** The text with every character folded. */
  function Folded(s: string): (r: string)
    ensures |r| == |s|
  {
    seq(|s|, i requires 0 <= i < |s| => FoldCase(s[i]))
  }

  /** `a.compare(b, Qt::CaseInsensitive) == 0`. */
  predicate EqualsIgnoringCase(a: string, b: string)
  {
    |a| == |b| && forall i :: 0 <= i < |a| ==> FoldCase(a[i]) == FoldCase(b[i])
  }

  /** Case-insensitive equality is equality of the folded texts. */
  lemma EqualsIgnoringCaseIsFoldedEquality(a: string, b: string)
    ensures EqualsIgnoringCase(a, b) <==> Folded(a) == Folded(b)
  {
    if Folded(a) == Folded(b) {
      forall i | 0 <= i < |a| ensures FoldCase(a[i]) == FoldCase(b[i]) {
        assert Folded(a)[i] == Folded(b)[i];
      }
    }
  }
}
