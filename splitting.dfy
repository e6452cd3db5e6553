/**
  Splitting a house-number value into list entries on delimiter characters,
  and the per-entry regularization that follows (`sanitize`, `_regularize`).
 */
module Splitting {

  predicate NoDelimiter(s: string, delims: set<char>) {
    forall i :: 0 <= i < |s| ==> s[i] !in delims
  }

  /**
    The delimiter splitter: the pieces between delimiter characters, in order,
    empty pieces included: every single delimiter character cuts, so runs of
    delimiters leave empty pieces.
   */
  function SplitParts(s: string, delims: set<char>): (parts: seq<string>)
    ensures |parts| >= 1
    ensures forall i :: 0 <= i < |parts| ==> NoDelimiter(parts[i], delims)
  {
    if s == [] then [""]
    else
      var rest := SplitParts(s[1..], delims);
      if s[0] in delims then [""] + rest
      else [[s[0]] + rest[0]] + rest[1..]
  }

  /** The delimiter characters of `s`, in order. */
  function DelimitersOf(s: string, delims: set<char>): string {
    if s == [] then []
    else (if s[0] in delims then [s[0]] else []) + DelimitersOf(s[1..], delims)
  }

  /** `s` with its delimiter characters removed. */
  function WithoutDelimiters(s: string, delims: set<char>): string {
    if s == [] then []
    else (if s[0] in delims then [] else [s[0]]) + WithoutDelimiters(s[1..], delims)
  }

  /** The pieces put back together with the given separators between them. */
  function Interleave(parts: seq<string>, seps: string): string
    requires |parts| == |seps| + 1
    decreases |seps|
  {
    if seps == [] then parts[0] else parts[0] + [seps[0]] + Interleave(parts[1..], seps[1..])
  }

  function Concat(ss: seq<string>): string {
    if ss == [] then [] else ss[0] + Concat(ss[1..])
  }

  /**
    Splitting loses nothing: there is one piece more than there are delimiter
    characters, and putting those characters back between the pieces gives
    the original value.
   */
  lemma {:induction false} SplitRoundTrip(s: string, delims: set<char>)
    ensures |SplitParts(s, delims)| == |DelimitersOf(s, delims)| + 1
    ensures Interleave(SplitParts(s, delims), DelimitersOf(s, delims)) == s
  {
    if s != [] {
      SplitRoundTrip(s[1..], delims);
      var rest, seps := SplitParts(s[1..], delims), DelimitersOf(s[1..], delims);
      if s[0] in delims {
        assert s == [s[0]] + s[1..];
      } else if seps == [] {
        assert rest[0] == s[1..];
      } else {
        var parts := SplitParts(s, delims);
        assert parts[0] == [s[0]] + rest[0] && parts[1..] == rest[1..];
        assert DelimitersOf(s, delims) == seps;
        assert s == [s[0]] + s[1..];
        calc {
          Interleave(parts, seps);
          [s[0]] + rest[0] + [seps[0]] + Interleave(rest[1..], seps[1..]);
          [s[0]] + Interleave(rest, seps);
          s;
        }
      }
    }
  }

  /** The pieces together hold exactly the value's non-delimiter characters. */
  lemma {:induction false} SplitConcat(s: string, delims: set<char>)
    ensures Concat(SplitParts(s, delims)) == WithoutDelimiters(s, delims)
  {
    if s != [] {
      SplitConcat(s[1..], delims);
      var rest := SplitParts(s[1..], delims);
      if s[0] !in delims {
        var parts := SplitParts(s, delims);
        assert parts[1..] == rest[1..];
        assert Concat(parts) == [s[0]] + rest[0] + Concat(rest[1..]);
      }
    }
  }

  /** Splitting cuts at the first delimiter character and goes on after it. */
  lemma {:induction false} SplitAtDelimiter(a: string, c: char, t: string, delims: set<char>)
    requires NoDelimiter(a, delims) && c in delims
    ensures SplitParts(a + [c] + t, delims) == [a] + SplitParts(t, delims)
  {
    var s := a + [c] + t;
    if a == [] {
      assert s == [c] + t && s[1..] == t;
    } else {
      SplitAtDelimiter(a[1..], c, t, delims);
      assert s[0] == a[0] && s[1..] == a[1..] + [c] + t;
      assert [a[0]] + a[1..] == a;
    }
  }

  /** `_regularize`: yields the house number unchanged. */
  function Regularize(hnr: string): (r: seq<string>)
    ensures r == [hnr]
  {
    [hnr]
  }

  /** The generator body of `sanitize`: skip empty pieces, regularize the others. */
  function SanitizeParts(parts: seq<string>): (r: seq<string>)
    ensures |r| <= |parts|
    ensures forall i :: 0 <= i < |r| ==> r[i] != "" && r[i] in parts
  {
    if parts == [] then []
    else (if parts[0] != "" then Regularize(parts[0]) else []) + SanitizeParts(parts[1..])
  }

  /** Skipping empty pieces works piece by piece, so it distributes over concatenation. */
  lemma {:induction false} SanitizePartsAppend(a: seq<string>, b: seq<string>)
    ensures SanitizeParts(a + b) == SanitizeParts(a) + SanitizeParts(b)
  {
    if a != [] {
      SanitizePartsAppend(a[1..], b);
      assert (a + b)[0] == a[0] && (a + b)[1..] == a[1..] + b;
    } else {
      assert a + b == b;
    }
  }

  /** `sanitize(value)`: the non-empty list entries of a value, in order. */
  function Sanitize(value: string, delims: set<char>): (r: seq<string>)
    ensures forall i :: 0 <= i < |r| ==> r[i] != "" && NoDelimiter(r[i], delims)
  {
    SanitizeParts(SplitParts(value, delims))
  }

  /** Dropping the empty pieces does not change their concatenation. */
  lemma {:induction false} SanitizePartsConcat(parts: seq<string>)
    ensures Concat(SanitizeParts(parts)) == Concat(parts)
  {
    if parts != [] {
      SanitizePartsConcat(parts[1..]);
      var r := SanitizeParts(parts);
      if parts[0] != "" {
        assert r == [parts[0]] + SanitizeParts(parts[1..]);
        assert r[0] == parts[0] && r[1..] == SanitizeParts(parts[1..]);
      } else {
        assert r == SanitizeParts(parts[1..]);
      }
    }
  }

  /**
    Every entry is non-empty and free of delimiters, there are at most one
    more entries than delimiters, and together the entries spell the value
    without its delimiters.
   */
  lemma SanitizeEntries(value: string, delims: set<char>)
    ensures var r := Sanitize(value, delims);
      && (forall i :: 0 <= i < |r| ==> r[i] != "" && NoDelimiter(r[i], delims))
      && |r| <= |DelimitersOf(value, delims)| + 1
      && Concat(r) == WithoutDelimiters(value, delims)
  {
    SplitRoundTrip(value, delims);
    SplitConcat(value, delims);
    SanitizePartsConcat(SplitParts(value, delims));
  }

  /** The empty value has no entries. */
  lemma SanitizeEmpty(delims: set<char>)
    ensures Sanitize("", delims) == []
  {
    assert SplitParts("", delims) == [""];
  }

  /**
    Entries are read off left to right: the text before the first delimiter is
    the first entry unless it is empty, and the rest follows from what comes
    after that delimiter.
   */
  lemma SanitizeAtDelimiter(a: string, c: char, t: string, delims: set<char>)
    requires NoDelimiter(a, delims) && c in delims
    ensures Sanitize(a + [c] + t, delims) == (if a == "" then [] else [a]) + Sanitize(t, delims)
  {
    var rest := SplitParts(t, delims);
    SplitAtDelimiter(a, c, t, delims);
    assert ([a] + rest)[0] == a && ([a] + rest)[1..] == rest;
  }

  /** A non-empty value without delimiters is one entry, unchanged. */
  lemma {:induction false} SanitizeSingle(value: string, delims: set<char>)
    requires value != "" && NoDelimiter(value, delims)
    ensures Sanitize(value, delims) == [value]
  {
    SingleSplit(value, delims);
  }

  lemma {:induction false} SingleSplit(value: string, delims: set<char>)
    requires NoDelimiter(value, delims)
    ensures SplitParts(value, delims) == [value]
  {
    if value != [] {
      SingleSplit(value[1..], delims);
      assert value == [value[0]] + value[1..];
    }
  }
}
