/** Character-level string operations of Python that the repository relies on:
    `str.isspace`, `str.strip()`, `sep.join(parts)` and `re.split(pat, s)[0]`
    for a pattern without regular-expression metacharacters. */
module Text {
  import opened Seqs

  /** The ASCII characters for which Python's `str.isspace` holds: `string.whitespace`
      and the four information separators U+001C to U+001F. */
  const AsciiSpaces: string := " \t\n\r\U{0B}\U{0C}\U{1C}\U{1D}\U{1E}\U{1F}"

  /** Python's `str.isspace` on one character: the characters of Unicode
      bidirectional class WS, B or S, or general category Zs. */
  predicate IsSpace(c: char)
  {
    || ('\t' <= c <= '\r')
    || ('\U{1C}' <= c <= ' ')
    || c == '\U{85}'
    || c == '\U{A0}'
    || c == '\U{1680}'
    || ('\U{2000}' <= c <= '\U{200A}')
    || c == '\U{2028}'
    || c == '\U{2029}'
    || c == '\U{202F}'
    || c == '\U{205F}'
    || c == '\U{3000}'
  }

  /** On ASCII, `IsSpace` is exactly `AsciiSpaces`; the zero-width space, the
      byte-order mark and the Mongolian vowel separator are not whitespace. */
  lemma IsSpaceReference(c: char)
    ensures c < '\U{80}' ==> (IsSpace(c) <==> c in AsciiSpaces)
    ensures IsSpace(c) ==> c != '\U{200B}' && c != '\U{FEFF}' && c != '\U{180E}'
  {
  }

  predicate AllSpace(s: string)
  {
    forall i :: 0 <= i < |s| ==> IsSpace(s[i])
  }

  /** Neither the first nor the last character is whitespace. */
  predicate NoEdgeSpace(s: string)
  {
    s == [] || (!IsSpace(s[0]) && !IsSpace(s[|s| - 1]))
  }

  /** `s` is `x` with the whitespace-only run `s[..lead]` before it and a
      whitespace-only run after it. */
  predicate PaddedBy(s: string, lead: nat, x: string)
  {
    && lead + |x| <= |s|
    && s[lead..lead + |x|] == x
    && AllSpace(s[..lead])
    && AllSpace(s[lead + |x|..])
  }

  /** `s` without its leading whitespace (Python's `str.lstrip()`). */
  function TrimStart(s: string): (r: string)
    ensures |r| <= |s| && r == s[|s| - |r|..]
    ensures AllSpace(s[..|s| - |r|])
    ensures r == [] || !IsSpace(r[0])
  {
    s[SpaceRunEnd(s, 0)..]
  }

  /** Where the whitespace run of `s` that starts at index `i` ends. */
  function SpaceRunEnd(s: string, i: nat): (n: nat)
    requires i <= |s|
    ensures i <= n <= |s|
    ensures forall j :: i <= j < n ==> IsSpace(s[j])
    ensures n == |s| || !IsSpace(s[n])
    decreases |s| - i
  {
    if i < |s| && IsSpace(s[i]) then SpaceRunEnd(s, i + 1) else i
  }

  /** `s` without its trailing whitespace (Python's `str.rstrip()`). */
  function TrimEnd(s: string): (r: string)
    ensures |r| <= |s| && r == s[..|r|]
    ensures AllSpace(s[|r|..])
    ensures r == [] || !IsSpace(r[|r| - 1])
  {
    s[..SpaceRunStart(s, |s|)]
  }

  /** Where the whitespace run of `s` that ends just before index `j` starts. */
  function SpaceRunStart(s: string, j: nat): (n: nat)
    requires j <= |s|
    ensures n <= j
    ensures forall k :: n <= k < j ==> IsSpace(s[k])
    ensures n == 0 || !IsSpace(s[n - 1])
  {
    if 0 < j && IsSpace(s[j - 1]) then SpaceRunStart(s, j - 1) else j
  }

  /** Python's `str.strip()` with no argument. */
  function Strip(s: string): (r: string)
    ensures NoEdgeSpace(r)
  {
    var t := TrimStart(s);
    var r := TrimEnd(t);
    // the first character kept is the first one of `t`
    assert r != [] ==> r[0] == t[0];
    r
  }

  /** What `Strip` removes is whitespace only, from the two ends: the result is
      `s` with a whitespace run cut from its front and another from its back. */
  lemma StripIsPadded(s: string) returns (lead: nat)
    ensures PaddedBy(s, lead, Strip(s))
  {
    var t := TrimStart(s);
    var r := TrimEnd(t);
    lead := |s| - |t|;
    assert s[lead..][..|r|] == s[lead..lead + |r|];
    assert s[lead + |r|..] == t[|r|..];
  }

  /** That characterisation determines the result: whatever is padded by
      whitespace and has no whitespace at its ends is what `Strip` returns. */
  lemma StripOfPadded(s: string, lead: nat, x: string)
    requires PaddedBy(s, lead, x) && NoEdgeSpace(x)
    ensures Strip(s) == x
  {
    var t := TrimStart(s);
    var p := |s| - |t|;
    if x == [] {
      assert AllSpace(s) by {
        forall i | 0 <= i < |s| ensures IsSpace(s[i]) {
          if i < lead {
            assert s[i] == s[..lead][i];
          } else {
            assert s[i] == s[lead..][i - lead];
          }
        }
      }
      assert t == [];
    } else {
      // the leading run TrimStart removes is exactly s[..lead]
      assert p == lead;
      assert t == x + s[lead + |x|..];
      TrimEndOfPadded(t, x);
    }
  }

  /** In particular, whitespace put around a text with no whitespace at its ends
      is exactly what `Strip` removes again. */
  lemma StripOfSurrounded(before: string, x: string, after: string)
    requires AllSpace(before) && AllSpace(after) && NoEdgeSpace(x)
    ensures Strip(before + x + after) == x
  {
    var s := before + x + after;
    assert s[..|before|] == before;
    assert s[|before|..|before| + |x|] == x;
    assert s[|before| + |x|..] == after;
    StripOfPadded(s, |before|, x);
  }

  /** `TrimEnd` cuts exactly the trailing whitespace run: from `x` followed by
      whitespace only, with `x` not ending in whitespace, it gives back `x`. */
  lemma TrimEndOfPadded(t: string, x: string)
    requires x <= t && AllSpace(t[|x|..])
    requires x == [] || !IsSpace(x[|x| - 1])
    ensures TrimEnd(t) == x
  {
  }

  /** `Strip(s)` is empty exactly when `s` is whitespace only (the blank test
      `s.strip() == ""`). */
  lemma StripEmptyIff(s: string)
    ensures Strip(s) == [] <==> AllSpace(s)
  {
    if AllSpace(s) {
      assert PaddedBy(s, 0, []) by {
        assert s[..0] == [] && s[0..] == s;
      }
      StripOfPadded(s, 0, []);
    }
    if Strip(s) == [] {
      var lead := StripIsPadded(s);
      forall i | 0 <= i < |s| ensures IsSpace(s[i]) {
        if i < lead {
          assert s[i] == s[..lead][i];
        } else {
          assert s[i] == s[lead..][i - lead];
        }
      }
    }
  }

  /** Stripping twice is stripping once. */
  lemma StripIdempotent(s: string)
    ensures Strip(Strip(s)) == Strip(s)
  {
    var r := Strip(s);
    assert PaddedBy(r, 0, r) by {
      assert r[0..|r|] == r && r[..0] == [] && r[|r|..] == [];
    }
    StripOfPadded(r, 0, r);
  }

  /** Python's `sep.join(parts)`: the parts in order with one `sep` between each
      two neighbours, and "" when there are no parts. */
  function Join(sep: string, parts: seq<string>): (r: string)
    ensures parts == [] ==> r == []
    ensures |parts| == 1 ==> r == parts[0]
    ensures parts != [] ==> |r| == SumLengths(parts) + SeparatorsLength(sep, |parts| - 1)
  {
    if |parts| == 0 then []
    else if |parts| == 1 then parts[0]
    else
      var init := parts[..|parts| - 1];
      assert init[..|init| - 1] == parts[..|parts| - 2];
      var r := Join(sep, init) + sep + parts[|parts| - 1];
      r
  }

  /** Where each part lands: `parts[i]` starts after the parts before it and one
      separator per earlier part. */
  lemma {:induction false} JoinPartAt(sep: string, parts: seq<string>, i: nat)
    requires i < |parts|
    ensures var start := SumLengths(parts[..i]) + SeparatorsLength(sep, i);
      && start + |parts[i]| <= |Join(sep, parts)|
      && Join(sep, parts)[start..start + |parts[i]|] == parts[i]
    decreases |parts|
  {
    var n := |parts|;
    var start := SumLengths(parts[..i]) + SeparatorsLength(sep, i);
    if n == 1 {
      assert parts[..0] == [];
    } else {
      var init, last := parts[..n - 1], parts[n - 1];
      JoinSnoc(sep, init, last);
      assert init + [last] == parts;
      if i < n - 1 {
        assert init[..i] == parts[..i];
        JoinPartAt(sep, init, i);
        SliceInFront(Join(sep, init), sep + last, start, start + |parts[i]|);
      } else {
        assert parts[..i] == init;
        SliceAtBack(Join(sep, init) + sep, last);
      }
    }
  }

  /** Every part but the last is followed by exactly one separator. */
  lemma {:induction false} JoinSeparatorAfter(sep: string, parts: seq<string>, i: nat)
    requires i < |parts| - 1
    ensures var end := SumLengths(parts[..i + 1]) + SeparatorsLength(sep, i);
      && end + |sep| <= |Join(sep, parts)|
      && Join(sep, parts)[end..end + |sep|] == sep
    decreases |parts|
  {
    var n := |parts|;
    var end := SumLengths(parts[..i + 1]) + SeparatorsLength(sep, i);
    var init, last := parts[..n - 1], parts[n - 1];
    JoinSnoc(sep, init, last);
    assert init + [last] == parts;
    assert init[..i + 1] == parts[..i + 1];
    if i < n - 2 {
      JoinSeparatorAfter(sep, init, i);
      SliceInFront(Join(sep, init), sep + last, end, end + |sep|);
    } else {
      assert parts[..i + 1] == init;
      SliceAtBack(Join(sep, init), sep);
      SliceInFront(Join(sep, init) + sep, last, end, end + |sep|);
    }
  }

  /** The length of `k` separators, one after the other. */
  function SeparatorsLength(sep: string, k: nat): (r: nat)
    ensures r == k * |sep|
  {
    if k == 0 then 0 else SeparatorsLength(sep, k - 1) + |sep|
  }

  /** A slice within the front part of a concatenation is a slice of that part. */
  lemma SliceInFront<T>(a: seq<T>, b: seq<T>, lo: nat, hi: nat)
    requires lo <= hi <= |a|
    ensures (a + b)[lo..hi] == a[lo..hi]
  {
  }

  /** The back part of a concatenation sits right after the front part. */
  lemma SliceAtBack<T>(a: seq<T>, b: seq<T>)
    ensures (a + b)[|a|..|a| + |b|] == b
  {
  }

  /** Joining a longer list adds one separator and the new part at the end. */
  lemma JoinSnoc(sep: string, parts: seq<string>, p: string)
    requires parts != []
    ensures Join(sep, parts + [p]) == Join(sep, parts) + sep + p
  {
    assert (parts + [p])[..|parts|] == parts;
  }

  /** `pat` occurs in `s` starting at index `i`. */
  predicate OccursAt(s: string, pat: string, i: nat)
  {
    i + |pat| <= |s| && s[i..i + |pat|] == pat
  }

  /** `re.split(pat, s)[0]` for a literal `pat`: the part of `s` before the first
      occurrence of `pat`, or all of `s` when `pat` does not occur. */
  function PrefixBefore(s: string, pat: string): (r: string)
    ensures r <= s
    ensures |r| < |s| ==> OccursAt(s, pat, |r|)
    ensures forall i :: 0 <= i < |r| ==> !OccursAt(s, pat, i)
  {
    PrefixBeforeFrom(s, pat, 0)
  }

  /** The scan behind `PrefixBefore`, resumed at `from` with no occurrence before it. */
  function PrefixBeforeFrom(s: string, pat: string, from: nat): (r: string)
    requires forall i :: 0 <= i < from ==> !OccursAt(s, pat, i)
    ensures r <= s
    ensures |r| < |s| ==> OccursAt(s, pat, |r|)
    ensures forall i :: 0 <= i < |r| ==> !OccursAt(s, pat, i)
    decreases |s| - from
  {
    if from + |pat| > |s| then s
    else if s[from..from + |pat|] == pat then s[..from]
    else PrefixBeforeFrom(s, pat, from + 1)
  }

  /** A string in which `pat` never occurs is returned whole. */
  lemma PrefixBeforeAbsent(s: string, pat: string)
    requires forall i :: 0 <= i < |s| ==> !OccursAt(s, pat, i)
    ensures PrefixBefore(s, pat) == s
  {
    var r := PrefixBefore(s, pat);
    assert |r| <= |s|;
  }

  /** Cutting a second time changes nothing: `pat` does not occur in the prefix. */
  lemma PrefixBeforeIdempotent(s: string, pat: string)
    ensures PrefixBefore(PrefixBefore(s, pat), pat) == PrefixBefore(s, pat)
  {
    var r := PrefixBefore(s, pat);
    forall i | 0 <= i < |r| ensures !OccursAt(r, pat, i) {
      if OccursAt(r, pat, i) {
        assert r == s[..|r|];
        assert s[i..i + |pat|] == r[i..i + |pat|];
        assert OccursAt(s, pat, i);
      }
    }
    PrefixBeforeAbsent(r, pat);
  }
}
