/** Character-level string operations the core relies on: lower-casing and
    Python's substring test `needle in haystack`. */
module Text {

  /** Lower-cases one character. Only the ASCII letters A-Z are mapped. */
  function LowerChar(c: char): (d: char)
    ensures !('A' <= d <= 'Z')
    ensures !('A' <= c <= 'Z') ==> d == c
    ensures 'A' <= c <= 'Z' ==> d as int == c as int + 32
  {
    if 'A' <= c <= 'Z' then (c as int + 32) as char else c
  }

  /** `s.lower()`: every character lower-cased, the length kept. */
  function Lower(s: string): (r: string)
    ensures |r| == |s|
  {
    seq(|s|, i requires 0 <= i < |s| => LowerChar(s[i]))
  }

  /** Lower-casing distributes over concatenation. */
  lemma LowerAppend(a: string, b: string)
    ensures Lower(a + b) == Lower(a) + Lower(b)
  {
    forall k | 0 <= k < |a + b|
      ensures Lower(a + b)[k] == (Lower(a) + Lower(b))[k]
    {
      if k < |a| {
        assert (a + b)[k] == a[k];
      } else {
        assert (a + b)[k] == b[k - |a|];
      }
    }
  }

  /** A string that `Lower` leaves as it is. */
  predicate IsLower(s: string)
  {
    forall i :: 0 <= i < |s| ==> !('A' <= s[i] <= 'Z')
  }

  /** `needle` occurs in `hay` starting at position `i`. */
  ghost predicate OccursAt(hay: string, needle: string, i: int)
  {
    0 <= i && i + |needle| <= |hay| && hay[i..i + |needle|] == needle
  }

  /** Python's `needle in hay` on strings: true iff `needle` is a contiguous
      substring of `hay` (so the empty string occurs in every string). */
  function Contains(hay: string, needle: string): (b: bool)
    ensures b <==> exists i :: OccursAt(hay, needle, i)
    decreases |hay|
  {
    if |needle| <= |hay| && hay[..|needle|] == needle then
      assert OccursAt(hay, needle, 0);
      true
    else if hay == [] then
      false
    else
      var rest := Contains(hay[1..], needle);
      assert forall i :: OccursAt(hay[1..], needle, i) ==> OccursAt(hay, needle, i + 1);
      if rest then
        true
      else
        assert forall i :: OccursAt(hay, needle, i) ==> i >= 1 && OccursAt(hay[1..], needle, i - 1);
        false
  }

  /** Lower-casing is idempotent. */
  lemma LowerIsLower(s: string)
    ensures IsLower(Lower(s))
    ensures Lower(Lower(s)) == Lower(s)
  {
  }

  /** Substring containment is transitive: a string containing `mid`
      contains everything `mid` contains. */
  lemma ContainsTransitive(hay: string, mid: string, needle: string)
    requires Contains(hay, mid) && Contains(mid, needle)
    ensures Contains(hay, needle)
  {
    var i :| OccursAt(hay, mid, i);
    var j :| OccursAt(mid, needle, j);
    forall k | 0 <= k < |needle|
      ensures hay[i + j..i + j + |needle|][k] == needle[k]
    {
      assert needle[k] == mid[j + k] == hay[i + j + k];
    }
    assert OccursAt(hay, needle, i + j);
  }

  /** Lower-casing commutes with taking a slice. */
  lemma LowerSlice(s: string, i: int, j: int)
    requires 0 <= i <= j <= |s|
    ensures Lower(s)[i..j] == Lower(s[i..j])
  {
    forall k | 0 <= k < j - i
      ensures Lower(s)[i..j][k] == Lower(s[i..j])[k]
    {
      assert s[i..j][k] == s[i + k];
    }
  }

  /** Lower-casing both sides keeps an occurrence: if `needle` occurs in `hay`,
      then `Lower(needle)` occurs in `Lower(hay)`. */
  lemma ContainsLower(hay: string, needle: string)
    requires Contains(hay, needle)
    ensures Contains(Lower(hay), Lower(needle))
  {
    var i :| OccursAt(hay, needle, i);
    var j := i + |needle|;
    LowerSlice(hay, i, j);
    assert hay[i..j] == needle;
    assert Lower(hay)[i..j] == Lower(needle);
    assert OccursAt(Lower(hay), Lower(needle), i);
  }

  /** A needle with a character the haystack lacks does not occur in it. */
  lemma NotContainedMissingChar(hay: string, needle: string, c: char)
    requires c in needle && c !in hay
    ensures !Contains(hay, needle)
  {
  }

  /** An occurrence in `a + b` lies within `a`, lies within `b`, or covers
      the last character of `a`. */
  lemma OccursInConcat(a: string, b: string, needle: string, i: int)
    requires OccursAt(a + b, needle, i)
    ensures || (i + |needle| <= |a| && OccursAt(a, needle, i))
            || (|a| <= i && OccursAt(b, needle, i - |a|))
            || (i < |a| < i + |needle| && needle[|a| - 1 - i] == a[|a| - 1])
  {
    if i + |needle| <= |a| {
      assert (a + b)[i..i + |needle|] == a[i..i + |needle|];
    } else if |a| <= i {
      assert (a + b)[i..i + |needle|] == b[i - |a|..i - |a| + |needle|];
    } else {
      assert needle[|a| - 1 - i] == (a + b)[|a| - 1];
    }
  }

  /** If `a` ends with a character that `needle` lacks, an occurrence of
      `needle` in `a + b` cannot straddle the two parts. */
  lemma NotContainedAcrossSplit(a: string, b: string, needle: string)
    requires a != [] && a[|a| - 1] !in needle
    requires !Contains(a, needle) && !Contains(b, needle)
    ensures !Contains(a + b, needle)
  {
    if Contains(a + b, needle) {
      var i :| OccursAt(a + b, needle, i);
      OccursInConcat(a, b, needle, i);
    }
  }

  /** A string occurs at the start of anything it begins. */
  lemma ContainedAsPrefix(a: string, b: string)
    ensures Contains(a + b, a)
  {
    assert (a + b)[..|a|] == a;
    assert OccursAt(a + b, a, 0);
  }

  /** Lower-casing cannot introduce a lower-case letter whose both cases are
      absent from the input. */
  lemma LowerLacks(s: string, c: char)
    requires 'a' <= c <= 'z'
    requires c !in s && (c as int - 32) as char !in s
    ensures c !in Lower(s)
  {
  }

  /** Upper-case counterpart of a lower-case ASCII letter. */
  function UpperOf(c: char): (u: char)
    requires 'a' <= c <= 'z'
    ensures 'A' <= u <= 'Z' && LowerChar(u) == c
  {
    (c as int - 32) as char
  }

  /** A case-insensitive search cannot find a needle holding a letter that
      the text lacks in both cases. */
  lemma NotContainedLacking(s: string, needle: string, c: char)
    requires 'a' <= c <= 'z' && c in needle
    requires c !in s && UpperOf(c) !in s
    ensures !Contains(Lower(s), needle)
  {
    LowerLacks(s, c);
    NotContainedMissingChar(Lower(s), needle, c);
  }

  /** The same across a split point: each part lacks some letter of the
      needle, and the last character of the first part is not in it. */
  lemma NotContainedLackingSplit(a: string, b: string, needle: string, ca: char, cb: char)
    requires a != [] && LowerChar(a[|a| - 1]) !in needle
    requires 'a' <= ca <= 'z' && ca in needle && ca !in a && UpperOf(ca) !in a
    requires 'a' <= cb <= 'z' && cb in needle && cb !in b && UpperOf(cb) !in b
    ensures !Contains(Lower(a + b), needle)
  {
    NotContainedLacking(a, needle, ca);
    NotContainedLacking(b, needle, cb);
    LowerAppend(a, b);
    NotContainedAcrossSplit(Lower(a), Lower(b), needle);
  }

  /** A string occurs in anything that has it in the middle. */
  lemma ContainedInMiddle(a: string, needle: string, b: string)
    ensures Contains(a + needle + b, needle)
  {
    assert (a + needle + b)[|a|..|a| + |needle|] == needle;
    assert OccursAt(a + needle + b, needle, |a|);
  }
}
