/** The few Python string operations the workflow relies on: `in` on strings,
    `str.join`, `str.strip`, slicing and decimal rendering of an `int`. */
module Text {

  /** `str.isspace()` for one character (the characters Python's `strip()`
      removes when called without arguments). */
  predicate IsSpace(c: char)
  {
    c == ' ' || '\t' <= c <= '\r' || '\U{1c}' <= c <= '\U{1f}' ||
    c == '\U{85}' || c == '\U{a0}' || c == '\U{1680}' ||
    '\U{2000}' <= c <= '\U{200a}' || c == '\U{2028}' || c == '\U{2029}' ||
    c == '\U{202f}' || c == '\U{205f}' || c == '\U{3000}'
  }

  /** Python's `needle in haystack` on strings, as a scan from the left. */
  predicate Contains(haystack: string, needle: string)
    decreases |haystack|
  {
    |needle| <= |haystack| &&
    (haystack[..|needle|] == needle || (|haystack| > 0 && Contains(haystack[1..], needle)))
  }

  /** `needle` occurs in `haystack` starting at offset `i`. */
  ghost predicate OccursAt(haystack: string, needle: string, i: int)
  {
    0 <= i && i + |needle| <= |haystack| && haystack[i..i + |needle|] == needle
  }

  predicate StartsWith(s: string, prefix: string)
  {
    |prefix| <= |s| && s[..|prefix|] == prefix
  }

  predicate EndsWith(s: string, suffix: string)
  {
    |suffix| <= |s| && s[|s| - |suffix|..] == suffix
  }

  /** The scan finds the needle exactly when it occurs at some offset. */
  lemma {:induction false} ContainsIffOccurs(haystack: string, needle: string)
    ensures Contains(haystack, needle) <==> exists i :: OccursAt(haystack, needle, i)
    decreases |haystack|
  {
    if |needle| <= |haystack| {
      if haystack[..|needle|] == needle {
        assert OccursAt(haystack, needle, 0);
      } else if |haystack| > 0 {
        var tail := haystack[1..];
        ContainsIffOccurs(tail, needle);
        if Contains(tail, needle) {
          var i :| OccursAt(tail, needle, i);
          assert haystack[i + 1..i + 1 + |needle|] == tail[i..i + |needle|];
          assert OccursAt(haystack, needle, i + 1);
        } else {
          forall i | OccursAt(haystack, needle, i) ensures false {
            if i > 0 {
              assert tail[i - 1..i - 1 + |needle|] == haystack[i..i + |needle|];
              assert OccursAt(tail, needle, i - 1);
            }
          }
        }
      }
    }
  }

  lemma ContainsAt(haystack: string, needle: string, i: int)
    requires OccursAt(haystack, needle, i)
    ensures Contains(haystack, needle)
  {
    ContainsIffOccurs(haystack, needle);
  }

  /** Every character of a needle that is found is a character of the haystack. */
  lemma ContainsOnlyItsChars(haystack: string, needle: string)
    ensures Contains(haystack, needle) ==> forall c :: c in needle ==> c in haystack
  {
    ContainsIffOccurs(haystack, needle);
    if Contains(haystack, needle) {
      var i :| OccursAt(haystack, needle, i);
      forall c | c in needle ensures c in haystack {
        var k :| 0 <= k < |needle| && needle[k] == c;
        assert haystack[i + k] == needle[k];
      }
    }
  }

  /** A needle holding a character the haystack lacks is never found. */
  lemma MissingCharNotContained(haystack: string, needle: string, c: char)
    requires c in needle && c !in haystack
    ensures !Contains(haystack, needle)
  {
    ContainsOnlyItsChars(haystack, needle);
  }

  /** Whatever occurs in one side of a concatenation occurs in the whole. */
  lemma ContainsInConcat(a: string, b: string, needle: string)
    requires Contains(a, needle) || Contains(b, needle)
    ensures Contains(a + b, needle)
  {
    ContainsIffOccurs(a, needle);
    ContainsIffOccurs(b, needle);
    if Contains(a, needle) {
      var i :| OccursAt(a, needle, i);
      assert (a + b)[i..i + |needle|] == a[i..i + |needle|];
      ContainsAt(a + b, needle, i);
    } else {
      var i :| OccursAt(b, needle, i);
      assert (a + b)[|a| + i..|a| + i + |needle|] == b[i..i + |needle|];
      ContainsAt(a + b, needle, |a| + i);
    }
  }

  /** The middle piece of a three-way concatenation occurs in it. */
  lemma ContainsMiddle(a: string, x: string, b: string)
    ensures Contains(a + x + b, x)
  {
    assert (a + x + b)[|a|..|a| + |x|] == x;
    ContainsAt(a + x + b, x, |a|);
  }

  /** What occurs in a prefix of a string occurs in the string. */
  lemma ContainsInPrefix(s: string, prefix: string, needle: string)
    requires StartsWith(s, prefix) && Contains(prefix, needle)
    ensures Contains(s, needle)
  {
    assert s == prefix + s[|prefix|..];
    ContainsInConcat(prefix, s[|prefix|..], needle);
  }

  lemma StartsWithTransitive(s: string, p: string, q: string)
    requires StartsWith(s, p) && StartsWith(p, q)
    ensures StartsWith(s, q)
  {
    assert s[..|q|] == s[..|p|][..|q|];
  }

  /** Python's `sep.join(items)`. */
  function Join(items: seq<string>, sep: string): string
  {
    if |items| == 0 then ""
    else if |items| == 1 then items[0]
    else items[0] + sep + Join(items[1..], sep)
  }

  /** Every joined item can be found in the joined string. */
  lemma {:induction false} JoinContainsEach(items: seq<string>, sep: string, k: int)
    requires 0 <= k < |items|
    ensures Contains(Join(items, sep), items[k])
    decreases |items|
  {
    if |items| == 1 {
      ContainsAt(items[0], items[0], 0);
    } else if k == 0 {
      ContainsAt(items[0], items[0], 0);
      ContainsInConcat(items[0], sep, items[0]);
      ContainsInConcat(items[0] + sep, Join(items[1..], sep), items[0]);
    } else {
      JoinContainsEach(items[1..], sep, k - 1);
      ContainsInConcat(items[0] + sep, Join(items[1..], sep), items[k]);
    }
  }

  /** Leading whitespace removed (`str.lstrip()`). */
  function TrimStart(s: string): (r: string)
    ensures |r| <= |s| && r == s[|s| - |r|..]
    ensures forall k :: 0 <= k < |s| - |r| ==> IsSpace(s[k])
    ensures r == [] || !IsSpace(r[0])
  {
    if |s| > 0 && IsSpace(s[0]) then TrimStart(s[1..]) else s
  }

  /** Trailing whitespace removed (`str.rstrip()`). */
  function TrimEnd(s: string): (r: string)
    ensures |r| <= |s| && r == s[..|r|]
    ensures forall k :: |r| <= k < |s| ==> IsSpace(s[k])
    ensures r == [] || !IsSpace(r[|r| - 1])
  {
    if |s| > 0 && IsSpace(s[|s| - 1]) then TrimEnd(s[..|s| - 1]) else s
  }

  /** How many whitespace characters `str.lstrip()` removes from the front. */
  function LeadingSpaces(s: string): nat
  {
    |s| - |TrimStart(s)|
  }

  /** `str.strip()`: a slice of `s` that starts after its leading whitespace. */
  function Strip(s: string): (r: string)
    ensures LeadingSpaces(s) + |r| <= |s|
    ensures r == s[LeadingSpaces(s)..LeadingSpaces(s) + |r|]
  {
    TrimEnd(TrimStart(s))
  }

  /** What `str.strip()` cuts away on either side is whitespace. */
  lemma StripCutsSpaces(s: string)
    ensures forall k :: 0 <= k < LeadingSpaces(s) ==> IsSpace(s[k])
    ensures forall k :: LeadingSpaces(s) + |Strip(s)| <= k < |s| ==> IsSpace(s[k])
  {
    var t := TrimStart(s);
    var n := LeadingSpaces(s);
    forall k | n + |Strip(s)| <= k < |s|
      ensures IsSpace(s[k])
    {
      assert s[k] == t[k - n];
    }
  }

  /** What `str.strip()` keeps neither starts nor ends with whitespace. */
  lemma StripKeepsNoEdgeSpace(s: string)
    ensures Strip(s) == [] || (!IsSpace(Strip(s)[0]) && !IsSpace(Strip(s)[|Strip(s)| - 1]))
  {
    var t := TrimStart(s);
    if Strip(s) != [] {
      assert Strip(s)[0] == t[0];
    }
  }

  /** Python's `s[:n]`. */
  function Take(s: string, n: nat): (r: string)
    ensures |r| == if |s| <= n then |s| else n
    ensures StartsWith(s, r)
  {
    if |s| <= n then s else s[..n]
  }

  function Digit(d: nat): char
    requires d < 10
  {
    "0123456789"[d]
  }

  /** `str(n)` for a natural number. */
  function NatToString(n: nat): (r: string)
    ensures |r| > 0
    decreases n
  {
    if n < 10 then [Digit(n)] else NatToString(n / 10) + [Digit(n % 10)]
  }
}
