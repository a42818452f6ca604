/** Strings as the loaders use them: Python's `str.lower()`, `str.upper()` and
    the substring test `needle in text`, and the ordered keyword table that
    every if/elif classifier of the loaders walks. */
module Text {

  /** `str.lower()` on one character (ASCII letters only). */
  function LowerChar(c: char): (r: char)
    ensures 'A' <= c <= 'Z' ==> r as int == c as int + 32
    ensures !('A' <= c <= 'Z') ==> r == c
  {
    if 'A' <= c <= 'Z' then (c as int + 32) as char else c
  }

  /** `str.upper()` on one character (ASCII letters only). */
  function UpperChar(c: char): (r: char)
    ensures 'a' <= c <= 'z' ==> r as int == c as int - 32
    ensures !('a' <= c <= 'z') ==> r == c
  {
    if 'a' <= c <= 'z' then (c as int - 32) as char else c
  }

  function Lower(s: string): (r: string)
    ensures |r| == |s|
  {
    seq(|s|, i requires 0 <= i < |s| => LowerChar(s[i]))
  }

  function Upper(s: string): (r: string)
    ensures |r| == |s|
  {
    seq(|s|, i requires 0 <= i < |s| => UpperChar(s[i]))
  }

  /** The characters `needle[k..]` sit in `text` from index `i + k` on. */
  predicate MatchAt(text: string, needle: string, i: nat, k: nat)
    decreases |needle| - k
  {
    k >= |needle|
    || (i + k < |text| && text[i + k] == needle[k] && MatchAt(text, needle, i, k + 1))
  }

  /** `needle` occurs in `text` at some index `i` or later. */
  predicate ContainsFrom(text: string, needle: string, i: nat)
    decreases |text| - i
  {
    i + |needle| <= |text| && (MatchAt(text, needle, i, 0) || ContainsFrom(text, needle, i + 1))
  }

  /** `needle in text` for Python strings. */
  predicate Contains(text: string, needle: string)
  {
    ContainsFrom(text, needle, 0)
  }

  /** `needle` occurs in `text` starting at index `i`. */
  predicate OccursAt(text: string, needle: string, i: int)
  {
    0 <= i && i + |needle| <= |text| && text[i..i + |needle|] == needle
  }

  lemma {:induction false} MatchAtWindow(text: string, needle: string, i: nat, k: nat)
    requires k <= |needle| && i + |needle| <= |text|
    ensures MatchAt(text, needle, i, k) <==> text[i + k..i + |needle|] == needle[k..]
    decreases |needle| - k
  {
    if k < |needle| {
      MatchAtWindow(text, needle, i, k + 1);
      assert text[i + k..i + |needle|] == [text[i + k]] + text[i + k + 1..i + |needle|];
      assert needle[k..] == [needle[k]] + needle[k + 1..];
    }
  }

  lemma {:induction false} ContainsFromIffOccurs(text: string, needle: string, i: nat)
    ensures ContainsFrom(text, needle, i) <==> exists j :: i <= j && OccursAt(text, needle, j)
    decreases |text| - i
  {
    if i + |needle| <= |text| {
      MatchAtWindow(text, needle, i, 0);
      assert needle[0..] == needle;
      ContainsFromIffOccurs(text, needle, i + 1);
      if MatchAt(text, needle, i, 0) {
        assert OccursAt(text, needle, i);
      }
      if ContainsFrom(text, needle, i + 1) {
        var j :| i + 1 <= j && OccursAt(text, needle, j);
        assert i <= j;
      }
      if exists j :: i <= j && OccursAt(text, needle, j) {
        var j :| i <= j && OccursAt(text, needle, j);
        if j > i {
          assert i + 1 <= j && OccursAt(text, needle, j);
        }
      }
    }
  }

  /** The recursive substring test agrees with the window definition. */
  lemma ContainsIffOccurs(text: string, needle: string)
    ensures Contains(text, needle) <==> exists j :: OccursAt(text, needle, j)
  {
    ContainsFromIffOccurs(text, needle, 0);
  }

  /** Whatever contains `outer` contains every window of `outer`, e.g. a
      text that contains "stainless steel" contains "stainless" and "steel". */
  lemma ContainsWindow(text: string, outer: string, lo: int, hi: int)
    requires 0 <= lo <= hi <= |outer|
    requires Contains(text, outer)
    ensures Contains(text, outer[lo..hi])
  {
    ContainsIffOccurs(text, outer);
    var i :| OccursAt(text, outer, i);
    forall k | 0 <= k < hi - lo
      ensures outer[lo..hi][k] == text[i + lo..i + hi][k]
    {
      assert outer[lo + k] == text[i..i + |outer|][lo + k];
    }
    assert outer[lo..hi] == text[i + lo..i + hi];
    assert OccursAt(text, outer[lo..hi], i + lo);
    ContainsIffOccurs(text, outer[lo..hi]);
  }

  /** A needle found in the middle part is found in the whole. */
  lemma ContainsInConcat(a: string, b: string, c: string, needle: string)
    requires Contains(b, needle)
    ensures Contains(a + b + c, needle)
  {
    ContainsIffOccurs(b, needle);
    var i :| OccursAt(b, needle, i);
    assert (a + b + c)[|a| + i..|a| + i + |needle|] == b[i..i + |needle|];
    assert OccursAt(a + b + c, needle, |a| + i);
    ContainsIffOccurs(a + b + c, needle);
  }

  lemma LowerConcat(a: string, b: string)
    ensures Lower(a + b) == Lower(a) + Lower(b)
  {
  }

  lemma UpperConcat(a: string, b: string)
    ensures Upper(a + b) == Upper(a) + Upper(b)
  {
  }

  /** A text lacking one of the needle's characters does not contain it. */
  lemma MissingCharNotContained(text: string, needle: string, c: char)
    requires c in needle && c !in text
    ensures !Contains(text, needle)
  {
    ContainsIffOccurs(text, needle);
    var k :| 0 <= k < |needle| && needle[k] == c;
    forall i | 0 <= i && i + |needle| <= |text|
      ensures !OccursAt(text, needle, i)
    {
      assert text[i..i + |needle|][k] == text[i + k];
      assert text[i + k] in text;
    }
  }

  lemma LowerIdempotent(s: string)
    ensures Lower(Lower(s)) == Lower(s)
  {
  }

  lemma LowerOfUpper(s: string)
    ensures Lower(Upper(s)) == Lower(s)
  {
  }

  lemma UpperOfLower(s: string)
    ensures Upper(Lower(s)) == Upper(s)
  {
  }

  /** One row of a classifier's keyword table: if the text contains any of
      `keywords`, the classifier answers `result`. */
  datatype Rule<E> = Rule(keywords: seq<string>, result: E)

  predicate ContainsAny(text: string, keywords: seq<string>)
  {
    exists k | 0 <= k < |keywords| :: Contains(text, keywords[k])
  }

  lemma ContainsAnyOne(text: string, k0: string)
    ensures ContainsAny(text, [k0]) <==> Contains(text, k0)
  {
    assert [k0][0] == k0;
  }

  lemma ContainsAnyTwo(text: string, k0: string, k1: string)
    ensures ContainsAny(text, [k0, k1]) <==> Contains(text, k0) || Contains(text, k1)
  {
    assert [k0, k1][0] == k0 && [k0, k1][1] == k1;
  }

  /** The reference classifier: the result of the first row that matches,
      else `fallback`. */
  function FirstMatch<E>(rules: seq<Rule<E>>, fallback: E, text: string): E
  {
    if rules == [] then fallback
    else if ContainsAny(text, rules[0].keywords) then rules[0].result
    else FirstMatch(rules[1..], fallback, text)
  }

  /** FirstMatch answers row `j`'s result when row `j` is the first row that
      matches. */
  lemma {:induction false} FirstMatchIsFirst<E>(rules: seq<Rule<E>>, fallback: E, text: string, j: int)
    requires 0 <= j < |rules|
    requires ContainsAny(text, rules[j].keywords)
    requires forall k | 0 <= k < j :: !ContainsAny(text, rules[k].keywords)
    ensures FirstMatch(rules, fallback, text) == rules[j].result
  {
    if j > 0 {
      assert !ContainsAny(text, rules[0].keywords);
      FirstMatchIsFirst(rules[1..], fallback, text, j - 1);
    }
  }

  /** FirstMatch answers the fallback when no row matches. */
  lemma {:induction false} FirstMatchFallback<E>(rules: seq<Rule<E>>, fallback: E, text: string)
    requires forall k | 0 <= k < |rules| :: !ContainsAny(text, rules[k].keywords)
    ensures FirstMatch(rules, fallback, text) == fallback
  {
    if rules != [] {
      assert !ContainsAny(text, rules[0].keywords);
      FirstMatchFallback(rules[1..], fallback, text);
    }
  }
}
