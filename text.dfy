/**
 * Text operations the bot applies to message contents: Python's
 * `str.lower()`, the substring test `needle in haystack`, `int(...)` on a
 * reply, and the ordered keyword search shared by the message classifier
 * and the mood classifier.
 */
module Text {
  import opened Wrappers

  // ---------------------------------------------------------------------
  // Lower-casing
  // ---------------------------------------------------------------------

  predicate IsUpperAscii(ch: char) { 'A' <= ch <= 'Z' }

  /** `ch.lower()` for the letters the bot's vocabularies can contain. */
  function LowerChar(ch: char): (r: char)
    ensures IsUpperAscii(ch) ==> r as int == ch as int + 32
    ensures !IsUpperAscii(ch) ==> r == ch
    ensures !IsUpperAscii(r)
  {
    if IsUpperAscii(ch) then (ch as int + 32) as char else ch
  }

  /** `s.lower()`, character by character. */
  function Lower(s: string): (r: string)
    ensures |r| == |s|
    ensures forall i :: 0 <= i < |s| ==> r[i] == LowerChar(s[i])
  {
    seq(|s|, i requires 0 <= i < |s| => LowerChar(s[i]))
  }

  /** Lower-casing twice is lower-casing once. */
  lemma LowerIdempotent(s: string)
    ensures Lower(Lower(s)) == Lower(s)
  {
  }

  /** A text with no ASCII capital (every Arabic keyword) is its own lower case. */
  lemma LowerFixesUncased(s: string)
    requires forall i :: 0 <= i < |s| ==> !IsUpperAscii(s[i])
    ensures Lower(s) == s
  {
  }

  // ---------------------------------------------------------------------
  // Substring containment: Python's `needle in haystack`
  // ---------------------------------------------------------------------

  /** `needle` occurs in `haystack` starting at position `i`. */
  predicate OccursAt(haystack: string, needle: string, i: int)
  {
    0 <= i && i + |needle| <= |haystack| && haystack[i..i + |needle|] == needle
  }

  /** An occurrence is either at the front or somewhere in the tail. */
  lemma OccursFrontOrTail(haystack: string, needle: string)
    requires |haystack| > 0
    ensures (exists i :: OccursAt(haystack, needle, i))
      <==> (OccursAt(haystack, needle, 0) || exists j :: OccursAt(haystack[1..], needle, j))
  {
    if j :| OccursAt(haystack[1..], needle, j) {
      assert haystack[1..][j..j + |needle|] == haystack[j + 1..j + 1 + |needle|];
      assert OccursAt(haystack, needle, j + 1);
    }
    if i :| OccursAt(haystack, needle, i) && i > 0 {
      assert haystack[1..][i - 1..i - 1 + |needle|] == haystack[i..i + |needle|];
      assert OccursAt(haystack[1..], needle, i - 1);
    }
  }

  /** `needle in haystack`, scanning the start positions left to right. */
  function Contains(haystack: string, needle: string): (r: bool)
    ensures r <==> exists i :: OccursAt(haystack, needle, i)
    decreases |haystack|
  {
    if |needle| > |haystack| then
      false
    else if haystack[..|needle|] == needle then
      assert OccursAt(haystack, needle, 0);
      true
    else
      OccursFrontOrTail(haystack, needle);
      Contains(haystack[1..], needle)
  }

  /** Containment is preserved when text is added on either side. */
  lemma {:induction false} ContainsInContext(pre: string, s: string, post: string, needle: string)
    requires Contains(s, needle)
    ensures Contains(pre + s + post, needle)
  {
    var i :| OccursAt(s, needle, i);
    var t := pre + s + post;
    assert t[|pre| + i..|pre| + i + |needle|] == s[i..i + |needle|];
    assert OccursAt(t, needle, |pre| + i);
  }

  /** Every text contains itself; in particular a reply equal to an answer contains it. */
  lemma ContainsSelf(s: string)
    ensures Contains(s, s)
  {
    assert OccursAt(s, s, 0);
  }

  /**
   * Containment does not mean equality: `"7" in "17"` holds. Substring
   * checks therefore accept any reply that merely embeds the expected text.
   */
  lemma ContainsIsNotEquality()
    ensures Contains("17", "7") && "17" != "7"
  {
    assert OccursAt("17", "7", 1);
  }

  // ---------------------------------------------------------------------
  // Integer parsing: Python's `int(text)` on a chat reply
  // ---------------------------------------------------------------------

  predicate IsDigit(ch: char) { '0' <= ch <= '9' }

  /** A non-empty run of decimal digits. */
  predicate IsDigits(s: string)
  {
    |s| > 0 && forall i :: 0 <= i < |s| ==> IsDigit(s[i])
  }

  /** An optional sign followed by decimal digits. */
  predicate IsIntLiteral(s: string)
  {
    IsDigits(s) || (|s| > 0 && (s[0] == '-' || s[0] == '+') && IsDigits(s[1..]))
  }

  function DigitValue(ch: char): nat
    requires IsDigit(ch)
  {
    ch as int - '0' as int
  }

  /** The value of a run of digits, read most significant first. */
  function DigitsValue(s: string): nat
    requires forall i :: 0 <= i < |s| ==> IsDigit(s[i])
  {
    if s == [] then 0 else DigitsValue(s[..|s| - 1]) * 10 + DigitValue(s[|s| - 1])
  }

  /** `int(text)`: the integer a well-formed literal denotes, nothing otherwise. */
  function ParseInt(s: string): (r: Option<int>)
    ensures r.Some? <==> IsIntLiteral(s)
    ensures r.Some? && IsDigits(s) ==> r.value >= 0
    ensures r.Some? && s[0] == '-' ==> r.value <= 0
  {
    if IsDigits(s) then Some(DigitsValue(s))
    else if |s| > 0 && s[0] == '-' && IsDigits(s[1..]) then Some(0 - DigitsValue(s[1..]))
    else if |s| > 0 && s[0] == '+' && IsDigits(s[1..]) then Some(DigitsValue(s[1..]))
    else None
  }

  /** `str(n)`: the decimal digits of a non-negative integer. */
  function NatToString(n: nat): (r: string)
    ensures IsDigits(r)
  {
    var d := [(n % 10 + '0' as int) as char];
    if n < 10 then d else NatToString(n / 10) + d
  }

  /** `str(n)` for any integer, with a leading minus sign when negative. */
  function IntToString(n: int): (r: string)
    ensures IsIntLiteral(r)
  {
    if n >= 0 then NatToString(n) else "-" + NatToString(-n)
  }

  lemma {:induction false} DigitsValueOfNat(n: nat)
    ensures DigitsValue(NatToString(n)) == n
  {
    var s := NatToString(n);
    if n >= 10 {
      DigitsValueOfNat(n / 10);
      assert s[..|s| - 1] == NatToString(n / 10);
    }
  }

  /** `int(str(n)) == n`: every integer written in decimal is read back unchanged. */
  lemma {:induction false} ParseIntRoundTrip(n: int)
    ensures ParseInt(IntToString(n)) == Some(n)
  {
    if n >= 0 {
      DigitsValueOfNat(n);
    } else {
      DigitsValueOfNat(-n);
      var s := IntToString(n);
      assert s[1..] == NatToString(-n);
      assert !IsDigits(s) by { assert !IsDigit(s[0]); }
    }
  }

  // ---------------------------------------------------------------------
  // Ordered keyword groups
  // ---------------------------------------------------------------------

  /** Some keyword of the group occurs in the text. */
  predicate AnyKeyword(text: string, keywords: seq<string>)
  {
    exists k :: 0 <= k < |keywords| && Contains(text, keywords[k])
  }

  /** The inner `for keyword in keywords` loop: the first keyword that occurs. */
  function FirstKeyword(text: string, keywords: seq<string>): (r: Option<nat>)
    ensures r.Some? ==> (r.value < |keywords| && Contains(text, keywords[r.value])
      && forall k :: 0 <= k < r.value ==> !Contains(text, keywords[k]))
    ensures r.None? <==> !AnyKeyword(text, keywords)
    decreases |keywords|
  {
    if keywords == [] then None
    else if Contains(text, keywords[0]) then Some(0)
    else
      match FirstKeyword(text, keywords[1..])
      case None => None
      case Some(k) => Some(k + 1)
  }

  /**
   * The outer `for group in groups` loop with its `break`: the index of the
   * first group, in declared order, some keyword of which occurs in the text.
   */
  function FirstGroup<K>(groups: seq<(K, seq<string>)>, text: string): (r: Option<nat>)
    ensures r.Some? ==> (r.value < |groups| && AnyKeyword(text, groups[r.value].1)
      && forall j :: 0 <= j < r.value ==> !AnyKeyword(text, groups[j].1))
    ensures r.None? <==> forall j :: 0 <= j < |groups| ==> !AnyKeyword(text, groups[j].1)
    decreases |groups|
  {
    if groups == [] then None
    else if FirstKeyword(text, groups[0].1).Some? then Some(0)
    else
      match FirstGroup(groups[1..], text)
      case None => None
      case Some(j) => Some(j + 1)
  }

  /**
   * First match wins: when two groups both match, the result is never the
   * later one, and is at or before the earlier one.
   */
  lemma FirstGroupPrecedence<K>(groups: seq<(K, seq<string>)>, text: string, a: nat, b: nat)
    requires a < b < |groups|
    requires AnyKeyword(text, groups[a].1) && AnyKeyword(text, groups[b].1)
    ensures FirstGroup(groups, text).Some?
    ensures FirstGroup(groups, text).value <= a
  {
  }
}
