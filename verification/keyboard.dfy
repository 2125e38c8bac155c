/** The page's keyboard shortcut: a key from "1" to "4" clicks the phrase
    button at that position. The key arrives as the event's key name, a
    string, and the range test is a string comparison. */
module Keyboard {
  import opened Options

  /** `a <= b` on two JavaScript strings: character by character, with a
      proper prefix ordered before its extensions. */
  function AtMost(a: string, b: string): bool
    decreases |a|
  {
    if |a| == 0 then true
    else if |b| == 0 then false
    else if a[0] != b[0] then a[0] < b[0]
    else AtMost(a[1..], b[1..])
  }

  predicate IsDigit(c: char)
  {
    '0' <= c <= '9'
  }

  /** The value of one decimal digit. */
  function DigitValue(c: char): nat
    requires IsDigit(c)
  {
    c as int - '0' as int
  }

  /** The longest prefix of `s` made of decimal digits. */
  function DigitRun(s: string): (r: string)
    ensures |r| <= |s| && r == s[..|r|]
    ensures forall i :: 0 <= i < |r| ==> IsDigit(r[i])
    ensures |r| < |s| ==> !IsDigit(s[|r|])
  {
    if |s| == 0 || !IsDigit(s[0]) then [] else [s[0]] + DigitRun(s[1..])
  }

  /** The number a string of decimal digits spells, most significant first. */
  function DecimalValue(ds: string): nat
    requires forall i :: 0 <= i < |ds| ==> IsDigit(ds[i])
  {
    if |ds| == 0 then 0 else 10 * DecimalValue(ds[..|ds| - 1]) + DigitValue(ds[|ds| - 1])
  }

  /** `parseInt(key)` for a key that starts with a decimal digit: the value
      of its leading run of digits, whatever follows. */
  function ParseLeadingInt(key: string): nat
    requires |key| > 0 && IsDigit(key[0])
  {
    DecimalValue(DigitRun(key))
  }

  /** The index of the button a key press clicks when the page has
      `buttonCount` phrase buttons; None when it clicks none. */
  function ButtonIndex(key: string, buttonCount: nat): (r: Option<nat>)
    ensures r.Some? ==> r.value < buttonCount
    ensures r.Some? ==> |key| > 0 && '1' <= key[0] <= '4'
  {
    if AtMost("1", key) && AtMost(key, "4") then
      GuardShape(key);
      var index := ParseLeadingInt(key) - 1;
      if 0 <= index < buttonCount then Some(index) else None
    else None
  }

  /** The string range test admits exactly the keys that start with "1",
      "2" or "3", and the key "4" itself. */
  lemma GuardShape(key: string)
    ensures AtMost("1", key) && AtMost(key, "4") <==>
            |key| > 0 && ('1' <= key[0] <= '3' || key == "4")
  {
  }

  /** A run of two or more digits that does not start with zero is worth at
      least ten; a single digit is worth itself. */
  lemma {:induction false} LeadingDigitsBound(ds: string)
    requires |ds| > 0 && ds[0] != '0'
    requires forall i :: 0 <= i < |ds| ==> IsDigit(ds[i])
    ensures |ds| == 1 ==> DecimalValue(ds) == DigitValue(ds[0])
    ensures |ds| >= 2 ==> DecimalValue(ds) >= 10
  {
    if |ds| == 1 {
      assert ds[..0] == [];
    } else {
      var prefix := ds[..|ds| - 1];
      assert prefix[0] == ds[0];
      LeadingDigitsBound(prefix);
    }
  }

  /** A key whose first character is not followed by another digit clicks
      the button its first digit names, if the guard lets it through and the
      page has that many buttons. */
  lemma KeyWithOneLeadingDigit(key: string, buttonCount: nat)
    requires |key| > 0
    requires |key| == 1 || !IsDigit(key[1])
    ensures ButtonIndex(key, buttonCount) ==
            if ('1' <= key[0] <= '3' || key == "4") && key[0] as int - '1' as int < buttonCount
            then Some(key[0] as int - '1' as int)
            else None
  {
    GuardShape(key);
    if '1' <= key[0] <= '4' {
      var run := DigitRun(key);
      assert |run| == 1 by { assert key[..1] == [key[0]]; }
      LeadingDigitsBound(run);
    }
  }

  /** A key that starts with two or more digits, such as "10", passes the
      range test but names button nine or later, so on a page with at most
      nine buttons it clicks nothing. */
  lemma MultiDigitKeyClicksNothing(key: string, buttonCount: nat)
    requires |key| >= 2 && IsDigit(key[0]) && IsDigit(key[1])
    requires buttonCount <= 9
    ensures ButtonIndex(key, buttonCount) == None
  {
    GuardShape(key);
    if '1' <= key[0] <= '3' {
      var run := DigitRun(key);
      assert |run| >= 2 by {
        assert DigitRun(key[1..]) != [];
      }
      LeadingDigitsBound(run);
    }
  }
}
