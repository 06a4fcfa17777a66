/**
 * The Ruby String operations the adapters rely on, over strings as
 * sequences of characters: start_with?, delete_prefix, end_with?, chomp,
 * include?, strip, and the decimal rendering of integers used by string
 * interpolation ("#{n}") and reversed by to_i.
 */
module RubyString {

  /** The characters String#strip removes: NUL, tab, line feed, vertical tab,
      form feed, carriage return and space. */
  predicate IsSpace(c: char) {
    c == '\0' || c == '\t' || c == '\n' || c == '\U{000B}' || c == '\U{000C}' || c == '\r' || c == ' '
  }

  predicate AllSpace(s: string) {
    forall i :: 0 <= i < |s| ==> IsSpace(s[i])
  }

  /** String#start_with? */
  predicate StartsWith(s: string, prefix: string) {
    |prefix| <= |s| && s[..|prefix|] == prefix
  }

  /** String#end_with? */
  predicate EndsWith(s: string, suffix: string) {
    |suffix| <= |s| && s[|s| - |suffix|..] == suffix
  }

  /** String#delete_prefix: the prefix is removed once when present. */
  function DeletePrefix(s: string, prefix: string): (r: string)
    ensures StartsWith(s, prefix) ==> prefix + r == s
    ensures !StartsWith(s, prefix) ==> r == s
  {
    if StartsWith(s, prefix) then
      assert s == s[..|prefix|] + s[|prefix|..];
      s[|prefix|..]
    else s
  }

  /** String#chomp with an argument other than "" or "\n" (both of which Ruby
      treats specially): one trailing occurrence of the suffix is removed. */
  function Chomp(s: string, suffix: string): (r: string)
    requires suffix != "" && suffix != "\n"
    ensures EndsWith(s, suffix) ==> r + suffix == s
    ensures !EndsWith(s, suffix) ==> r == s
  {
    if EndsWith(s, suffix) then
      assert s == s[..|s| - |suffix|] + s[|s| - |suffix|..];
      s[..|s| - |suffix|]
    else s
  }

  /** String#include? */
  predicate Contains(s: string, sub: string)
    decreases |s|
  {
    StartsWith(s, sub) || (s != "" && Contains(s[1..], sub))
  }

  /** sub occurs in s starting at position i. */
  predicate OccursAt(s: string, sub: string, i: int) {
    0 <= i <= |s| - |sub| && s[i..i + |sub|] == sub
  }

  /** Contains agrees with the positional definition of a substring. */
  lemma {:induction false} ContainsAt(s: string, sub: string)
    ensures Contains(s, sub) <==> exists i :: OccursAt(s, sub, i)
    decreases |s|
  {
    if StartsWith(s, sub) {
      assert OccursAt(s, sub, 0);
    } else if s == "" {
      assert |sub| > 0;
    } else {
      ContainsAt(s[1..], sub);
      if exists i :: OccursAt(s, sub, i) {
        var i :| OccursAt(s, sub, i);
        assert i != 0;
        assert s[1..][i - 1..i - 1 + |sub|] == s[i..i + |sub|];
        assert OccursAt(s[1..], sub, i - 1);
      }
      if exists j :: OccursAt(s[1..], sub, j) {
        var j :| OccursAt(s[1..], sub, j);
        assert s[j + 1..j + 1 + |sub|] == s[1..][j..j + |sub|];
        assert OccursAt(s, sub, j + 1);
      }
    }
  }

  /** String#lstrip */
  function LStrip(s: string): (r: string)
    ensures |r| <= |s|
  {
    if s != "" && IsSpace(s[0]) then LStrip(s[1..]) else s
  }

  /** r is s less a run of leading whitespace, and starts with a non-space. */
  ghost predicate LeadingSpaceRemoved(s: string, r: string) {
    |r| <= |s| && r == s[|s| - |r|..] && AllSpace(s[..|s| - |r|]) && (r == "" || !IsSpace(r[0]))
  }

  /** r is s less a run of trailing whitespace, and ends with a non-space. */
  ghost predicate TrailingSpaceRemoved(s: string, r: string) {
    |r| <= |s| && r == s[..|r|] && AllSpace(s[|r|..]) && (r == "" || !IsSpace(r[|r| - 1]))
  }

  /** lstrip removes a run of leading whitespace, and only that. */
  lemma {:induction false} LStripRemovesLeadingSpace(s: string)
    ensures LeadingSpaceRemoved(s, LStrip(s))
  {
    if s != "" && IsSpace(s[0]) {
      LStripRemovesLeadingSpace(s[1..]);
      var r := LStrip(s);
      assert s[..|s| - |r|] == [s[0]] + s[1..][..|s[1..]| - |r|];
    }
  }

  /** String#rstrip */
  function RStrip(s: string): (r: string)
    ensures |r| <= |s|
  {
    if s != "" && IsSpace(s[|s| - 1]) then RStrip(s[..|s| - 1]) else s
  }

  /** rstrip removes a run of trailing whitespace, and only that. */
  lemma {:induction false} RStripRemovesTrailingSpace(s: string)
    ensures TrailingSpaceRemoved(s, RStrip(s))
  {
    if s != "" && IsSpace(s[|s| - 1]) {
      RStripRemovesTrailingSpace(s[..|s| - 1]);
      var r := RStrip(s);
      assert s[|r|..] == s[..|s| - 1][|r|..] + [s[|s| - 1]];
    }
  }

  /** r is what remains of s once a run of whitespace of length i is cut from
      its front and a run of whitespace from its back. */
  ghost predicate TrimmedAt(s: string, r: string, i: int) {
    0 <= i <= |s| - |r| && s[i..i + |r|] == r && AllSpace(s[..i]) && AllSpace(s[i + |r|..])
  }

  /** String#strip */
  function Strip(s: string): (r: string)
    ensures |r| <= |s|
  {
    RStrip(LStrip(s))
  }

  /** strip leaves the part of s between a run of leading and a run of
      trailing whitespace, and that part starts and ends with a non-space. */
  lemma StripRemovesSurroundingSpace(s: string)
    ensures Strip(s) == "" || (!IsSpace(Strip(s)[0]) && !IsSpace(Strip(s)[|Strip(s)| - 1]))
    ensures TrimmedAt(s, Strip(s), |s| - |LStrip(s)|)
  {
    LStripRemovesLeadingSpace(s);
    RStripRemovesTrailingSpace(LStrip(s));
    TrimmedWithin(s, LStrip(s), Strip(s));
  }

  /** Cutting a run of whitespace from the front, and then one from the
      back of what remains, trims s. */
  lemma TrimmedWithin(s: string, l: string, r: string)
    requires LeadingSpaceRemoved(s, l) && TrailingSpaceRemoved(l, r)
    ensures TrimmedAt(s, r, |s| - |l|)
    ensures r == "" || (!IsSpace(r[0]) && !IsSpace(r[|r| - 1]))
  {
    var i := |s| - |l|;
    assert s[i..i + |r|] == l[..|r|];
    assert s[i + |r|..] == l[|r|..];
    if r != "" {
      assert r[0] == l[0];
    }
  }

  /** A non-empty string whose last character strip would keep. */
  predicate EndsInNonSpace(s: string) {
    s != "" && !IsSpace(s[|s| - 1])
  }

  /** A string that starts and ends with a non-space character is left alone
      by strip, whatever whitespace follows it. */
  lemma {:induction false} StripFramed(s: string, t: string)
    requires s != "" && !IsSpace(s[0]) && !IsSpace(s[|s| - 1])
    requires AllSpace(t)
    ensures Strip(s + t) == s
  {
    assert (s + t)[0] == s[0];
    assert LStrip(s + t) == s + t;
    RStripTrailing(s, t);
  }

  /** A line made of a prefix and a text, ended by a line feed, strips to the
      prefix and the text, from which delete_prefix recovers the text. */
  lemma StripPrefixedLine(prefix: string, text: string)
    requires prefix != "" && !IsSpace(prefix[0])
    requires EndsInNonSpace(text)
    ensures Strip(prefix + text + "\n") == prefix + text
    ensures StartsWith(prefix + text, prefix)
    ensures DeletePrefix(prefix + text, prefix) == text
  {
    var s := prefix + text;
    assert s[0] == prefix[0] && s[|s| - 1] == text[|text| - 1];
    StripFramed(s, "\n");
    assert s[..|prefix|] == prefix;
    assert prefix + text + "\n" == s + "\n";
  }

  lemma {:induction false} RStripTrailing(s: string, t: string)
    requires s != "" && !IsSpace(s[|s| - 1])
    requires AllSpace(t)
    ensures RStrip(s + t) == s
    decreases |t|
  {
    if t == "" {
      assert s + t == s;
    } else {
      assert (s + t)[..|s + t| - 1] == s + t[..|t| - 1];
      RStripTrailing(s, t[..|t| - 1]);
    }
  }

  function DigitChar(d: nat): (c: char)
    requires d < 10
    ensures '0' <= c <= '9' && c as int - '0' as int == d
  {
    (('0' as int) + d) as char
  }

  /** Integer#to_s for a non-negative integer: decimal digits, no leading zero. */
  function NatToString(n: nat): (r: string)
    ensures r != ""
    ensures forall i :: 0 <= i < |r| ==> '0' <= r[i] <= '9'
    ensures |r| > 1 ==> r[0] != '0'
  {
    if n < 10 then [DigitChar(n)] else NatToString(n / 10) + [DigitChar(n % 10)]
  }

  /** Integer#to_s */
  function IntToString(i: int): (r: string)
    ensures r != ""
    ensures (i < 0) <==> r[0] == '-'
  {
    if i < 0 then "-" + NatToString(-i) else NatToString(i)
  }

  /** String#to_i on a string of decimal digits. */
  function DecimalValue(s: string): nat
    requires forall i :: 0 <= i < |s| ==> '0' <= s[i] <= '9'
  {
    if s == "" then 0 else DecimalValue(s[..|s| - 1]) * 10 + (s[|s| - 1] as int - '0' as int)
  }

  /** Reading back the decimal rendering of a number gives the number. */
  lemma {:induction false} DecimalRoundTrip(n: nat)
    ensures DecimalValue(NatToString(n)) == n
  {
    if n >= 10 {
      DecimalRoundTrip(n / 10);
      var r := NatToString(n);
      assert r[..|r| - 1] == NatToString(n / 10);
    }
  }

  /** A string contains nothing longer than itself, and nothing of its own
      length but itself. */
  lemma {:induction false} ContainsNoLonger(s: string, sub: string)
    requires |s| <= |sub|
    ensures Contains(s, sub) <==> s == sub
    decreases |s|
  {
    if s != "" {
      ContainsNoLonger(s[1..], sub);
    }
  }
}
