/** The two Foundation string routines the hex colour initialisers rely on:
    `trimmingCharacters(in: CharacterSet.alphanumerics.inverted)` and
    `Scanner.scanHexInt64`. Alphanumerics are taken to be the ASCII letters and digits. */
module FoundationText {
  import opened Arith

  const UInt64Max: nat := 0xFFFF_FFFF_FFFF_FFFF

  predicate IsAlphanumeric(c: char) {
    'a' <= c <= 'z' || 'A' <= c <= 'Z' || '0' <= c <= '9'
  }

  /** Number of non-alphanumeric characters before the first alphanumeric one. */
  function LeadingCount(s: string): (n: nat)
    ensures n <= |s|
    ensures forall i :: 0 <= i < n ==> !IsAlphanumeric(s[i])
    ensures n < |s| ==> IsAlphanumeric(s[n])
    decreases |s|
  {
    if s == [] || IsAlphanumeric(s[0]) then 0 else 1 + LeadingCount(s[1..])
  }

  /** Length of `s` once its trailing non-alphanumeric characters are cut off. */
  function KeptLength(s: string): (n: nat)
    ensures n <= |s|
    ensures forall i :: n <= i < |s| ==> !IsAlphanumeric(s[i])
    ensures 0 < n ==> IsAlphanumeric(s[n - 1])
    decreases |s|
  {
    if s == [] || IsAlphanumeric(s[|s| - 1]) then |s| else KeptLength(s[..|s| - 1])
  }

  /** `s.trimmingCharacters(in: .alphanumerics.inverted)`: the slice of `s` left after
      removing the non-alphanumeric characters at both ends. Characters inside the
      slice are kept whatever they are. */
  function TrimNonAlphanumerics(s: string): (t: string)
    ensures |t| <= |s|
    ensures t == [] || (IsAlphanumeric(t[0]) && IsAlphanumeric(t[|t| - 1]))
    ensures (exists i :: 0 <= i < |s| && IsAlphanumeric(s[i])) <==> t != []
    ensures LeadingCount(s) + |t| <= |s|
    ensures t == s[LeadingCount(s)..LeadingCount(s) + |t|]
    ensures forall i :: 0 <= i < LeadingCount(s) ==> !IsAlphanumeric(s[i])
    ensures forall i :: LeadingCount(s) + |t| <= i < |s| ==> !IsAlphanumeric(s[i])
  {
    var lead := LeadingCount(s);
    var rest := s[lead..];
    var t := rest[..KeptLength(rest)];
    TrimSlice(s, lead, rest, t);
    t
  }

  /** The facts about the slice kept by trimming, proved apart from the function. */
  lemma TrimSlice(s: string, lead: nat, rest: string, t: string)
    requires lead == LeadingCount(s) && rest == s[lead..] && t == rest[..KeptLength(rest)]
    ensures lead + |t| <= |s| && t == s[lead..lead + |t|]
    ensures forall i :: lead + |t| <= i < |s| ==> !IsAlphanumeric(s[i])
    ensures (exists i :: 0 <= i < |s| && IsAlphanumeric(s[i])) <==> t != []
  {
    assert forall i :: 0 <= i < |rest| ==> rest[i] == s[lead + i];
    if t != [] {
      assert IsAlphanumeric(s[lead]);
    }
  }

  predicate IsHexDigit(c: char) {
    '0' <= c <= '9' || 'a' <= c <= 'f' || 'A' <= c <= 'F'
  }

  predicate AllHex(s: string) {
    forall i :: 0 <= i < |s| ==> IsHexDigit(s[i])
  }

  function HexDigitValue(c: char): (d: nat)
    requires IsHexDigit(c)
    ensures d < 16
  {
    if '0' <= c <= '9' then c as int - '0' as int
    else if 'a' <= c <= 'f' then c as int - 'a' as int + 10
    else c as int - 'A' as int + 10
  }

  /** Upper-case hex digit for a nibble. */
  function HexDigitChar(d: nat): (c: char)
    requires d < 16
    ensures IsHexDigit(c) && IsAlphanumeric(c) && HexDigitValue(c) == d
  {
    if d < 10 then ('0' as int + d) as char else ('A' as int + d - 10) as char
  }

  function Pow16(k: nat): (p: nat)
    ensures p > 0
  {
    if k == 0 then 1 else 16 * Pow16(k - 1)
  }

  /** The value of a string of hex digits, most significant first. */
  function HexValue(s: string): (v: nat)
    requires AllHex(s)
    ensures v < Pow16(|s|)
    decreases |s|
  {
    if s == [] then 0 else HexValue(s[..|s| - 1]) * 16 + HexDigitValue(s[|s| - 1])
  }

  /** The longest prefix of `s` made of hex digits. */
  function LeadingHexRun(s: string): (r: string)
    ensures |r| <= |s| && r == s[..|r|] && AllHex(r)
    ensures |r| < |s| ==> !IsHexDigit(s[|r|])
    decreases |s|
  {
    if s == [] || !IsHexDigit(s[0]) then [] else [s[0]] + LeadingHexRun(s[1..])
  }

  /** `Scanner(string: s).scanHexInt64(&v)` with `v` starting at 0: the value of the
      leading run of hex digits, 0 when there is none, `UInt64.max` on overflow. */
  function ScanHexInt64(s: string): (v: nat)
    ensures v <= UInt64Max
    ensures v < Pow16(|s|)
  {
    var run := LeadingHexRun(s);
    PowMonotone(|run|, |s|);
    if HexValue(run) <= UInt64Max then HexValue(run) else UInt64Max
  }

  lemma {:induction false} PowMonotone(j: nat, k: nat)
    requires j <= k
    ensures Pow16(j) <= Pow16(k)
    decreases k
  {
    if j < k { PowMonotone(j, k - 1); }
  }

  /** Trimming twice is trimming once. */
  lemma TrimIdempotent(s: string)
    ensures TrimNonAlphanumerics(TrimNonAlphanumerics(s)) == TrimNonAlphanumerics(s)
  {
    var t := TrimNonAlphanumerics(s);
    TrimKeepsEdgeAlphanumeric(t);
  }

  /** A string that starts and ends with an alphanumeric character (or is empty) is
      left as it is; in particular any string of hex digits. */
  lemma TrimKeepsEdgeAlphanumeric(s: string)
    requires s == [] || (IsAlphanumeric(s[0]) && IsAlphanumeric(s[|s| - 1]))
    ensures TrimNonAlphanumerics(s) == s
  {
    if s != [] {
      assert LeadingCount(s) == 0;
    }
  }

  /** A leading non-alphanumeric character such as '#' makes no difference. */
  lemma TrimSkipsLeadingMark(c: char, s: string)
    requires !IsAlphanumeric(c)
    ensures TrimNonAlphanumerics([c] + s) == TrimNonAlphanumerics(s)
  {
    var cs := [c] + s;
    assert cs[1..] == s;
    assert LeadingCount(cs) == 1 + LeadingCount(s);
    assert cs[LeadingCount(cs)..] == s[LeadingCount(s)..];
  }

  /** Appending one hex digit shifts the value up by one place. */
  lemma {:induction false} HexValueSnoc(s: string, c: char)
    requires AllHex(s) && IsHexDigit(c)
    ensures AllHex(s + [c]) && HexValue(s + [c]) == HexValue(s) * 16 + HexDigitValue(c)
  {
    assert (s + [c])[..|s|] == s;
  }

  /** The value of a concatenation of hex strings. */
  lemma {:induction false} HexValueAppend(s: string, t: string)
    requires AllHex(s) && AllHex(t)
    ensures AllHex(s + t) && HexValue(s + t) == HexValue(s) * Pow16(|t|) + HexValue(t)
    decreases |t|
  {
    if t == [] {
      assert s + t == s;
    } else {
      var init, c := t[..|t| - 1], t[|t| - 1];
      assert t == init + [c];
      assert s + t == (s + init) + [c];
      HexValueAppend(s, init);
      HexValueSnoc(s + init, c);
      assert HexValue(t) == HexValue(init) * 16 + HexDigitValue(c);
      PlaceValue(HexValue(s), Pow16(|init|), HexValue(init), HexDigitValue(c), 16);
    }
  }

  /** A string made only of hex digits is scanned whole. */
  lemma ScanAllHex(s: string)
    requires AllHex(s) && |s| <= 8
    ensures ScanHexInt64(s) == HexValue(s)
  {
    var run := LeadingHexRun(s);
    assert run == s;
    PowMonotone(|s|, 8);
    assert Pow16(8) == 0x1_0000_0000 by {
      assert Pow16(2) == 0x100;
      assert Pow16(4) == 0x1_0000;
      assert Pow16(6) == 0x100_0000;
    }
  }
}
