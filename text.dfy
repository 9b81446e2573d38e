/** String helpers the player relies on: decimal numerals, `trim`, the extension-stripping
    regular expression of the ingestion loop, and `formatTime` (script.js). */
module Text {
  import opened Common

  predicate IsDigit(c: char)
  {
    '0' <= c <= '9'
  }

  predicate AllDigits(s: string)
  {
    forall i :: 0 <= i < |s| ==> IsDigit(s[i])
  }

  function DigitChar(d: nat): (c: char)
    requires d < 10
    ensures IsDigit(c)
  {
    ('0' as int + d) as char
  }

  function DigitValue(c: char): nat
    requires IsDigit(c)
  {
    c as int - '0' as int
  }

  /** `n.toString()` for a natural number: decimal, without leading zeros. */
  function NatToString(n: nat): (s: string)
    ensures 1 <= |s| && AllDigits(s)
    ensures (|s| == 1) == (n < 10)
    ensures s[0] != '0' || n == 0
    decreases n
  {
    if n < 10 then [DigitChar(n)] else NatToString(n / 10) + [DigitChar(n % 10)]
  }

  /** The value of a string of decimal digits, read left to right. */
  function DigitsValue(s: string): nat
    requires AllDigits(s)
    decreases |s|
  {
    if |s| == 0 then 0 else DigitsValue(s[..|s| - 1]) * 10 + DigitValue(s[|s| - 1])
  }

  /** A decimal numeral read as a natural number; None unless it is a non-empty run of digits. */
  function ParseNat(s: string): Option<nat>
  {
    if |s| > 0 && AllDigits(s) then Some(DigitsValue(s)) else None
  }

  lemma {:induction false} DigitsValueOfNatToString(n: nat)
    ensures DigitsValue(NatToString(n)) == n
    decreases n
  {
    var s := NatToString(n);
    if n < 10 {
      assert s[..|s| - 1] == [];
    } else {
      assert s[..|s| - 1] == NatToString(n / 10);
      DigitsValueOfNatToString(n / 10);
    }
  }

  /** Printing a natural number and reading it back gives the number. */
  lemma ParseNatToString(n: nat)
    ensures ParseNat(NatToString(n)) == Some(n)
  {
    DigitsValueOfNatToString(n);
  }

  /** `s.padStart(2, "0")` */
  function PadStart2(s: string): (r: string)
    ensures |s| <= |r| && r[|r| - |s|..] == s
    ensures forall i :: 0 <= i < |r| - |s| ==> r[i] == '0'
    ensures |r| == if |s| < 2 then 2 else |s|
  {
    if |s| == 0 then "00" else if |s| == 1 then "0" + s else s
  }

  /** The seconds field of `formatTime` is two digits that read back as the number. */
  lemma PaddedSeconds(r: nat)
    requires r < 60
    ensures |PadStart2(NatToString(r))| == 2
    ensures ParseNat(PadStart2(NatToString(r))) == Some(r)
  {
    var p := PadStart2(NatToString(r));
    if r < 10 {
      assert p == ['0', DigitChar(r)];
      assert p[..1] == ['0'] && ['0'][..0] == [];
      assert DigitValue(DigitChar(r)) == r;
      assert DigitsValue(p) == DigitsValue(['0']) * 10 + r;
    } else {
      assert |NatToString(r / 10)| == 1;
      assert |NatToString(r)| == 2;
      assert p == NatToString(r);
      ParseNatToString(r);
    }
  }

  /** `formatTime(seconds)` for a whole number of seconds: minutes, a colon, then the
      remaining seconds padded to two digits. */
  function FormatTime(seconds: nat): (r: string)
    ensures |r| >= 4 && r[|r| - 3] == ':'
  {
    PaddedSeconds(seconds % 60);
    NatToString(seconds / 60) + ":" + PadStart2(NatToString(seconds % 60))
  }

  /** Reads back an "M:SS" string (the inverse of FormatTime). */
  function ParseTime(t: string): Option<nat>
  {
    if |t| < 4 || t[|t| - 3] != ':' then None
    else
      var minutes := ParseNat(t[..|t| - 3]);
      var secs := ParseNat(t[|t| - 2..]);
      if minutes.Some? && secs.Some? && secs.value < 60 then Some(minutes.value * 60 + secs.value)
      else None
  }

  /** A minutes field, a colon and a two-digit seconds field read back as their total. */
  lemma ParseTimeOfFields(m: string, p: string, a: nat, b: nat)
    requires |m| >= 1 && |p| == 2 && b < 60
    requires ParseNat(m) == Some(a) && ParseNat(p) == Some(b)
    ensures ParseTime(m + ":" + p) == Some(a * 60 + b)
  {
    var t := m + ":" + p;
    assert t[..|t| - 3] == m;
    assert t[|t| - 2..] == p;
    assert t[|t| - 3] == ':';
  }

  /** A printed duration reads back as the number of seconds it was printed from. */
  lemma FormatTimeRoundTrip(seconds: nat)
    ensures ParseTime(FormatTime(seconds)) == Some(seconds)
  {
    PaddedSeconds(seconds % 60);
    ParseNatToString(seconds / 60);
    ParseTimeOfFields(NatToString(seconds / 60), PadStart2(NatToString(seconds % 60)), seconds / 60, seconds % 60);
  }

  /** Different durations never print alike. */
  lemma FormatTimeInjective(a: nat, b: nat)
    requires FormatTime(a) == FormatTime(b)
    ensures a == b
  {
    FormatTimeRoundTrip(a);
    FormatTimeRoundTrip(b);
  }

  /** White space and line terminators, the characters `String.prototype.trim` removes. */
  predicate IsSpace(c: char)
  {
    || c == ' ' || c == '\t' || c == '\n' || c == '\r' || c == '\U{000B}' || c == '\U{000C}'
    || c == '\U{00A0}' || c == '\U{FEFF}' || c == '\U{1680}' || ('\U{2000}' <= c <= '\U{200A}')
    || c == '\U{2028}' || c == '\U{2029}' || c == '\U{202F}' || c == '\U{205F}' || c == '\U{3000}'
  }

  function TrimStart(s: string): (r: string)
    ensures |r| <= |s| && r == s[|s| - |r|..]
    ensures forall i :: 0 <= i < |s| - |r| ==> IsSpace(s[i])
    ensures r == [] || !IsSpace(r[0])
    decreases |s|
  {
    if |s| > 0 && IsSpace(s[0]) then TrimStart(s[1..]) else s
  }

  function TrimEnd(s: string): (r: string)
    ensures |r| <= |s| && r == s[..|r|]
    ensures forall i :: |r| <= i < |s| ==> IsSpace(s[i])
    ensures r == [] || !IsSpace(r[|r| - 1])
    decreases |s|
  {
    if |s| > 0 && IsSpace(s[|s| - 1]) then TrimEnd(s[..|s| - 1]) else s
  }

  /** `s.trim()`: empty exactly when `s` is blank, otherwise it starts and ends with a
      character that is not white space; it is the slice of `s` left after dropping a
      prefix and a suffix made only of white space. */
  function Trim(s: string): (r: string)
    ensures r == [] <==> forall i :: 0 <= i < |s| ==> IsSpace(s[i])
    ensures r != [] ==> !IsSpace(r[0]) && !IsSpace(r[|r| - 1])
    ensures |r| <= |s|
    ensures exists a :: TrimmedAt(s, a, r)
  {
    var t := TrimStart(s);
    var r := TrimEnd(t);
    var a := |s| - |t|;
    assert TrimmedAt(s, a, r);
    r
  }

  /** `r` is the slice of `s` starting at `a`, and everything of `s` before and after that
      slice is white space. */
  predicate TrimmedAt(s: string, a: nat, r: string)
  {
    && a + |r| <= |s| && r == s[a..a + |r|]
    && (forall i :: 0 <= i < a ==> IsSpace(s[i]))
    && (forall i :: a + |r| <= i < |s| ==> IsSpace(s[i]))
  }

  /** Position `k` starts a match of `/\.[^/.]+$/`: a dot followed by at least one character,
      none of them a dot or a slash, up to the end of the string. */
  predicate ExtensionAt(s: string, k: int)
  {
    0 <= k < |s| - 1 && s[k] == '.' && forall j :: k < j < |s| ==> s[j] != '.' && s[j] != '/'
  }

  function LastDot(s: string): (k: int)
    ensures -1 <= k < |s|
    ensures k >= 0 ==> s[k] == '.'
    ensures forall j :: k < j < |s| ==> s[j] != '.'
    decreases |s|
  {
    if |s| == 0 then -1 else if s[|s| - 1] == '.' then |s| - 1 else LastDot(s[..|s| - 1])
  }

  /** At most one position starts an extension. */
  lemma ExtensionUnique(s: string, k1: int, k2: int)
    requires ExtensionAt(s, k1) && ExtensionAt(s, k2)
    ensures k1 == k2
  {
  }

  /** `name.replace(/\.[^/.]+$/, "")`, the title given to an ingested file: the name loses its
      last extension when it has one, and is kept whole otherwise. */
  function StripExtension(name: string): (r: string)
    ensures r == name <==> forall k {:trigger ExtensionAt(name, k)} :: !ExtensionAt(name, k)
    ensures r != name ==> ExtensionAt(name, |r|) && r == name[..|r|]
  {
    var k := LastDot(name);
    if ExtensionAt(name, k) then name[..k]
    else
      assert forall k' {:trigger ExtensionAt(name, k')} :: !ExtensionAt(name, k') by {
        forall k' | 0 <= k' < |name| ensures !ExtensionAt(name, k') {
          if k' < k {
            assert name[k] == '.';
          }
        }
      }
      name
  }

  /** A name of the form `base.ext`, with `ext` free of dots and slashes, yields `base`. */
  lemma StripKnownExtension(base: string, ext: string)
    requires |ext| >= 1
    requires forall i :: 0 <= i < |ext| ==> ext[i] != '.' && ext[i] != '/'
    ensures StripExtension(base + "." + ext) == base
  {
    var name := base + "." + ext;
    assert ExtensionAt(name, |base|) by {
      forall j | |base| < j < |name| ensures name[j] != '.' && name[j] != '/' {
        assert name[j] == ext[j - |base| - 1];
      }
    }
    var r := StripExtension(name);
    ExtensionUnique(name, |r|, |base|);
    assert name[..|base|] == base;
  }
}
