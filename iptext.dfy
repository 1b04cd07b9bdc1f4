/**
 * The textual side of addresses: the validators `simpleIPCheck` and
 * `simpleSubnetCheck`, written over JavaScript's `String.prototype.split`
 * and `parseInt(part, 10)`, and the reading of an accepted string into an
 * `Addr`.
 */
module IpText {
  import opened Options
  import opened Addressing

  /** `s.split(sep)`: the pieces between separators; `''` splits into `['']`. */
  function Split(s: string, sep: char): (parts: seq<string>)
    ensures |parts| >= 1
  {
    if s == [] then [[]]
    else if s[0] == sep then [[]] + Split(s[1..], sep)
    else
      var rest := Split(s[1..], sep);
      [[s[0]] + rest[0]] + rest[1..]
  }

  /**
   * The characters `parseInt` skips before the number: the ECMAScript
   * WhiteSpace (tab, vertical tab, form feed, space, no-break space, byte
   * order mark and the Zs category) and LineTerminator sets.
   */
  predicate IsJsSpace(ch: char)
  {
    ch == '\t' || ch == '\n' || ch == '\r' || ch == '\U{000B}' || ch == '\U{000C}'
    || ch == ' ' || ch == '\U{00A0}' || ch == '\U{FEFF}' || ch == '\U{1680}'
    || ('\U{2000}' <= ch <= '\U{200A}') || ch == '\U{2028}' || ch == '\U{2029}'
    || ch == '\U{202F}' || ch == '\U{205F}' || ch == '\U{3000}'
  }

  predicate IsDigit(ch: char) { '0' <= ch <= '9' }

  function TrimStart(s: string): (r: string)
    ensures |r| <= |s| && r == s[|s| - |r|..]
    ensures r != [] ==> !IsJsSpace(r[0])
  {
    if s != [] && IsJsSpace(s[0]) then TrimStart(s[1..]) else s
  }

  /** The longest prefix of `s` made of decimal digits. */
  function DigitPrefix(s: string): (r: string)
    ensures |r| <= |s| && r == s[..|r|]
    ensures forall i :: 0 <= i < |r| ==> IsDigit(r[i])
  {
    if s != [] && IsDigit(s[0]) then [s[0]] + DigitPrefix(s[1..]) else []
  }

  /** The number a string of decimal digits denotes. */
  function DigitsValue(s: string): nat
    requires forall i :: 0 <= i < |s| ==> IsDigit(s[i])
  {
    if s == [] then 0
    else
      var last := s[|s| - 1];
      assert IsDigit(last);
      10 * DigitsValue(s[..|s| - 1]) + (last as int - '0' as int)
  }

  /**
   * `parseInt(s, 10)`: leading white space is skipped, one optional sign is
   * read, then the longest run of digits; `None` stands for `NaN` (no
   * digit).  `-0` and `0` are both 0, which the range test below treats the
   * same way.
   */
  function ParseInt(s: string): Option<int>
  {
    var t := TrimStart(s);
    var negative := t != [] && t[0] == '-';
    var u := if t != [] && (t[0] == '-' || t[0] == '+') then t[1..] else t;
    var p := DigitPrefix(u);
    if p == [] then None
    else if negative then Some(-(DigitsValue(p) as int))
    else Some(DigitsValue(p) as int)
  }

  /** One piece passes `simpleIPCheck`: a number in 0..255 after `parseInt`. */
  predicate OctetText(part: string)
  {
    var n := ParseInt(part);
    n.Some? && 0 <= n.value <= 255
  }

  /**
   * `simpleIPCheck(ip)`: the empty string, `'N/A'` and `'0.0.0.0'` are
   * accepted outright; anything else must split on dots into exactly four
   * pieces that each parse to a number in 0..255.
   */
  predicate SimpleIPCheck(ip: string)
  {
    if ip == "" || ip == "N/A" || ip == "0.0.0.0" then true
    else
      var parts := Split(ip, '.');
      |parts| == 4 && forall i :: 0 <= i < 4 ==> OctetText(parts[i])
  }

  /** The eleven masks `simpleSubnetCheck` accepts by name. */
  const WhitelistedMasks: seq<string> := [
    "255.255.255.0", "255.255.0.0", "255.0.0.0", "255.255.255.128",
    "255.255.255.192", "255.255.255.224", "255.255.255.240", "255.255.255.248",
    "255.255.255.252", "255.255.255.254", "255.255.255.255"
  ]

  /**
   * `simpleSubnetCheck(mask)`: the empty string and `'0.0.0.0'` are
   * rejected, the whitelisted masks accepted, and anything else is judged
   * by `simpleIPCheck`.
   */
  predicate SimpleSubnetCheck(mask: string)
  {
    if mask == "" || mask == "0.0.0.0" then false
    else if mask in WhitelistedMasks then true
    else SimpleIPCheck(mask)
  }

  /**
   * The address an accepted string denotes once stored in a device.  The
   * model keeps addresses parsed, so spellings such as `'010.1.1.1'` and
   * `'10.1.1.1'` denote the same address.
   */
  function ToAddr(s: string): Addr
  {
    if s == "" then Unset
    else if s == "N/A" then NA
    else
      var parts := Split(s, '.');
      if |parts| == 4 && forall i :: 0 <= i < 4 ==> OctetText(parts[i]) then
        Quad(ParseInt(parts[0]).value as Octet, ParseInt(parts[1]).value as Octet,
             ParseInt(parts[2]).value as Octet, ParseInt(parts[3]).value as Octet)
      else Unset
  }

  // Printing an address in its canonical dotted form.

  function DigitChar(n: nat): (ch: char)
    requires n < 10
    ensures IsDigit(ch) && ch as int - '0' as int == n
  {
    ('0' as int + n) as char
  }

  /** The decimal numeral of `n`, without leading zeros. */
  function Digits(n: nat): (s: string)
    ensures |s| >= 1
    ensures forall i :: 0 <= i < |s| ==> IsDigit(s[i])
  {
    if n < 10 then [DigitChar(n)] else Digits(n / 10) + [DigitChar(n % 10)]
  }

  /** The canonical dotted-quad spelling of an address. */
  function Format(q: Addr): string
    requires q.Quad?
  {
    Digits(q.a as nat) + "." + Digits(q.b as nat) + "." + Digits(q.c as nat) + "." + Digits(q.d as nat)
  }

  lemma {:induction false} DigitsValueOfDigits(n: nat)
    ensures DigitsValue(Digits(n)) == n
  {
    if n >= 10 {
      var s := Digits(n);
      assert s[..|s| - 1] == Digits(n / 10);
      DigitsValueOfDigits(n / 10);
    }
  }

  lemma {:induction false} DigitPrefixOfDigitString(s: string)
    requires forall i :: 0 <= i < |s| ==> IsDigit(s[i])
    ensures DigitPrefix(s) == s
    decreases |s|
  {
    if s != [] {
      DigitPrefixOfDigitString(s[1..]);
    }
  }

  lemma DigitIsNotSpace(ch: char)
    requires IsDigit(ch)
    ensures !IsJsSpace(ch) && ch != '-' && ch != '+'
  {
  }

  /** `parseInt` reads a plain numeral back as its value. */
  lemma ParseIntOfDigits(n: nat)
    ensures ParseInt(Digits(n)) == Some(n as int)
  {
    var s := Digits(n);
    DigitIsNotSpace(s[0]);
    assert TrimStart(s) == s;
    DigitPrefixOfDigitString(s);
    DigitsValueOfDigits(n);
  }

  lemma {:induction false} SplitNoSeparator(s: string, sep: char)
    requires forall i :: 0 <= i < |s| ==> s[i] != sep
    ensures Split(s, sep) == [s]
    decreases |s|
  {
    if s != [] {
      SplitNoSeparator(s[1..], sep);
      assert s[0] != sep;
      assert [s[0]] + s[1..] == s;
    }
  }

  lemma {:induction false} SplitAtSeparator(x: string, sep: char, y: string)
    requires forall i :: 0 <= i < |x| ==> x[i] != sep
    ensures Split(x + [sep] + y, sep) == [x] + Split(y, sep)
    decreases |x|
  {
    if x == [] {
      assert x + [sep] + y == [sep] + y;
      assert ([sep] + y)[1..] == y;
    } else {
      var s := x + [sep] + y;
      assert s[0] == x[0];
      assert s[1..] == x[1..] + [sep] + y;
      SplitAtSeparator(x[1..], sep, y);
      assert [x[0]] + x[1..] == x;
    }
  }

  lemma SplitOfFormat(q: Addr)
    requires q.Quad?
    ensures Split(Format(q), '.') == [Digits(q.a as nat), Digits(q.b as nat), Digits(q.c as nat), Digits(q.d as nat)]
  {
    var a, b, c, d := Digits(q.a as nat), Digits(q.b as nat), Digits(q.c as nat), Digits(q.d as nat);
    assert Format(q) == a + ['.'] + (b + ['.'] + (c + ['.'] + d));
    SplitAtSeparator(a, '.', b + ['.'] + (c + ['.'] + d));
    SplitAtSeparator(b, '.', c + ['.'] + d);
    SplitAtSeparator(c, '.', d);
    SplitNoSeparator(d, '.');
  }

  /** The four pieces of a canonical address are its octets, each a valid octet text. */
  lemma FormatParts(q: Addr)
    requires q.Quad?
    ensures var parts := Split(Format(q), '.');
      |parts| == 4 && (forall i :: 0 <= i < 4 ==> OctetText(parts[i]))
      && ParseInt(parts[0]) == Some(q.a as int) && ParseInt(parts[1]) == Some(q.b as int)
      && ParseInt(parts[2]) == Some(q.c as int) && ParseInt(parts[3]) == Some(q.d as int)
  {
    var a, b, c, d := Digits(q.a as nat), Digits(q.b as nat), Digits(q.c as nat), Digits(q.d as nat);
    SplitOfFormat(q);
    var parts := Split(Format(q), '.');
    assert parts == [a, b, c, d];
    ParseIntOfDigits(q.a as nat);
    ParseIntOfDigits(q.b as nat);
    ParseIntOfDigits(q.c as nat);
    ParseIntOfDigits(q.d as nat);
    forall i | 0 <= i < 4
      ensures OctetText(parts[i])
    {
      if i == 0 {
        assert parts[i] == a;
      } else if i == 1 {
        assert parts[i] == b;
      } else if i == 2 {
        assert parts[i] == c;
      } else {
        assert parts[i] == d;
      }
    }
  }

  /** A canonical address starts with a digit, so it is neither empty nor `'N/A'`. */
  lemma FormatIsNotSpecial(q: Addr)
    requires q.Quad?
    ensures Format(q) != "" && Format(q) != "N/A"
  {
    var s := Format(q);
    var a := Digits(q.a as nat);
    assert s[0] == a[0];
    assert IsDigit(s[0]);
  }

  /**
   * Every address printed in canonical form passes `simpleIPCheck` and
   * reads back as the same address.
   */
  lemma FormatRoundTrip(q: Addr)
    requires q.Quad?
    ensures SimpleIPCheck(Format(q))
    ensures ToAddr(Format(q)) == q
  {
    FormatParts(q);
    FormatIsNotSpecial(q);
  }

  /**
   * `simpleSubnetCheck` is not a mask check: the canonical spelling of every
   * dotted quad, contiguous mask or not, is accepted, `0.0.0.0` alone
   * excepted.
   */
  lemma SubnetCheckOfFormat(q: Addr)
    requires q.Quad?
    ensures SimpleSubnetCheck(Format(q)) <==> q != Zero
  {
    var s := Format(q);
    FormatRoundTrip(q);
    assert s != "" by { assert |s| >= 7; }
    assert SimpleSubnetCheck(s) <==> s != "0.0.0.0";
    FormatOfZero();
    if s == "0.0.0.0" {
      calc {
        q;
        ToAddr(s);
        { FormatRoundTrip(Zero); }
        Zero;
      }
    }
  }

  lemma FormatOfZero()
    ensures Format(Zero) == "0.0.0.0"
  {
    assert Digits(0) == "0";
  }

  /**
   * Instances: `'N/A'` and the non-contiguous `255.0.255.0` pass, the empty
   * string and `'0.0.0.0'` do not.
   */
  lemma SubnetCheckAcceptsNonMasks()
    ensures SimpleSubnetCheck("N/A")
    ensures SimpleSubnetCheck("255.0.255.0")
    ensures !SimpleSubnetCheck("") && !SimpleSubnetCheck("0.0.0.0")
  {
    var q := Quad(255, 0, 255, 0);
    assert Digits(255) == "255" && Digits(0) == "0";
    assert Format(q) == "255.0.255.0";
    SubnetCheckOfFormat(q);
  }
}
