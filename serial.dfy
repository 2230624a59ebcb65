/**
 * The serial number line: each identity word rendered as Python's "%08X"
 * (upper-case hexadecimal, zero-padded to at least eight digits) and the
 * three joined with hyphens.
 */
module Serial {
  import opened RegisterBlock
  import opened Decoder

  const HEX_DIGITS: string := "0123456789ABCDEF"

  predicate IsHexDigit(c: char)
  {
    c in HEX_DIGITS
  }

  /** Every character an upper-case hexadecimal digit. */
  predicate IsUpperHex(s: string)
  {
    forall i :: 0 <= i < |s| ==> IsHexDigit(s[i])
  }

  function DigitChar(d: nat): (c: char)
    requires d < 16
    ensures IsHexDigit(c)
  {
    HEX_DIGITS[d]
  }

  /** The value of one upper-case hexadecimal digit; 0 for any other character. */
  function DigitValue(c: char): (d: nat)
    ensures d < 16
    ensures IsHexDigit(c) ==> DigitChar(d) == c
  {
    if '0' <= c <= '9' then c as int - '0' as int
    else if 'A' <= c <= 'F' then c as int - 'A' as int + 10
    else 0
  }

  /** The number a string of hexadecimal digits denotes, most significant first. */
  function HexValue(s: string): nat
  {
    if s == [] then 0 else 16 * HexValue(s[..|s| - 1]) + DigitValue(s[|s| - 1])
  }

  function Pow16(n: nat): (r: nat)
    ensures r >= 1
  {
    if n == 0 then 1 else 16 * Pow16(n - 1)
  }

  /** `v` in upper-case hexadecimal with no leading zeros ("0" for zero): Python's "%X". */
  function Hex(v: nat): string
  {
    if v < 16 then [DigitChar(v)] else Hex(v / 16) + [DigitChar(v % 16)]
  }

  /** Left-pads `s` with '0' up to `width` characters. */
  function ZeroPad(s: string, width: nat): string
  {
    if |s| >= width then s else seq(width - |s|, _ => '0') + s
  }

  /** Python's "%08X". */
  function Hex8(v: nat): string
  {
    ZeroPad(Hex(v), 8)
  }

  /** Each digit character reads back as the digit it shows. */
  lemma DigitRoundTrip(d: nat)
    requires d < 16
    ensures DigitValue(DigitChar(d)) == d
  {
    assert HEX_DIGITS == ['0', '1', '2', '3', '4', '5', '6', '7', '8', '9', 'A', 'B', 'C', 'D', 'E', 'F'];
  }

  /** "%X" is upper-case hexadecimal that reads back as `v`. */
  lemma {:induction false} HexCorrect(v: nat)
    ensures IsUpperHex(Hex(v)) && HexValue(Hex(v)) == v
    ensures |Hex(v)| >= 1
  {
    if v < 16 {
      DigitRoundTrip(v);
    } else {
      HexCorrect(v / 16);
      DigitRoundTrip(v % 16);
      var p := Hex(v / 16);
      var s := p + [DigitChar(v % 16)];
      assert Hex(v) == s;
      assert s[..|s| - 1] == p;
      assert HexValue(s) == 16 * (v / 16) + v % 16;
      forall i | 0 <= i < |s| ensures IsHexDigit(s[i]) {
        if i < |p| { assert s[i] == p[i]; }
      }
    }
  }

  /** A value below 16^n takes at most n digits. */
  lemma {:induction false} HexLength(v: nat, n: nat)
    requires 1 <= n && v < Pow16(n)
    ensures |Hex(v)| <= n
  {
    if v >= 16 {
      assert n >= 2;
      HexLength(v / 16, n - 1);
    }
  }

  /** Leading zeros do not change the value. */
  lemma {:induction false} LeadingZeros(k: nat, s: string)
    ensures HexValue(seq(k, _ => '0') + s) == HexValue(s)
    decreases |s|, k
  {
    var z: string := seq(k, _ => '0');
    if s == [] {
      assert z + s == z;
      if k > 0 {
        assert z[..k - 1] == seq(k - 1, _ => '0') + [];
        LeadingZeros(k - 1, []);
      }
    } else {
      var t := z + s;
      assert t[..|t| - 1] == z + s[..|s| - 1];
      LeadingZeros(k, s[..|s| - 1]);
    }
  }

  /** Zero padding to `width` keeps a hex string hexadecimal and keeps its value. */
  lemma ZeroPadCorrect(s: string, width: nat)
    requires IsUpperHex(s) && |s| <= width
    ensures |ZeroPad(s, width)| == width
    ensures IsUpperHex(ZeroPad(s, width)) && HexValue(ZeroPad(s, width)) == HexValue(s)
  {
    if |s| < width {
      var z: string := seq(width - |s|, _ => '0');
      LeadingZeros(width - |s|, s);
      assert ZeroPad(s, width) == z + s;
      forall i | 0 <= i < width ensures IsHexDigit((z + s)[i]) {
        if i < |z| {
          assert (z + s)[i] == '0';
        } else {
          assert (z + s)[i] == s[i - |z|];
        }
      }
    }
  }

  /** "%08X" of a 32-bit value: exactly eight upper-case hex digits denoting the value. */
  lemma Hex8Correct(v: nat)
    requires v < 0x1_0000_0000
    ensures |Hex8(v)| == 8 && IsUpperHex(Hex8(v)) && HexValue(Hex8(v)) == v
  {
    HexCorrect(v);
    assert Pow16(8) == 0x1_0000_0000;
    HexLength(v, 8);
    ZeroPadCorrect(Hex(v), 8);
  }

  /** The printed serial number "UID0-UID1-UID2". */
  function SerialNumber(buf: Block): string
  {
    var u := DecodeIdentity(buf);
    Hex8(u.uid0) + "-" + Hex8(u.uid1) + "-" + Hex8(u.uid2)
  }

  /** Where the three segments sit in a hyphen-joined string of three eight-character parts. */
  lemma JoinedSegments(a: string, b: string, c: string)
    requires |a| == 8 && |b| == 8 && |c| == 8
    ensures var s := a + "-" + b + "-" + c;
      |s| == 26 && s[8] == '-' && s[17] == '-' && s[0..8] == a && s[9..17] == b && s[18..26] == c
  {
  }

  /**
   * The serial number is 26 characters: three eight-digit upper-case hex
   * segments at 0..7, 9..16, 18..25, each denoting its identity word, with
   * '-' at positions 8 and 17.
   */
  lemma SerialShape(buf: Block)
    ensures var s, u := SerialNumber(buf), DecodeIdentity(buf);
      && |s| == 26 && s[8] == '-' && s[17] == '-'
      && IsUpperHex(s[0..8]) && HexValue(s[0..8]) == u.uid0
      && IsUpperHex(s[9..17]) && HexValue(s[9..17]) == u.uid1
      && IsUpperHex(s[18..26]) && HexValue(s[18..26]) == u.uid2
  {
    var u := DecodeIdentity(buf);
    Hex8Correct(u.uid0);
    Hex8Correct(u.uid1);
    Hex8Correct(u.uid2);
    JoinedSegments(Hex8(u.uid0), Hex8(u.uid1), Hex8(u.uid2));
  }

  /** Two devices print the same serial number only if their identity words agree. */
  lemma SerialInjective(a: Block, b: Block)
    requires SerialNumber(a) == SerialNumber(b)
    ensures DecodeIdentity(a) == DecodeIdentity(b)
  {
    SerialShape(a);
    SerialShape(b);
  }

  /** The last digit and the rest of a hexadecimal number are determined by its value. */
  lemma DigitPlaceUnique(a: nat, x: nat, b: nat, y: nat)
    requires x < 16 && y < 16 && 16 * a + x == 16 * b + y
    ensures a == b && x == y
  {
  }

  /** Equal-length hex strings that denote the same number are the same string. */
  lemma {:induction false} HexValueInjective(s: string, t: string)
    requires |s| == |t| && IsUpperHex(s) && IsUpperHex(t) && HexValue(s) == HexValue(t)
    ensures s == t
    decreases |s|
  {
    if s != [] {
      var n := |s| - 1;
      var sp, tp := s[..n], t[..n];
      assert HexValue(s) == 16 * HexValue(sp) + DigitValue(s[n]);
      assert HexValue(t) == 16 * HexValue(tp) + DigitValue(t[n]);
      DigitPlaceUnique(HexValue(sp), DigitValue(s[n]), HexValue(tp), DigitValue(t[n]));
      assert IsHexDigit(s[n]) && IsHexDigit(t[n]);
      assert s[n] == t[n];
      assert IsUpperHex(sp) by {
        forall i | 0 <= i < n ensures IsHexDigit(sp[i]) { assert sp[i] == s[i]; }
      }
      assert IsUpperHex(tp) by {
        forall i | 0 <= i < n ensures IsHexDigit(tp[i]) { assert tp[i] == t[i]; }
      }
      HexValueInjective(sp, tp);
      assert s == sp + [s[n]];
      assert t == tp + [t[n]];
    }
  }

  /** Appending a digit shifts the value one hex place and adds the digit. */
  lemma HexValueSnoc(p: string, c: char)
    ensures HexValue(p + [c]) == 16 * HexValue(p) + DigitValue(c)
  {
    assert (p + [c])[..|p|] == p;
  }

  /** "1234" denotes 0x1234. */
  lemma WantValueHigh()
    ensures HexValue("1234") == 0x1234
  {
    assert HexValue("1") == 0x1 by {
      HexValueSnoc("", '1');
      assert "" + ['1'] == "1";
    }
    assert HexValue("12") == 0x12 by {
      HexValueSnoc("1", '2');
      assert "1" + ['2'] == "12";
    }
    assert HexValue("123") == 0x123 by {
      HexValueSnoc("12", '3');
      assert "12" + ['3'] == "123";
    }
    HexValueSnoc("123", '4');
    assert "123" + ['4'] == "1234";
  }

  /** "12345678" denotes 0x12345678. */
  lemma WantValue()
    ensures HexValue("12345678") == 0x1234_5678
  {
    WantValueHigh();
    assert HexValue("12345") == 0x12345 by {
      HexValueSnoc("1234", '5');
      assert "1234" + ['5'] == "12345";
    }
    assert HexValue("123456") == 0x123456 by {
      HexValueSnoc("12345", '6');
      assert "12345" + ['6'] == "123456";
    }
    assert HexValue("1234567") == 0x1234567 by {
      HexValueSnoc("123456", '7');
      assert "123456" + ['7'] == "1234567";
    }
    HexValueSnoc("1234567", '8');
    assert "1234567" + ['8'] == "12345678";
  }

  /** "%08X" of 0x12345678 is "12345678". */
  lemma Hex8Example()
    ensures Hex8(0x1234_5678) == "12345678"
  {
    var want := "12345678";
    WantValue();
    assert IsUpperHex(want);
    Hex8Correct(0x1234_5678);
    HexValueInjective(Hex8(0x1234_5678), want);
  }

  /** Bytes 0x78, 0x56, 0x34, 0x12 in slots 240..243 print as "12345678". */
  lemma SerialExample(buf: Block)
    requires buf[240] == 0x78 && buf[241] == 0x56 && buf[242] == 0x34 && buf[243] == 0x12
    ensures SerialNumber(buf)[0..8] == "12345678"
  {
    var u := DecodeIdentity(buf);
    assert u.uid0 == 0x1234_5678;
    Hex8Example();
    Hex8Correct(u.uid1);
    Hex8Correct(u.uid2);
    JoinedSegments(Hex8(u.uid0), Hex8(u.uid1), Hex8(u.uid2));
  }
}
