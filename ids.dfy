/** Identifier formatting (`src/lib/ids.ts`): the fallback branch of `generateUuidV4`, given the
    16 random bytes, and `generatePin4`, given the random number. */
module Ids {
  import opened Strings

  // Number.prototype.toString(radix) and String.prototype.padStart for non-negative integers.

  /** The digit character for `d` as `toString` writes it: 0-9, then lower-case letters. */
  function DigitChar(d: nat): char
    requires d < 36
  {
    if d < 10 then ('0' as int + d) as char else ('a' as int + d - 10) as char
  }

  /** The value of a digit character, upper or lower case (0 for anything else). */
  function DigitValue(c: char): nat
  {
    if '0' <= c <= '9' then c as int - '0' as int
    else if 'a' <= c <= 'z' then c as int - 'a' as int + 10
    else if 'A' <= c <= 'Z' then c as int - 'A' as int + 10
    else 0
  }

  /** `n.toString(radix)`: the digits of `n` without leading zeros. */
  function NumberToString(n: nat, radix: nat): (r: string)
    requires 2 <= radix <= 36
    ensures |r| >= 1
    decreases n
  {
    if n < radix then [DigitChar(n)]
    else NumberToString(n / radix, radix) + [DigitChar(n % radix)]
  }

  /** `s.padStart(len, c)`: `c` repeated in front of `s` up to length `len`. */
  function PadStart(s: string, len: nat, c: char): (r: string)
  {
    if |s| >= len then s else Repeat(c, len - |s|) + s
  }

  function Repeat(c: char, k: nat): (r: string)
    ensures |r| == k && forall i :: 0 <= i < k ==> r[i] == c
  {
    if k == 0 then [] else Repeat(c, k - 1) + [c]
  }

  /** The number a string of digits stands for in base `radix`. */
  function ValueOf(s: string, radix: nat): nat
  {
    if s == [] then 0 else ValueOf(s[..|s| - 1], radix) * radix + DigitValue(s[|s| - 1])
  }

  function Pow(b: nat, k: nat): nat
  {
    if k == 0 then 1 else b * Pow(b, k - 1)
  }

  lemma DigitCharValue(d: nat)
    requires d < 36
    ensures DigitValue(DigitChar(d)) == d
  {
  }

  /** `toString(radix)` spells its argument in base `radix`. */
  lemma {:induction false} NumberToStringValue(n: nat, radix: nat)
    requires 2 <= radix <= 36
    ensures ValueOf(NumberToString(n, radix), radix) == n
    decreases n
  {
    if n >= radix {
      var q, d := n / radix, n % radix;
      var s := NumberToString(q, radix);
      DivShrinks(n, radix);
      NumberToStringValue(q, radix);
      AppendDigit(n, radix, s);
      assert NumberToString(n, radix) == s + [DigitChar(d)];
    } else {
      ValueOfSnoc([], DigitChar(n), radix);
      DigitCharValue(n);
    }
  }

  /** Appending the last digit of `n` to a spelling of `n / radix` spells `n`. */
  lemma AppendDigit(n: nat, radix: nat, s: string)
    requires 2 <= radix <= 36 && ValueOf(s, radix) == n / radix
    ensures ValueOf(s + [DigitChar(n % radix)], radix) == n
  {
    ValueOfSnoc(s, DigitChar(n % radix), radix);
    DigitCharValue(n % radix);
    Recompose(n, radix);
  }

  lemma Recompose(n: nat, b: nat)
    requires b > 0
    ensures (n / b) * b + n % b == n
  {
  }

  lemma ValueOfSnoc(s: string, c: char, radix: nat)
    ensures ValueOf(s + [c], radix) == ValueOf(s, radix) * radix + DigitValue(c)
  {
    assert (s + [c])[..|s|] == s;
  }

  lemma DivShrinks(n: nat, b: nat)
    requires b >= 2 && n >= 1
    ensures n / b < n
  {
    var q := n / b;
    assert q * b <= n;
    assert q * 2 <= q * b;
  }

  lemma DivBelow(n: nat, b: nat, p: nat)
    requires b > 0 && n < b * p
    ensures n / b < p
  {
  }

  lemma {:induction false} NumberToStringLength(n: nat, radix: nat, k: nat)
    requires 2 <= radix <= 36 && 1 <= k && n < Pow(radix, k)
    ensures |NumberToString(n, radix)| <= k
    decreases k
  {
    if n >= radix {
      var p := Pow(radix, k - 1);
      assert Pow(radix, k) == radix * p;
      if k > 1 {
        DivBelow(n, radix, p);
        NumberToStringLength(n / radix, radix, k - 1);
      }
    }
  }

  lemma {:induction false} ZerosValue(k: nat, radix: nat)
    ensures ValueOf(Repeat('0', k), radix) == 0
  {
    if k > 0 {
      var z := Repeat('0', k);
      assert z[..k - 1] == Repeat('0', k - 1);
      ZerosValue(k - 1, radix);
    }
  }

  /** Leading zeros do not change the value of a digit string. */
  lemma {:induction false} LeadingZerosValue(k: nat, s: string, radix: nat)
    ensures ValueOf(Repeat('0', k) + s, radix) == ValueOf(s, radix)
  {
    var z := Repeat('0', k);
    if s == [] {
      assert z + s == z;
      ZerosValue(k, radix);
    } else {
      var zs := z + s;
      assert zs[..|zs| - 1] == z + s[..|s| - 1];
      assert zs[|zs| - 1] == s[|s| - 1];
      LeadingZerosValue(k, s[..|s| - 1], radix);
    }
  }

  // generatePin4

  /** `n.toString().padStart(4, '0')`; the source draws `n` uniformly from [0, 9999]. */
  function GeneratePin4(n: nat): (r: string)
    ensures |r| >= 4 && ValueOf(r, 10) == n
    ensures forall i :: 0 <= i < |r| ==> '0' <= r[i] <= '9'
  {
    var s := NumberToString(n, 10);
    NumberToStringValue(n, 10);
    NumberToStringDecimal(n);
    if |s| >= 4 then PadStart(s, 4, '0')
    else
      LeadingZerosValue(4 - |s|, s, 10);
      PadStart(s, 4, '0')
  }

  /** For every `n` the source can draw, the PIN is four decimal digits that spell `n`. */
  lemma Pin4Format(n: nat)
    requires n <= 9999
    ensures |GeneratePin4(n)| == 4
    ensures forall i :: 0 <= i < 4 ==> '0' <= GeneratePin4(n)[i] <= '9'
    ensures ValueOf(GeneratePin4(n), 10) == n
  {
    assert Pow(10, 4) == 10000 by {
      assert Pow(10, 2) == 100;
    }
    NumberToStringLength(n, 10, 4);
  }

  lemma {:induction false} NumberToStringDecimal(n: nat)
    ensures forall i :: 0 <= i < |NumberToString(n, 10)| ==> '0' <= NumberToString(n, 10)[i] <= '9'
    decreases n
  {
    if n >= 10 {
      NumberToStringDecimal(n / 10);
    }
  }


  // generateUuidV4, fallback branch

  /** `b.toString(16).padStart(2, '0')` for one byte value. */
  function ByteHex(b: nat): string
    requires b < 256
  {
    PadStart(NumberToString(b, 16), 2, '0')
  }

  /** The two lower-case hex digits of a byte, high nibble first. */
  lemma ByteHexDigits(b: nat)
    requires b < 256
    ensures ByteHex(b) == [DigitChar(b / 16), DigitChar(b % 16)]
  {
    if b >= 16 {
      assert NumberToString(b / 16, 16) == [DigitChar(b / 16)];
    } else {
      assert Repeat('0', 1) == ['0'];
      assert DigitChar(0) == '0';
    }
  }

  /** The version and variant bits of section 4.4 of RFC 4122, applied to bytes 6 and 8. */
  function Masked(bytes: seq<bv8>): (r: seq<bv8>)
    requires |bytes| == 16
    ensures |r| == 16
  {
    bytes[6 := (bytes[6] & 0x0F) | 0x40][8 := (bytes[8] & 0x3F) | 0x80]
  }

  /** A group of the template ends before byte `j`: the source's template puts a '-' after
      bytes 3, 5, 7 and 9. */
  predicate GroupStart(j: nat) { j == 4 || j == 6 || j == 8 || j == 10 }

  /** The source's template, lower case, up to byte `j`: the byte strings in order, with a
      '-' in front of bytes 4, 6, 8 and 10. */
  function Joined(hex: seq<string>, j: nat): string
    requires j <= |hex|
  {
    if j == 0 then ""
    else Joined(hex, j - 1) + (if GroupStart(j - 1) then "-" else "") + hex[j - 1]
  }

  function Template(hex: seq<string>): string
    requires |hex| == 16
  {
    Joined(hex, 16)
  }

  function HexStrings(bytes: seq<bv8>): (hex: seq<string>)
    requires |bytes| == 16
    ensures |hex| == 16
  {
    seq(16, i requires 0 <= i < 16 => ByteHex(bytes[i] as nat))
  }

  /** The identifier formatted from 16 bytes: the template, upper-cased. */
  function FormatUuid(bytes: seq<bv8>): (r: string)
    requires |bytes| == 16
    ensures |r| == 36
  {
    HexStringsArePairs(bytes);
    JoinedLength(HexStrings(bytes), 16);
    Upper(Template(HexStrings(bytes)))
  }

  /** `generateUuidV4` without a native `randomUUID`: `bytes` holds the 16 random bytes; bytes 6
      and 8 are masked in place, then the bytes are formatted. */
  method GenerateUuidV4(bytes: array<bv8>) returns (id: string)
    requires bytes.Length == 16
    modifies bytes
    ensures bytes[..] == Masked(old(bytes[..]))
    ensures id == FormatUuid(bytes[..])
  {
    bytes[6] := (bytes[6] & 0x0F) | 0x40;
    bytes[8] := (bytes[8] & 0x3F) | 0x80;
    var hex := HexStrings(bytes[..]);
    id := Upper(Template(hex));
  }

  // The layout of the formatted identifier.

  /** Where the high hex digit of byte `k` sits: two characters per byte plus one per dash
      before its group. */
  function HexPos(k: nat): nat
    requires k < 16
  {
    2 * k + (if k < 4 then 0 else if k < 6 then 1 else if k < 8 then 2 else if k < 10 then 3 else 4)
  }

  predicate IsDash(p: nat) { p == 8 || p == 13 || p == 18 || p == 23 }

  /** An upper-case hex digit character. */
  function UpperHexChar(d: nat): char
    requires d < 16
  {
    if d < 10 then ('0' as int + d) as char else ('A' as int + d - 10) as char
  }

  predicate IsUpperHexDigit(c: char) { '0' <= c <= '9' || 'A' <= c <= 'F' }

  /** Every byte string of `hex` has two characters. */
  predicate PairsOfDigits(hex: seq<string>)
  {
    forall k :: 0 <= k < |hex| ==> |hex[k]| == 2
  }

  /** The number of dashes in front of byte `j`. */
  function DashesBefore(j: nat): nat
  {
    if j <= 4 then 0 else if j <= 6 then 1 else if j <= 8 then 2 else if j <= 10 then 3 else 4
  }

  lemma {:induction false} JoinedLength(hex: seq<string>, j: nat)
    requires j <= |hex| && PairsOfDigits(hex)
    ensures |Joined(hex, j)| == 2 * j + DashesBefore(j)
  {
    if j > 0 {
      JoinedLength(hex, j - 1);
    }
  }

  /** Byte string `k` starts at `HexPos(k)`. */
  lemma {:induction false} JoinedByte(hex: seq<string>, j: nat, k: nat)
    requires k < j <= |hex| && k < 16 && PairsOfDigits(hex)
    ensures |Joined(hex, j)| == 2 * j + DashesBefore(j)
    ensures Joined(hex, j)[HexPos(k)] == hex[k][0] && Joined(hex, j)[HexPos(k) + 1] == hex[k][1]
  {
    JoinedLength(hex, j);
    JoinedLength(hex, j - 1);
    if k < j - 1 {
      JoinedByte(hex, j - 1, k);
    }
  }

  /** The dashes sit at 8, 13, 18 and 23. */
  lemma {:induction false} JoinedDashes(hex: seq<string>, j: nat)
    requires j <= |hex| && PairsOfDigits(hex)
    ensures |Joined(hex, j)| == 2 * j + DashesBefore(j)
    ensures forall p :: 0 <= p < |Joined(hex, j)| && IsDash(p) ==> Joined(hex, j)[p] == '-'
  {
    JoinedLength(hex, j);
    if j > 0 {
      JoinedDashes(hex, j - 1);
      JoinedLength(hex, j - 1);
    }
  }

  lemma TemplateDashes(hex: seq<string>)
    requires |hex| == 16 && PairsOfDigits(hex)
    ensures |Template(hex)| == 36
    ensures forall p :: 0 <= p < 36 && IsDash(p) ==> Template(hex)[p] == '-'
  {
    JoinedDashes(hex, 16);
  }

  lemma TemplateByte(hex: seq<string>, k: nat)
    requires |hex| == 16 && PairsOfDigits(hex) && k < 16
    ensures |Template(hex)| == 36
    ensures Template(hex)[HexPos(k)] == hex[k][0] && Template(hex)[HexPos(k) + 1] == hex[k][1]
  {
    JoinedByte(hex, 16, k);
  }

  lemma UpperDigitChar(d: nat)
    requires d < 16
    ensures UpperChar(DigitChar(d)) == UpperHexChar(d)
  {
  }

  lemma HexStringsArePairs(bytes: seq<bv8>)
    requires |bytes| == 16
    ensures PairsOfDigits(HexStrings(bytes))
  {
    forall k | 0 <= k < 16
      ensures |HexStrings(bytes)[k]| == 2
    {
      ByteHexDigits(bytes[k] as nat);
    }
  }

  /** The dashes of the string layout of section 3 of RFC 4122 sit at 8, 13, 18 and 23. */
  lemma FormatUuidDashes(bytes: seq<bv8>)
    requires |bytes| == 16
    ensures |FormatUuid(bytes)| == 36
    ensures forall p :: 0 <= p < 36 && IsDash(p) ==> FormatUuid(bytes)[p] == '-'
  {
    HexStringsArePairs(bytes);
    TemplateDashes(HexStrings(bytes));
  }

  /** Byte `k`'s two hex digits, upper-cased, sit at `HexPos(k)` and `HexPos(k) + 1`. */
  lemma FormatUuidByte(bytes: seq<bv8>, k: nat)
    requires |bytes| == 16 && k < 16
    ensures |FormatUuid(bytes)| == 36
    ensures FormatUuid(bytes)[HexPos(k)] == UpperHexChar(bytes[k] as nat / 16)
    ensures FormatUuid(bytes)[HexPos(k) + 1] == UpperHexChar(bytes[k] as nat % 16)
  {
    var hex := HexStrings(bytes);
    var b := bytes[k] as nat;
    HexStringsArePairs(bytes);
    TemplateByte(hex, k);
    ByteHexDigits(b);
    UpperDigitChar(b / 16);
    UpperDigitChar(b % 16);
  }

  lemma FormatUuidDigits(bytes: seq<bv8>)
    requires |bytes| == 16
    ensures |FormatUuid(bytes)| == 36
    ensures forall k :: 0 <= k < 16 ==>
      && FormatUuid(bytes)[HexPos(k)] == UpperHexChar(bytes[k] as nat / 16)
      && FormatUuid(bytes)[HexPos(k) + 1] == UpperHexChar(bytes[k] as nat % 16)
  {
    FormatUuidByte(bytes, 0);
    forall k | 0 <= k < 16
      ensures FormatUuid(bytes)[HexPos(k)] == UpperHexChar(bytes[k] as nat / 16)
      ensures FormatUuid(bytes)[HexPos(k) + 1] == UpperHexChar(bytes[k] as nat % 16)
    {
      FormatUuidByte(bytes, k);
    }
  }

  /** The byte whose digits sit at a non-dash position `p`. */
  function ByteAt(p: nat): (k: nat)
    requires p < 36 && !IsDash(p)
    ensures k < 16 && (p == HexPos(k) || p == HexPos(k) + 1)
  {
    if p < 8 then p / 2
    else if p < 13 then (p - 9) / 2 + 4
    else if p < 18 then (p - 14) / 2 + 6
    else if p < 23 then (p - 19) / 2 + 8
    else (p - 24) / 2 + 10
  }

  lemma UpperHexCharIsDigit(d: nat)
    requires d < 16
    ensures IsUpperHexDigit(UpperHexChar(d))
  {
  }

  /** The identifier is 36 characters: dashes at 8, 13, 18 and 23 and upper-case hex digits
      everywhere else. */
  lemma FormatUuidLayout(bytes: seq<bv8>)
    requires |bytes| == 16
    ensures |FormatUuid(bytes)| == 36
    ensures forall p :: 0 <= p < 36 ==>
      if IsDash(p) then FormatUuid(bytes)[p] == '-' else IsUpperHexDigit(FormatUuid(bytes)[p])
  {
    var u := FormatUuid(bytes);
    FormatUuidDashes(bytes);
    FormatUuidDigits(bytes);
    forall p | 0 <= p < 36 && !IsDash(p)
      ensures IsUpperHexDigit(u[p])
    {
      var k := ByteAt(p);
      var b := bytes[k] as nat;
      if p == HexPos(k) {
        assert u[p] == UpperHexChar(b / 16);
        UpperHexCharIsDigit(b / 16);
      } else {
        assert u[p] == UpperHexChar(b % 16);
        UpperHexCharIsDigit(b % 16);
      }
    }
  }

  /** The high nibble of byte 6 becomes 4; that of byte 8 becomes 8, 9, 10 or 11. */
  lemma MaskedNibbles(random: seq<bv8>)
    requires |random| == 16
    ensures Masked(random)[6] as nat / 16 == 4
    ensures 8 <= Masked(random)[8] as nat / 16 <= 11
  {
    var b6, b8 := random[6], random[8];
    assert Masked(random)[6] == (b6 & 0x0F) | 0x40;
    assert Masked(random)[8] == (b8 & 0x3F) | 0x80;
    assert ((b6 & 0x0F) | 0x40) as nat / 16 == 4;
    assert 8 <= ((b8 & 0x3F) | 0x80) as nat / 16 <= 11;
  }

  /** The version digit (index 14) is always '4', per section 4.4 of RFC 4122. */
  lemma VersionDigit(random: seq<bv8>)
    requires |random| == 16
    ensures |FormatUuid(Masked(random))| == 36
    ensures FormatUuid(Masked(random))[14] == '4'
  {
    FormatUuidByte(Masked(random), 6);
    MaskedNibbles(random);
  }

  predicate IsVariantDigit(c: char) { c == '8' || c == '9' || c == 'A' || c == 'B' }

  lemma VariantChars(d: nat)
    requires 8 <= d <= 11
    ensures IsVariantDigit(UpperHexChar(d))
  {
  }

  /** The variant digit (index 19) is always one of 8, 9, A, B, per section 4.4 of RFC 4122. */
  lemma VariantDigit(random: seq<bv8>)
    requires |random| == 16
    ensures |FormatUuid(Masked(random))| == 36
    ensures IsVariantDigit(FormatUuid(Masked(random))[19])
  {
    var m := Masked(random);
    FormatUuidByte(m, 8);
    MaskedNibbles(random);
    VariantChars(m[8] as nat / 16);
  }

  /** Reads the 16 bytes back from the 32 hex digits of a formatted identifier. */
  function DecodeUuid(id: string): (r: seq<nat>)
    requires |id| == 36
    ensures |r| == 16
  {
    seq(16, k requires 0 <= k < 16 => 16 * DigitValue(id[HexPos(k)]) + DigitValue(id[HexPos(k) + 1]))
  }

  lemma UpperHexValue(d: nat)
    requires d < 16
    ensures DigitValue(UpperHexChar(d)) == d
  {
  }

  /** Decoding the formatted identifier returns the bytes it was formatted from. */
  lemma DecodeFormatUuid(bytes: seq<bv8>)
    requires |bytes| == 16
    ensures |FormatUuid(bytes)| == 36
    ensures forall k :: 0 <= k < 16 ==> DecodeUuid(FormatUuid(bytes))[k] == bytes[k] as nat
  {
    FormatUuidDigits(bytes);
    forall k | 0 <= k < 16
      ensures DecodeUuid(FormatUuid(bytes))[k] == bytes[k] as nat
    {
      var b := bytes[k] as nat;
      UpperHexValue(b / 16);
      UpperHexValue(b % 16);
    }
  }

  /** So the identifier carries every random byte except the masked bytes 6 and 8. */
  lemma UuidKeepsUnmaskedBytes(random: seq<bv8>)
    requires |random| == 16
    ensures |FormatUuid(Masked(random))| == 36
    ensures forall k :: 0 <= k < 16 && k != 6 && k != 8 ==>
      DecodeUuid(FormatUuid(Masked(random)))[k] == random[k] as nat
  {
    DecodeFormatUuid(Masked(random));
  }
}
