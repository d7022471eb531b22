// generateUuidV7 as a function of a timestamp and ten random bytes: layout, round
// trip and order of the identifiers (RFC 9562, sections 4.1, 4.2 and 5.7).

module UuidV7 {

  type Byte = b: int | 0 <= b < 256

  // ---------------------------------------------------------------- hexadecimal

  const DIGITS := "0123456789abcdef"

  // Number.prototype.toString(16)
  function ToHex(n: nat): string {
    if n < 16 then [DIGITS[n]] else ToHex(n / 16) + [DIGITS[n % 16]]
  }

  // String.prototype.padStart(width, '0')
  function PadStart(s: string, width: nat): string
    decreases width - |s|
  {
    if |s| >= width then s else PadStart("0" + s, width)
  }

  // Buffer.prototype.toString('hex')
  function HexOf(bytes: seq<Byte>): string {
    if bytes == [] then "" else HexOf(bytes[..|bytes| - 1]) + Digits(bytes[|bytes| - 1], 2)
  }

  function Pow16(w: nat): (p: nat)
    ensures p >= 1
  {
    if w == 0 then 1 else 16 * Pow16(w - 1)
  }

  // The last `width` digits of n, the meaning that the padded printing must have.
  function Digits(n: nat, width: nat): (s: string)
    ensures |s| == width
  {
    if width == 0 then "" else Digits(n / 16, width - 1) + [DIGITS[n % 16]]
  }

  predicate IsHexDigit(c: char) { '0' <= c <= '9' || 'a' <= c <= 'f' }

  function Value(c: char): nat {
    if '0' <= c <= '9' then c as int - '0' as int else if 'a' <= c <= 'f' then c as int - 'a' as int + 10 else 0
  }

  function ParseHex(s: string): nat {
    if s == "" then 0 else ParseHex(s[..|s| - 1]) * 16 + Value(s[|s| - 1])
  }

  // ---------------------------------------------------------------- the identifier

  // Buffer.prototype.readUInt16BE
  function Word(hi: Byte, lo: Byte): nat { hi * 256 + lo }

  // 0x7000 | (u16 & 0x0fff) and 0x80 | (u8 & 0x3f), in arithmetic.
  function VersionWord(hi: Byte, lo: Byte): nat { 0x7000 + Word(hi, lo) % 0x1000 }

  function VariantByte(b: Byte): nat { 0x80 + b % 0x40 }

  lemma MasksAreRemainders(u: bv16, b: bv8)
    ensures (0x7000 | (u & 0x0fff)) == 0x7000 + u % 0x1000
    ensures ((b & 0x3f) | 0x80) == 0x80 + b % 0x40
  {
  }

  function GenerateUuidV7(timestamp: nat, random: seq<Byte>): string
    requires |random| == 10
  {
    var timestampHex := PadStart(ToHex(timestamp), 12);
    LongEnough(timestamp, 12);
    var verAndRandHex := PadStart(ToHex(VersionWord(random[0], random[1])), 4);
    var varAndRandHex := PadStart(ToHex(VariantByte(random[2])), 2) + HexOf(random[3..10]);
    LongEnough(VariantByte(random[2]), 2);
    HexOfLength(random[3..10]);
    timestampHex[0..8] + "-" + timestampHex[8..12] + "-" + verAndRandHex + "-"
    + varAndRandHex[0..4] + "-" + varAndRandHex[4..]
  }

  // Five groups from 12, 4 and 16 digits.
  function Join(a: string, w: string, v: string): string
    requires |a| == 12 && |w| == 4 && |v| == 16
  {
    a[0..8] + "-" + a[8..12] + "-" + w + "-" + v[0..4] + "-" + v[4..]
  }

  lemma JoinSlices(a: string, w: string, v: string)
    requires |a| == 12 && |w| == 4 && |v| == 16
    ensures var u := Join(a, w, v);
      |u| == 36 && u[0..8] + u[9..13] == a && u[14..18] == w && u[19..23] + u[24..36] == v
  {
    JoinIndices(a, w, v);
    var u := Join(a, w, v);
    hide Join;
    assert u[0..8] == a[0..8] && u[9..13] == a[8..12] && a == a[0..8] + a[8..12];
    assert u[19..23] == v[0..4] && u[24..36] == v[4..16] && v == v[0..4] + v[4..16];
  }

  lemma JoinIndices(a: string, w: string, v: string)
    requires |a| == 12 && |w| == 4 && |v| == 16
    ensures var u := Join(a, w, v);
      && |u| == 36 && u[8] == u[13] == u[18] == u[23] == '-'
      && (forall i :: 0 <= i < 8 ==> u[i] == a[i]) && (forall i :: 9 <= i < 13 ==> u[i] == a[i - 1])
      && (forall i :: 14 <= i < 18 ==> u[i] == w[i - 14])
      && (forall i :: 19 <= i < 23 ==> u[i] == v[i - 19]) && (forall i :: 24 <= i < 36 ==> u[i] == v[i - 20])
  {
  }

  // The fields, read back from the text.
  function Timestamp(uuid: string): nat
    requires |uuid| == 36
  {
    ParseHex(uuid[0..8] + uuid[9..13])
  }

  // rand_a: the 12 random bits after the version.
  function RandA(uuid: string): nat
    requires |uuid| == 36
  {
    ParseHex(uuid[14..18]) % 0x1000
  }

  // rand_b: the 62 random bits after the variant.
  function RandB(uuid: string): nat
    requires |uuid| == 36
  {
    ParseHex(uuid[19..23] + uuid[24..36]) % 0x4000_0000_0000_0000
  }

  // The number whose base-256 digits are the bytes.
  function Number(bytes: seq<Byte>): nat {
    if bytes == [] then 0 else Number(bytes[..|bytes| - 1]) * 256 + bytes[|bytes| - 1]
  }

  // ---------------------------------------------------------------- printing is positional

  lemma LongEnough(n: nat, width: nat)
    ensures |PadStart(ToHex(n), width)| >= width
  {
    PadLength(ToHex(n), width);
  }

  lemma {:induction false} PadLength(s: string, width: nat)
    ensures |PadStart(s, width)| == if |s| >= width then |s| else width
    decreases width - |s|
  {
    if |s| >= width {
    } else {
      PadLength("0" + s, width);
    }
  }

  lemma {:induction false} PadZeros(s: string, width: nat, n: nat)
    requires |s| <= width && s == Digits(n, |s|) && n < Pow16(|s|)
    ensures PadStart(s, width) == Digits(n, width)
    decreases width - |s|
  {
    if |s| >= width {
    } else {
      DigitsZero(n, |s|);
      PadZeros("0" + s, width, n);
    }
  }

  // A leading zero may be added to a number that fits.
  lemma {:induction false} DigitsZero(n: nat, width: nat)
    requires n < Pow16(width)
    ensures Digits(n, width + 1) == "0" + Digits(n, width) && n < Pow16(width + 1)
  {
    if width == 0 {
      assert Digits(0, 1) == Digits(0, 0) + [DIGITS[0]];
    } else {
      DigitsZero(n / 16, width - 1);
      assert "0" + Digits(n, width) == ("0" + Digits(n / 16, width - 1)) + [DIGITS[n % 16]];
    }
  }

  lemma {:induction false} ToHexDigits(n: nat)
    ensures ToHex(n) == Digits(n, |ToHex(n)|) && n < Pow16(|ToHex(n)|) && |ToHex(n)| >= 1
    ensures forall w :: w >= 1 && n < Pow16(w) ==> |ToHex(n)| <= w
  {
    if n < 16 {
      assert Digits(n, 1) == Digits(n / 16, 0) + [DIGITS[n % 16]];
      assert Pow16(1) == 16 * Pow16(0);
    } else {
      ToHexDigits(n / 16);
      assert Pow16(1) == 16 * Pow16(0) == 16;
      forall w | w >= 1 && n < Pow16(w) ensures |ToHex(n)| <= w {
        assert n / 16 < Pow16(w - 1);
      }
    }
  }

  // Padded printing is the fixed-width positional form, for numbers that fit.
  lemma PrintsDigits(n: nat, width: nat)
    requires width >= 1 && n < Pow16(width)
    ensures PadStart(ToHex(n), width) == Digits(n, width)
  {
    ToHexDigits(n);
    PadZeros(ToHex(n), width, n);
  }

  lemma {:induction false} DigitsAreHex(n: nat, width: nat)
    ensures forall i :: 0 <= i < width ==> IsHexDigit(Digits(n, width)[i])
  {
    if width == 0 {
    } else {
      DigitsAreHex(n / 16, width - 1);
    }
  }

  lemma {:induction false} ParseDigits(n: nat, width: nat)
    ensures ParseHex(Digits(n, width)) == n % Pow16(width)
    ensures ParseHex(Digits(n, width)) < Pow16(width)
  {
    if width == 0 {
    } else {
      ParseDigits(n / 16, width - 1);
      var s := Digits(n, width);
      assert s[..|s| - 1] == Digits(n / 16, width - 1);
      DigitValue(n % 16);
      assert ParseHex(s) == ParseHex(s[..|s| - 1]) * 16 + n % 16;
      hide ParseHex, Digits;
      ModStep(n, Pow16(width - 1));
    }
  }

  lemma DigitValue(d: nat)
    requires d < 16
    ensures Value(DIGITS[d]) == d
  {
  }

  lemma ModStep(n: nat, p: nat)
    requires p > 0
    ensures (n / 16 % p) * 16 + n % 16 == n % (16 * p)
  {
    var q := n / 16 / p;
    var r := n / 16 % p;
    assert n / 16 == q * p + r;
    assert n == 16 * (q * p + r) + n % 16;
    var rest := r * 16 + n % 16;
    assert n == q * (16 * p) + rest && 0 <= rest < 16 * p;
    DivUnique(n, 16 * p, q, rest);
  }

  lemma DivUnique(n: nat, d: nat, q: nat, r: nat)
    requires d > 0 && n == q * d + r && r < d
    ensures n % d == r
  {
    var x := n / d - q;
    assert x * d == r - n % d;
    assert x != 0 ==> x * d >= d || x * d + d <= 0;
  }

  lemma {:induction false} HexOfLength(bytes: seq<Byte>)
    ensures |HexOf(bytes)| == 2 * |bytes|
  {
    if bytes == [] {
    } else {
      HexOfLength(bytes[..|bytes| - 1]);
    }
  }

  lemma TwoMoreDigits(n: nat, b: Byte, width: nat)
    ensures Digits(n * 256 + b, width + 2) == Digits(n, width) + Digits(b, 2)
  {
    var m := n * 256 + b;
    assert m / 16 == n * 16 + b / 16 && m % 16 == b % 16;
    assert m / 16 / 16 == n && m / 16 % 16 == b / 16 % 16;
    assert Digits(m, width + 2) == (Digits(n, width) + [DIGITS[m / 16 % 16]]) + [DIGITS[m % 16]];
    assert Digits(b, 2) == (Digits(b / 16 / 16, 0) + [DIGITS[b / 16 % 16]]) + [DIGITS[b % 16]];
  }

  // The bytes in hexadecimal are the digits of the number they spell.
  lemma {:induction false} HexOfNumber(bytes: seq<Byte>)
    ensures HexOf(bytes) == Digits(Number(bytes), 2 * |bytes|)
    ensures Number(bytes) < Pow16(2 * |bytes|)
  {
    if bytes == [] {
    } else {
      var init, last := bytes[..|bytes| - 1], bytes[|bytes| - 1];
      HexOfNumber(init);
      TwoMoreDigits(Number(init), last, 2 * |init|);
      assert Pow16(2 * |init| + 2) == 16 * Pow16(2 * |init| + 1);
    }
  }

  lemma Pow16Values()
    ensures Pow16(2) == 0x100 && Pow16(4) == 0x1_0000 && Pow16(12) == 0x1_0000_0000_0000
    ensures Pow16(14) == 0x100_0000_0000_0000 && Pow16(16) == 0x1_0000_0000_0000_0000
  {
    assert Pow16(2) == 16 * Pow16(1) && Pow16(1) == 16 * Pow16(0);
    assert Pow16(4) == 16 * Pow16(3) && Pow16(3) == 16 * Pow16(2);
    assert Pow16(6) == 16 * Pow16(5) && Pow16(5) == 16 * Pow16(4);
    assert Pow16(8) == 16 * Pow16(7) && Pow16(7) == 16 * Pow16(6);
    assert Pow16(10) == 16 * Pow16(9) && Pow16(9) == 16 * Pow16(8);
    assert Pow16(12) == 16 * Pow16(11) && Pow16(11) == 16 * Pow16(10);
    assert Pow16(14) == 16 * Pow16(13) && Pow16(13) == 16 * Pow16(12);
    assert Pow16(16) == 16 * Pow16(15) && Pow16(15) == 16 * Pow16(14);
  }

  // The last two groups spell the variant byte followed by the seven random bytes.
  function Tail(random: seq<Byte>): nat
    requires |random| == 10
  {
    Number([VariantByte(random[2])] + random[3..10])
  }

  lemma TailIsHex(random: seq<Byte>)
    requires |random| == 10
    ensures HexOf([VariantByte(random[2])] + random[3..10]) == Digits(VariantByte(random[2]), 2) + HexOf(random[3..10])
    ensures Tail(random) == VariantByte(random[2]) * 0x100_0000_0000_0000 + Number(random[3..10])
    ensures Number(random[3..10]) < 0x100_0000_0000_0000
  {
    HexOfNumber(random[3..10]);
    HexOfNumber([VariantByte(random[2])] + random[3..10]);
    Pow16Values();
    PrependByte(VariantByte(random[2]), random[3..10]);
  }

  lemma PrependByte(b: Byte, bytes: seq<Byte>)
    ensures HexOf([b] + bytes) == Digits(b, 2) + HexOf(bytes)
    ensures Number([b] + bytes) == b * Pow16(2 * |bytes|) + Number(bytes)
  {
    PrependHex(b, bytes);
    PrependNumber(b, bytes);
  }

  lemma {:induction false} PrependHex(b: Byte, bytes: seq<Byte>)
    ensures HexOf([b] + bytes) == Digits(b, 2) + HexOf(bytes)
  {
    hide Digits;
    var all := [b] + bytes;
    if bytes == [] {
      assert all[..0] == [];
    } else {
      var init, last := bytes[..|bytes| - 1], bytes[|bytes| - 1];
      PrependHex(b, init);
      assert all[..|all| - 1] == [b] + init && all[|all| - 1] == last;
      assert HexOf(all) == (Digits(b, 2) + HexOf(init)) + Digits(last, 2);
    }
  }

  lemma {:induction false} PrependNumber(b: Byte, bytes: seq<Byte>)
    ensures Number([b] + bytes) == b * Pow16(2 * |bytes|) + Number(bytes)
  {
    var all := [b] + bytes;
    if bytes == [] {
      assert all[..0] == [] && Pow16(0) == 1;
    } else {
      var init, last := bytes[..|bytes| - 1], bytes[|bytes| - 1];
      PrependNumber(b, init);
      assert all[..|all| - 1] == [b] + init && all[|all| - 1] == last;
      var p := Pow16(2 * |init|);
      assert Pow16(2 * |bytes|) == 16 * Pow16(2 * |init| + 1) == 256 * p;
      Shift(b, p, Number(init), last);
    }
  }

  lemma Shift(b: nat, p: nat, n: nat, last: nat)
    ensures (b * p + n) * 256 + last == b * (256 * p) + (n * 256 + last)
  {
    assert (b * p) * 256 == b * (256 * p);
  }

  // The text, digit by digit, for every timestamp a UUID v7 can hold.
  lemma Text(timestamp: nat, random: seq<Byte>)
    requires |random| == 10 && timestamp < 0x1_0000_0000_0000
    ensures GenerateUuidV7(timestamp, random) ==
      Join(Digits(timestamp, 12), Digits(VersionWord(random[0], random[1]), 4), Digits(Tail(random), 16))
  {
    Pow16Values();
    PrintsDigits(timestamp, 12);
    PrintsDigits(VersionWord(random[0], random[1]), 4);
    PrintsDigits(VariantByte(random[2]), 2);
    TailIsHex(random);
    HexOfNumber([VariantByte(random[2])] + random[3..10]);
  }

  // ---------------------------------------------------------------- layout

  lemma TwoDigits(b: Byte)
    ensures Digits(b, 2) == [DIGITS[b / 16], DIGITS[b % 16]]
  {
    assert Digits(b, 2) == Digits(b / 16, 1) + [DIGITS[b % 16]];
    assert Digits(b / 16, 1) == Digits(b / 16 / 16, 0) + [DIGITS[b / 16 % 16]];
  }

  lemma VersionDigit(hi: Byte, lo: Byte)
    ensures Digits(VersionWord(hi, lo), 4)[0] == '7'
  {
    hide Digits;
    var top := TopByte(hi, lo);
    hide VersionWord;
    TwoMoreDigits(top, lo, 2);
    TwoDigits(top);
  }

  lemma TopByte(hi: Byte, lo: Byte) returns (top: Byte)
    ensures VersionWord(hi, lo) == top * 256 + lo && top / 16 == 7
  {
    top := 0x70 + hi % 16;
  }

  lemma VariantDigit(random: seq<Byte>)
    requires |random| == 10
    ensures Digits(Tail(random), 16)[0] in {'8', '9', 'a', 'b'}
  {
    hide Digits, Number, ToHex, PadStart;
    TailIsHex(random);
    HexOfNumber([VariantByte(random[2])] + random[3..10]);
    TopDigit(random[2]);
  }

  lemma TopDigit(b: Byte)
    ensures Digits(VariantByte(b), 2)[0] in {'8', '9', 'a', 'b'}
  {
    hide Digits;
    TwoDigits(VariantByte(b));
    EightToEleven(VariantByte(b) / 16);
  }

  lemma EightToEleven(n: nat)
    requires 8 <= n <= 11
    ensures DIGITS[n] in {'8', '9', 'a', 'b'}
  {
  }

  // 8-4-4-4-12 lower-case hexadecimal digits, version 7 and variant 10.
  lemma Layout(timestamp: nat, random: seq<Byte>)
    requires |random| == 10 && timestamp < 0x1_0000_0000_0000
    ensures var u := GenerateUuidV7(timestamp, random);
      && |u| == 36
      && u[8] == u[13] == u[18] == u[23] == '-'
      && (forall i :: 0 <= i < 36 && i !in {8, 13, 18, 23} ==> IsHexDigit(u[i]))
      && u[14] == '7'
      && u[19] in {'8', '9', 'a', 'b'}
  {
    hide GenerateUuidV7, Digits, Join, VersionWord, Tail;
    Text(timestamp, random);
    var a, w, v := Digits(timestamp, 12), Digits(VersionWord(random[0], random[1]), 4), Digits(Tail(random), 16);
    JoinIndices(a, w, v);
    DigitsAreHex(timestamp, 12);
    DigitsAreHex(VersionWord(random[0], random[1]), 4);
    DigitsAreHex(Tail(random), 16);
    VersionDigit(random[0], random[1]);
    VariantDigit(random);
  }

  // ---------------------------------------------------------------- round trip

  lemma TailBits(random: seq<Byte>)
    requires |random| == 10
    ensures Tail(random) < 0x1_0000_0000_0000_0000
    ensures Tail(random) % 0x4000_0000_0000_0000 == (random[2] % 0x40) * 0x100_0000_0000_0000 + Number(random[3..10])
  {
    TailIsHex(random);
  }

  // The digits of the three fields, read back from the text.
  lemma Fields(timestamp: nat, random: seq<Byte>)
    requires |random| == 10 && timestamp < 0x1_0000_0000_0000
    ensures var u := GenerateUuidV7(timestamp, random);
      && |u| == 36
      && u[0..8] + u[9..13] == Digits(timestamp, 12)
      && u[14..18] == Digits(VersionWord(random[0], random[1]), 4)
      && u[19..23] + u[24..36] == Digits(Tail(random), 16)
  {
    hide GenerateUuidV7, Digits, Tail, VersionWord;
    Text(timestamp, random);
    JoinSlices(Digits(timestamp, 12), Digits(VersionWord(random[0], random[1]), 4), Digits(Tail(random), 16));
  }

  // Reading digits back loses nothing of a number that fits.
  lemma ReadBack(n: nat, width: nat)
    requires n < Pow16(width)
    ensures ParseHex(Digits(n, width)) == n
  {
    hide ParseHex, Digits;
    ParseDigits(n, width);
    SmallMod(n, Pow16(width));
  }

  lemma SmallMod(n: nat, m: nat)
    requires n < m
    ensures n % m == n
  {
  }

  // The bytes of a number, most significant first.
  lemma SevenBytes(random: seq<Byte>)
    requires |random| == 10
    ensures Number(random[3..10]) ==
      random[3] as int * 0x1_0000_0000_0000 + random[4] as int * 0x100_0000_0000 + random[5] as int * 0x1_0000_0000
      + random[6] as int * 0x100_0000 + random[7] as int * 0x1_0000 + random[8] as int * 0x100 + random[9]
  {
    var s := random[3..10];
    assert s[..6] == random[3..9] && s[..6][..5] == random[3..8] && random[3..8][..4] == random[3..7];
    assert random[3..7][..3] == random[3..6] && random[3..6][..2] == random[3..5] && random[3..5][..1] == random[3..4];
    assert random[3..4][..0] == [];
    assert Number(random[3..4]) == random[3];
    assert Number(random[3..5]) == Number(random[3..4]) * 256 + random[4];
    assert Number(random[3..6]) == Number(random[3..5]) * 256 + random[5];
    assert Number(random[3..7]) == Number(random[3..6]) * 256 + random[6];
    assert Number(random[3..8]) == Number(random[3..7]) * 256 + random[7];
    assert Number(random[3..9]) == Number(random[3..8]) * 256 + random[8];
  }

  // All 48 timestamp bits and all 74 kept random bits can be read back: of bytes 0 and
  // 1 the low 12 bits, of byte 2 the low 6, and bytes 3 to 9 whole.
  lemma RoundTrip(timestamp: nat, random: seq<Byte>)
    requires |random| == 10 && timestamp < 0x1_0000_0000_0000
    ensures var u := GenerateUuidV7(timestamp, random);
      && |u| == 36
      && Timestamp(u) == timestamp
      && RandA(u) == (random[0] as int % 16) * 256 + random[1]
      && RandB(u) ==
           (random[2] as int % 64) * 0x100_0000_0000_0000
           + random[3] as int * 0x1_0000_0000_0000 + random[4] as int * 0x100_0000_0000
           + random[5] as int * 0x1_0000_0000 + random[6] as int * 0x100_0000
           + random[7] as int * 0x1_0000 + random[8] as int * 0x100 + random[9]
  {
    WordBits(random[0], random[1]);
    SevenBytes(random);
    hide GenerateUuidV7, Digits, Tail, ParseHex, Number, Pow16, VersionWord;
    Fields(timestamp, random);
    Pow16Values();
    ReadBack(timestamp, 12);
    ReadBack(VersionWord(random[0], random[1]), 4);
    TailBits(random);
    ReadBack(Tail(random), 16);
  }

  lemma WordBits(hi: Byte, lo: Byte)
    ensures VersionWord(hi, lo) < 0x1_0000 && VersionWord(hi, lo) % 0x1000 == (hi as int % 16) * 256 + lo
  {
    var low := (hi as int % 16) * 256 + lo;
    assert Word(hi, lo) == (hi as int / 16) * 0x1000 + low;
    DivUnique(Word(hi, lo), 0x1000, hi as int / 16, low);
    DivUnique(0x7000 + low, 0x1000, 7, low);
  }

  lemma {:induction false} ParseBound(s: string)
    requires forall i :: 0 <= i < |s| ==> IsHexDigit(s[i])
    ensures ParseHex(s) < Pow16(|s|)
  {
    if s == "" {
    } else {
      ParseBound(s[..|s| - 1]);
    }
  }

  // A later timestamp has more than twelve digits, and the text keeps the first twelve.
  lemma LongTimestamp(timestamp: nat, random: seq<Byte>)
    requires |random| == 10
    ensures |GenerateUuidV7(timestamp, random)| == 36
    ensures Timestamp(GenerateUuidV7(timestamp, random)) < 0x1_0000_0000_0000
  {
    var u := GenerateUuidV7(timestamp, random);
    var hex := PadStart(ToHex(timestamp), 12);
    hide GenerateUuidV7, ToHex, PadStart, ParseHex;
    LongEnough(timestamp, 12);
    assert |u| == 36 && u[0..8] + u[9..13] == hex[0..12] by {
      FirstGroups(timestamp, random);
    }
    HexDigitsOnly(timestamp, 12);
    Pow16Values();
    ParseBound(hex[0..12]);
  }

  lemma WordWidth(hi: Byte, lo: Byte)
    ensures |PadStart(ToHex(VersionWord(hi, lo)), 4)| == 4
  {
    Pow16Values();
    PrintsDigits(VersionWord(hi, lo), 4);
  }

  lemma ByteWidth(b: Byte)
    ensures |PadStart(ToHex(VariantByte(b)), 2)| == 2
  {
    Pow16Values();
    PrintsDigits(VariantByte(b), 2);
  }

  lemma FirstGroups(timestamp: nat, random: seq<Byte>)
    requires |random| == 10 && |PadStart(ToHex(timestamp), 12)| >= 12
    ensures var u := GenerateUuidV7(timestamp, random);
      |u| == 36 && u[0..8] + u[9..13] == PadStart(ToHex(timestamp), 12)[0..12]
  {
    var hex := PadStart(ToHex(timestamp), 12);
    var w := PadStart(ToHex(VersionWord(random[0], random[1])), 4);
    var v := PadStart(ToHex(VariantByte(random[2])), 2) + HexOf(random[3..10]);
    hide ToHex, PadStart, HexOf;
    WordWidth(random[0], random[1]);
    ByteWidth(random[2]);
    HexOfLength(random[3..10]);
    hide VersionWord, VariantByte;
    assert hex[0..12][0..8] == hex[0..8] && hex[0..12][8..12] == hex[8..12];
    assert GenerateUuidV7(timestamp, random) == Join(hex[0..12], w, v);
    hide GenerateUuidV7;
    JoinSlices(hex[0..12], w, v);
  }

  lemma HexDigitsOnly(n: nat, width: nat)
    ensures forall i :: 0 <= i < |PadStart(ToHex(n), width)| ==> IsHexDigit(PadStart(ToHex(n), width)[i])
  {
    ToHexDigits(n);
    DigitsAreHex(n, |ToHex(n)|);
    PaddedHex(ToHex(n), width);
  }

  lemma {:induction false} PaddedHex(s: string, width: nat)
    requires forall i :: 0 <= i < |s| ==> IsHexDigit(s[i])
    ensures forall i :: 0 <= i < |PadStart(s, width)| ==> IsHexDigit(PadStart(s, width)[i])
    decreases width - |s|
  {
    if |s| >= width {
    } else {
      PaddedHex("0" + s, width);
    }
  }

  // The timestamp survives exactly as long as it fits its 48 bits.
  lemma TimestampSurvivesExactly(timestamp: nat, random: seq<Byte>)
    requires |random| == 10
    ensures |GenerateUuidV7(timestamp, random)| == 36
    ensures Timestamp(GenerateUuidV7(timestamp, random)) == timestamp <==> timestamp < 0x1_0000_0000_0000
  {
    LongTimestamp(timestamp, random);
    if timestamp < 0x1_0000_0000_0000 {
      RoundTrip(timestamp, random);
    }
  }

  // ---------------------------------------------------------------- order

  ghost predicate LexLess(a: string, b: string) {
    exists k :: 0 <= k < |a| && k < |b| && a[..k] == b[..k] && a[k] < b[k]
  }

  lemma LastDigit(n: nat, width: nat)
    requires width > 0
    ensures Digits(n, width) == Digits(n / 16, width - 1) + [DIGITS[n % 16]]
  {
  }

  lemma LexExtend(a: string, b: string, c: char, d: char)
    requires |a| == |b|
    ensures LexLess(a, b) ==> LexLess(a + [c], b + [d])
    ensures a == b && c < d ==> LexLess(a + [c], b + [d])
  {
    if LexLess(a, b) {
      var k :| 0 <= k < |a| && k < |b| && a[..k] == b[..k] && a[k] < b[k];
      assert (a + [c])[..k] == (b + [d])[..k];
    }
    if a == b && c < d {
      assert (a + [c])[..|a|] == (b + [d])[..|a|];
    }
  }

  lemma {:induction false} DigitsOrdered(n: nat, m: nat, width: nat)
    requires n < m < Pow16(width)
    ensures LexLess(Digits(n, width), Digits(m, width))
  {
    hide LexLess, Digits;
    if width == 0 {
    } else {
      LastDigit(n, width);
      LastDigit(m, width);
      LexExtend(Digits(n / 16, width - 1), Digits(m / 16, width - 1), DIGITS[n % 16], DIGITS[m % 16]);
      if n / 16 < m / 16 {
        DigitsOrdered(n / 16, m / 16, width - 1);
      }
    }
  }

  lemma JoinOrdered(a: string, w: string, v: string, b: string, x: string, y: string)
    requires |a| == |b| == 12 && |w| == |x| == 4 && |v| == |y| == 16
    requires LexLess(a, b)
    ensures LexLess(Join(a, w, v), Join(b, x, y))
  {
    hide Join;
    JoinIndices(a, w, v);
    JoinIndices(b, x, y);
    var k :| 0 <= k < |a| && k < |b| && a[..k] == b[..k] && a[k] < b[k];
    var at := if k < 8 then k else k + 1;
    forall i | 0 <= i < k ensures a[i] == b[i] {
      assert a[..k][i] == b[..k][i];
    }
    assert Join(a, w, v)[..at] == Join(b, x, y)[..at];
  }

  // Identifiers sort as strings by the time they were made.
  lemma Ordered(t1: nat, random1: seq<Byte>, t2: nat, random2: seq<Byte>)
    requires |random1| == 10 && |random2| == 10 && t1 < t2 < 0x1_0000_0000_0000
    ensures LexLess(GenerateUuidV7(t1, random1), GenerateUuidV7(t2, random2))
  {
    hide GenerateUuidV7, Digits, Join, LexLess;
    Text(t1, random1);
    Text(t2, random2);
    Pow16Values();
    DigitsOrdered(t1, t2, 12);
    JoinOrdered(Digits(t1, 12), Digits(VersionWord(random1[0], random1[1]), 4), Digits(Tail(random1), 16),
                Digits(t2, 12), Digits(VersionWord(random2[0], random2[1]), 4), Digits(Tail(random2), 16));
  }
}
