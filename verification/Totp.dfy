/** One-time codes: how a code is computed and matched, after RFC 4226 and RFC 6238. */
module Totp {
  import opened Names
  import opened Model

  const DIGITS: nat := 6
  const PERIOD: int := 30

  /** The HMAC of one counter: twenty bytes. */
  type Sum = s: seq<bv8> | |s| == 20 witness seq(20, i => 0)

  /** A decoded secret, known by the HMAC it gives each counter; Bad stands for one that does not decode. */
  datatype Secret = Bad | Key(mac: int -> Sum)

  // ---------------------------------------------------------------- decimal codes

  function Pow10(n: nat): nat {
    if n == 0 then 1 else 10 * Pow10(n - 1)
  }

  function Zeros(n: nat): string {
    if n == 0 then "" else "0" + Zeros(n - 1)
  }

  /** The number a string of digits spells. */
  function Value(s: string): int {
    if s == "" then 0 else 10 * Value(s[..|s| - 1]) + (s[|s| - 1] as int - '0' as int)
  }

  predicate AllDigits(s: string) {
    forall k :: 0 <= k < |s| ==> '0' <= s[k] <= '9'
  }

  /** Decimal, padded with zeros to a least width. */
  function Padded(n: nat, width: nat): string {
    var digits := Itoa(n);
    if |digits| < width then Zeros(width - |digits|) + digits else digits
  }

  lemma {:induction false} ItoaSpells(n: nat)
    ensures AllDigits(Itoa(n)) && Value(Itoa(n)) == n
  {
    if n < 10 {
      assert Itoa(n) == [Digit(n)] && Value([]) == 0;
    } else {
      ItoaSpells(n / 10);
      assert Itoa(n)[..|Itoa(n)| - 1] == Itoa(n / 10);
    }
  }

  lemma {:induction false} ItoaWidth(n: nat, width: nat)
    requires width > 0 && n < Pow10(width)
    ensures |Itoa(n)| <= width
    decreases width
  {
    if n >= 10 {
      assert Pow10(1) == 10;
      ItoaWidth(n / 10, width - 1);
    }
  }

  lemma {:induction false} ZerosSpell(n: nat, s: string)
    requires AllDigits(s)
    ensures |Zeros(n)| == n && AllDigits(Zeros(n) + s) && Value(Zeros(n) + s) == Value(s)
    decreases n, |s|
  {
    if s != "" {
      ZerosSpell(n, s[..|s| - 1]);
      assert (Zeros(n) + s)[..n + |s| - 1] == Zeros(n) + s[..|s| - 1];
    } else if n > 0 {
      ZerosSpell(n - 1, "");
      assert Zeros(n - 1) + "" == Zeros(n - 1);
      assert Zeros(n) + "" == Zeros(n - 1) + "0" by { ZerosShift(n - 1); }
      assert (Zeros(n - 1) + "0")[..n - 1] == Zeros(n - 1);
    }
  }

  lemma {:induction false} ZerosShift(n: nat)
    ensures |Zeros(n)| == n && "0" + Zeros(n) == Zeros(n) + "0"
  {
    if n > 0 {
      ZerosShift(n - 1);
      assert "0" + ("0" + Zeros(n - 1)) == ("0" + Zeros(n - 1)) + "0";
    }
  }

  /** A number below 10^width becomes exactly width digits, and they spell it. */
  lemma PaddedSpells(n: nat, width: nat)
    requires width > 0 && n < Pow10(width)
    ensures |Padded(n, width)| == width && AllDigits(Padded(n, width)) && Value(Padded(n, width)) == n
  {
    ItoaSpells(n);
    ItoaWidth(n, width);
    ZerosSpell(width - |Itoa(n)|, Itoa(n));
    assert Zeros(0) + Itoa(n) == Itoa(n);
  }

  // ---------------------------------------------------------------- truncation

  /** Big-endian value of four bytes. */
  function BigEndian(b: seq<bv8>): nat
    requires |b| == 4
  {
    ((b[0] as int * 256 + b[1] as int) * 256 + b[2] as int) * 256 + b[3] as int
  }

  /** Section 5.3 of RFC 4226: four bytes at the offset in the last nibble, without the top bit. */
  function Truncated(sum: Sum): nat {
    var offset := sum[19] as int % 16;
    BigEndian(sum[offset..offset + 4]) % 0x8000_0000
  }

  lemma NibbleIsModulo(b: bv8)
    ensures (b & 0x0f) as int == b as int % 16
  {
    assert b & 0x0f == b % 16;
  }

  lemma HighBitIsModulo(b: bv8)
    ensures (b & 0x7f) as int == b as int % 128
  {
    assert b & 0x7f == b % 128;
  }

  /** The bytes put together by shifting, as a 32-bit word. */
  function Word(a: bv8, b: bv8, c: bv8, d: bv8): bv32 {
    ((a & 0x7f) as bv32 << 24) | (b as bv32 << 16) | (c as bv32 << 8) | (d as bv32)
  }

  function Shifted(w: bv32, b: bv8): bv32 {
    (w << 8) | (b as bv32)
  }

  lemma ShiftedValue(w: bv32, b: bv8)
    requires w < 0x100_0000
    ensures Shifted(w, b) as int == w as int * 256 + b as int
  {
    assert Shifted(w, b) / 256 == w;
    assert Shifted(w, b) % 256 == b as bv32;
  }

  lemma WordIsBigEndian(a: bv8, b: bv8, c: bv8, d: bv8)
    ensures Word(a, b, c, d) as int == BigEndian([a, b, c, d]) % 0x8000_0000
  {
    WordByShifts(a, b, c, d);
    ShiftsValue((a & 0x7f) as bv32, b, c, d);
    HighBitIsModulo(a);
    ModuloHigh(a as int, b as int, c as int, d as int);
  }

  lemma ShiftsValue(w: bv32, b: bv8, c: bv8, d: bv8)
    requires w < 0x80 && Shifted(w, b) < 0x8000 && Shifted(Shifted(w, b), c) < 0x80_0000
    ensures Shifted(Shifted(Shifted(w, b), c), d) as int == ((w as int * 256 + b as int) * 256 + c as int) * 256 + d as int
  {
    ShiftedValue(w, b);
    ShiftedValue(Shifted(w, b), c);
    ShiftedValue(Shifted(Shifted(w, b), c), d);
  }

  lemma WordByShifts(a: bv8, b: bv8, c: bv8, d: bv8)
    ensures var w0 := (a & 0x7f) as bv32;
      && w0 < 0x80 && Shifted(w0, b) < 0x8000 && Shifted(Shifted(w0, b), c) < 0x80_0000
      && Word(a, b, c, d) == Shifted(Shifted(Shifted(w0, b), c), d)
  {
  }

  lemma ModuloHigh(a: int, b: int, c: int, d: int)
    requires 0 <= a < 256 && 0 <= b < 256 && 0 <= c < 256 && 0 <= d < 256
    ensures (((a * 256 + b) * 256 + c) * 256 + d) % 0x8000_0000 == ((a % 128 * 256 + b) * 256 + c) * 256 + d
  {
    var low := ((a % 128 * 256 + b) * 256 + c) * 256 + d;
    assert ((a * 256 + b) * 256 + c) * 256 + d == a / 128 * 0x8000_0000 + low;
  }

  // ---------------------------------------------------------------- codes and matching

  /** The code of a counter: the truncated value modulo 10^6 in six digits. */
  function CodeOf(mac: int -> Sum, counter: int): string {
    Padded(Truncated(mac(counter)) % Pow10(DIGITS), DIGITS)
  }

  /** A code is six decimal digits that spell the truncated value modulo a million. */
  lemma SixDigits(mac: int -> Sum, counter: int)
    ensures var code := CodeOf(mac, counter);
      |code| == 6 && AllDigits(code) && Value(code) == Truncated(mac(counter)) % 1_000_000
  {
    assert Pow10(6) == 1_000_000 by { assert Pow10(3) == 1000; }
    PaddedSpells(Truncated(mac(counter)) % 1_000_000, 6);
  }

  lemma WordTruncates(sum: Sum, offset: nat)
    requires offset == sum[19] as int % 16
    ensures Word(sum[offset], sum[offset + 1], sum[offset + 2], sum[offset + 3]) as int == Truncated(sum)
  {
    var b := sum[offset..offset + 4];
    WordIsBigEndian(b[0], b[1], b[2], b[3]);
    assert b == [b[0], b[1], b[2], b[3]];
  }

  method Code(secret: Secret, counter: int) returns (code: Option<string>)
    ensures code == if secret.Bad? then None else Some(CodeOf(secret.mac, counter))
  {
    if secret.Bad? { return None; }
    var sum := secret.mac(counter);
    var offset := (sum[|sum| - 1] & 0x0f) as nat;
    NibbleIsModulo(sum[19]);
    var word := Word(sum[offset], sum[offset + 1], sum[offset + 2], sum[offset + 3]);
    WordTruncates(sum, offset);
    var mod: nat := 1;
    for i := 0 to DIGITS
      invariant mod == Pow10(i)
    {
      mod := mod * 10;
    }
    code := Some(Padded(word as int % mod, DIGITS));
  }

  /** Whole periods since the epoch, truncating toward zero. */
  function Periods(unix: int): int {
    if unix >= 0 then unix / PERIOD else -((-unix) / PERIOD)
  }

  /** The counter is later than the last one used, adjacent to now, and its code is the one given. */
  ghost predicate Fits(secret: Secret, code: string, unix: int, last: int, counter: int) {
    && secret.Key? && counter > last && -1 <= counter - Periods(unix) <= 1
    && CodeOf(secret.mac, counter) == Trim(code)
  }

  ghost function FirstFit(secret: Secret, code: string, unix: int, last: int): Option<int> {
    var now := Periods(unix);
    if Fits(secret, code, unix, last, now - 1) then Some(now - 1)
    else if Fits(secret, code, unix, last, now) then Some(now)
    else if Fits(secret, code, unix, last, now + 1) then Some(now + 1)
    else None
  }

  /** It is the earliest fitting counter, and there is one whenever some counter fits: what Match returns. */
  lemma FirstFitExact(secret: Secret, code: string, unix: int, last: int)
    ensures var found := FirstFit(secret, code, unix, last);
      && (found.Some? ==> Fits(secret, code, unix, last, found.value))
      && forall c :: Fits(secret, code, unix, last, c) ==> found.Some? && found.value <= c
  {
    var now, found := Periods(unix), FirstFit(secret, code, unix, last);
    forall c | Fits(secret, code, unix, last, c) ensures found.Some? && found.value <= c {
      assert c == now - 1 || c == now || c == now + 1;
    }
  }

  lemma FitsMeans(secret: Secret, code: string, unix: int, last: int)
    requires secret.Key?
    ensures forall c {:trigger CodeOf(secret.mac, c)} ::
      c > last && Periods(unix) - 1 <= c <= Periods(unix) + 1 && CodeOf(secret.mac, c) == Trim(code) ==> Fits(secret, code, unix, last, c)
  {
  }

  /** Finds the earliest fitting counter, whenever there is one. */
  method Match(secret: Secret, code: string, unix: int, last: int) returns (found: Option<int>)
    ensures found.Some? ==>
      && secret.Key? && found.value > last && Periods(unix) - 1 <= found.value <= Periods(unix) + 1
      && CodeOf(secret.mac, found.value) == Trim(code)
    ensures secret.Key? ==> forall c ::
      c > last && Periods(unix) - 1 <= c <= Periods(unix) + 1 && CodeOf(secret.mac, c) == Trim(code) ==> found.Some? && found.value <= c
  {
    if secret.Key? { FitsMeans(secret, code, unix, last); }
    if |Trim(code)| != DIGITS {
      if secret.Key? {
        forall c ensures CodeOf(secret.mac, c) != Trim(code) { SixDigits(secret.mac, c); }
      }
      return None;
    }
    var counter := Periods(unix) - 1;
    while counter <= Periods(unix) + 1
      invariant Periods(unix) - 1 <= counter <= Periods(unix) + 2
      invariant forall c :: Fits(secret, code, unix, last, c) ==> c >= counter
    {
      if counter > last {
        var want := Code(secret, counter);
        if want.None? { return None; }
        if want.value == Trim(code) { return Some(counter); }
      }
      counter := counter + 1;
    }
    found := None;
  }

  /** Periods are thirty seconds long. */
  lemma PeriodBounds(unix: int)
    requires unix >= 0
    ensures 30 * Periods(unix) <= unix < 30 * (Periods(unix) + 1)
  {
  }

  /** The code from the bytes: the four at the last nibble's offset, without the top bit, modulo a million. */
  lemma CodeFromBytes(mac: int -> Sum, counter: int)
    ensures var sum := mac(counter);
      var o := sum[19] as int % 16;
      var code := CodeOf(mac, counter);
      && |code| == 6 && AllDigits(code)
      && Value(code) == (sum[o] as int % 128 * 0x100_0000 + sum[o + 1] as int * 0x1_0000
                         + sum[o + 2] as int * 0x100 + sum[o + 3] as int) % 1_000_000
  {
    var sum := mac(counter);
    var o := sum[19] as int % 16;
    var b := sum[o..o + 4];
    SixDigits(mac, counter);
    ModuloHigh(b[0] as int, b[1] as int, b[2] as int, b[3] as int);
  }
}
