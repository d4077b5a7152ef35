/** Base64 (section 4 of RFC 4648) in 32-bit arithmetic, and the URL-safe
    alphabet without padding (section 5). */
module Base64 {
  import opened UrlCodec

  const U32 := 0x1_0000_0000
  const PAD: Byte := 61
  const PLUS: Byte := 43
  const SLASH: Byte := 47
  const MINUS: Byte := 45
  const UNDERSCORE: Byte := 95

  function Symbol(v: int): (c: Byte)
    requires 0 <= v < 64
    ensures Value(c) == v && c != PAD && c != '\n' as int && c != '\r' as int && c != MINUS && c != UNDERSCORE
  {
    if v < 26 then 'A' as int + v
    else if v < 52 then 'a' as int + (v - 26)
    else if v < 62 then '0' as int + (v - 52)
    else if v == 62 then PLUS
    else SLASH
  }

  function Value(c: Byte): (v: int)
    ensures -1 <= v < 64
  {
    if 'A' as int <= c <= 'Z' as int then c - 'A' as int
    else if 'a' as int <= c <= 'z' as int then c - 'a' as int + 26
    else if '0' as int <= c <= '9' as int then c - '0' as int + 52
    else if c == PLUS then 62
    else if c == SLASH then 63
    else -1
  }

  /** The k-th group of six bits of a word, from the right. */
  function Six(n: nat, k: nat): (v: nat)
    requires k < 4
    ensures v < 64
  {
    (if k == 0 then n else if k == 1 then n / 0x40 else if k == 2 then n / 0x1000 else n / 0x40000) % 64
  }

  function Group(a: Byte, b: Byte, c: Byte): nat {
    a * 0x10000 + b * 0x100 + c
  }

  function Encode64(raw: seq<Byte>): seq<Byte> {
    if |raw| == 0 then []
    else if |raw| == 1 then
      var n := Group(raw[0], 0, 0);
      [Symbol(Six(n, 3)), Symbol(Six(n, 2)), PAD, PAD]
    else if |raw| == 2 then
      var n := Group(raw[0], raw[1], 0);
      [Symbol(Six(n, 3)), Symbol(Six(n, 2)), Symbol(Six(n, 1)), PAD]
    else
      var n := Group(raw[0], raw[1], raw[2]);
      [Symbol(Six(n, 3)), Symbol(Six(n, 2)), Symbol(Six(n, 1)), Symbol(Six(n, 0))] + Encode64(raw[3..])
  }

  method Base64Encode(raw: seq<Byte>) returns (out: seq<Byte>)
    ensures out == Encode64(raw)
  {
    hide Symbol, Six, Group;
    out := [];
    var i := 0;
    while i + 2 < |raw|
      invariant 0 <= i <= |raw| && out + Encode64(raw[i..]) == Encode64(raw)
    {
      var n := Group(raw[i], raw[i + 1], raw[i + 2]);
      ghost var rest := raw[i..];
      assert rest[3..] == raw[i + 3..] && rest[0] == raw[i] && rest[1] == raw[i + 1] && rest[2] == raw[i + 2];
      out := out + [Symbol(Six(n, 3)), Symbol(Six(n, 2)), Symbol(Six(n, 1)), Symbol(Six(n, 0))];
      i := i + 3;
    }
    ghost var rest := raw[i..];
    var rem := |raw| - i;
    if rem == 1 {
      var n := Group(raw[i], 0, 0);
      assert rest[0] == raw[i];
      out := out + [Symbol(Six(n, 3)), Symbol(Six(n, 2)), PAD, PAD];
    } else if rem == 2 {
      var n := Group(raw[i], raw[i + 1], 0);
      assert rest[0] == raw[i] && rest[1] == raw[i + 1];
      out := out + [Symbol(Six(n, 3)), Symbol(Six(n, 2)), Symbol(Six(n, 1)), PAD];
    }
  }

  // ---- Decoding ----

  /** Low bits that are left after a byte is taken. */
  type Bits = b: int | b == 0 || b == 2 || b == 4 || b == 6

  function Stops(c: Byte): bool {
    c == PAD || c == '\n' as int || c == '\r' as int || Value(c) < 0
  }

  /** n << 6 in 32 bits, with six more bits. */
  function Shifted(n: nat, v: nat): nat {
    (n * 64) % U32 + v
  }

  /** (n >> bits) & 0xFF. */
  function Taken(n: nat, bits: Bits): (b: Byte) {
    (if bits == 0 then n else if bits == 2 then n / 4 else if bits == 4 then n / 16 else n / 64) % 256
  }

  function DecodeFrom(s: seq<Byte>, n: nat, bits: Bits): seq<Byte>
    decreases |s|
  {
    if s == [] || Stops(s[0]) then []
    else
      var n' := Shifted(n, Value(s[0]));
      if bits == 0 then DecodeFrom(s[1..], n', 6)
      else [Taken(n', bits - 2)] + DecodeFrom(s[1..], n', bits - 2)
  }

  function Decode64(s: seq<Byte>): seq<Byte> {
    DecodeFrom(s, 0, 0)
  }

  method Base64Decode(s: seq<Byte>) returns (out: seq<Byte>)
    ensures out == Decode64(s)
  {
    out := [];
    var n: nat := 0;
    var bits := 0;
    var i := 0;
    while i < |s|
      invariant 0 <= i <= |s| && (bits == 0 || bits == 2 || bits == 4 || bits == 6)
      invariant out + DecodeFrom(s[i..], n, bits) == Decode64(s)
    {
      var c := s[i];
      assert s[i..][1..] == s[i + 1..];
      if c == PAD || c == '\n' as int || c == '\r' as int {
        break;
      }
      var v := Value(c);
      if v < 0 {
        break;
      }
      n := Shifted(n, v);
      bits := bits + 6;
      if bits >= 8 {
        bits := bits - 8;
        out := out + [Taken(n, bits)];
      }
      i := i + 1;
    }
  }

  // ---- Round trip ----

  lemma {:induction false} Mod6(k: int, r: int)
    requires 0 <= r < 0x40
    ensures (k * 0x40 + r) % 0x40 == r
  {
  }

  lemma {:induction false} Mod12(k: int, r: int)
    requires 0 <= r < 0x1000
    ensures (k * 0x1000 + r) % 0x1000 == r
  {
  }

  lemma {:induction false} Mod18(k: int, r: int)
    requires 0 <= r < 0x40000
    ensures (k * 0x40000 + r) % 0x40000 == r
  {
  }

  lemma {:induction false} Mod8(k: int, r: int)
    requires 0 <= r < 0x100
    ensures (k * 0x100 + r) % 0x100 == r
  {
  }

  /** The low bits of the 32-bit word are the last symbols read, whatever the
      bits shifted out at the top. */
  lemma {:induction false} LowBits(n: nat, v: nat)
    requires v < 64
    ensures Shifted(n, v) % 0x40 == v
    ensures Shifted(n, v) % 0x1000 == (n % 0x40) * 64 + v
    ensures Shifted(n, v) % 0x40000 == (n % 0x1000) * 64 + v
  {
    var x, q := Shifted(n, v), (n * 64) / U32;
    assert x == n * 64 - q * U32 + v;
    hide Shifted;
    assert x == (n - q * 0x4000000) * 0x40 + v;
    Mod6(n - q * 0x4000000, v);
    var m6 := n / 0x40;
    assert x == (m6 - q * 0x100000) * 0x1000 + ((n % 0x40) * 64 + v);
    Mod12(m6 - q * 0x100000, (n % 0x40) * 64 + v);
    var m12 := n / 0x1000;
    assert x == (m12 - q * 0x4000) * 0x40000 + ((n % 0x1000) * 64 + v);
    Mod18(m12 - q * 0x4000, (n % 0x1000) * 64 + v);
  }

  lemma {:induction false} OneSymbol(v: nat, rest: seq<Byte>, n: nat, bits: Bits)
    requires v < 64
    ensures var n' := Shifted(n, v);
            DecodeFrom([Symbol(v)] + rest, n, bits)
            == if bits == 0 then DecodeFrom(rest, n', 6)
               else [Taken(n', bits - 2)] + DecodeFrom(rest, n', bits - 2)
  {
  }

  /** One whole group, after anything. */
  lemma {:induction false} GroupBack(n: nat, a: Byte, b: Byte, c: Byte, rest: seq<Byte>) returns (n': nat)
    ensures var w := Group(a, b, c);
            DecodeFrom([Symbol(Six(w, 3)), Symbol(Six(w, 2)), Symbol(Six(w, 1)), Symbol(Six(w, 0))] + rest, n, 0)
            == [a, b, c] + DecodeFrom(rest, n', 0)
  {
    hide Shifted, Taken, Six, Group, Symbol, DecodeFrom;
    var w := Group(a, b, c);
    var v3, v2, v1, v0 := Six(w, 3), Six(w, 2), Six(w, 1), Six(w, 0);
    var n1 := Shifted(n, v3);
    var n2 := Shifted(n1, v2);
    var n3 := Shifted(n2, v1);
    n' := Shifted(n3, v0);
    TakenThree(n, a, b, c);
    var s0 := [Symbol(v0)] + rest;
    var s1 := [Symbol(v1)] + s0;
    var s2 := [Symbol(v2)] + s1;
    assert [Symbol(v3)] + s2 == [Symbol(v3), Symbol(v2), Symbol(v1), Symbol(v0)] + rest;
    OneSymbol(v3, s2, n, 0);
    OneSymbol(v2, s1, n1, 6);
    OneSymbol(v1, s0, n2, 4);
    OneSymbol(v0, rest, n3, 2);
  }

  lemma {:induction false} TakenThree(n: nat, a: Byte, b: Byte, c: Byte)
    ensures var w := Group(a, b, c);
            var n1 := Shifted(n, Six(w, 3));
            var n2 := Shifted(n1, Six(w, 2));
            var n3 := Shifted(n2, Six(w, 1));
            Taken(n2, 4) == a && Taken(n3, 2) == b && Taken(Shifted(n3, Six(w, 0)), 0) == c
  {
    var w := Group(a, b, c);
    SixOf(a, b, c);
    var n1 := Shifted(n, Six(w, 3));
    var n2 := Shifted(n1, Six(w, 2));
    var n3 := Shifted(n2, Six(w, 1));
    LowBits(n, Six(w, 3));
    LowBits(n1, Six(w, 2));
    LowBits(n2, Six(w, 1));
    LowBits(n3, Six(w, 0));
    hide Shifted, Six, Group;
    FirstByte(n2, a, b);
    SecondByte(n3, a, b, c);
    ThirdByte(Shifted(n3, Six(w, 0)), a, b, c);
  }

  lemma {:induction false} SixOf(a: Byte, b: Byte, c: Byte)
    ensures var w := Group(a, b, c);
            && Six(w, 3) == a / 4 && Six(w, 2) == (a % 4) * 16 + b / 16
            && Six(w, 1) == (b % 16) * 4 + c / 64 && Six(w, 0) == c % 64
  {
    var w := Group(a, b, c);
    assert w / 0x40000 == a / 4;
    assert w / 0x1000 == a * 16 + b / 16;
    assert w / 0x40 == a * 0x400 + b * 4 + c / 64;
  }

  lemma {:induction false} FirstByte(n: nat, a: Byte, b: Byte)
    requires n % 0x1000 == (a / 4) * 64 + ((a % 4) * 16 + b / 16)
    ensures Taken(n, 4) == a
  {
  }

  lemma {:induction false} Div4(k: int, r: int)
    requires 0 <= r < 4
    ensures (k * 4 + r) / 4 == k
  {
  }

  lemma {:induction false} SecondByte(n: nat, a: Byte, b: Byte, c: Byte)
    requires n % 0x40000 == ((a / 4) * 64 + ((a % 4) * 16 + b / 16)) * 64 + ((b % 16) * 4 + c / 64)
    ensures Taken(n, 2) == b
  {
    var q, x := n / 0x40000, c / 64;
    assert (a / 4) * 64 + (a % 4) * 16 == a * 16;
    assert (b / 16) * 64 + (b % 16) * 4 == b * 4;
    assert n == q * 0x40000 + a * 0x400 + b * 4 + x;
    assert n / 4 == (q * 0x100 + a) * 0x100 + b by { Div4((q * 0x100 + a) * 0x100 + b, x); }
    Mod8(q * 0x100 + a, b);
  }

  lemma {:induction false} ThirdByte(n: nat, a: Byte, b: Byte, c: Byte)
    requires n % 0x1000 == ((b % 16) * 4 + c / 64) * 64 + c % 64
    ensures Taken(n, 0) == c
  {
  }

  lemma {:induction false} TailBack(n: nat, raw: seq<Byte>)
    requires 1 <= |raw| <= 2
    ensures DecodeFrom(Encode64(raw), n, 0) == raw
  {
    var a, b := raw[0], if |raw| == 2 then raw[1] else 0;
    var w := Group(a, b, 0);
    var v3, v2, v1 := Six(w, 3), Six(w, 2), Six(w, 1);
    TakenThree(n, a, b, 0);
    var n1 := Shifted(n, v3);
    var n2 := Shifted(n1, v2);
    var n3 := Shifted(n2, v1);
    var s := Encode64(raw);
    hide Shifted, Taken, Six, Group, Symbol;
    assert s[0] == Symbol(v3) && s[1..][0] == Symbol(v2) && s[1..][1..] == s[2..];
    assert DecodeFrom(s, n, 0) == DecodeFrom(s[1..], n1, 6);
    assert DecodeFrom(s[1..], n1, 6) == [a] + DecodeFrom(s[2..], n2, 4);
    if |raw| == 1 {
      assert s[2..][0] == PAD;
      assert DecodeFrom(s[2..], n2, 4) == [];
      assert raw == [a] + [];
    } else {
      assert s[2..][0] == Symbol(v1) && s[2..][1..] == [PAD];
      assert DecodeFrom([PAD], n3, 2) == [];
      assert DecodeFrom(s[2..], n2, 4) == [b] + [];
      assert raw == [a] + ([b] + []);
    }
  }

  /** Decoding undoes encoding on every byte string. */
  lemma {:induction false} RoundTrip64(raw: seq<Byte>, n: nat)
    ensures DecodeFrom(Encode64(raw), n, 0) == raw
    decreases |raw|
  {
    if |raw| == 1 || |raw| == 2 {
      TailBack(n, raw);
    } else if |raw| > 2 {
      var n' := GroupBack(n, raw[0], raw[1], raw[2], Encode64(raw[3..]));
      RoundTrip64(raw[3..], n');
      assert raw == [raw[0], raw[1], raw[2]] + raw[3..];
    }
  }

  // ---- The URL-safe form ----

  function ToSafe(c: Byte): Byte {
    if c == PLUS then MINUS else if c == SLASH then UNDERSCORE else c
  }

  function FromSafe(c: Byte): Byte {
    if c == MINUS then PLUS else if c == UNDERSCORE then SLASH else c
  }

  /** Each symbol up to the padding, in the other alphabet. */
  function SafeSymbols(s: seq<Byte>, safe: bool): seq<Byte> {
    if s == [] then []
    else
      var rest := SafeSymbols(s[..|s| - 1], safe);
      if PAD in s then rest else rest + [if safe then ToSafe(s[|s| - 1]) else FromSafe(s[|s| - 1])]
  }

  function Pads(k: nat): (r: seq<Byte>)
    ensures |r| == k && forall i :: 0 <= i < k ==> r[i] == PAD
  {
    seq(k, i => PAD)
  }

  function Padded(s: seq<Byte>): (r: seq<Byte>)
    ensures |r| % 4 == 0 && s <= r
  {
    s + Pads((4 - |s| % 4) % 4)
  }

  function EncodeSafe(raw: seq<Byte>): seq<Byte> {
    SafeSymbols(Encode64(raw), true)
  }

  function DecodeSafe(s: seq<Byte>): seq<Byte> {
    Decode64(Padded(SafeSymbols(s, false)))
  }

  method SymbolsUpToPad(s: seq<Byte>, safe: bool) returns (out: seq<Byte>)
    ensures out == SafeSymbols(s, safe)
  {
    out := [];
    for i := 0 to |s|
      invariant out == SafeSymbols(s[..i], safe) && PAD !in s[..i]
    {
      assert s[..i + 1][..i] == s[..i] && s[..i + 1] == s[..i] + [s[i]];
      if s[i] == PAD {
        PadEnds(s, i, safe);
        return;
      }
      out := out + [if safe then ToSafe(s[i]) else FromSafe(s[i])];
    }
    assert s[..|s|] == s;
  }

  lemma {:induction false} PadEnds(s: seq<Byte>, i: nat, safe: bool)
    requires i < |s| && s[i] == PAD
    ensures SafeSymbols(s, safe) == SafeSymbols(s[..i], safe)
    decreases |s|
  {
    var n := |s| - 1;
    if i < n {
      PadEnds(s[..n], i, safe);
      assert s[..n][..i] == s[..i];
    }
  }

  method B64UrlEncode(raw: seq<Byte>) returns (out: seq<Byte>)
    ensures out == EncodeSafe(raw)
  {
    var s := Base64Encode(raw);
    out := SymbolsUpToPad(s, true);
  }

  method B64UrlDecode(s: seq<Byte>) returns (out: seq<Byte>)
    ensures out == DecodeSafe(s)
  {
    var t := SymbolsUpToPad(s, false);
    ghost var start := t;
    while |t| % 4 != 0
      invariant Padded(t) == Padded(start)
      decreases (4 - |t| % 4) % 4
    {
      OnePad(t);
      t := t + [PAD];
    }
    assert Padded(t) == t + Pads(0);
    assert Padded(t) == t;
    out := Base64Decode(t);
  }

  lemma {:induction false} OnePad(t: seq<Byte>)
    requires |t| % 4 != 0
    ensures Padded(t + [PAD]) == Padded(t)
  {
  }

  /** The symbols alone: what the encoding is without its padding. */
  function Symbols(raw: seq<Byte>): seq<Byte> {
    if |raw| == 0 then []
    else if |raw| <= 2 then Encode64(raw)[..|raw| + 1]
    else Encode64(raw)[..4] + Symbols(raw[3..])
  }

  predicate AllSymbols(s: seq<Byte>) {
    forall k :: 0 <= k < |s| ==> Value(s[k]) >= 0
  }

  lemma {:induction false} SymbolsPadded(raw: seq<Byte>)
    ensures |Symbols(raw)| == (4 * |raw| + 2) / 3 && AllSymbols(Symbols(raw))
    ensures Padded(Symbols(raw)) == Encode64(raw)
    decreases |raw|
  {
    hide Six, Symbol, Group, Value;
    if |raw| == 1 || |raw| == 2 {
      SymbolsTail(raw);
    } else if |raw| > 2 {
      SymbolsPadded(raw[3..]);
      var head, rest := Encode64(raw)[..4], Symbols(raw[3..]);
      assert Encode64(raw) == head + Encode64(raw[3..]);
      PadAfter(head, rest);
      assert AllSymbols(head);
    }
  }

  lemma {:induction false} SymbolsTail(raw: seq<Byte>)
    requires |raw| == 1 || |raw| == 2
    ensures |Symbols(raw)| == (4 * |raw| + 2) / 3 && AllSymbols(Symbols(raw))
    ensures Padded(Symbols(raw)) == Encode64(raw)
  {
  }

  lemma {:induction false} PadAfter(head: seq<Byte>, rest: seq<Byte>)
    requires |head| == 4
    ensures Padded(head + rest) == head + Padded(rest)
  {
  }

  lemma {:induction false} SafeOne(c: Byte)
    requires Value(c) >= 0
    ensures c != PAD && ToSafe(c) != PAD && FromSafe(ToSafe(c)) == c
  {
  }

  lemma {:induction false} SafeBack(s: seq<Byte>)
    requires AllSymbols(s)
    ensures var t := SafeSymbols(s, true);
            && |t| == |s| && (forall k :: 0 <= k < |s| ==> t[k] == ToSafe(s[k])) && PAD !in t
            && SafeSymbols(t, false) == s
    decreases |s|
  {
    hide Value, ToSafe, FromSafe;
    if s != [] {
      var n := |s| - 1;
      forall k | 0 <= k < |s| ensures s[k] != PAD && ToSafe(s[k]) != PAD && FromSafe(ToSafe(s[k])) == s[k] {
        SafeOne(s[k]);
      }
      SafeBack(s[..n]);
      var t := SafeSymbols(s, true);
      assert t == SafeSymbols(s[..n], true) + [ToSafe(s[n])];
      assert t[..n] == SafeSymbols(s[..n], true);
      assert s == s[..n] + [s[n]];
    }
  }

  lemma {:induction false} SafeOfSymbols(s: seq<Byte>, pads: seq<Byte>)
    requires forall k :: 0 <= k < |pads| ==> pads[k] == PAD
    ensures SafeSymbols(s + pads, true) == SafeSymbols(s, true)
  {
    if pads == [] {
      assert s + pads == s;
    } else {
      PadEnds(s + pads, |s|, true);
      assert (s + pads)[..|s|] == s;
    }
  }

  predicate SafeAlphabet(c: Byte) {
    c == MINUS || c == UNDERSCORE || (Value(c) >= 0 && c != PLUS && c != SLASH)
  }

  /** Every byte string survives, and its encoding has only URL-safe symbols:
      no padding, four for every three bytes, rounded up. */
  lemma {:induction false} SafeRoundTrip(raw: seq<Byte>)
    ensures DecodeSafe(EncodeSafe(raw)) == raw
    ensures |EncodeSafe(raw)| == (4 * |raw| + 2) / 3
    ensures forall k :: 0 <= k < |EncodeSafe(raw)| ==> SafeAlphabet(EncodeSafe(raw)[k])
  {
    hide Encode64, DecodeFrom, SafeSymbols, Symbols;
    var s := Symbols(raw);
    SymbolsPadded(raw);
    SafeOfSymbols(s, Pads((4 - |s| % 4) % 4));
    SafeBack(s);
    RoundTrip64(raw, 0);
  }
}
