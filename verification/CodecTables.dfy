/** The codecs' alphabets, sign by sign, and known answers. */
module CodecTables {
  import opened UrlCodec
  import B = Base64

  const UPPER := "ABCDEFGHIJKLMNOPQRSTUVWXYZ"
  const LOWER := "abcdefghijklmnopqrstuvwxyz"
  const DIGITS := "0123456789"

  function Bytes(s: string): (r: seq<Byte>)
    requires forall k :: 0 <= k < |s| ==> s[k] as int < 256
    ensures |r| == |s|
  {
    seq(|s|, k requires 0 <= k < |s| => s[k] as int)
  }

  lemma {:induction false} Letters(v: nat)
    requires v < 26
    ensures |UPPER| == |LOWER| == 26 && UPPER[v] as int == 65 + v && LOWER[v] as int == 97 + v
  {
  }

  lemma {:induction false} Digits(v: nat)
    requires v < 10
    ensures |DIGITS| == 10 && DIGITS[v] as int == 48 + v
  {
  }

  /** What is not escaped: letters, digits and four signs, no other byte. */
  lemma {:induction false} UnreservedExact(c: Byte)
    ensures Unreserved(c) <==> c as char in UPPER + LOWER + DIGITS + "-._~"
  {
    if 65 <= c <= 90 {
      Letters(c - 65);
      assert UPPER[c - 65] == c as char;
    } else if 97 <= c <= 122 {
      Letters(c - 97);
      assert LOWER[c - 97] == c as char;
    } else if 48 <= c <= 57 {
      Digits(c - 48);
      assert DIGITS[c - 48] == c as char;
    }
    if c as char in UPPER {
      var v :| 0 <= v < |UPPER| && UPPER[v] == c as char;
      Letters(v);
    } else if c as char in LOWER {
      var v :| 0 <= v < |LOWER| && LOWER[v] == c as char;
      Letters(v);
    } else if c as char in DIGITS {
      var v :| 0 <= v < |DIGITS| && DIGITS[v] == c as char;
      Digits(v);
    }
  }

  // ---- Escapes ----

  lemma {:induction false} HexLetters(v: nat)
    requires v < 6
    ensures |"ABCDEF"| == |"abcdef"| == 6 && "ABCDEF"[v] as int == 65 + v && "abcdef"[v] as int == 97 + v
  {
  }

  /** Hexadecimal digits in both cases, and no other byte. */
  lemma {:induction false} HexExact(c: Byte)
    ensures HexVal(c) >= 0 <==> c as char in DIGITS + "ABCDEF" + "abcdef"
    ensures HexVal(c) >= 0 ==>
              if HexVal(c) < 10 then DIGITS[HexVal(c)] == c as char
              else "ABCDEF"[HexVal(c) - 10] == c as char || "abcdef"[HexVal(c) - 10] == c as char
  {
    if 48 <= c <= 57 {
      Digits(c - 48);
      assert DIGITS[c - 48] == c as char;
    } else if 65 <= c <= 70 {
      HexLetters(c - 65);
      assert "ABCDEF"[c - 65] == c as char;
    } else if 97 <= c <= 102 {
      HexLetters(c - 97);
      assert "abcdef"[c - 97] == c as char;
    }
    if c as char in DIGITS {
      var v :| 0 <= v < |DIGITS| && DIGITS[v] == c as char;
      Digits(v);
    } else if c as char in "ABCDEF" {
      var v :| 0 <= v < |"ABCDEF"| && "ABCDEF"[v] == c as char;
      HexLetters(v);
    } else if c as char in "abcdef" {
      var v :| 0 <= v < |"abcdef"| && "abcdef"[v] == c as char;
      HexLetters(v);
    }
  }

  /** A byte written as an escape in either case. */
  predicate EscapeOf(e: seq<Byte>, c: Byte) {
    |e| == 3 && e[0] == '%' as int && HexDigitOf(e[1], c / 16) && HexDigitOf(e[2], c % 16)
  }

  predicate HexDigitOf(d: Byte, v: int)
    requires 0 <= v < 16
  {
    if v < 10 then d == '0' as int + v else d == 'A' as int + (v - 10) || d == 'a' as int + (v - 10)
  }

  function Flat(parts: seq<seq<Byte>>): seq<Byte> {
    if parts == [] then [] else parts[0] + Flat(parts[1..])
  }

  /** Whoever wrote the query, in upper or in lower case, and whatever it chose
      to escape: decoding gives the bytes. */
  lemma {:induction false} AnyEscapes(s: seq<Byte>, parts: seq<seq<Byte>>)
    requires |parts| == |s|
    requires forall k :: 0 <= k < |s| ==> EscapeOf(parts[k], s[k]) || (parts[k] == [s[k]] && s[k] != '%' as int)
    ensures Decode(Flat(parts)) == s
    decreases |s|
  {
    if s != [] {
      var rest := Flat(parts[1..]);
      AnyEscapes(s[1..], parts[1..]);
      assert s == [s[0]] + s[1..];
      if EscapeOf(parts[0], s[0]) {
        var all := parts[0] + rest;
        assert all[3..] == rest && all[0] == PERCENT && all[1] == parts[0][1] && all[2] == parts[0][2];
      } else {
        assert (parts[0] + rest)[1..] == rest;
      }
    }
  }

  /** A request line as a browser sends it: what stands between the question
      mark and the first blank are the pairs, `&` between them, `=` inside. */
  lemma {:induction false} RequestParsed(path: seq<Byte>, p: Pair, q: Pair, tail: seq<Byte>)
    requires forall k :: 0 <= k < |path| ==> path[k] != '?' as int
    ensures var query := Encode(p.0) + ['=' as int] + Encode(p.1) + ['&' as int] + Encode(q.0) + ['=' as int] + Encode(q.1);
            Parse(path + ['?' as int] + query + [' ' as int] + tail, map[]) == map[p.0 := p.1][q.0 := q.1]
  {
    hide Parse, Encode;
    var query := Encode(p.0) + ['=' as int] + Encode(p.1) + ['&' as int] + Encode(q.0) + ['=' as int] + Encode(q.1);
    assert [p, q][1..] == [q];
    assert Join([q]) == EncodePair(q);
    assert Join([p, q]) == EncodePair(p) + [AMP] + EncodePair(q);
    assert Join([p, q]) == query;
    ParseBuilt(path, [p, q], [' ' as int] + tail, map[]);
    assert path + [QUESTION] + Join([p, q]) + ([' ' as int] + tail) == path + ['?' as int] + query + [' ' as int] + tail;
    TwoUpdated(map[], p, q);
  }

  lemma {:induction false} TwoUpdated(m: Params, p: Pair, q: Pair)
    ensures Updated(m, [p, q]) == m[p.0 := p.1][q.0 := q.1]
  {
    assert [p, q][1..] == [q] && [q][1..] == [];
    assert Updated(m[p.0 := p.1], [q]) == Updated(m[p.0 := p.1][q.0 := q.1], []);
  }

  // ---- Base64 ----

  /** The alphabet of section 4 of RFC 4648, and of section 5. */
  lemma {:induction false} SymbolTable(v: nat)
    requires v < 64
    ensures B.Symbol(v) as char == (UPPER + LOWER + DIGITS + "+/")[v]
    ensures B.ToSafe(B.Symbol(v)) as char == (UPPER + LOWER + DIGITS + "-_")[v]
    ensures B.PAD == '=' as int && B.FromSafe(B.ToSafe(B.Symbol(v))) == B.Symbol(v)
  {
    hide UPPER, LOWER, DIGITS;
    Lengths();
    if v < 26 {
      Letters(v);
    } else if v < 52 {
      Letters(v - 26);
    } else if v < 62 {
      Digits(v - 52);
    }
  }

  lemma {:induction false} Lengths()
    ensures |UPPER| == 26 && |LOWER| == 26 && |DIGITS| == 10
  {
  }

  lemma {:induction false} Parts(a: Byte, b: Byte, c: Byte) returns (x: nat, y: nat, u: nat, w: nat, p: nat, q: nat)
    ensures x == a / 4 && y == a % 4 && u == b / 16 && w == b % 16 && p == c / 64 && q == c % 64
    ensures x < 64 && y < 4 && u < 16 && w < 16 && p < 4 && q < 64
    ensures B.Group(a, b, c) == 262144 * x + 65536 * y + 4096 * u + 256 * w + 64 * p + q
  {
    x, y, u, w, p, q := a / 4, a % 4, b / 16, b % 16, c / 64, c % 64;
  }

  /** The four groups of six bits of a word. */
  lemma {:induction false} SixBits(a: Byte, b: Byte, c: Byte)
    ensures var n := B.Group(a, b, c);
            && B.Six(n, 3) == a / 4 && B.Six(n, 2) == a % 4 * 16 + b / 16
            && B.Six(n, 1) == b % 16 * 4 + c / 64 && B.Six(n, 0) == c % 64
  {
    hide B.Group;
    var x, y, u, w, p, q := Parts(a, b, c);
    var n := B.Group(a, b, c);
    assert n / 0x40000 == x;
    assert n / 0x1000 == 64 * x + (16 * y + u);
    assert n / 0x40 == 64 * (64 * x + 16 * y + u) + (4 * w + p);
    assert n == 64 * (64 * (64 * x + 16 * y + u) + 4 * w + p) + q;
  }

  /** Three bytes are four symbols, six bits each, the first bits first; what is
      left over is filled up with zeros and padded. */
  lemma {:induction false} GroupExact(a: Byte, b: Byte, c: Byte, rest: seq<Byte>)
    ensures var code := B.Encode64([a, b, c] + rest);
            && |code| >= 4 && code[4..] == B.Encode64(rest)
            && B.Value(code[0]) == a / 4 && B.Value(code[1]) == a % 4 * 16 + b / 16
            && B.Value(code[2]) == b % 16 * 4 + c / 64 && B.Value(code[3]) == c % 64
  {
    hide B.Group, B.Six, B.Symbol, B.Value;
    SixBits(a, b, c);
    var raw := [a, b, c] + rest;
    assert raw[3..] == rest && raw[0] == a && raw[1] == b && raw[2] == c;
  }

  lemma {:induction false} LeftOver(a: Byte, b: Byte)
    ensures var one, two := B.Encode64([a]), B.Encode64([a, b]);
            && |one| == 4 && B.Value(one[0]) == a / 4 && B.Value(one[1]) == a % 4 * 16
            && one[2] == one[3] == '=' as int
            && |two| == 4 && B.Value(two[0]) == a / 4 && B.Value(two[1]) == a % 4 * 16 + b / 16
            && B.Value(two[2]) == b % 16 * 4 && two[3] == '=' as int
  {
    hide B.Group, B.Six, B.Symbol, B.Value;
    SixBits(a, 0, 0);
    SixBits(a, b, 0);
  }

  /** Known answers of section 10 of RFC 4648. */
  lemma {:induction false} KnownBase64()
    ensures B.Encode64(Bytes("f")) == Bytes("Zg==") && B.Encode64(Bytes("fo")) == Bytes("Zm8=")
    ensures B.Encode64(Bytes("foo")) == Bytes("Zm9v")
  {
    assert Bytes("f") == [102] && Bytes("fo") == [102, 111] && Bytes("foo") == [102, 111, 111];
    assert Bytes("Zg==") == [90, 103, 61, 61] && Bytes("Zm8=") == [90, 109, 56, 61] && Bytes("Zm9v") == [90, 109, 57, 118];
    assert [102, 111, 111][3..] == [];
  }
}
