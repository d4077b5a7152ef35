/** Percent-encoding and query strings (sections 2.1 and 2.3 of RFC 3986). */
module UrlCodec {

  type Byte = b: int | 0 <= b < 256

  const PERCENT: Byte := 37
  const AMP: Byte := 38
  const EQUALS: Byte := 61
  const QUESTION: Byte := 63
  const SPACE: Byte := 32

  predicate Unreserved(c: Byte) {
    || 'A' as int <= c <= 'Z' as int || 'a' as int <= c <= 'z' as int || '0' as int <= c <= '9' as int
    || c == '-' as int || c == '_' as int || c == '.' as int || c == '~' as int
  }

  function HexDigit(v: int): (c: Byte)
    requires 0 <= v < 16
    ensures HexVal(c) == v
  {
    if v < 10 then '0' as int + v else 'A' as int + (v - 10)
  }

  function HexVal(c: Byte): (v: int)
    ensures -1 <= v < 16
  {
    if '0' as int <= c <= '9' as int then c - '0' as int
    else if 'a' as int <= c <= 'f' as int then c - 'a' as int + 10
    else if 'A' as int <= c <= 'F' as int then c - 'A' as int + 10
    else -1
  }

  function EncodeByte(c: Byte): seq<Byte> {
    if Unreserved(c) then [c] else [PERCENT, HexDigit(c / 16), HexDigit(c % 16)]
  }

  function Encode(s: seq<Byte>): seq<Byte> {
    if s == [] then [] else Encode(s[..|s| - 1]) + EncodeByte(s[|s| - 1])
  }

  predicate Escape(s: seq<Byte>) {
    |s| > 2 && s[0] == PERCENT && HexVal(s[1]) >= 0 && HexVal(s[2]) >= 0
  }

  function Decode(s: seq<Byte>): seq<Byte> {
    if s == [] then []
    else if Escape(s) then [HexVal(s[1]) * 16 + HexVal(s[2])] + Decode(s[3..])
    else [s[0]] + Decode(s[1..])
  }

  method UrlEncode(s: seq<Byte>) returns (out: seq<Byte>)
    ensures out == Encode(s)
  {
    out := [];
    for i := 0 to |s|
      invariant out == Encode(s[..i])
    {
      assert s[..i + 1][..i] == s[..i];
      var c := s[i];
      if Unreserved(c) {
        out := out + [c];
      } else {
        out := out + [PERCENT];
        out := out + [HexDigit(c / 16)];
        out := out + [HexDigit(c % 16)];
      }
    }
    assert s[..|s|] == s;
  }

  method UrlDecode(s: seq<Byte>) returns (out: seq<Byte>)
    ensures out == Decode(s)
  {
    out := [];
    var i := 0;
    while i < |s|
      invariant 0 <= i <= |s| && out + Decode(s[i..]) == Decode(s)
    {
      ghost var rest := s[i..];
      ghost var before := out;
      if s[i] == PERCENT && i + 2 < |s| {
        var hi, lo := HexVal(s[i + 1]), HexVal(s[i + 2]);
        if hi >= 0 && lo >= 0 {
          assert rest[3..] == s[i + 3..];
          out := out + [hi * 16 + lo];
          i := i + 3;
          continue;
        }
      }
      assert !Escape(rest) && rest[1..] == s[i + 1..];
      out := out + [s[i]];
      i := i + 1;
    }
  }

  // ---- Round trip ----

  lemma {:induction false} EncodeFirst(s: seq<Byte>)
    requires s != []
    ensures Encode(s) == EncodeByte(s[0]) + Encode(s[1..])
    decreases |s|
  {
    hide EncodeByte;
    var n := |s| - 1;
    if n == 0 {
      assert s[..0] == [] && s[1..] == [];
    } else {
      EncodeFirst(s[..n]);
      assert s[..n][1..] == s[1..][..n - 1];
    }
  }

  lemma {:induction false} DecodeOne(c: Byte, rest: seq<Byte>)
    ensures Decode(EncodeByte(c) + rest) == [c] + Decode(rest)
  {
  }

  /** Decoding undoes encoding on every byte string, whatever follows it. */
  lemma {:induction false} DecodeEncode(s: seq<Byte>, rest: seq<Byte>)
    ensures Decode(Encode(s) + rest) == s + Decode(rest)
    decreases |s|
  {
    hide EncodeByte;
    if s == [] {
      assert Encode(s) + rest == rest;
    } else {
      EncodeFirst(s);
      DecodeEncode(s[1..], rest);
      assert Encode(s) + rest == EncodeByte(s[0]) + (Encode(s[1..]) + rest);
      DecodeOne(s[0], Encode(s[1..]) + rest);
      assert s == [s[0]] + s[1..];
    }
  }

  lemma {:induction false} RoundTrip(s: seq<Byte>)
    ensures Decode(Encode(s)) == s
  {
    DecodeEncode(s, []);
    assert Encode(s) + [] == Encode(s);
  }

  /** What encoding leaves: unreserved bytes and escapes. */
  predicate Plain(c: Byte) {
    Unreserved(c) || c == PERCENT
  }

  lemma {:induction false} EncodePlain(s: seq<Byte>)
    ensures forall k :: 0 <= k < |Encode(s)| ==> Plain(Encode(s)[k])
    decreases |s|
  {
    if s != [] {
      EncodePlain(s[..|s| - 1]);
      var e := EncodeByte(s[|s| - 1]);
      assert forall k :: 0 <= k < |e| ==> Plain(e[k]);
    }
  }

  // ---- Query strings ----

  type Params = map<seq<Byte>, seq<Byte>>

  /** First position of c at or after `from`, or the length. */
  function Find(s: seq<Byte>, c: Byte, from: nat): (k: nat)
    requires from <= |s|
    ensures from <= k <= |s| && (k < |s| ==> s[k] == c)
    ensures forall j :: from <= j < k ==> s[j] != c
    decreases |s| - from
  {
    if from < |s| && s[from] != c then Find(s, c, from + 1) else from
  }

  function AddPair(pair: seq<Byte>, m: Params): Params {
    var eq := Find(pair, EQUALS, 0);
    if eq < |pair| then m[Decode(pair[..eq]) := Decode(pair[eq + 1..])] else m
  }

  function ParsePairs(query: seq<Byte>, m: Params): Params
    decreases |query|
  {
    if query == [] then m
    else
      var amp := Find(query, AMP, 0);
      var m' := AddPair(query[..amp], m);
      if amp == |query| then m' else ParsePairs(query[amp + 1..], m')
  }

  function QueryOf(url: seq<Byte>): seq<Byte> {
    var q := Find(url, QUESTION, 0);
    if q == |url| then [] else url[q + 1..][..Find(url[q + 1..], SPACE, 0)]
  }

  function Parse(url: seq<Byte>, m: Params): Params {
    ParsePairs(QueryOf(url), m)
  }

  lemma {:induction false} FindShifts(s: seq<Byte>, c: Byte, from: nat)
    requires from <= |s|
    ensures Find(s, c, from) == from + Find(s[from..], c, 0)
  {
  }

  /** The first position is the only one with these properties. */
  lemma {:induction false} FirstIs(s: seq<Byte>, c: Byte, from: nat, k: nat)
    requires from <= k <= |s| && (k < |s| ==> s[k] == c)
    requires forall j :: from <= j < k ==> s[j] != c
    ensures Find(s, c, from) == k
  {
  }

  method ParseQuery(url: seq<Byte>, before: Params) returns (out: Params)
    ensures out == Parse(url, before)
  {
    out := before;
    var q := Find(url, QUESTION, 0);
    if q == |url| {
      return;
    }
    var query := url[q + 1..];
    var end := Find(query, SPACE, 0);
    query := query[..end];
    out := ParseEach(query, before);
  }

  method ParseEach(query: seq<Byte>, before: Params) returns (out: Params)
    ensures out == ParsePairs(query, before)
  {
    hide AddPair, Find;
    out := before;
    var pos := 0;
    assert query[0..] == query;
    while pos < |query|
      invariant 0 <= pos <= |query| && ParsePairs(query[pos..], out) == ParsePairs(query, before)
    {
      FindShifts(query, AMP, pos);
      ghost var rest := query[pos..];
      var amp := Find(query, AMP, pos);
      assert query[pos..amp] == rest[..amp - pos];
      out := AddQueryPair(query[pos..amp], out);
      if amp == |query| {
        break;
      }
      assert rest[amp - pos + 1..] == query[amp + 1..];
      pos := amp + 1;
    }
  }

  method AddQueryPair(pair: seq<Byte>, before: Params) returns (out: Params)
    ensures out == AddPair(pair, before)
  {
    out := before;
    var eq := Find(pair, EQUALS, 0);
    if eq < |pair| {
      var key := UrlDecode(pair[..eq]);
      var value := UrlDecode(pair[eq + 1..]);
      out := out[key := value];
    }
  }

  // ---- A query built from encoded pairs ----

  type Pair = (seq<Byte>, seq<Byte>)

  function EncodePair(p: Pair): seq<Byte> {
    Encode(p.0) + [EQUALS] + Encode(p.1)
  }

  function Join(pairs: seq<Pair>): seq<Byte> {
    if pairs == [] then []
    else if |pairs| == 1 then EncodePair(pairs[0])
    else EncodePair(pairs[0]) + [AMP] + Join(pairs[1..])
  }

  function Updated(m: Params, pairs: seq<Pair>): Params
    decreases |pairs|
  {
    if pairs == [] then m else Updated(m[pairs[0].0 := pairs[0].1], pairs[1..])
  }

  method BuildUrl(base: seq<Byte>, pairs: seq<Pair>) returns (url: seq<Byte>)
    ensures url == base + [QUESTION] + Join(pairs)
  {
    url := base + [QUESTION];
    for i := 0 to |pairs|
      invariant url == base + [QUESTION] + Join(pairs[..i])
    {
      JoinPush(pairs[..i], pairs[i]);
      assert pairs[..i + 1] == pairs[..i] + [pairs[i]];
      if i > 0 {
        url := url + [AMP];
      }
      var key := UrlEncode(pairs[i].0);
      var value := UrlEncode(pairs[i].1);
      url := url + (key + [EQUALS] + value);
    }
    assert pairs[..|pairs|] == pairs;
  }

  lemma {:induction false} JoinPush(pairs: seq<Pair>, p: Pair)
    ensures Join(pairs + [p]) == (if pairs == [] then EncodePair(p) else Join(pairs) + [AMP] + EncodePair(p))
    decreases |pairs|
  {
    hide EncodePair;
    if pairs == [] {
      assert (pairs + [p])[0] == p;
    } else {
      assert (pairs + [p])[1..] == pairs[1..] + [p];
      JoinPush(pairs[1..], p);
    }
  }

  /** Only the separators are separators. */
  lemma {:induction false} PairParts(p: Pair)
    ensures var e := EncodePair(p);
            && Find(e, EQUALS, 0) == |Encode(p.0)|
            && e != [] && (forall k :: 0 <= k < |e| ==> e[k] != AMP && e[k] != SPACE)
            && e[..|Encode(p.0)|] == Encode(p.0) && e[|Encode(p.0)| + 1..] == Encode(p.1)
  {
    EncodePlain(p.0);
    EncodePlain(p.1);
    var e := EncodePair(p);
    forall k | 0 <= k < |e| ensures k == |Encode(p.0)| || Plain(e[k]) {
      if k > |Encode(p.0)| {
        assert e[k] == Encode(p.1)[k - |Encode(p.0)| - 1];
      }
    }
    FirstIs(e, EQUALS, 0, |Encode(p.0)|);
  }

  lemma {:induction false} AddEncoded(p: Pair, m: Params)
    ensures AddPair(EncodePair(p), m) == m[p.0 := p.1]
  {
    PairParts(p);
    RoundTrip(p.0);
    RoundTrip(p.1);
  }

  lemma {:induction false} ParseJoined(pairs: seq<Pair>, m: Params)
    ensures ParsePairs(Join(pairs), m) == Updated(m, pairs)
    ensures forall k :: 0 <= k < |Join(pairs)| ==> Join(pairs)[k] != SPACE
    decreases |pairs|
  {
    hide EncodePair, AddPair;
    if pairs != [] {
      var e := EncodePair(pairs[0]);
      PairParts(pairs[0]);
      AddEncoded(pairs[0], m);
      var query := Join(pairs);
      FirstIs(query, AMP, 0, |e|);
      assert query[..|e|] == e;
      ParseJoined(pairs[1..], m[pairs[0].0 := pairs[0].1]);
      if |pairs| > 1 {
        assert query[|e| + 1..] == Join(pairs[1..]);
      } else {
        assert pairs[1..] == [];
      }
    }
  }

  /** A callback's query parses to exactly the pairs it was built from, the
      later of two with the same key; a space and what follows it are cut. */
  lemma {:induction false} ParseBuilt(base: seq<Byte>, pairs: seq<Pair>, tail: seq<Byte>, m: Params)
    requires forall k :: 0 <= k < |base| ==> base[k] != QUESTION
    requires tail == [] || tail[0] == SPACE
    ensures Parse(base + [QUESTION] + Join(pairs) + tail, m) == Updated(m, pairs)
  {
    hide Join, ParsePairs;
    ParseJoined(pairs, m);
    var url := base + [QUESTION] + Join(pairs) + tail;
    FirstIs(url, QUESTION, 0, |base|);
    var query := url[|base| + 1..];
    assert query == Join(pairs) + tail;
    FirstIs(query, SPACE, 0, |Join(pairs)|);
    assert query[..|Join(pairs)|] == Join(pairs);
  }

  predicate DistinctKeys(pairs: seq<Pair>) {
    forall i, j :: 0 <= i < j < |pairs| ==> pairs[i].0 != pairs[j].0
  }

  lemma {:induction false} UpdatedHolds(m: Params, pairs: seq<Pair>)
    requires DistinctKeys(pairs)
    ensures forall k :: 0 <= k < |pairs| ==> pairs[k].0 in Updated(m, pairs) && Updated(m, pairs)[pairs[k].0] == pairs[k].1
    ensures forall key :: key in Updated(m, pairs) ==>
              key in m || exists k :: 0 <= k < |pairs| && pairs[k].0 == key
    ensures forall key :: key in m && (forall k :: 0 <= k < |pairs| ==> pairs[k].0 != key) ==>
              key in Updated(m, pairs) && Updated(m, pairs)[key] == m[key]
    decreases |pairs|
  {
    if pairs != [] {
      var m' := m[pairs[0].0 := pairs[0].1];
      var rest := pairs[1..];
      assert forall k :: 0 <= k < |rest| ==> rest[k] == pairs[k + 1];
      UpdatedHolds(m', rest);
      forall k | 0 <= k < |pairs|
        ensures pairs[k].0 in Updated(m, pairs) && Updated(m, pairs)[pairs[k].0] == pairs[k].1
      {
        if k > 0 {
          assert pairs[k] == rest[k - 1];
        }
      }
      forall key | key in Updated(m, pairs) && key !in m
        ensures exists k :: 0 <= k < |pairs| && pairs[k].0 == key
      {
        if key != pairs[0].0 {
          var k :| 0 <= k < |rest| && rest[k].0 == key;
          assert pairs[k + 1].0 == key;
        }
      }
    }
  }

  /** With distinct keys: exactly those pairs, nothing else. */
  lemma {:induction false} ParseExact(base: seq<Byte>, pairs: seq<Pair>, tail: seq<Byte>)
    requires forall k :: 0 <= k < |base| ==> base[k] != QUESTION
    requires tail == [] || tail[0] == SPACE
    requires DistinctKeys(pairs)
    ensures var m := Parse(base + [QUESTION] + Join(pairs) + tail, map[]);
            && (forall k :: 0 <= k < |pairs| ==> pairs[k].0 in m && m[pairs[k].0] == pairs[k].1)
            && (forall key :: key in m ==> exists k :: 0 <= k < |pairs| && pairs[k].0 == key)
  {
    hide Parse, Join, Updated;
    ParseBuilt(base, pairs, tail, map[]);
    UpdatedHolds(map[], pairs);
  }
}
