/** The canonical encoder of RFC 8949, section 4.2, as the inverse of the decoder in `Cbor`. */
module CborEncode {
  import opened Bytes
  import opened Cbor

  /** Shortest head carrying the argument `n`. */
  function EncodeHead(major: nat, n: nat): (s: seq<byte>)
    requires major < 8
    ensures 1 <= |s| <= 9
  {
    if n < 24 then [major * 32 + n]
    else if n < 0x100 then [major * 32 + 24] + BigEndian(n, 1)
    else if n < 0x1_0000 then [major * 32 + 25] + BigEndian(n, 2)
    else if n < 0x1_0000_0000 then [major * 32 + 26] + BigEndian(n, 4)
    else [major * 32 + 27] + BigEndian(n, 8)
  }

  /** Whether `v` has an encoding that a decoder with nesting budget `depth` can read. */
  ghost predicate Encodable(v: Value, depth: nat)
    decreases v
  {
    match v
    case Integer(i) => -0x1_0000_0000_0000_0000 <= i < 0x1_0000_0000_0000_0000
    case Bytes(b) => |b| < 0x1_0000_0000_0000_0000
    case Text(t) => |t| < 0x1_0000_0000_0000_0000
    case Array(items) =>
      depth > 1 && |items| < 0x1_0000_0000_0000_0000 && forall x | x in items :: Encodable(x, depth - 1)
    case Map(flat) =>
      depth > 1 && |flat| % 2 == 0 && |flat| / 2 < 0x1_0000_0000_0000_0000 &&
      forall x | x in flat :: Encodable(x, depth - 1)
    case Bool(_) => true
    case Null => true
    case Float(bits) => |bits| in {2, 4, 8}
  }

  function Encode(v: Value): (s: seq<byte>)
    ensures |s| >= 1
    decreases v, 0
  {
    match v
    case Integer(i) => if i >= 0 then EncodeHead(0, i) else EncodeHead(1, -1 - i)
    case Bytes(b) => EncodeHead(2, |b|) + b
    case Text(t) => EncodeHead(3, |t|) + t
    case Array(items) => EncodeHead(4, |items|) + EncodeItems(items)
    case Map(flat) => EncodeHead(5, |flat| / 2) + EncodeItems(flat)
    case Bool(v) => [if v then 0xf5 else 0xf4]
    case Null => [0xf6]
    case Float(bits) => [if |bits| == 2 then 0xf9 else if |bits| == 4 then 0xfa else 0xfb] + bits
  }

  function EncodeItems(vs: seq<Value>): (s: seq<byte>)
    decreases vs, 1
  {
    if vs == [] then [] else Encode(vs[0]) + EncodeItems(vs[1..])
  }

  lemma HeadRoundTrip(major: nat, n: nat, rest: seq<byte>)
    requires major < 8 && n < 0x1_0000_0000_0000_0000
    ensures var s := EncodeHead(major, n);
            var h := ReadHead(s + rest);
            h.Parsed? && h.used == |s| && h.value.major == major && h.value.arg == n && h.value.info != 31
  {
    Limits();
    hide BigEndian;
    if 24 <= n < 0x100 {
      WideHead(major, 24, n, rest);
    } else if 0x100 <= n < 0x1_0000 {
      WideHead(major, 25, n, rest);
    } else if 0x1_0000 <= n < 0x1_0000_0000 {
      WideHead(major, 26, n, rest);
    } else if n >= 0x1_0000_0000 {
      WideHead(major, 27, n, rest);
    }
  }

  lemma WideHead(major: nat, info: nat, n: nat, rest: seq<byte>)
    requires major < 8 && 24 <= info <= 27 && n < Limit(ArgWidth(info))
    ensures var w := ArgWidth(info);
            var h := ReadHead([major * 32 + info] + BigEndian(n, w) + rest);
            h == Parsed(Head(major, info, n), 1 + w)
  {
    var w := ArgWidth(info);
    var s := [major * 32 + info] + BigEndian(n, w) + rest;
    assert s[1..1 + w] == BigEndian(n, w);
    BigEndianRoundTrip(n, w);
    Remainder(n, 0, Limit(w), n);
    assert s[0] / 32 == major && s[0] % 32 == info;
  }

  /** Decoding what was encoded, in front of anything, gives the value back and uses exactly its encoding. */
  lemma {:induction false} EncodeThenParse(v: Value, rest: seq<byte>, depth: nat)
    requires Encodable(v, depth)
    ensures ParseItem(Encode(v) + rest, depth) == Parsed(v, |Encode(v)|)
    decreases v, 0
  {
    hide ParseItem, ParseItems, EncodeItems, EncodeHead;
    match v
    case Integer(i) => IntegerParses(i, rest, depth);
    case Bytes(b) => StringParses(2, b, rest);
    case Text(t) => StringParses(3, t, rest);
    case Array(items) =>
      EncodeItemsThenParse(items, rest, depth - 1);
      ContainerParses(v, 4, |items|, items, rest, depth);
    case Map(flat) =>
      EncodeItemsThenParse(flat, rest, depth - 1);
      ContainerParses(v, 5, |flat| / 2, flat, rest, depth);
    case Bool(_) => SimpleParses(v, rest, depth);
    case Null => SimpleParses(v, rest, depth);
    case Float(_) => SimpleParses(v, rest, depth);
  }

  lemma IntegerParses(i: int, rest: seq<byte>, depth: nat)
    requires Encodable(Integer(i), depth)
    ensures ParseItem(Encode(Integer(i)) + rest, depth) == Parsed(Integer(i), |Encode(Integer(i))|)
  {
    hide ReadHead, EncodeHead;
    HeadRoundTrip(if i >= 0 then 0 else 1, if i >= 0 then i else -1 - i, rest);
  }

  lemma SimpleParses(v: Value, rest: seq<byte>, depth: nat)
    requires v.Bool? || v.Null? || (v.Float? && |v.bits| in {2, 4, 8})
    ensures ParseItem(Encode(v) + rest, depth) == Parsed(v, |Encode(v)|)
  {
    if v.Float? {
      assert (Encode(v) + rest)[1..1 + |v.bits|] == v.bits;
    }
  }

  lemma StringParses(major: nat, b: seq<byte>, rest: seq<byte>)
    requires (major == 2 || major == 3) && |b| < 0x1_0000_0000_0000_0000
    ensures var s := EncodeHead(major, |b|) + b;
            ParseItem(s + rest, 0) == Parsed(if major == 2 then Bytes(b) else Text(b), |s|)
    ensures forall d: nat :: ParseItem(EncodeHead(major, |b|) + b + rest, d)
                          == ParseItem(EncodeHead(major, |b|) + b + rest, 0)
  {
    HeadRoundTrip(major, |b|, b + rest);
    BodyFollows(EncodeHead(major, |b|), b, rest);
    assert (b + rest)[..|b|] == b;
  }

  lemma ContainerParses(v: Value, major: nat, n: nat, items: seq<Value>, rest: seq<byte>, depth: nat)
    requires depth > 1 && n < 0x1_0000_0000_0000_0000
    requires (major == 4 && n == |items| && v == Array(items)) || (major == 5 && 2 * n == |items| && v == Map(items))
    requires ParseItems(EncodeItems(items) + rest, false, |items|, depth - 1) == Parsed(items, |EncodeItems(items)|)
    ensures ParseItem(Encode(v) + rest, depth) == Parsed(v, |Encode(v)|)
  {
    hide ParseItem, ParseItems, ReadHead, EncodeHead, EncodeItems;
    var head, body := EncodeHead(major, n), EncodeItems(items);
    HeadRoundTrip(major, n, body + rest);
    ItemOf(v, head, items, body + rest, depth);
    BodyFollows(head, body, rest);
    assert Encode(v) == head + body;
  }

  lemma ItemOf(v: Value, head: seq<byte>, items: seq<Value>, body: seq<byte>, depth: nat)
    requires ReadHead(head + body).Parsed? && ReadHead(head + body).used == |head|
    requires var h := ReadHead(head + body).value;
             depth > 1 && h.info != 31 &&
             ((h.major == 4 && h.arg == |items| && v == Array(items)) ||
              (h.major == 5 && 2 * h.arg == |items| && v == Map(items)))
    requires ParseItems(body, false, |items|, depth - 1) == Parsed(items, |EncodeItems(items)|)
    ensures ParseItem(head + body, depth) == Parsed(v, |head| + |EncodeItems(items)|)
  {
    var s := head + body;
    assert s[|head|..] == body;
    ContainerBody(v, ReadHead(s).value, s[1..|head|], items, body, depth);
  }

  lemma ContainerBody(v: Value, h: Head, argument: seq<byte>, items: seq<Value>, s: seq<byte>, depth: nat)
    requires depth > 1 && h.info != 31
    requires (h.major == 4 && h.arg == |items| && v == Array(items))
          || (h.major == 5 && 2 * h.arg == |items| && v == Map(items))
    requires ParseItems(s, false, |items|, depth - 1) == Parsed(items, |EncodeItems(items)|)
    ensures ParseBody(h, argument, s, depth) == Parsed(v, |EncodeItems(items)|)
  {
  }

  lemma BodyFollows(head: seq<byte>, body: seq<byte>, rest: seq<byte>)
    ensures head + body + rest == head + (body + rest)
    ensures (head + body + rest)[|head|..] == body + rest
  {
  }

  lemma {:induction false} EncodeItemsThenParse(vs: seq<Value>, rest: seq<byte>, depth: nat)
    requires forall x | x in vs :: Encodable(x, depth)
    ensures ParseItems(EncodeItems(vs) + rest, false, |vs|, depth) == Parsed(vs, |EncodeItems(vs)|)
    decreases vs, 1
  {
    hide ParseItem, Encode, Encodable;
    if vs != [] {
      var first, tail := Encode(vs[0]), EncodeItems(vs[1..]) + rest;
      assert EncodeItems(vs) + rest == first + tail;
      EncodeThenParse(vs[0], tail, depth);
      EncodeItemsThenParse(vs[1..], rest, depth);
      FirstOfItems(vs, first, tail, depth);
    }
  }

  lemma FirstOfItems(vs: seq<Value>, first: seq<byte>, tail: seq<byte>, depth: nat)
    requires vs != [] && ParseItem(first + tail, depth) == Parsed(vs[0], |first|)
    requires first != [] && (first + tail)[0] == first[0]
    ensures var rest := ParseItems(tail, false, |vs| - 1, depth);
            rest.Parsed? && rest.value == vs[1..] ==>
              ParseItems(first + tail, false, |vs|, depth) == Parsed(vs, |first| + rest.used)
  {
    hide ParseItem;
    assert (first + tail)[|first|..] == tail && [vs[0]] + vs[1..] == vs;
  }
}
