/**
 The CBOR data items of RFC 8949, section 3, as the platform's decoder reads them: one item is taken
 from the front of a byte string, and everything after it is left alone.
 */
module Cbor {
  import opened Bytes

  /** A decoded item. A map keeps its keys and values in wire order: key 0, value 0, key 1, … */
  datatype Value =
    | Integer(i: int)
    | Bytes(b: seq<byte>)
    | Text(t: seq<byte>)
    | Array(items: seq<Value>)
    | Map(flat: seq<Value>)
    | Bool(v: bool)
    | Null
    | Float(bits: seq<byte>)

  /** What a parser took from the front of its input, and how many bytes that used. */
  datatype Parsed<+T> = Malformed | Parsed(value: T, used: nat)

  /** Nesting budget of the decoder: arrays, maps and tags each spend one unit. */
  const MAX_DEPTH: nat := 128

  const BREAK: byte := 0xff

  /** Initial byte and argument of an item (section 3 of RFC 8949). `info` 31 has no argument. */
  datatype Head = Head(major: nat, info: nat, arg: nat)

  function ReadHead(s: seq<byte>): (h: Parsed<Head>)
    ensures h.Parsed? ==> 1 <= h.used <= 9 && h.used <= |s| && h.value.major == s[0] / 32
    ensures h.Parsed? ==> h.value.arg < 0x1_0000_0000_0000_0000
  {
    if s == [] then Malformed else
    var major, info := s[0] / 32, s[0] % 32;
    if info < 24 then Parsed(Head(major, info, info), 1)
    else if info == 31 then Parsed(Head(major, info, 0), 1)
    else if info > 27 then Malformed
    else
      var w := ArgWidth(info);
      if |s| < 1 + w then Malformed
      else
        Limits();
        Parsed(Head(major, info, FromBigEndian(s[1..1 + w])), 1 + w)
  }

  function ArgWidth(info: nat): (w: nat)
    requires 24 <= info <= 27
    ensures w in {1, 2, 4, 8}
  {
    if info == 24 then 1 else if info == 25 then 2 else if info == 26 then 4 else 8
  }

  /** Chunks of an indefinite-length string, up to its break (section 3.2.3 of RFC 8949). */
  function ParseChunks(s: seq<byte>, major: nat): (r: Parsed<seq<byte>>)
    ensures r.Parsed? ==> 1 <= r.used <= |s|
  {
    if s == [] then Malformed
    else if s[0] == BREAK then Parsed([], 1)
    else
      var h := ReadHead(s);
      if h.Malformed? || h.value.major != major || h.value.info == 31 || |s| < h.used + h.value.arg then Malformed
      else
        var end := h.used + h.value.arg;
        var rest := ParseChunks(s[end..], major);
        if rest.Malformed? then Malformed else Parsed(s[h.used..end] + rest.value, end + rest.used)
  }

  /** Exactly one item from the front of `s`. */
  function ParseItem(s: seq<byte>, depth: nat): (r: Parsed<Value>)
    ensures r.Parsed? ==> 1 <= r.used <= |s|
    decreases depth, |s|, 1
  {
    var h := ReadHead(s);
    if h.Malformed? then Malformed else
    var r := ParseBody(h.value, s[1..h.used], s[h.used..], depth);
    if r.Malformed? then Malformed else Parsed(r.value, h.used + r.used)
  }

  /** The rest of an item whose head is `h`, `argument` being the bytes of the head's argument. */
  function ParseBody(h: Head, argument: seq<byte>, body: seq<byte>, depth: nat): (r: Parsed<Value>)
    ensures r.Parsed? ==> r.used <= |body|
    decreases depth, |body|, 3
  {
    if h.major == 0 then (if h.info == 31 then Malformed else Parsed(Integer(h.arg), 0))
    else if h.major == 1 then (if h.info == 31 then Malformed else Parsed(Integer(-1 - h.arg), 0))
    else if h.major == 2 || h.major == 3 then
      var str := ParseString(body, h.major, h.info, h.arg);
      if str.Malformed? then Malformed
      else Parsed(if h.major == 2 then Bytes(str.value) else Text(str.value), str.used)
    else if h.major == 7 then ParseSimple(h.info, argument)
    else if depth <= 1 then Malformed
    else if h.major == 4 then
      var items := ParseItems(body, h.info == 31, h.arg, depth - 1);
      if items.Malformed? then Malformed else Parsed(Array(items.value), items.used)
    else if h.major == 5 then
      var items := ParseItems(body, h.info == 31, 2 * h.arg, depth - 1);
      if items.Malformed? || |items.value| % 2 != 0 then Malformed else Parsed(Map(items.value), items.used)
    else
      if h.info == 31 then Malformed else ParseItem(body, depth - 1)
  }

  /** Booleans, null and undefined, and floats (major type 7). */
  function ParseSimple(info: nat, argument: seq<byte>): (r: Parsed<Value>)
    ensures r.Parsed? ==> r.used == 0
  {
    if info == 20 || info == 21 then Parsed(Bool(info == 21), 0)
    else if info == 22 || info == 23 then Parsed(Null, 0)
    else if 25 <= info <= 27 then Parsed(Float(argument), 0)
    else Malformed
  }

  /** Content of a byte or text string whose head has been read. */
  function ParseString(body: seq<byte>, major: nat, info: nat, arg: nat): (r: Parsed<seq<byte>>)
    ensures r.Parsed? ==> r.used <= |body|
  {
    if info == 31 then ParseChunks(body, major)
    else if |body| < arg then Malformed
    else Parsed(body[..arg], arg)
  }

  /** `count` items, or, when `indefinite`, items up to a break byte. */
  function ParseItems(s: seq<byte>, indefinite: bool, count: nat, depth: nat): (r: Parsed<seq<Value>>)
    ensures r.Parsed? ==> r.used <= |s|
    ensures r.Parsed? && !indefinite ==> |r.value| == count
    decreases depth, |s|, 2
  {
    if !indefinite && count == 0 then Parsed([], 0)
    else if indefinite && s != [] && s[0] == BREAK then Parsed([], 1)
    else
      var first := ParseItem(s, depth);
      if first.Malformed? then Malformed else
      var rest := ParseItems(s[first.used..], indefinite, if indefinite then 0 else count - 1, depth);
      if rest.Malformed? then Malformed else Parsed([first.value] + rest.value, first.used + rest.used)
  }

  /** One item that is the whole input, as `from_slice` demands. */
  function Decode(s: seq<byte>): (r: Parsed<Value>)
    ensures r.Parsed? ==> r.used == |s|
  {
    var r := ParseItem(s, MAX_DEPTH);
    if r.Parsed? && r.used == |s| then r else Malformed
  }

  /** `raw` is exactly one item. */
  predicate IsItem(raw: seq<byte>) {
    Decode(raw).Parsed?
  }

  // ---------------------------------------------------------------------------
  // An item is decided by its own bytes alone.
  // ---------------------------------------------------------------------------

  ghost predicate Agree(s: seq<byte>, t: seq<byte>, n: nat) {
    n <= |s| && n <= |t| && forall i :: 0 <= i < n ==> s[i] == t[i]
  }

  lemma HeadLocal(s: seq<byte>, t: seq<byte>)
    requires ReadHead(s).Parsed? && Agree(s, t, ReadHead(s).used)
    ensures ReadHead(t) == ReadHead(s)
  {
    var n := ReadHead(s).used;
    assert s[1..n] == t[1..n];
  }

  lemma {:induction false} ChunksLocal(s: seq<byte>, t: seq<byte>, major: nat)
    requires ParseChunks(s, major).Parsed? && Agree(s, t, ParseChunks(s, major).used)
    ensures ParseChunks(t, major) == ParseChunks(s, major)
  {
    hide ReadHead;
    if s[0] != BREAK {
      HeadLocal(s, t);
      var h := ReadHead(s);
      var end := h.used + h.value.arg;
      assert s[h.used..end] == t[h.used..end];
      ChunksLocal(s[end..], t[end..], major);
    }
  }

  lemma StringLocal(s: seq<byte>, t: seq<byte>, major: nat, info: nat, arg: nat)
    requires ParseString(s, major, info, arg).Parsed?
    requires Agree(s, t, ParseString(s, major, info, arg).used)
    ensures ParseString(t, major, info, arg) == ParseString(s, major, info, arg)
  {
    if info == 31 {
      ChunksLocal(s, t, major);
    } else {
      assert s[..arg] == t[..arg];
    }
  }

  /** Prefix-freeness: whatever follows an item cannot change how it is read. */
  lemma {:induction false} ItemLocal(s: seq<byte>, t: seq<byte>, depth: nat)
    requires ParseItem(s, depth).Parsed? && Agree(s, t, ParseItem(s, depth).used)
    ensures ParseItem(t, depth) == ParseItem(s, depth)
    decreases depth, |s|, 1
  {
    HeadLocal(s, t);
    var h := ReadHead(s);
    assert s[1..h.used] == t[1..h.used];
    BodyLocal(h.value, s[1..h.used], s[h.used..], t[h.used..], depth);
  }

  lemma {:induction false} BodyLocal(h: Head, argument: seq<byte>, s: seq<byte>, t: seq<byte>, depth: nat)
    requires ParseBody(h, argument, s, depth).Parsed? && Agree(s, t, ParseBody(h, argument, s, depth).used)
    ensures ParseBody(h, argument, t, depth) == ParseBody(h, argument, s, depth)
    decreases depth, |s|, 3
  {
    hide ParseItems, ParseItem, ParseString;
    if h.major == 2 || h.major == 3 {
      StringLocal(s, t, h.major, h.info, h.arg);
    } else if h.major == 4 {
      ItemsLocal(s, t, h.info == 31, h.arg, depth - 1);
    } else if h.major == 5 {
      ItemsLocal(s, t, h.info == 31, 2 * h.arg, depth - 1);
    } else if h.major > 5 && h.major != 7 {
      ItemLocal(s, t, depth - 1);
    }
  }

  lemma {:induction false} ItemsLocal(s: seq<byte>, t: seq<byte>, indefinite: bool, count: nat, depth: nat)
    requires ParseItems(s, indefinite, count, depth).Parsed?
    requires Agree(s, t, ParseItems(s, indefinite, count, depth).used)
    ensures ParseItems(t, indefinite, count, depth) == ParseItems(s, indefinite, count, depth)
    decreases depth, |s|, 2
  {
    hide ParseItem;
    if !indefinite && count == 0 {
    } else if indefinite && s != [] && s[0] == BREAK {
    } else {
      var first := ParseItem(s, depth);
      ItemLocal(s, t, depth);
      var n, next := first.used, if indefinite then 0 else count - 1;
      assert s[0] == t[0];
      ItemsLocal(s[n..], t[n..], indefinite, next, depth);
    }
  }

  // ---------------------------------------------------------------------------
  // A larger nesting budget accepts no less and reads no differently.
  // ---------------------------------------------------------------------------

  lemma {:induction false} ItemDeeper(s: seq<byte>, depth: nat, more: nat)
    requires ParseItem(s, depth).Parsed? && depth <= more
    ensures ParseItem(s, more) == ParseItem(s, depth)
    decreases depth, |s|, 1
  {
    var h := ReadHead(s);
    BodyDeeper(h.value, s[1..h.used], s[h.used..], depth, more);
  }

  lemma {:induction false} BodyDeeper(h: Head, argument: seq<byte>, body: seq<byte>, depth: nat, more: nat)
    requires ParseBody(h, argument, body, depth).Parsed? && depth <= more
    ensures ParseBody(h, argument, body, more) == ParseBody(h, argument, body, depth)
    decreases depth, |body|, 3
  {
    hide ParseItems, ParseItem, ParseString;
    if h.major == 4 {
      ItemsDeeper(body, h.info == 31, h.arg, depth - 1, more - 1);
    } else if h.major == 5 {
      ItemsDeeper(body, h.info == 31, 2 * h.arg, depth - 1, more - 1);
    } else if h.major > 5 && h.major != 7 {
      ItemDeeper(body, depth - 1, more - 1);
    }
  }

  lemma {:induction false} ItemsDeeper(s: seq<byte>, indefinite: bool, count: nat, depth: nat, more: nat)
    requires ParseItems(s, indefinite, count, depth).Parsed? && depth <= more
    ensures ParseItems(s, indefinite, count, more) == ParseItems(s, indefinite, count, depth)
    decreases depth, |s|, 2
  {
    hide ParseItem;
    if (indefinite || count > 0) && !(indefinite && s != [] && s[0] == BREAK) {
      ItemDeeper(s, depth, more);
      ItemsDeeper(s[ParseItem(s, depth).used..], indefinite, if indefinite then 0 else count - 1, depth, more);
    }
  }
}
