/** Every way to write a data item (section 3 of RFC 8949), byte by byte, and that the decoder takes exactly these. */
module CborForms {
  import opened Bytes
  import opened Cbor
  import opened CborEncode

  // ---------------------------------------------------------------------------
  // Forms
  // ---------------------------------------------------------------------------

  /** Where an argument is: in the initial byte, or in so many bytes after it. */
  datatype Width = Inline | OneByte | TwoBytes | FourBytes | EightBytes

  predicate Fits(w: Width, n: nat) {
    match w
    case Inline => n < 24
    case OneByte => n < 0x100
    case TwoBytes => n < 0x1_0000
    case FourBytes => n < 0x1_0000_0000
    case EightBytes => n < 0x1_0000_0000_0000_0000
  }

  /** Major type and argument. */
  function HeadForm(w: Width, major: nat, n: nat): seq<byte>
    requires major < 8 && Fits(w, n)
  {
    match w
    case Inline => [0x20 * major + n]
    case OneByte => [0x20 * major + 0x18, n]
    case TwoBytes => [0x20 * major + 0x19, n / 0x100, n % 0x100]
    case FourBytes => [0x20 * major + 0x1a, n / 0x100_0000, n / 0x1_0000 % 0x100, n / 0x100 % 0x100, n % 0x100]
    case EightBytes => [0x20 * major + 0x1b] + BigEndian(n, 8)
  }

  datatype Chunk = Chunk(w: Width, content: seq<byte>)

  datatype Form =
    | Unsigned(w: Width, n: nat)
    | Negative(w: Width, n: nat)
    | String(text: bool, w: Width, content: seq<byte>)
    | OpenString(text: bool, chunks: seq<Chunk>)
    | List(w: Width, items: seq<Form>)
    | OpenList(items: seq<Form>)
    | Dictionary(w: Width, items: seq<Form>)      // key, value, key, …
    | OpenDictionary(items: seq<Form>)
    | Tagged(w: Width, tag: nat, item: Form)
    | Truth(v: bool)
    | Nothing(undefined: bool)
    | FloatNumber(bits: seq<byte>)

  ghost predicate Legal(f: Form, depth: nat)
    decreases f
  {
    match f
    case Unsigned(w, n) => Fits(w, n)
    case Negative(w, n) => Fits(w, n)
    case String(_, w, content) => Fits(w, |content|)
    case OpenString(_, chunks) => forall x | x in chunks :: Fits(x.w, |x.content|)
    case List(w, items) => depth > 1 && Fits(w, |items|) && forall x | x in items :: Legal(x, depth - 1)
    case OpenList(items) => depth > 1 && forall x | x in items :: Legal(x, depth - 1)
    case Dictionary(w, items) => depth > 1 && |items| % 2 == 0 && Fits(w, |items| / 2) && forall x | x in items :: Legal(x, depth - 1)
    case OpenDictionary(items) => depth > 1 && |items| % 2 == 0 && forall x | x in items :: Legal(x, depth - 1)
    case Tagged(w, tag, item) => depth > 1 && Fits(w, tag) && Legal(item, depth - 1)
    case Truth(_) => true
    case Nothing(_) => true
    case FloatNumber(bits) => |bits| in {2, 4, 8}
  }

  ghost function Print(f: Form, depth: nat): seq<byte>
    requires Legal(f, depth)
    decreases f, 0
  {
    match f
    case Unsigned(w, n) => HeadForm(w, 0, n)
    case Negative(w, n) => HeadForm(w, 1, n)
    case String(text, w, content) => HeadForm(w, if text then 3 else 2, |content|) + content
    case OpenString(text, chunks) => [if text then 0x7f else 0x5f] + PrintChunks(chunks, text) + [0xff]
    case List(w, items) => HeadForm(w, 4, |items|) + PrintAll(items, depth - 1)
    case OpenList(items) => [0x9f] + PrintAll(items, depth - 1) + [0xff]
    case Dictionary(w, items) => HeadForm(w, 5, |items| / 2) + PrintAll(items, depth - 1)
    case OpenDictionary(items) => [0xbf] + PrintAll(items, depth - 1) + [0xff]
    case Tagged(w, tag, item) => HeadForm(w, 6, tag) + Print(item, depth - 1)
    case Truth(v) => [if v then 0xf5 else 0xf4]
    case Nothing(undefined) => [if undefined then 0xf7 else 0xf6]
    case FloatNumber(bits) => [if |bits| == 2 then 0xf9 else if |bits| == 4 then 0xfa else 0xfb] + bits
  }

  ghost function PrintAll(fs: seq<Form>, depth: nat): seq<byte>
    requires forall x | x in fs :: Legal(x, depth)
    decreases fs, 1
  {
    if fs == [] then [] else Print(fs[0], depth) + PrintAll(fs[1..], depth)
  }

  ghost function PrintChunks(chunks: seq<Chunk>, text: bool): seq<byte>
    requires forall x | x in chunks :: Fits(x.w, |x.content|)
  {
    if chunks == [] then []
    else HeadForm(chunks[0].w, if text then 3 else 2, |chunks[0].content|) + chunks[0].content + PrintChunks(chunks[1..], text)
  }

  function Content(chunks: seq<Chunk>): seq<byte> {
    if chunks == [] then [] else chunks[0].content + Content(chunks[1..])
  }

  /** What a form means; a tag adds nothing to the item it is on. */
  function Meaning(f: Form): Value
    decreases f, 0
  {
    match f
    case Unsigned(_, n) => Integer(n)
    case Negative(_, n) => Integer(-1 - n)
    case String(text, _, content) => if text then Text(content) else Bytes(content)
    case OpenString(text, chunks) => if text then Text(Content(chunks)) else Bytes(Content(chunks))
    case List(_, items) => Array(Meanings(items))
    case OpenList(items) => Array(Meanings(items))
    case Dictionary(_, items) => Map(Meanings(items))
    case OpenDictionary(items) => Map(Meanings(items))
    case Tagged(_, _, item) => Meaning(item)
    case Truth(v) => Bool(v)
    case Nothing(_) => Null
    case FloatNumber(bits) => Float(bits)
  }

  function Meanings(fs: seq<Form>): seq<Value>
    decreases fs, 1
  {
    if fs == [] then [] else [Meaning(fs[0])] + Meanings(fs[1..])
  }

  // ---------------------------------------------------------------------------
  // Forms are read
  // ---------------------------------------------------------------------------

  function InfoOf(w: Width, n: nat): nat {
    match w
    case Inline => n
    case OneByte => 24
    case TwoBytes => 25
    case FourBytes => 26
    case EightBytes => 27
  }

  lemma HeadFormIs(w: Width, major: nat, n: nat)
    requires major < 8 && Fits(w, n)
    ensures HeadForm(w, major, n) == [0x20 * major + InfoOf(w, n)] + if w == Inline then [] else BigEndian(n, ArgWidth(InfoOf(w, n)))
  {
    hide BigEndian;
    match w
    case Inline =>
    case OneByte => TwoBigEndian(n);
    case TwoBytes => TwoBigEndian(n);
    case FourBytes => FourBigEndian(n); assert n / 0x100_0000 % 0x100 == n / 0x100_0000;
    case EightBytes =>
  }

  lemma InlineReads(major: nat, n: nat, rest: seq<byte>)
    requires major < 8 && n < 24
    ensures ReadHead([0x20 * major + n] + rest) == Parsed(Head(major, n, n), 1)
  {
    hide FromBigEndian;
    var b := 0x20 * major + n;
    assert b / 32 == major && b % 32 == n;
  }

  lemma NoBreak(w: Width, major: nat, n: nat)
    requires major < 8 && Fits(w, n)
    ensures HeadForm(w, major, n) != [] && HeadForm(w, major, n)[0] != 0xff
  {
    hide BigEndian;
  }

  lemma HeadReads(w: Width, major: nat, n: nat, rest: seq<byte>)
    requires major < 8 && Fits(w, n)
    ensures var s := HeadForm(w, major, n);
      && ReadHead(s + rest) == Parsed(Head(major, InfoOf(w, n), n), |s|)
      && (s + rest)[|s|..] == rest && s[0] != 0xff && (s + rest)[0] == s[0]
  {
    hide ReadHead, BigEndian, HeadForm;
    NoBreak(w, major, n);
    HeadFormIs(w, major, n);
    if w == Inline {
      assert HeadForm(w, major, n) == [0x20 * major + n];
      InlineReads(major, n, rest);
    } else {
      Limits();
      WideHead(major, InfoOf(w, n), n, rest);
    }
  }

  /** No form begins with the byte that ends an open one. */
  lemma FormStarts(f: Form, depth: nat)
    requires Legal(f, depth)
    ensures Print(f, depth) != [] && Print(f, depth)[0] != 0xff
  {
    match f
    case Unsigned(w, n) => HeadReads(w, 0, n, []);
    case Negative(w, n) => HeadReads(w, 1, n, []);
    case String(text, w, content) => HeadReads(w, if text then 3 else 2, |content|, content);
    case List(w, items) => HeadReads(w, 4, |items|, []);
    case Dictionary(w, items) => HeadReads(w, 5, |items| / 2, []);
    case Tagged(w, tag, item) => HeadReads(w, 6, tag, []);
    case _ =>
  }

  lemma ChunkReads(w: Width, major: nat, content: seq<byte>, more: seq<byte>)
    requires (major == 2 || major == 3) && Fits(w, |content|)
    ensures var head := HeadForm(w, major, |content|);
            var rest := ParseChunks(more, major);
      ParseChunks(head + content + more, major)
      == if rest.Malformed? then Malformed else Parsed(content + rest.value, |head| + |content| + rest.used)
  {
    hide HeadForm, ReadHead, ParseChunks;
    var head := HeadForm(w, major, |content|);
    var s := head + (content + more);
    HeadReads(w, major, |content|, content + more);
    assert head + content + more == s;
    assert s[|head|..|head| + |content|] == content && s[|head| + |content|..] == more;
    ChunkStep(s, major, InfoOf(w, |content|), |head|, content, more);
  }

  lemma ChunkStep(s: seq<byte>, major: nat, info: nat, used: nat, content: seq<byte>, more: seq<byte>)
    requires s != [] && s[0] != 0xff && ReadHead(s) == Parsed(Head(major, info, |content|), used) && info != 31
    requires used + |content| <= |s| && s[used..used + |content|] == content && s[used + |content|..] == more
    ensures var rest := ParseChunks(more, major);
      ParseChunks(s, major) == if rest.Malformed? then Malformed else Parsed(content + rest.value, used + |content| + rest.used)
  {
    hide ReadHead;
  }

  lemma BreakRead(major: nat, rest: seq<byte>)
    requires major == 2 || major == 3
    ensures ParseChunks([0xff] + rest, major) == Parsed([], 1)
  {
    hide ReadHead;
  }

  lemma {:induction false} ChunksRead(chunks: seq<Chunk>, text: bool, rest: seq<byte>)
    requires forall x | x in chunks :: Fits(x.w, |x.content|)
    ensures ParseChunks(PrintChunks(chunks, text) + [0xff] + rest, if text then 3 else 2)
         == Parsed(Content(chunks), |PrintChunks(chunks, text)| + 1)
  {
    hide HeadForm, ParseChunks;
    var major := if text then 3 else 2;
    if chunks == [] {
      BreakRead(major, rest);
      assert PrintChunks(chunks, text) + [0xff] + rest == [0xff] + rest;
    } else {
      hide PrintChunks;
      var x, b := chunks[0], PrintChunks(chunks[1..], text);
      var a := HeadForm(x.w, major, |x.content|) + x.content;
      ChunksRead(chunks[1..], text, rest);
      ChunkReads(x.w, major, x.content, b + [0xff] + rest);
      PrintedChunks(chunks, text);
      Regrouped(a, b, [0xff], rest);
    }
  }

  lemma PrintedChunks(chunks: seq<Chunk>, text: bool)
    requires chunks != [] && forall x | x in chunks :: Fits(x.w, |x.content|)
    ensures var x := chunks[0];
      PrintChunks(chunks, text) == HeadForm(x.w, if text then 3 else 2, |x.content|) + x.content + PrintChunks(chunks[1..], text)
  {
    hide HeadForm;
  }

  lemma Regrouped(a: seq<byte>, b: seq<byte>, d: seq<byte>, e: seq<byte>)
    ensures a + b + d + e == a + (b + d + e) && a + b + d == a + (b + d)
  {
  }

  /** The decoder takes a form for what it means, and exactly its bytes, whatever follows. */
  lemma {:induction false} FormReads(f: Form, depth: nat, rest: seq<byte>)
    requires Legal(f, depth)
    ensures ParseItem(Print(f, depth) + rest, depth) == Parsed(Meaning(f), |Print(f, depth)|)
    decreases f, 0
  {
    hide ParseItem, HeadForm, ParseItems, ParseBody, PrintAll, PrintChunks, Meanings;
    match f
    case Unsigned(w, n) => NumberReads(w, false, n, rest, depth);
    case Negative(w, n) => NumberReads(w, true, n, rest, depth);
    case String(text, w, content) => StringReads(text, w, content, rest, depth);
    case OpenString(text, chunks) => OpenStringReads(text, chunks, rest, depth);
    case List(w, items) =>
      FormsRead(items, depth - 1, false, rest);
      ListReads(w, |items|, PrintAll(items, depth - 1), Meanings(items), rest, depth, false);
    case OpenList(items) =>
      FormsRead(items, depth - 1, true, rest);
      OpenReads(PrintAll(items, depth - 1), Meanings(items), rest, depth, false);
    case Dictionary(w, items) =>
      FormsRead(items, depth - 1, false, rest);
      AsMany(items);
      ListReads(w, |items| / 2, PrintAll(items, depth - 1), Meanings(items), rest, depth, true);
    case OpenDictionary(items) =>
      FormsRead(items, depth - 1, true, rest);
      AsMany(items);
      OpenReads(PrintAll(items, depth - 1), Meanings(items), rest, depth, true);
    case Tagged(w, tag, item) =>
      FormReads(item, depth - 1, rest);
      TagReads(w, tag, Print(item, depth - 1), Meaning(item), rest, depth);
    case Truth(v) => SimpleReads(Print(f, depth)[0], [], rest, depth);
    case Nothing(undefined) => SimpleReads(Print(f, depth)[0], [], rest, depth);
    case FloatNumber(bits) => SimpleReads(Print(f, depth)[0], bits, rest, depth);
  }

  lemma StringReads(text: bool, w: Width, content: seq<byte>, rest: seq<byte>, depth: nat)
    requires Fits(w, |content|)
    ensures var s := HeadForm(w, if text then 3 else 2, |content|) + content;
      ParseItem(s + rest, depth) == Parsed(if text then Text(content) else Bytes(content), |s|)
  {
    hide ParseItem, HeadForm;
    Bodied(w, if text then 3 else 2, |content|, content, rest, depth);
    assert (content + rest)[..|content|] == content;
  }

  lemma OpenStringReads(text: bool, chunks: seq<Chunk>, rest: seq<byte>, depth: nat)
    requires forall x | x in chunks :: Fits(x.w, |x.content|)
    ensures var s := [if text then 0x7f else 0x5f] + PrintChunks(chunks, text) + [0xff];
      ParseItem(s + rest, depth) == Parsed(if text then Text(Content(chunks)) else Bytes(Content(chunks)), |s|)
  {
    hide ParseItem, PrintChunks, ParseChunks;
    ChunksRead(chunks, text, rest);
    Opened(if text then 3 else 2, PrintChunks(chunks, text), rest, depth);
  }

  lemma ListReads(w: Width, n: nat, body: seq<byte>, vs: seq<Value>, rest: seq<byte>, depth: nat, dictionary: bool)
    requires depth > 1 && Fits(w, n) && |vs| == (if dictionary then 2 * n else n)
    requires ParseItems(body + rest, false, |vs|, depth - 1) == Parsed(vs, |body|)
    ensures var s := HeadForm(w, if dictionary then 5 else 4, n) + body;
      ParseItem(s + rest, depth) == Parsed(if dictionary then Map(vs) else Array(vs), |s|)
  {
    hide ParseItem, ParseItems, HeadForm;
    Bodied(w, if dictionary then 5 else 4, n, body, rest, depth);
  }

  lemma OpenReads(body: seq<byte>, vs: seq<Value>, rest: seq<byte>, depth: nat, dictionary: bool)
    requires depth > 1 && (dictionary ==> |vs| % 2 == 0)
    requires ParseItems(body + [0xff] + rest, true, 0, depth - 1) == Parsed(vs, |body| + 1)
    ensures var s := [if dictionary then 0xbf else 0x9f] + body + [0xff];
      ParseItem(s + rest, depth) == Parsed(if dictionary then Map(vs) else Array(vs), |s|)
  {
    hide ParseItem, ParseItems;
    Opened(if dictionary then 5 else 4, body, rest, depth);
  }

  lemma TagReads(w: Width, tag: nat, body: seq<byte>, v: Value, rest: seq<byte>, depth: nat)
    requires depth > 1 && Fits(w, tag) && ParseItem(body + rest, depth - 1) == Parsed(v, |body|)
    ensures var s := HeadForm(w, 6, tag) + body;
      ParseItem(s + rest, depth) == Parsed(v, |s|)
  {
    hide ParseItem, HeadForm;
    Bodied(w, 6, tag, body, rest, depth);
  }

  lemma NumberReads(w: Width, negative: bool, n: nat, rest: seq<byte>, depth: nat)
    requires Fits(w, n)
    ensures var head := HeadForm(w, if negative then 1 else 0, n);
      ParseItem(head + rest, depth) == Parsed(Integer(if negative then -1 - n else n), |head|)
  {
    hide HeadForm, ReadHead;
    HeadReads(w, if negative then 1 else 0, n, rest);
  }

  lemma {:induction false} AsMany(fs: seq<Form>)
    ensures |Meanings(fs)| == |fs|
  {
    if fs != [] {
      AsMany(fs[1..]);
    }
  }

  /** An item with an argument. */
  lemma Bodied(w: Width, major: nat, n: nat, body: seq<byte>, rest: seq<byte>, depth: nat)
    requires major < 7 && Fits(w, n)
    ensures var head := HeadForm(w, major, n);
            var s := head + body + rest;
            var r := ParseBody(Head(major, InfoOf(w, n), n), s[1..|head|], body + rest, depth);
      ParseItem(s, depth) == if r.Malformed? then Malformed else Parsed(r.value, |head| + r.used)
  {
    hide ParseBody, HeadForm, ReadHead;
    var head := HeadForm(w, major, n);
    HeadReads(w, major, n, body + rest);
    assert head + body + rest == head + (body + rest);
  }

  /** An item that goes on until its break. */
  lemma Opened(major: nat, body: seq<byte>, rest: seq<byte>, depth: nat)
    requires 2 <= major < 6
    ensures var s := [0x20 * major + 0x1f] + body + [0xff] + rest;
            var r := ParseBody(Head(major, 31, 0), [], body + [0xff] + rest, depth);
      ParseItem(s, depth) == if r.Malformed? then Malformed else Parsed(r.value, 1 + r.used)
  {
    hide ParseBody;
    var s := [0x20 * major + 0x1f] + body + [0xff] + rest;
    assert ReadHead(s) == Parsed(Head(major, 31, 0), 1);
    assert s[1..] == body + [0xff] + rest && s[1..1] == [];
  }

  lemma SimpleReads(initial: byte, bits: seq<byte>, rest: seq<byte>, depth: nat)
    requires (bits == [] && initial in {0xf4, 0xf5, 0xf6, 0xf7})
          || (|bits| == 2 && initial == 0xf9) || (|bits| == 4 && initial == 0xfa) || (|bits| == 8 && initial == 0xfb)
    ensures ParseItem([initial] + bits + rest, depth) ==
            Parsed(if bits != [] then Float(bits) else if initial <= 0xf5 then Bool(initial == 0xf5) else Null, 1 + |bits|)
    ensures bits == [] ==> [initial] + bits + rest == [initial] + rest
  {
    var s := [initial] + bits + rest;
    assert s[1..1 + |bits|] == bits;
  }

  lemma {:induction false} FormsRead(fs: seq<Form>, depth: nat, open: bool, rest: seq<byte>)
    requires forall x | x in fs :: Legal(x, depth)
    ensures open ==> ParseItems(PrintAll(fs, depth) + [0xff] + rest, true, 0, depth) == Parsed(Meanings(fs), |PrintAll(fs, depth)| + 1)
    ensures !open ==> ParseItems(PrintAll(fs, depth) + rest, false, |fs|, depth) == Parsed(Meanings(fs), |PrintAll(fs, depth)|)
    decreases fs, 1
  {
    hide ParseItem, Print, Legal, Meaning;
    if fs == [] {
      assert PrintAll(fs, depth) + [0xff] + rest == [0xff] + rest;
    } else {
      hide ParseItems, PrintAll;
      var first := Print(fs[0], depth);
      PrintedAll(fs, depth);
      Regrouped(first, PrintAll(fs[1..], depth), if open then [0xff] else [], rest);
      Regrouped(first, PrintAll(fs[1..], depth), rest, []);
      var tail := if open then PrintAll(fs[1..], depth) + [0xff] + rest else PrintAll(fs[1..], depth) + rest;
      FormReads(fs[0], depth, tail);
      FormStarts(fs[0], depth);
      FormsRead(fs[1..], depth, open, rest);
      OneMore(first, Meaning(fs[0]), tail, open, if open then 0 else |fs|, depth);
    }
  }

  lemma PrintedAll(fs: seq<Form>, depth: nat)
    requires fs != [] && forall x | x in fs :: Legal(x, depth)
    ensures PrintAll(fs, depth) == Print(fs[0], depth) + PrintAll(fs[1..], depth)
  {
    hide Print, Legal;
  }

  lemma OneMore(first: seq<byte>, v: Value, tail: seq<byte>, open: bool, count: nat, depth: nat)
    requires first != [] && first[0] != 0xff && (if open then count == 0 else count > 0)
    requires ParseItem(first + tail, depth) == Parsed(v, |first|)
    ensures var rest := ParseItems(tail, open, if open then 0 else count - 1, depth);
      ParseItems(first + tail, open, count, depth) == if rest.Malformed? then Malformed else Parsed([v] + rest.value, |first| + rest.used)
  {
    hide ParseItem;
    assert (first + tail)[|first|..] == tail && (first + tail)[0] == first[0];
  }

  // ---------------------------------------------------------------------------
  // Nothing else is
  // ---------------------------------------------------------------------------

  function WidthOf(info: nat): Width
    requires info < 28
  {
    if info < 24 then Inline else if info == 24 then OneByte else if info == 25 then TwoBytes else if info == 26 then FourBytes else EightBytes
  }

  lemma HeadHasForm(s: seq<byte>)
    requires ReadHead(s).Parsed? && s[0] % 32 != 31
    ensures var h, w := ReadHead(s), WidthOf(s[0] % 32);
      && h.value.info == s[0] % 32 && Fits(w, h.value.arg) && HeadForm(w, h.value.major, h.value.arg) == s[..h.used]
      && InfoOf(w, h.value.arg) == h.value.info
  {
    hide FromBigEndian, BigEndian, Limit;
    var h := ReadHead(s);
    if s[0] % 32 >= 24 {
      Limits();
      FromBigEndianThenBack(s[1..h.used]);
      HeadFormIs(WidthOf(s[0] % 32), h.value.major, h.value.arg);
    }
  }

  lemma ChunkSplits(s: seq<byte>, major: nat)
    requires (major == 2 || major == 3) && ParseChunks(s, major).Parsed? && s[0] != 0xff
    ensures var h, r := ReadHead(s), ParseChunks(s, major);
      && h.Parsed? && h.value.major == major && s[0] % 32 < 28 && h.used + h.value.arg <= |s|
      && var end := h.used + h.value.arg;
         && ParseChunks(s[end..], major).Parsed?
         && r == Parsed(s[h.used..end] + ParseChunks(s[end..], major).value, end + ParseChunks(s[end..], major).used)
  {
    hide FromBigEndian;
  }

  lemma {:induction false} ChunksHaveForms(s: seq<byte>, text: bool) returns (chunks: seq<Chunk>)
    requires ParseChunks(s, if text then 3 else 2).Parsed?
    ensures forall x | x in chunks :: Fits(x.w, |x.content|)
    ensures var r := ParseChunks(s, if text then 3 else 2);
      PrintChunks(chunks, text) + [0xff] == s[..r.used] && Content(chunks) == r.value
  {
    var major := if text then 3 else 2;
    if s[0] == 0xff {
      chunks := [];
    } else {
      hide HeadForm, ReadHead, ParseChunks, PrintChunks, Content;
      ChunkSplits(s, major);
      var h := ReadHead(s);
      var end := h.used + h.value.arg;
      var rest := ChunksHaveForms(s[end..], text);
      chunks := OneMoreChunk(s, text, rest, end);
    }
  }

  lemma OneMoreChunk(s: seq<byte>, text: bool, rest: seq<Chunk>, end: nat) returns (chunks: seq<Chunk>)
    requires ParseChunks(s, if text then 3 else 2).Parsed? && s[0] != 0xff
    requires forall x | x in rest :: Fits(x.w, |x.content|)
    requires end <= |s| && ReadHead(s).Parsed? && end == ReadHead(s).used + ReadHead(s).value.arg
    requires ParseChunks(s[end..], if text then 3 else 2) == Parsed(Content(rest), |PrintChunks(rest, text)| + 1)
    requires PrintChunks(rest, text) + [0xff] <= s[end..]
    ensures forall x | x in chunks :: Fits(x.w, |x.content|)
    ensures var r := ParseChunks(s, if text then 3 else 2);
      PrintChunks(chunks, text) + [0xff] == s[..r.used] && Content(chunks) == r.value
  {
    hide HeadForm, ReadHead, ParseChunks, PrintChunks;
    ChunkSplits(s, if text then 3 else 2);
    HeadHasForm(s);
    var h := ReadHead(s);
    chunks := [Chunk(WidthOf(s[0] % 32), s[h.used..end])] + rest;
    assert chunks[1..] == rest;
    PrintedChunks(chunks, text);
    Cut(s, h.used, end, end + ParseChunks(s[end..], if text then 3 else 2).used);
    Regrouped(s[..h.used] + s[h.used..end], PrintChunks(rest, text), [0xff], []);
  }

  lemma Cut(s: seq<byte>, a: nat, b: nat, d: nat)
    requires a <= b <= d <= |s|
    ensures s[..a] + s[a..b] + s[b..][..d - b] == s[..d]
  {
  }

  /** Whatever the decoder takes from the front of its input is a form. */
  lemma {:induction false} ItemHasForm(s: seq<byte>, depth: nat) returns (f: Form)
    requires ParseItem(s, depth).Parsed?
    ensures Legal(f, depth) && Print(f, depth) == s[..ParseItem(s, depth).used] && Meaning(f) == ParseItem(s, depth).value
    decreases depth, |s|, 1
  {
    hide HeadForm, ReadHead, ParseItem, ParseItems, ParseChunks, ParseString, PrintAll, PrintChunks, Meanings, Print, Legal, FromBigEndian;
    ItemSplits(s, depth);
    HeadFacts(s);
    var major, open, body := s[0] / 32, s[0] % 32 == 31, s[ReadHead(s).used..];
    if major < 2 {
      f := NumberHasForm(s, depth);
    } else if major < 4 {
      f := StringHasForm(s, depth);
    } else if major == 7 {
      f := SimpleHasForm(s, depth);
    } else if major == 6 {
      var item := ItemHasForm(body, depth - 1);
      f := TagHasForm(s, depth, item);
    } else {
      var items := ItemsHaveForms(body, open, Announced(s), depth - 1);
      f := ListHasForm(s, depth, items);
    }
  }

  /** How many items a list or dictionary announces. */
  function Announced(s: seq<byte>): nat
    requires ReadHead(s).Parsed?
  {
    if ReadHead(s).value.major == 4 then ReadHead(s).value.arg else 2 * ReadHead(s).value.arg
  }

  lemma ItemSplits(s: seq<byte>, depth: nat)
    requires ParseItem(s, depth).Parsed?
    ensures var h, r := ReadHead(s), ParseItem(s, depth);
      && h.Parsed?
      && var body := ParseBody(h.value, s[1..h.used], s[h.used..], depth);
         && body.Parsed? && r == Parsed(body.value, h.used + body.used)
  {
    hide ParseBody, ReadHead;
  }

  lemma NumberHasForm(s: seq<byte>, depth: nat) returns (f: Form)
    requires ParseItem(s, depth).Parsed? && s[0] / 32 < 2
    ensures Legal(f, depth) && Print(f, depth) == s[..ParseItem(s, depth).used] && Meaning(f) == ParseItem(s, depth).value
  {
    hide HeadForm, ReadHead, ParseItem;
    ItemSplits(s, depth);
    HeadFacts(s);
    HeadHasForm(s);
    var h := ReadHead(s).value;
    f := if h.major == 0 then Unsigned(WidthOf(h.info), h.arg) else Negative(WidthOf(h.info), h.arg);
  }

  lemma StringHasForm(s: seq<byte>, depth: nat) returns (f: Form)
    requires ParseItem(s, depth).Parsed? && 2 <= s[0] / 32 < 4
    ensures Legal(f, depth) && Print(f, depth) == s[..ParseItem(s, depth).used] && Meaning(f) == ParseItem(s, depth).value
  {
    hide HeadForm, ReadHead, ParseItem, ParseChunks, PrintChunks;
    ItemSplits(s, depth);
    HeadFacts(s);
    var h, text := ReadHead(s), s[0] / 32 == 3;
    var body := s[h.used..];
    if h.value.info == 31 {
      var chunks := ChunksHaveForms(body, text);
      f := OpenString(text, chunks);
      Cut(s, 1, 1, 1 + ParseChunks(body, if text then 3 else 2).used);
      Regrouped([s[0]], PrintChunks(chunks, text), [0xff], []);
    } else {
      HeadHasForm(s);
      f := String(text, WidthOf(h.value.info), body[..h.value.arg]);
      Cut(s, h.used, h.used, h.used + h.value.arg);
    }
  }

  lemma TagHasForm(s: seq<byte>, depth: nat, item: Form) returns (f: Form)
    requires ParseItem(s, depth).Parsed? && s[0] / 32 == 6 && ReadHead(s).Parsed? && depth > 1
    requires var r := ParseItem(s[ReadHead(s).used..], depth - 1);
             r.Parsed? && Legal(item, depth - 1) && Print(item, depth - 1) == s[ReadHead(s).used..][..r.used] && Meaning(item) == r.value
    ensures Legal(f, depth) && Print(f, depth) == s[..ParseItem(s, depth).used] && Meaning(f) == ParseItem(s, depth).value
  {
    hide HeadForm, ReadHead, ParseItem;
    ItemSplits(s, depth);
    HeadFacts(s);
    HeadHasForm(s);
    var h := ReadHead(s);
    f := Tagged(WidthOf(h.value.info), h.value.arg, item);
    Cut(s, h.used, h.used, h.used + ParseItem(s[h.used..], depth - 1).used);
  }

  lemma ListHasForm(s: seq<byte>, depth: nat, items: seq<Form>) returns (f: Form)
    requires ParseItem(s, depth).Parsed? && 4 <= s[0] / 32 < 6 && ReadHead(s).Parsed? && depth > 1
    requires forall x | x in items :: Legal(x, depth - 1)
    requires var open := s[0] % 32 == 31;
             var r := ParseItems(s[ReadHead(s).used..], open, Announced(s), depth - 1);
             && r.Parsed? && Meanings(items) == r.value && (!open ==> |items| == Announced(s))
             && PrintAll(items, depth - 1) + (if open then [0xff] else []) == s[ReadHead(s).used..][..r.used]
    ensures Legal(f, depth) && Print(f, depth) == s[..ParseItem(s, depth).used] && Meaning(f) == ParseItem(s, depth).value
  {
    hide HeadForm, ReadHead, ParseItem, ParseItems, PrintAll, Meanings;
    ItemSplits(s, depth);
    HeadFacts(s);
    AsMany(items);
    var h := ReadHead(s);
    var used := ParseItems(s[h.used..], h.value.info == 31, Announced(s), depth - 1).used;
    Cut(s, h.used, h.used, h.used + used);
    if h.value.info == 31 {
      f := if h.value.major == 4 then OpenList(items) else OpenDictionary(items);
      Regrouped([s[0]], PrintAll(items, depth - 1), [0xff], []);
    } else {
      HeadHasForm(s);
      f := if h.value.major == 4 then List(WidthOf(h.value.info), items) else Dictionary(WidthOf(h.value.info), items);
    }
  }

  lemma HeadFacts(s: seq<byte>)
    requires ReadHead(s).Parsed?
    ensures var h := ReadHead(s);
      && h.value.major == s[0] / 32 && h.value.info == s[0] % 32 && (s[0] % 32 < 28 || s[0] % 32 == 31)
      && (s[0] % 32 == 31 ==> h.used == 1 && h.value.arg == 0)
  {
    hide FromBigEndian;
  }

  lemma SimpleHasForm(s: seq<byte>, depth: nat) returns (f: Form)
    requires ParseItem(s, depth).Parsed? && ReadHead(s).value.major == 7
    ensures Legal(f, depth) && Print(f, depth) == s[..ParseItem(s, depth).used] && Meaning(f) == ParseItem(s, depth).value
    ensures f.Truth? || f.Nothing? || f.FloatNumber?
  {
    hide FromBigEndian;
    var used := ReadHead(s).used;
    if used == 1 {
      f := if s[0] >= 0xf6 then Nothing(s[0] == 0xf7) else Truth(s[0] == 0xf5);
    } else {
      f := FloatNumber(s[1..used]);
      assert [s[0]] + s[1..used] == s[..used];
    }
  }

  lemma {:induction false} ItemsHaveForms(s: seq<byte>, open: bool, count: nat, depth: nat) returns (fs: seq<Form>)
    requires ParseItems(s, open, count, depth).Parsed?
    ensures forall x | x in fs :: Legal(x, depth)
    ensures var r := ParseItems(s, open, count, depth);
      && Meanings(fs) == r.value && (!open ==> |fs| == count)
      && PrintAll(fs, depth) + (if open then [0xff] else []) == s[..r.used]
    decreases depth, |s|, 2
  {
    hide ParseItem, Legal, Print, Meaning;
    if (!open && count == 0) || (open && s != [] && s[0] == 0xff) {
      fs := [];
    } else {
      var n, next := ParseItem(s, depth).used, if open then 0 else count - 1;
      var first := ItemHasForm(s, depth);
      var rest := ItemsHaveForms(s[n..], open, next, depth);
      fs := [first] + rest;
      assert fs[1..] == rest;
      PrintedAll(fs, depth);
      Cut(s, n, n, n + ParseItems(s[n..], open, next, depth).used);
      Regrouped(s[..n], PrintAll(rest, depth), if open then [0xff] else [], []);
    }
  }

  /** What the decoder accepts, and what it makes of it: exactly the forms at the front of its input. */
  lemma DecoderIff(s: seq<byte>, depth: nat, v: Value, n: nat)
    ensures ParseItem(s, depth) == Parsed(v, n) <==>
              n <= |s| && exists f: Form :: Legal(f, depth) && Print(f, depth) == s[..n] && Meaning(f) == v
  {
    hide ParseItem, Print, Legal, Meaning;
    if ParseItem(s, depth) == Parsed(v, n) {
      var f := ItemHasForm(s, depth);
    }
    if n <= |s| && exists f: Form :: Legal(f, depth) && Print(f, depth) == s[..n] && Meaning(f) == v {
      var f: Form :| Legal(f, depth) && Print(f, depth) == s[..n] && Meaning(f) == v;
      FormReads(f, depth, s[n..]);
      assert s[..n] + s[n..] == s;
    }
  }

  /** A whole input is one item exactly if it is a form nested no deeper than the decoder's budget of 128. */
  lemma ItemIff(s: seq<byte>)
    ensures IsItem(s) <==> exists f: Form :: Legal(f, 128) && Print(f, 128) == s
  {
    hide ParseItem, Print, Legal;
    assert s[..|s|] == s;
    if IsItem(s) {
      DecoderIff(s, 128, Decode(s).value, |s|);
    }
    if exists f: Form :: Legal(f, 128) && Print(f, 128) == s {
      var f: Form :| Legal(f, 128) && Print(f, 128) == s;
      FormReads(f, 128, []);
      assert s + [] == s;
    }
  }
}
