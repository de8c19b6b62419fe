/** A reading position in a byte string, as `std::io::Cursor` keeps it. */
module ByteCursor {
  import opened Wrappers
  import opened Bytes
  import opened Cbor

  /** The item at the front of `s`, with the decoder's full nesting budget. */
  function NextItem(s: seq<byte>): (r: Parsed<Value>)
    ensures r.Parsed? ==> 1 <= r.used <= |s|
  {
    ParseItem(s, MAX_DEPTH)
  }

  class Cursor {
    const bytes: seq<byte>
    var pos: nat

    ghost predicate Valid()
      reads this
    {
      pos <= |bytes|
    }

    /** What has not been read yet. */
    ghost function Rest(): seq<byte>
      requires Valid()
      reads this
    {
      bytes[pos..]
    }

    constructor (bytes: seq<byte>)
      ensures this.bytes == bytes && pos == 0 && Valid()
    {
      this.bytes := bytes;
      pos := 0;
    }

    method ReadByte() returns (r: Option<byte>)
      requires Valid()
      modifies this
      ensures Valid()
      ensures old(Rest()) == [] ==> r == None && pos == old(pos)
      ensures old(Rest()) != [] ==> r == Some(old(Rest())[0]) && pos == old(pos) + 1
    {
      if pos == |bytes| { return None; }
      r := Some(bytes[pos]);
      pos := pos + 1;
    }

    method ReadExact(n: nat) returns (r: Option<seq<byte>>)
      requires Valid()
      modifies this
      ensures Valid()
      ensures n <= |old(Rest())| ==> r == Some(old(Rest())[..n]) && pos == old(pos) + n
      ensures n > |old(Rest())| ==> r == None && pos == old(pos)
    {
      if |bytes| - pos < n { return None; }
      assert bytes[pos..pos + n] == bytes[pos..][..n];
      r := Some(bytes[pos..pos + n]);
      pos := pos + n;
    }

    /** `n` big-endian bytes, shifted one by one into a 64-bit value. */
    method ReadUint(n: nat) returns (r: Option<nat>)
      requires Valid() && n <= 8
      modifies this
      ensures Valid()
      ensures n <= |old(Rest())| ==> r == Some(FromBigEndian(old(Rest())[..n])) && pos == old(pos) + n
      ensures n > |old(Rest())| ==> r == None
    {
      hide Limit;
      var val: nat := 0;
      ghost var s := Rest();
      var i := 0;
      while i < n
        invariant Valid() && i <= n && i <= |s| && pos == old(pos) + i && Rest() == s[i..]
        invariant val == FromBigEndian(s[..i])
      {
        var b := ReadByte();
        if b.None? { return None; }
        assert s[..i + 1] == s[..i] + [s[i]];
        ShiftIn(s[..i], s[i]);
        EightBytesFit(s[..i + 1]);
        val := (val * 256 + b.value) % 0x1_0000_0000_0000_0000;
        i := i + 1;
      }
      r := Some(val);
    }

    /** Advance over exactly one item, and decode it. */
    method ReadItem() returns (r: Option<Value>)
      requires Valid()
      modifies this
      ensures Valid()
      ensures NextItem(old(Rest())).Malformed? ==> r == None && pos == old(pos)
      ensures NextItem(old(Rest())).Parsed? ==>
                r == Some(NextItem(old(Rest())).value) && pos == old(pos) + NextItem(old(Rest())).used
    {
      hide NextItem;
      var item := NextItem(bytes[pos..]);
      if item.Malformed? { return None; }
      pos := pos + item.used;
      r := Some(item.value);
    }
  }

  lemma EightBytesFit(s: seq<byte>)
    requires |s| <= 8
    ensures FromBigEndian(s) < 0x1_0000_0000_0000_0000
  {
    Limits();
    LimitGrows(|s|, 8);
  }

  lemma {:induction false} LimitGrows(a: nat, b: nat)
    requires a <= b
    ensures Limit(a) <= Limit(b)
  {
    if a < b {
      LimitGrows(a, b - 1);
    }
  }
}
