/** Attribute streams: a cursor over received bytes and an append-only writer. */
module PropStreams {
  import opened Bytes

  type u8 = byte
  type u32 = x: int | 0 <= x < 0x1_0000_0000
  type i32 = x: int | -0x8000_0000 <= x < 0x8000_0000

  // ---------------------------------------------------------------------------
  // Little-endian images
  // ---------------------------------------------------------------------------

  function PutU32(v: u32): seq<byte> { [v % 256, v / 256 % 256, v / 0x1_0000 % 256, v / 0x100_0000] }

  function GetU32(s: seq<byte>): u32
    requires |s| == 4
  {
    (s[0] as int) + 256 * (s[1] as int) + 0x1_0000 * (s[2] as int) + 0x100_0000 * (s[3] as int)
  }

  /** Two's complement: the same four bytes, read as signed. */
  function AsU32(v: i32): u32 { if v < 0 then v + 0x1_0000_0000 else v }

  function AsI32(v: u32): i32 { if v < 0x8000_0000 then v else v - 0x1_0000_0000 }

  lemma U32RoundTrip(v: u32)
    ensures |PutU32(v)| == 4 && GetU32(PutU32(v)) == v
  {
    var a := v / 256;
    assert v / 0x1_0000 == a / 256;
    assert v / 0x100_0000 == a / 256 / 256;
  }

  lemma I32RoundTrip(v: i32)
    ensures AsI32(AsU32(v)) == v
  {
  }

  // ---------------------------------------------------------------------------
  // Reading
  // ---------------------------------------------------------------------------

  class PropStream {
    var data: seq<byte>
    var p: nat

    ghost predicate Valid() reads this { p <= |data| }

    /** The bytes that have not been consumed. */
    ghost function Rest(): seq<byte>
      reads this
      requires Valid()
    {
      data[p..]
    }

    constructor ()
      ensures Valid() && Rest() == []
    {
      data, p := [], 0;
    }

    method Init(a: seq<byte>)
      modifies this
      ensures Valid() && Rest() == a
    {
      data, p := a, 0;
    }

    function Size(): nat
      reads this
      requires Valid()
    {
      |data| - p
    }

    /** The next `n` bytes, or no change at all when fewer are left. */
    method Take(n: nat) returns (ok: bool, s: seq<byte>)
      requires Valid()
      modifies this`p
      ensures Valid() && ok == (n <= |old(Rest())|)
      ensures ok ==> s == old(Rest())[..n] && Rest() == old(Rest())[n..]
      ensures !ok ==> s == [] && Rest() == old(Rest())
    {
      if Size() < n {
        return false, [];
      }
      ok, s := true, data[p..p + n];
      p := p + n;
    }

    method ReadU8() returns (ok: bool, v: u8)
      requires Valid()
      modifies this`p
      ensures Valid() && ok == (old(Rest()) != [])
      ensures ok ==> v == old(Rest())[0] && Rest() == old(Rest())[1..]
      ensures !ok ==> Rest() == old(Rest())
    {
      var s;
      ok, s := Take(1);
      v := if ok then s[0] else 0;
    }

    method ReadU32() returns (ok: bool, v: u32)
      requires Valid()
      modifies this`p
      ensures Valid() && ok == (4 <= |old(Rest())|)
      ensures ok ==> v == GetU32(old(Rest())[..4]) && Rest() == old(Rest())[4..]
      ensures !ok ==> Rest() == old(Rest())
    {
      var s;
      ok, s := Take(4);
      v := if ok then GetU32(s) else 0;
    }

    method ReadI32() returns (ok: bool, v: i32)
      requires Valid()
      modifies this`p
      ensures Valid() && ok == (4 <= |old(Rest())|)
      ensures ok ==> v == AsI32(GetU32(old(Rest())[..4])) && Rest() == old(Rest())[4..]
      ensures !ok ==> Rest() == old(Rest())
    {
      var u;
      ok, u := ReadU32();
      v := AsI32(u);
    }

    method Skip(n: nat) returns (ok: bool)
      requires Valid()
      modifies this`p
      ensures Valid() && ok == (n <= |old(Rest())|)
      ensures Rest() == if ok then old(Rest())[n..] else old(Rest())
    {
      var s;
      ok, s := Take(n);
    }
  }

  // ---------------------------------------------------------------------------
  // Writing
  // ---------------------------------------------------------------------------

  class PropWriteStream {
    var buffer: seq<byte>

    constructor ()
      ensures buffer == []
    {
      buffer := [];
    }

    method WriteBytes(s: seq<byte>)
      modifies this
      ensures buffer == old(buffer) + s
    {
      buffer := buffer + s;
    }

    method WriteU8(v: u8)
      modifies this
      ensures buffer == old(buffer) + [v]
    {
      buffer := buffer + [v];
    }

    method WriteU32(v: u32)
      modifies this
      ensures buffer == old(buffer) + PutU32(v)
    {
      buffer := buffer + PutU32(v);
    }
  }
}
