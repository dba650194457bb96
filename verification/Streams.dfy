/** A byte stream read from the front and written at the end. */
module Streams {
  import opened Basics
  import Varint

  class ByteStream {
    var data: Bytes
    var pos: nat
    var closed: bool

    ghost predicate Valid()
      reads this
    {
      pos <= |data|
    }

    ghost function Remaining(): Bytes
      requires Valid()
      reads this
    {
      data[pos..]
    }

    constructor (data: Bytes)
      ensures Valid() && this.data == data && pos == 0 && !closed
    {
      this.data := data;
      pos := 0;
      closed := false;
    }

    method ReadVarint(bound: nat) returns (r: Result<nat, Varint.Error>)
      requires Valid()
      modifies this`pos
      ensures Valid()
      ensures match Varint.Decode(old(Remaining()), bound)
              case Ok(x) => r == Ok(x.value) && pos == old(pos) + x.used && Remaining() == old(Remaining())[x.used..]
              case Err(e) => r == Err(e)
    {
      var d := Varint.Decode(data[pos..], bound);
      match d {
        case Ok(x) =>
          pos := pos + x.used;
          r := Ok(x.value);
        case Err(e) =>
          r := Err(e);
      }
    }

    /** Exactly n bytes, or none when the stream ends first. */
    method ReadExact(n: nat) returns (r: Option<Bytes>)
      requires Valid()
      modifies this`pos
      ensures Valid()
      ensures n <= |old(Remaining())| ==>
        r == Some(old(Remaining())[..n]) && pos == old(pos) + n && Remaining() == old(Remaining())[n..]
      ensures n > |old(Remaining())| ==> r == None
    {
      if n <= |data| - pos {
        assert data[pos..][..n] == data[pos..pos + n];
        r := Some(data[pos..pos + n]);
        pos := pos + n;
      } else {
        r := None;
      }
    }

    method WriteAll(chunk: Bytes)
      requires Valid()
      modifies this`data
      ensures Valid() && data == old(data) + chunk
    {
      data := data + chunk;
    }

    method Close()
      modifies this`closed
      ensures closed
    {
      closed := true;
    }
  }
}
