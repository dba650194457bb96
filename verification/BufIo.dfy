/** The standard library's buffered reader over a byte slice and buffered
    writer over a vector, as far as their buffering can be observed. */
module BufIo {
  import opened Basics

  /** Default capacity of both buffers. */
  const CAPACITY: nat := 8192

  /** A reader's place in its slice: everything before `pos` has been handed out,
      everything from `pos` to `filled` sits in the buffer. */
  datatype Cursor = Cursor(pos: nat, filled: nat)

  function Min(a: nat, b: nat): nat {
    if a <= b then a else b
  }

  /** One `read` of at most n bytes. It refills only an empty buffer, so it comes
      back short when fewer than n bytes are left in a non-empty one. */
  function ReadOnce(data: Bytes, c: Cursor, n: nat): (r: (Bytes, Cursor))
    requires c.pos <= c.filled <= |data|
    ensures r.1.pos <= r.1.filled <= |data|
    ensures |r.0| <= n && r.1.pos == c.pos + |r.0| && r.0 == data[c.pos..r.1.pos]
  {
    if c.pos == c.filled && n >= CAPACITY then
      var to := Min(c.pos + n, |data|);
      (data[c.pos..to], Cursor(to, to))
    else
      var filled := if c.pos == c.filled then Min(c.pos + CAPACITY, |data|) else c.filled;
      var to := Min(c.pos + n, filled);
      (data[c.pos..to], Cursor(to, filled))
  }

  /** A read comes back short in two cases only: the buffer was neither empty nor full
      enough, and then it returns what was buffered, or the buffer was empty and the
      slice has no more, and then it returns the rest of the slice. */
  lemma ReadComesBackShort(data: Bytes, c: Cursor, n: nat)
    requires c.pos <= c.filled <= |data|
    ensures var left := if c.pos < c.filled then c.filled - c.pos else |data| - c.pos;
      |ReadOnce(data, c, n).0| == if n <= left then n else left
  {
  }

  class BufReader {
    const data: Bytes
    var cursor: Cursor

    ghost predicate Valid()
      reads this
    {
      cursor.pos <= cursor.filled <= |data|
    }

    constructor (data: Bytes)
      ensures Valid() && this.data == data && cursor == Cursor(0, 0)
    {
      this.data := data;
      cursor := Cursor(0, 0);
    }

    method Read(n: nat) returns (chunk: Bytes)
      requires Valid()
      modifies this
      ensures Valid()
      ensures (chunk, cursor) == ReadOnce(data, old(cursor), n)
    {
      if cursor.pos == cursor.filled {
        if n >= CAPACITY {
          var to := Min(cursor.pos + n, |data|);
          chunk := data[cursor.pos..to];
          cursor := Cursor(to, to);
          return;
        }
        cursor := Cursor(cursor.pos, Min(cursor.pos + CAPACITY, |data|));
      }
      var to := Min(cursor.pos + n, cursor.filled);
      chunk := data[cursor.pos..to];
      cursor := cursor.(pos := to);
    }
  }

  /** What the buffer of a writer holds after one more `write_all`: a chunk that
      does not fit sends the buffered bytes on to the vector first, and a chunk
      as large as the whole buffer goes straight to the vector. */
  function Buffered(buffer: Bytes, chunk: Bytes): (r: Bytes) {
    if |buffer| + |chunk| <= CAPACITY then
      if |chunk| < CAPACITY then buffer + chunk else buffer
    else
      if |chunk| < CAPACITY then chunk else []
  }

  class BufWriter {
    var buffer: Bytes
    var inner: Bytes

    constructor ()
      ensures buffer == [] && inner == []
    {
      buffer := [];
      inner := [];
    }

    method WriteAll(chunk: Bytes)
      requires |buffer| <= CAPACITY
      modifies this
      ensures |buffer| <= CAPACITY
      ensures buffer == Buffered(old(buffer), chunk)
      ensures inner + buffer == old(inner) + old(buffer) + chunk
    {
      if |chunk| < CAPACITY - |buffer| {
        buffer := buffer + chunk;
      } else {
        if |chunk| > CAPACITY - |buffer| {
          inner := inner + buffer;
          buffer := [];
        }
        if |chunk| >= CAPACITY {
          // Only an empty buffer can have room for such a chunk.
          assert buffer == [];
          inner := inner + chunk;
        } else {
          buffer := buffer + chunk;
        }
      }
    }
  }
}
