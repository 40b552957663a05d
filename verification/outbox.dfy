// Bytes that a socket did not take at once (internal/reactor/reactor.go), on the heap: what is kept is a copy.
module Outbox {
  import opened Bits
  import opened Buffer
  import opened Protocol

  /** One slice handed to a write, and the array it lies in. */
  datatype Part = Part(arr: array<byte>, s: Slice) {
    predicate Fits() {
      s.In(arr.Length)
    }

    function Bytes(): (b: seq<byte>)
      requires Fits()
      reads arr
      ensures |b| == s.Len()
    {
      arr[s.lo..s.hi]
    }
  }

  function BytesOf(parts: seq<Part>): (bs: seq<seq<byte>>)
    requires forall i :: 0 <= i < |parts| ==> parts[i].Fits()
    reads set i | 0 <= i < |parts| :: parts[i].arr
    ensures |bs| == |parts|
    ensures forall i :: 0 <= i < |parts| ==> bs[i] == parts[i].Bytes()
  {
    seq(|parts|, i requires 0 <= i < |parts| && parts[i].Fits()
                 reads set j | 0 <= j < |parts| :: parts[j].arr => parts[i].Bytes())
  }

  /** After the parts whose bytes are joined, skip of the n bytes to be left out are still to come. */
  ghost predicate Kept(joined: seq<byte>, n: nat, skip: nat, was: seq<byte>, now: seq<byte>) {
    if skip > 0 then |joined| + skip == n && now == was
    else n <= |joined| && now == was + joined[n..]
  }

  lemma KeptAtFirst(bs: seq<seq<byte>>, n: nat, was: seq<byte>)
    ensures Kept(Flat(bs[..0]), n, n, was, was)
  {
    assert was + Flat(bs[..0])[0..] == was;
  }

  lemma KeptAtLast(bs: seq<seq<byte>>, n: nat, skip: nat, was: seq<byte>, now: seq<byte>)
    requires n <= |Flat(bs)| && Kept(Flat(bs[..|bs|]), n, skip, was, now)
    ensures now == was + Flat(bs)[n..]
  {
    assert bs[..|bs|] == bs;
  }

  lemma KeptStep(bs: seq<seq<byte>>, i: nat, n: nat, skip: nat, was: seq<byte>, now: seq<byte>)
    requires i < |bs| && Kept(Flat(bs[..i]), n, skip, was, now)
    ensures Flat(bs[..i + 1]) == Flat(bs[..i]) + bs[i]
    ensures if skip >= |bs[i]| then Kept(Flat(bs[..i + 1]), n, skip - |bs[i]|, was, now)
            else Kept(Flat(bs[..i + 1]), n, 0, was, now + bs[i][skip..])
  {
    FlatPrefix(bs, i);
  }

  /** WriteRemain: a slice of an array that belongs to it alone, with the room behind it. */
  class Remain {
    var buf: array<byte>
    var lo: nat
    var hi: nat

    ghost predicate Valid()
      reads this
    {
      lo <= hi <= buf.Length
    }

    ghost function Contents(): seq<byte>
      requires Valid()
      reads this, buf
    {
      buf[lo..hi]
    }

    constructor ()
      ensures Valid() && fresh(buf) && Contents() == []
    {
      buf, lo, hi := new byte[0], 0, 0;
    }

    /** append: in place while there is room, otherwise in a new and larger array. */
    method Append(p: Part)
      requires Valid() && p.Fits() && p.arr != buf
      modifies this, buf
      ensures Valid() && (buf == old(buf) || fresh(buf))
      ensures Contents() == old(Contents()) + old(p.Bytes())
    {
      if hi + p.s.Len() > buf.Length { Grow(p.s.Len()); }
      ghost var before, added := buf[..hi], p.Bytes();
      var n := CopyInto(buf, hi, p.arr, p.s);
      assert buf[..hi + n] == before + added;
      assert buf[lo..hi + n] == (before + added)[lo..] == before[lo..] + added;
      hi := hi + n;
    }

    method Grow(n: nat)
      requires Valid()
      modifies this
      ensures Valid() && fresh(buf) && hi + n <= buf.Length
      ensures Contents() == old(Contents())
    {
      var bigger := new byte[2 * (hi - lo + n)];
      var k := CopyInto(bigger, 0, buf, Slice(lo, hi));
      buf, lo, hi := bigger, 0, hi - lo;
    }

    /**
     * What stashRemainder keeps: the parts joined, from byte n on. With a count below zero, as a write that
     * answers EAGAIN returns it, the first slice would start below zero, which panics: lost.
     */
    method Stash(parts: seq<Part>, n: int) returns (lost: bool)
      requires Valid() && forall i :: 0 <= i < |parts| ==> parts[i].Fits() && parts[i].arr != buf
      requires n <= |Flat(BytesOf(parts))|
      modifies this, buf
      ensures Valid() && (buf == old(buf) || fresh(buf))
      ensures lost <==> n < 0 && parts != []
      ensures n < 0 ==> Contents() == old(Contents())
      ensures n >= 0 ==> Contents() == old(Contents()) + old(Flat(BytesOf(parts)))[n..]
    {
      hide Flat, IsPow2, Kept;
      lost := n < 0 && |parts| > 0;
      if n < 0 { return; }
      ghost var bs, was := BytesOf(parts), Contents();
      KeptAtFirst(bs, n, was);
      var skip: nat := n;
      var i := 0;
      while i < |parts|
        invariant 0 <= i <= |parts| && Valid() && (buf == old(buf) || fresh(buf))
        invariant forall j :: 0 <= j < |parts| ==> parts[j].Fits() && parts[j].arr != buf
        invariant BytesOf(parts) == bs
        invariant Kept(Flat(bs[..i]), n, skip, was, Contents())
      {
        KeptStep(bs, i, n, skip, was, Contents());
        skip := StashOne(parts[i], skip);
        i := i + 1;
      }
      KeptAtLast(bs, n, skip, was, Contents());
    }

    /** One part: skipped, or kept from where the skipping ends. */
    method StashOne(p: Part, skip: nat) returns (left: nat)
      requires Valid() && p.Fits() && p.arr != buf
      modifies this, buf
      ensures Valid() && (buf == old(buf) || fresh(buf))
      ensures left == if skip >= p.s.Len() then skip - p.s.Len() else 0
      ensures Contents() == if skip >= p.s.Len() then old(Contents()) else old(Contents()) + old(p.Bytes())[skip..]
    {
      if skip >= p.s.Len() { return skip - p.s.Len(); }
      Append(Part(p.arr, Slice(p.s.lo + skip, p.s.hi)));
      left := 0;
    }

    /** The first n bytes were taken by the socket. */
    method Advance(n: nat)
      requires Valid() && n <= |Contents()|
      modifies this`lo
      ensures Valid() && Contents() == old(Contents())[n..]
    {
      lo := lo + n;
    }
  }

  /**
   * A frame of which the socket took n bytes is kept from the ring and the header scratch; then the frame
   * leaves the ring, new bytes are read into it and the scratch takes the next header. What was kept stays.
   */
  method StashAndReuse(remain: Remain, ring: Ring, hdr: array<byte>, len: nat, n: nat, next: Header, bytes: seq<byte>)
    requires remain.Valid() && ring.Valid() && ring.buf != null && hdr.Length == HEADER_SIZE
    requires remain.buf != ring.buf && remain.buf != hdr && ring.buf != hdr
    requires len <= |ring.Contents()| && n <= HEADER_SIZE + len
    modifies remain, remain.buf, ring`r, ring`w, ring.buf, hdr
    ensures remain.Valid() && remain.buf != ring.buf && remain.buf != hdr
    ensures remain.Contents() == old(remain.Contents()) + (old(hdr[..]) + old(ring.Contents()[..len]))[n..]
    ensures hdr[..] == Encode(next)
  {
    KeepFrame(remain, ring, hdr, len, n);
    Reuse(ring, hdr, len, next, bytes);
  }

  /** What flush keeps of a header and a payload that lies in a ring. */
  method KeepFrame(remain: Remain, ring: Ring, hdr: array<byte>, len: nat, n: nat)
    requires remain.Valid() && ring.Valid() && ring.buf != null && hdr.Length == HEADER_SIZE
    requires remain.buf != ring.buf && remain.buf != hdr
    requires len <= |ring.Contents()| && n <= HEADER_SIZE + len
    modifies remain, remain.buf
    ensures remain.Valid() && (remain.buf == old(remain.buf) || fresh(remain.buf))
    ensures remain.Contents() == old(remain.Contents()) + (old(hdr[..]) + old(ring.Contents()[..len]))[n..]
  {
    hide Flat, IsPow2, Region, Distance;
    var a, b := PayloadParts(ring, len);
    var parts := [Part(hdr, Slice(0, HEADER_SIZE)), a, b];
    assert parts[0].Bytes() == hdr[..];
    ThreeParts(parts, hdr[..], ring.Contents()[..len]);
    var lost := remain.Stash(parts, n);
  }

  /** The payload at the front of a ring, as two parts of its array. */
  method PayloadParts(ring: Ring, len: nat) returns (p: Part, q: Part)
    requires ring.Valid() && ring.buf != null && len <= |ring.Contents()|
    ensures p.arr == q.arr == ring.buf && p.Fits() && q.Fits()
    ensures p.Bytes() + q.Bytes() == ring.Contents()[..len]
  {
    var a, b := Front(ring, len);
    p, q := Part(ring.buf, a), Part(ring.buf, b);
  }

  method Front(ring: Ring, len: nat) returns (a: Slice, b: Slice)
    requires ring.Valid() && ring.buf != null && len <= |ring.Contents()|
    ensures a.In(ring.buf.Length) && b.In(ring.buf.Length)
    ensures ring.buf[a.lo..a.hi] + ring.buf[b.lo..b.hi] == ring.Contents()[..len]
  {
    a, b := ring.Peek(len);
    if len == 0 { assert ring.Contents()[..len] == []; }
  }

  /** The payload leaves the ring, new bytes come in, and the scratch takes another header. */
  method Reuse(ring: Ring, hdr: array<byte>, len: nat, next: Header, bytes: seq<byte>)
    requires ring.Valid() && ring.buf != null && ring.buf != hdr && hdr.Length == HEADER_SIZE
             && len <= |ring.Contents()|
    modifies ring`r, ring`w, ring.buf, hdr
    ensures hdr[..] == Encode(next)
  {
    Refill(ring, len, bytes);
    EncodeHeader(next, hdr);
    Whole(hdr);
  }

  lemma Whole(a: array<byte>)
    ensures a[..a.Length] == a[..]
  {}

  method Refill(ring: Ring, len: nat, bytes: seq<byte>)
    requires ring.Valid() && ring.buf != null && len <= |ring.Contents()|
    modifies ring`r, ring`w, ring.buf
    ensures ring.Valid()
  {
    ring.AdvanceRead(len);
    var taken := ring.Fill(bytes);
  }

  lemma ThreeParts(parts: seq<Part>, head: seq<byte>, payload: seq<byte>)
    requires |parts| == 3 && forall i :: 0 <= i < 3 ==> parts[i].Fits()
    requires parts[0].Bytes() == head
    requires parts[1].Bytes() + parts[2].Bytes() == payload
    ensures Flat(BytesOf(parts)) == head + payload
  {
    Three(BytesOf(parts), head, parts[1].Bytes(), parts[2].Bytes());
  }

  lemma Three(bs: seq<seq<byte>>, x: seq<byte>, y: seq<byte>, z: seq<byte>)
    requires |bs| == 3 && bs[0] == x && bs[1] == y && bs[2] == z
    ensures Flat(bs) == x + (y + z)
  {
    FlatTwo(x, y);
    FlatSnoc([x, y], z);
    assert bs == [x, y] + [z];
  }
}
