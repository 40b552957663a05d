// The chunk allocator and the circular buffer of internal/buffer.
module Buffer {
  import opened Bits

  /** The sizes nextPow2 rounds up correctly. */
  ghost predicate GoodSize(n: int) {
    IsInt64(n) && (n <= 1 || (NoGap32(n - 1) && n <= Pow2(62)))
  }

  lemma SmallSizesAreGood(n: int)
    requires IsInt64(n) && n <= Pow2(32)
    ensures GoodSize(n)
  {
    hide Pow2, NoGap32;
    if n > 1 {
      SmallHasNoGap(n - 1);
      Pow2Mono(32, 62);
    }
  }

  lemma FloorSizes()
    ensures Pow2(6) == 64 && Pow2(12) == 4096
  {}

  /** What nextPow2 and the floor below it make of a size: good sizes and no others come out right. */
  lemma Rounded(size: int, r: int, floor: nat, k: nat)
    requires floor == Pow2(k) >= 2 && k <= 32 && IsInt64(size)
    requires size <= 1 ==> r == 2
    requires size >= 2 ==> (LeastPow2(r, size) <==> NoGap32(size - 1) && size <= Pow2(62))
    requires size >= 2 && IsPow2(r) && size <= r ==> LeastPow2(r, size)
    ensures var sz := if r < floor then floor else r; IsPow2(sz) && size <= sz <==> GoodSize(size)
  {
    hide NoGap32, LeastPow2, IsPow2, Pow2;
    if size <= floor {
      Pow2Mono(k, 32);
      SmallSizesAreGood(size);
      if size >= 2 { LeastIsPow2(r, size); }
      FloorIsPow2(floor, k);
    } else if LeastPow2(r, size) {
      LeastIsPow2(r, size);
    }
  }

  /** A good size comes out as the least power of two that is not below the size nor the floor. */
  lemma RoundedLeast(size: int, r: int, floor: nat, k: nat)
    requires floor == Pow2(k) >= 2 && GoodSize(size)
    requires size <= 1 ==> r == 2
    requires size >= 2 ==> (LeastPow2(r, size) <==> NoGap32(size - 1) && size <= Pow2(62))
    ensures var sz := if r < floor then floor else r;
            forall j: nat :: Pow2(j) >= floor && Pow2(j) >= size ==> sz <= Pow2(j)
  {
    hide NoGap32, LeastPow2, Pow2;
    forall j: nat | Pow2(j) >= floor && Pow2(j) >= size
      ensures (if r < floor then floor else r) <= Pow2(j) {
      if size >= 2 { LeastBelow(r, size, j); }
    }
  }

  lemma FloorIsPow2(floor: nat, k: nat)
    requires floor == Pow2(k)
    ensures IsPow2(floor)
  {}

  // ---- Slab ----

  ghost predicate NoDup<T>(s: seq<T>) {
    forall i, j :: 0 <= i < j < |s| ==> s[i] != s[j]
  }

  /** What the allocator decides on: how many chunks exist and which slots wait on the free list. */
  datatype SlabState = SlabState(chunks: nat, free: seq<nat>) {

    ghost predicate Valid() {
      NoDup(free) && forall i :: 0 <= i < |free| ==> free[i] < chunks
    }

    /** The slot has been handed out and not yet returned. */
    ghost predicate Live(slot: nat) {
      slot < chunks && slot !in free
    }

    /** The slot that the next Get hands out. */
    function Next(): nat {
      if |free| > 0 then free[|free| - 1] else chunks
    }

    function AfterGet(): SlabState {
      if |free| > 0 then SlabState(chunks, free[..|free| - 1]) else SlabState(chunks + 1, free)
    }

    function AfterPut(slot: nat): SlabState {
      SlabState(chunks, free + [slot])
    }

    function InUse(): int {
      chunks - |free|
    }

    ghost function LiveSet(): set<nat> {
      set slot: nat | slot < chunks && slot !in free
    }
  }

  /** Get hands out a slot nobody holds and changes nothing for the others. */
  lemma GetTakesOneSlot(s: SlabState)
    requires s.Valid()
    ensures s.AfterGet().Valid()
    ensures !s.Live(s.Next())
    ensures forall slot: nat :: s.AfterGet().Live(slot) <==> s.Live(slot) || slot == s.Next()
  {
    if |s.free| > 0 {
      var last := |s.free| - 1;
      assert s.free == s.free[..last] + [s.free[last]];
      forall slot: nat ensures slot in s.free <==> slot in s.free[..last] || slot == s.free[last] {}
    }
  }

  /** Put of a held slot ends exactly that holding; afterwards the slot is the next to be reused. */
  lemma PutReturnsOneSlot(s: SlabState, slot: nat)
    requires s.Valid() && s.Live(slot)
    ensures s.AfterPut(slot).Valid() && s.AfterPut(slot).Next() == slot
    ensures s.AfterPut(slot).AfterGet() == s
    ensures forall x: nat :: s.AfterPut(slot).Live(x) <==> s.Live(x) && x != slot
  {
    var f := s.free + [slot];
    assert f[..|f| - 1] == s.free;
  }

  /** Returning a slot twice is what breaks the free list, and nothing else does. */
  lemma PutValidExactly(s: SlabState, slot: nat)
    requires s.Valid()
    ensures s.AfterPut(slot).Valid() <==> s.Live(slot)
  {
    var f := s.free + [slot];
    assert f[|s.free|] == slot;
    if slot in s.free {
      var i :| 0 <= i < |s.free| && s.free[i] == slot;
      assert f[i] == f[|s.free|];
    }
    if s.Live(slot) { PutReturnsOneSlot(s, slot); }
  }

  /** InUse counts the slots that are held. */
  lemma InUseCountsLive(s: SlabState)
    requires s.Valid()
    ensures s.InUse() == |s.LiveSet()|
  {
    var freeSet := set x | x in s.free;
    NoDupCard(s.free);
    var all := Below(s.chunks);
    assert s.LiveSet() == all - freeSet;
    assert freeSet <= all;
  }

  lemma {:induction false} NoDupCard<T>(s: seq<T>)
    requires NoDup(s)
    ensures |(set x | x in s)| == |s|
  {
    if |s| > 0 {
      var last := |s| - 1;
      var t := s[..last];
      assert s == t + [s[last]];
      NoDupCard(t);
      assert s[last] !in t;
      assert (set x | x in s) == (set x | x in t) + {s[last]};
    }
  }

  /** The numbers below n. */
  ghost function Below(n: nat): (s: set<nat>)
    ensures |s| == n
    ensures forall x: nat :: x in s <==> x < n
  {
    if n == 0 then {} else Below(n - 1) + {n - 1}
  }

  class Slab {
    var size: int
    var chunks: seq<array<byte>>
    var free: seq<nat>

    ghost function View(): SlabState
      reads this
    {
      SlabState(|chunks|, free)
    }

    ghost predicate Valid()
      reads this
    {
      IsPow2(size) && Formed()
    }

    /** Everything but the size being a power of two. */
    ghost predicate Formed()
      reads this
    {
      && View().Valid()
      && size >= 4096
      && NoDup(chunks)
      && forall i :: 0 <= i < |chunks| ==> chunks[i].Length == size
    }

    constructor NewSlab(chunkSize: int, prealloc: int)
      requires IsInt64(chunkSize)
      ensures Formed() && fresh(chunks)
      ensures Valid() && chunkSize <= size <==> GoodSize(chunkSize)
      ensures GoodSize(chunkSize) ==> forall j: nat :: Pow2(j) >= 4096 && Pow2(j) >= chunkSize ==> size <= Pow2(j)
      ensures |chunks| == (if prealloc < 0 then 0 else prealloc) && View().InUse() == 0
    {
      hide NoGap32, LeastPow2, IsPow2, GoodSize, Pow2;
      var sz := NextPow2(chunkSize);
      FloorSizes();
      Rounded(chunkSize, sz, 4096, 12);
      if GoodSize(chunkSize) { RoundedLeast(chunkSize, sz, 4096, 12); }
      if sz < 4096 { sz := 4096; }
      size := sz;
      chunks, free := [], [];
      new;
      var i := 0;
      while i < prealloc
        invariant 0 <= i && (i == 0 || i <= prealloc)
        invariant Formed() && fresh(chunks) && size == sz
        invariant |chunks| == |free| == i
        decreases prealloc - i
      {
        AddIdleChunk();
        i := i + 1;
      }
    }

    /** One preallocated chunk, at once on the free list. */
    method AddIdleChunk()
      requires Formed()
      modifies this
      ensures Formed() && size == old(size)
      ensures old(chunks) <= chunks && |chunks| == |old(chunks)| + 1
      ensures fresh(chunks[|old(chunks)|])
      ensures View() == SlabState(old(|chunks|) + 1, old(free) + [old(|chunks|)])
    {
      var buf := new byte[size];
      free := free + [|chunks|];
      chunks := chunks + [buf];
    }

    method Get() returns (buf: array<byte>, idx: nat)
      requires Formed()
      modifies this
      ensures Formed() && size == old(size)
      ensures idx == old(View()).Next() && View() == old(View()).AfterGet()
      ensures old(chunks) <= chunks && idx < |chunks| && buf == chunks[idx]
      ensures forall i :: |old(chunks)| <= i < |chunks| ==> fresh(chunks[i])
    {
      GetTakesOneSlot(View());
      var n := |free|;
      if n > 0 {
        idx := free[n - 1];
        free := free[..n - 1];
        return chunks[idx], idx;
      }
      idx := |chunks|;
      buf := new byte[size];
      chunks := chunks + [buf];
    }

    method Put(idx: int)
      requires Formed()
      modifies this
      ensures idx < 0 ==> View() == old(View())
      ensures idx >= 0 ==> View() == old(View()).AfterPut(idx)
      ensures chunks == old(chunks) && size == old(size)
      ensures Formed() <==> idx < 0 || old(View()).Live(idx)
    {
      if idx < 0 { return; }
      PutValidExactly(View(), idx);
      free := free + [idx];
    }

    method InUse() returns (n: int)
      requires Formed()
      ensures n == |View().LiveSet()|
    {
      InUseCountsLive(View());
      n := |chunks| - |free|;
    }
  }

  // ---- Bytes in pieces ----

  /** The bytes of several pieces, one after the other. */
  function Flat(parts: seq<seq<byte>>): seq<byte> {
    if parts == [] then [] else Flat(parts[..|parts| - 1]) + parts[|parts| - 1]
  }

  lemma FlatSnoc(parts: seq<seq<byte>>, p: seq<byte>)
    ensures Flat(parts + [p]) == Flat(parts) + p
  {
    assert (parts + [p])[..|parts|] == parts;
  }

  lemma FlatPrefix(parts: seq<seq<byte>>, i: nat)
    requires i < |parts|
    ensures Flat(parts[..i + 1]) == Flat(parts[..i]) + parts[i]
  {
    assert parts[..i + 1] == parts[..i] + [parts[i]];
    FlatSnoc(parts[..i], parts[i]);
  }

  lemma FlatOne(p: seq<byte>)
    ensures Flat([p]) == p
  {
    FlatSnoc([], p);
    assert [] + [p] == [p];
  }

  lemma FlatTwo(a: seq<byte>, b: seq<byte>)
    ensures Flat([a, b]) == a + b
  {
    FlatOne(a);
    FlatSnoc([a], b);
    assert [a] + [b] == [a, b];
  }

  // ---- Ring ----

  /** The steps from place r forward to place w. */
  function Distance(r: nat, w: nat, cap: nat): (d: nat)
    requires r < cap && w < cap
    ensures d < cap && Place(r, d, cap) == w
  {
    if w >= r then w - r else w - r + cap
  }

  /** The n bytes of b that start at off and wrap around its end. */
  function Region(b: seq<byte>, off: nat, n: nat): (s: seq<byte>)
    requires off < |b| && n <= |b|
    ensures |s| == n
  {
    seq(n, i requires 0 <= i < n => b[Place(off, i, |b|)])
  }

  lemma MaskIsMod(x: int, cap: int)
    requires IsPow2(cap)
    ensures And(x, cap - 1) == x % cap
  {
    var k: nat :| cap == Pow2(k);
    AndMask(x, k);
  }

  /** Masking the cursor difference gives the distance, also when the write cursor has wrapped. */
  lemma MaskDistance(r: nat, w: nat, cap: int)
    requires IsPow2(cap) && r < cap && w < cap
    ensures And(w - r, cap - 1) == Distance(r, w, cap)
  {
    MaskIsMod(w - r, cap);
    ModUnique(w - r, cap, if w >= r then 0 else -1, Distance(r, w, cap));
  }

  /** Masking an advanced cursor wraps it around. */
  lemma MaskPlace(off: nat, n: nat, cap: int)
    requires IsPow2(cap) && off < cap && n <= cap
    ensures And(off + n, cap - 1) == Place(off, n, cap)
  {
    MaskIsMod(off + n, cap);
    PlaceIsMod(off, n, cap);
  }

  lemma RegionAppend(b: seq<byte>, off: nat, len: nat, n: nat)
    requires off < |b| && len + n <= |b|
    ensures Region(b, off, len + n) == Region(b, off, len) + Region(b, Place(off, len, |b|), n)
  {}

  lemma RegionDrop(b: seq<byte>, off: nat, len: nat, n: nat)
    requires off < |b| && n <= len <= |b|
    ensures Region(b, Place(off, n, |b|), len - n) == Region(b, off, len)[n..]
  {}

  /** Place p is one of the n places from off onward. */
  ghost predicate InArc(p: nat, off: nat, n: nat, cap: nat)
    requires off < cap && n <= cap
  {
    exists i :: 0 <= i < n && Place(off, i, cap) == p
  }

  /**
   * The readable bytes, the writable bytes and the one reserved byte split the buffer:
   * every place belongs to exactly one of the three.
   */
  lemma ArcsPartition(r: nat, w: nat, cap: nat, p: nat)
    requires r < cap && w < cap && p < cap
    ensures var len := Distance(r, w, cap); var free := cap - 1 - len;
            var readable, writable, reserved :=
              InArc(p, r, len, cap), InArc(p, w, free, cap), p == Place(w, free, cap);
            && (readable || writable || reserved)
            && !(readable && writable) && !(readable && reserved) && !(writable && reserved)
  {
    var len := Distance(r, w, cap);
    var d := Distance(r, p, cap);
    if d < len {
      assert Place(r, d, cap) == p;
    } else if d < cap - 1 {
      assert Place(w, d - len, cap) == p;
    }
  }

  /** A slice of the backing array: the places lo, ..., hi - 1. */
  datatype Slice = Slice(lo: nat, hi: nat) {
    predicate In(cap: nat) { lo <= hi <= cap }
    function Len(): int { hi - lo }
  }

  const NIL_SLICE := Slice(0, 0)

  /** Slices a and then b run through the n places from off onward. */
  ghost predicate Covers(a: Slice, b: Slice, off: nat, n: nat, cap: nat)
    requires off < cap && n <= cap
  {
    && a.In(cap) && b.In(cap) && a.Len() + b.Len() == n
    && (forall i :: 0 <= i < n ==>
          Place(off, i, cap) == if i < a.Len() then a.lo + i else b.lo + (i - a.Len()))
  }

  lemma CoversRegion(buf: seq<byte>, a: Slice, b: Slice, off: nat, n: nat)
    requires off < |buf| && n <= |buf| && Covers(a, b, off, n, |buf|)
    ensures buf[a.lo..a.hi] + buf[b.lo..b.hi] == Region(buf, off, n)
  {
    var s := buf[a.lo..a.hi] + buf[b.lo..b.hi];
    forall i | 0 <= i < n ensures s[i] == buf[Place(off, i, |buf|)] {}
  }

  method SlicesAt(off: nat, n: nat, cap: nat) returns (a: Slice, b: Slice)
    requires off < cap && n <= cap
    ensures Covers(a, b, off, n, cap) && (n > 0 ==> a.Len() > 0)
  {
    var end := off + n;
    if end <= cap {
      a, b := Slice(off, end), NIL_SLICE;
    } else {
      a, b := Slice(off, cap), Slice(0, end - cap);
    }
  }

  class Ring {
    var buf: array?<byte>
    var mask: int
    var r: int
    var w: int
    var slab: Slab?
    var slot: int

    ghost predicate Valid()
      reads this
    {
      buf != null ==>
        && IsPow2(buf.Length) && buf.Length >= 2 && mask == buf.Length - 1
        && 0 <= r < buf.Length && 0 <= w < buf.Length
    }

    /** The number of bytes held: the way from the read cursor to the write cursor. */
    ghost function Count(): nat
      requires Valid()
      reads this
    {
      if buf == null then 0 else Distance(r, w, buf.Length)
    }

    /** The bytes held, oldest first: the queue this ring stands for. */
    ghost function Contents(): (s: seq<byte>)
      requires Valid()
      reads this, buf
      ensures |s| == Count()
    {
      if buf == null then [] else Region(buf[..], r, Count())
    }

    /** The bytes lying in the first n writable places. */
    ghost function Written(n: nat): seq<byte>
      requires Valid() && buf != null && n <= buf.Length
      reads this, buf
    {
      Region(buf[..], w, n)
    }

    constructor NewRing(size: int)
      requires IsInt64(size)
      ensures buf != null && fresh(buf) && slab == null && buf.Length >= 64
      ensures Valid() && size <= buf.Length <==> GoodSize(size)
      ensures GoodSize(size) ==> forall j: nat :: Pow2(j) >= 64 && Pow2(j) >= size ==> buf.Length <= Pow2(j)
      ensures Valid() ==> Contents() == []
    {
      hide NoGap32, LeastPow2, IsPow2, GoodSize, Pow2;
      var sz := NextPow2(size);
      FloorSizes();
      Rounded(size, sz, 64, 6);
      if GoodSize(size) { RoundedLeast(size, sz, 64, 6); }
      if sz < 64 { sz := 64; }
      buf, mask, slot, r, w, slab := new byte[sz], sz - 1, -1, 0, 0, null;
    }

    constructor AttachRing(s: Slab)
      requires s.Formed()
      modifies s
      ensures s.Formed() && slab == s && slot == old(s.View()).Next()
      ensures Valid() <==> IsPow2(s.size)
      ensures Valid() ==> Contents() == []
      ensures s.View() == old(s.View()).AfterGet()
      ensures 0 <= slot < |s.chunks| && buf == s.chunks[slot]
      ensures buf.Length == s.size == old(s.size) && old(s.chunks) <= s.chunks
    {
      var b, i := s.Get();
      buf, mask, slab, slot, r, w := b, b.Length - 1, s, i, 0, 0;
    }

    /** Gives the chunk back once; a second call finds slot < 0 and does nothing. */
    method Release()
      requires Valid()
      requires slab != null ==> slab.Formed() && (slot >= 0 ==> slab.View().Live(slot))
      modifies this, slab
      ensures Valid() && slab == old(slab)
      ensures slab != null ==> slab.Formed() && slab.size == old(slab.size)
      ensures slab != null && old(slot) >= 0 ==>
                slot == -1 && buf == null && slab.View() == old(slab.View()).AfterPut(old(slot))
      ensures slab == null || old(slot) < 0 ==> slot == old(slot) && buf == old(buf)
      ensures slab != null && old(slot) < 0 ==> slab.View() == old(slab.View())
    {
      if slab != null && slot >= 0 {
        slab.Put(slot);
        slot := -1;
        buf := null;
      }
    }

    method Len() returns (n: int)
      requires Valid()
      ensures n == |Contents()|
    {
      if buf == null { return 0; }
      MaskDistance(r, w, buf.Length);
      n := And(w - r, mask);
    }

    /** Every byte of the buffer but one can be filled. */
    method Free() returns (n: int)
      requires Valid()
      ensures n == if buf == null then 0 else buf.Length - 1 - |Contents()|
      ensures n >= 0
    {
      if buf == null { return 0; }
      n := Len();
      n := mask - n;
    }

    method Writable() returns (a: Slice, b: Slice)
      requires Valid()
      ensures buf == null ==> a == b == NIL_SLICE
      ensures buf != null ==> Covers(a, b, w, buf.Length - 1 - Count(), buf.Length)
      ensures buf != null && Count() < buf.Length - 1 ==> a.Len() > 0
    {
      if buf == null { return NIL_SLICE, NIL_SLICE; }
      var free := Free();
      if free == 0 { return NIL_SLICE, NIL_SLICE; }
      a, b := SlicesAt(w, free, buf.Length);
    }

    /** After n bytes were stored in the writable places, they are appended to the queue. */
    method AdvanceWrite(n: int)
      requires Valid() && mask >= 0
      modifies this`w
      ensures n <= 0 ==> w == old(w)
      ensures Valid() && (n > 0 && buf != null ==> w == (old(w) + n) % buf.Length)
      ensures buf != null && 0 < n < buf.Length - old(Count()) ==>
                Contents() == old(Contents()) + old(Written(n))
    {
      if n <= 0 { return; }
      if buf != null {
        MaskIsMod(w + n, buf.Length);
        if n < buf.Length - Count() {
          MaskPlace(w, n, buf.Length);
          RegionAppend(buf[..], r, Count(), n);
          assert Distance(r, Place(w, n, buf.Length), buf.Length) == Count() + n;
        }
      }
      w := And(w + n, mask);
    }

    /** One read from a socket: bytes are stored in the first writable slice, and the queue takes them in. */
    method Fill(bytes: seq<byte>) returns (n: nat)
      requires Valid() && mask >= 0
      modifies this`w, buf
      ensures Valid() && n <= |bytes|
      ensures Contents() == old(Contents()) + bytes[..n]
      ensures n == 0 ==> bytes == [] || buf == null || old(Count()) == buf.Length - 1
    {
      var a, b := Writable();
      if buf == null { return 0; }
      n := if |bytes| <= a.Len() then |bytes| else a.Len();
      assert n > 0 ==> Place(w, 0, buf.Length) == a.lo == w;
      Store(bytes[..n]);
      AdvanceWrite(n);
    }

    /** Stores bytes at the start of the first writable slice. The queue does not see them yet. */
    method Store(bytes: seq<byte>)
      requires Valid() && buf != null && |bytes| < buf.Length - Count() && w + |bytes| <= buf.Length
      modifies buf
      ensures Valid() && Contents() == old(Contents()) && Written(|bytes|) == bytes
    {
      var i := 0;
      while i < |bytes|
        invariant 0 <= i <= |bytes|
        invariant forall j :: 0 <= j < i ==> buf[w + j] == bytes[j]
        invariant forall p :: 0 <= p < buf.Length && !(w <= p < w + i) ==> buf[p] == old(buf[p])
      {
        buf[w + i] := bytes[i];
        i := i + 1;
      }
      assert Written(|bytes|) == bytes;
      forall j | 0 <= j < Count() ensures !(w <= Place(r, j, buf.Length) < w + |bytes|) {}
      assert Contents() == old(Contents());
    }

    /** Looks at up to n of the oldest bytes. */
    method Peek(n: int) returns (a: Slice, b: Slice)
      requires Valid()
      ensures n <= 0 || buf == null ==> a == b == NIL_SLICE
      ensures buf != null ==> a.In(buf.Length) && b.In(buf.Length)
      ensures n > 0 && buf != null ==>
                && a.Len() + b.Len() == (if n <= Count() then n else Count())
                && buf[a.lo..a.hi] + buf[b.lo..b.hi] == Contents()[..if n <= Count() then n else Count()]
    {
      if n <= 0 || buf == null { return NIL_SLICE, NIL_SLICE; }
      var m := Len();
      if n <= m { m := n; }
      a, b := SlicesAt(r, m, buf.Length);
      CoversRegion(buf[..], a, b, r, m);
      assert Region(buf[..], r, m) == Contents()[..m];
      assert buf[..][a.lo..a.hi] == buf[a.lo..a.hi] && buf[..][b.lo..b.hi] == buf[b.lo..b.hi];
    }

    /** Drops the n oldest bytes. */
    method AdvanceRead(n: int)
      requires Valid() && mask >= 0
      modifies this`r
      ensures n <= 0 ==> r == old(r)
      ensures Valid() && (n > 0 && buf != null ==> r == (old(r) + n) % buf.Length)
      ensures buf != null && 0 < n <= old(Count()) ==> Contents() == old(Contents())[n..]
    {
      if n <= 0 { return; }
      if buf != null {
        MaskIsMod(r + n, buf.Length);
        if n <= Count() {
          MaskPlace(r, n, buf.Length);
          RegionDrop(buf[..], r, Count(), n);
          assert Distance(Place(r, n, buf.Length), w, buf.Length) == Count() - n;
        }
      }
      r := And(r + n, mask);
    }

    /** Copies the oldest bytes into dst and leaves them in the ring. */
    method CopyOut(dst: array<byte>) returns (n: int)
      requires Valid() && dst != buf
      modifies dst
      ensures n == if dst.Length <= |Contents()| then dst.Length else |Contents()|
      ensures dst[..n] == Contents()[..n] && dst[n..] == old(dst[n..])
    {
      var a, b := Peek(dst.Length);
      if buf == null || dst.Length == 0 {
        return 0;
      }
      n := CopyBoth(dst, buf, a, b);
    }
  }

  /** copy(dst, a), then copy the rest of dst from b if any room is left. */
  method CopyBoth(dst: array<byte>, src: array<byte>, a: Slice, b: Slice) returns (n: nat)
    requires dst != src && a.In(src.Length) && b.In(src.Length) && a.Len() + b.Len() <= dst.Length
    modifies dst
    ensures n == a.Len() + b.Len()
    ensures dst[..n] == src[a.lo..a.hi] + src[b.lo..b.hi]
    ensures dst[n..] == old(dst[n..])
  {
    n := CopyInto(dst, 0, src, a);
    assert dst[..n] == src[a.lo..a.hi];
    ghost var rest := dst[n..];
    assert rest == old(dst[n..]);
    if n < dst.Length {
      var k := CopyInto(dst, n, src, b);
      assert dst[n + k..] == rest[k..];
      n := n + k;
    } else {
      assert src[b.lo..b.hi] == [];
    }
  }

  /** The built-in copy(dst[at:], src[s.lo:s.hi]). */
  method CopyInto(dst: array<byte>, at: nat, src: array<byte>, s: Slice) returns (n: nat)
    requires dst != src && at <= dst.Length && s.In(src.Length)
    modifies dst
    ensures n == if s.Len() <= dst.Length - at then s.Len() else dst.Length - at
    ensures dst[..at + n] == old(dst[..at]) + src[s.lo..s.lo + n]
    ensures dst[at + n..] == old(dst[at + n..])
  {
    n := 0;
    while n < s.Len() && at + n < dst.Length
      invariant 0 <= n <= s.Len() && at + n <= dst.Length
      invariant dst[..at + n] == old(dst[..at]) + src[s.lo..s.lo + n]
      invariant dst[at + n..] == old(dst[at + n..])
    {
      dst[at + n] := src[s.lo + n];
      n := n + 1;
    }
  }
}
