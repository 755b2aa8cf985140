/** Writing descriptors around a circular device ring, and the doorbells that go with them. */
module DeviceRing {
  import opened Words

  /** Writes descriptors one at a time from position p on, wrapping at the end of the ring. */
  function WriteAll<D>(ring: seq<D>, p: nat, ds: seq<D>): (r: seq<D>)
    requires |ring| > 0
    ensures |r| == |ring|
    decreases |ds|
  {
    if ds == [] then ring else WriteAll(ring[SlotOf(p, |ring|) := ds[0]], p + 1, ds[1..])
  }

  lemma {:induction false} WriteAllSplit<D>(ring: seq<D>, p: nat, a: seq<D>, b: seq<D>)
    requires |ring| > 0
    ensures WriteAll(ring, p, a + b) == WriteAll(WriteAll(ring, p, a), p + |a|, b)
    decreases |a|
  {
    hide SlotOf;
    if a == [] {
      assert a + b == b;
    } else {
      assert (a + b)[1..] == a[1..] + b;
      WriteAllSplit(ring[SlotOf(p, |ring|) := a[0]], p + 1, a[1..], b);
    }
  }

  /** A chunk that does not reach past the end of the ring is one contiguous copy. */
  lemma {:induction false} WriteChunk<D>(ring: seq<D>, p: nat, ds: seq<D>)
    requires |ring| > 0 && SlotOf(p, |ring|) + |ds| <= |ring|
    ensures var at := SlotOf(p, |ring|);
            WriteAll(ring, p, ds) == ring[..at] + ds + ring[at + |ds|..]
    decreases |ds|
  {
    hide SlotOf;
    var n, at := |ring|, SlotOf(p, |ring|);
    if ds != [] {
      StepLap(p, n);
      var ring' := ring[at := ds[0]];
      if at + 1 < n {
        WriteChunk(ring', p + 1, ds[1..]);
        assert ring'[..at + 1] == ring[..at] + [ds[0]];
        assert [ds[0]] + ds[1..] == ds;
      } else {
        assert ds[1..] == [];
        assert ring' == ring[..at] + ds + ring[at + |ds|..];
      }
    }
  }

  /** What at most one lap of writing leaves: each descriptor in its own slot, every other slot as it was. */
  lemma {:induction false} WriteAllMeans<D>(ring: seq<D>, p: nat, ds: seq<D>)
    requires |ds| <= |ring| && |ring| > 0
    ensures forall q :: p <= q < p + |ds| ==> WriteAll(ring, p, ds)[SlotOf(q, |ring|)] == ds[q - p]
    ensures forall k :: 0 <= k < |ring| && (forall q :: p <= q < p + |ds| ==> SlotOf(q, |ring|) != k) ==>
              WriteAll(ring, p, ds)[k] == ring[k]
  {
    hide SlotOf;
    if ds != [] {
      var n, m := |ring|, |ds| - 1;
      assert ds == ds[..m] + [ds[m]];
      WriteAllSplit(ring, p, ds[..m], [ds[m]]);
      WriteAllMeans(ring, p, ds[..m]);
      var before := WriteAll(ring, p, ds[..m]);
      assert WriteAll(ring, p, ds) == before[SlotOf(p + m, n) := ds[m]];
      forall q | p <= q < p + m ensures SlotOf(q, n) != SlotOf(p + m, n) {
        SlotsDiffer(q, p + m, n);
      }
    }
  }

  /** The n descriptors from position p on, as a device reads them around the ring. */
  function ReadRing<D>(ring: seq<D>, p: nat, n: nat): seq<D>
    requires |ring| > 0
  {
    seq(n, k requires 0 <= k < n => ring[SlotOf(p + k, |ring|)])
  }

  /** Up to a lap of descriptors reads back as it was written. */
  lemma ReadsBack<D>(ring: seq<D>, p: nat, ds: seq<D>)
    requires 0 < |ring| && |ds| <= |ring|
    ensures ReadRing(WriteAll(ring, p, ds), p, |ds|) == ds
  {
    hide SlotOf, WriteAll;
    WriteAllMeans(ring, p, ds);
    var r := ReadRing(WriteAll(ring, p, ds), p, |ds|);
    forall k | 0 <= k < |ds| ensures r[k] == ds[k] { assert ds[(p + k) - p] == ds[k]; }
  }

  /** Producer counters that agree in 16 bits write the same slots. */
  lemma {:induction false} WriteAllWraps<D>(ring: seq<D>, p: nat, q: nat, ds: seq<D>)
    requires RingSize(|ring|) && |ring| > 0 && Wrap16(p) == Wrap16(q)
    ensures WriteAll(ring, p, ds) == WriteAll(ring, q, ds)
    decreases |ds|
  {
    Slot(p, |ring|);
    Slot(q, |ring|);
    Wrap16Add(p, 1);
    Wrap16Add(q, 1);
    hide SlotOf, Wrap16;
    if ds != [] {
      WriteAllWraps(ring[SlotOf(p, |ring|) := ds[0]], p + 1, q + 1, ds[1..]);
    }
  }

  // ---- doorbells ---------------------------------------------------------------------------------

  /**
   The doorbell values rung while n descriptors are written from producer counter pc, when cur are
   already unannounced: one after every full batch, and one at the end if anything is left.
   */
  function Doorbells(pc: nat, n: nat, cur: nat, batch: nat): seq<nat>
    decreases n
  {
    if n == 0 then if cur > 0 then [pc] else []
    else if cur + 1 == batch then [Wrap16(pc + 1)] + Doorbells(Wrap16(pc + 1), n - 1, 0, batch)
    else Doorbells(Wrap16(pc + 1), n - 1, cur + 1, batch)
  }

  /** Writing a chunk of k descriptors within the batch rings nothing, or the bell at its end. */
  lemma {:induction false} DoorbellChunk(pc: nat, n: nat, cur: nat, batch: nat, k: nat)
    requires pc < U16 && 0 < k <= n && cur + k <= batch
    ensures cur + k < batch ==> Doorbells(pc, n, cur, batch) == Doorbells(Wrap16(pc + k), n - k, cur + k, batch)
    ensures cur + k == batch ==>
              Doorbells(pc, n, cur, batch) == [Wrap16(pc + k)] + Doorbells(Wrap16(pc + k), n - k, 0, batch)
    decreases k
  {
    hide Wrap16;
    if k > 1 {
      DoorbellChunk(Wrap16(pc + 1), n - 1, cur + 1, batch, k - 1);
      Wrap16Add(pc + 1, k - 1);
    }
  }

  /** From one doorbell to the next the producer counter advances by 1 to batch, and it ends at cur. */
  ghost predicate Advances(prev: nat, bells: seq<nat>, batch: nat, cur: nat)
    decreases |bells|
  {
    if bells == [] then prev == cur
    else 1 <= Wrap16(bells[0] - prev) <= batch && Advances(bells[0], bells[1..], batch, cur)
  }

  lemma {:induction false} AdvancesJoin(a: nat, x: seq<nat>, m: nat, y: seq<nat>, c: nat, batch: nat)
    requires Advances(a, x, batch, m) && Advances(m, y, batch, c)
    ensures Advances(a, x + y, batch, c)
    decreases |x|
  {
    if x == [] {
      assert x + y == y;
    } else {
      AdvancesJoin(x[0], x[1..], m, y, c, batch);
      assert (x + y)[1..] == x[1..] + y;
    }
  }

  /** Doorbell batching: every bell announces 1 to batch new descriptors, the last announces them all. */
  lemma {:induction false} DoorbellsAdvance(prev: nat, pc: nat, n: nat, cur: nat, batch: nat)
    requires prev < U16 && pc == Wrap16(prev + cur) && cur < batch < U16
    ensures Advances(prev, Doorbells(pc, n, cur, batch), batch, Wrap16(pc + n))
    decreases n
  {
    Wrap16Add(prev + cur, 0 - prev);
    Wrap16Add(prev + cur, 1);
    Wrap16Add(prev + cur + 1, 0 - prev);
    hide Wrap16;
    if n == 0 {
      assert Doorbells(pc, n, cur, batch) == if cur > 0 then [pc] else [];
      assert cur > 0 ==> Advances(pc, [], batch, pc);
    } else {
      Wrap16Add(pc + 1, n - 1);
      if cur + 1 == batch {
        DoorbellsAdvance(Wrap16(pc + 1), Wrap16(pc + 1), n - 1, 0, batch);
        var rest := Doorbells(Wrap16(pc + 1), n - 1, 0, batch);
        assert ([Wrap16(pc + 1)] + rest)[1..] == rest;
      } else {
        DoorbellsAdvance(prev, Wrap16(pc + 1), n - 1, cur + 1, batch);
      }
    }
  }

  // ---- the 64-byte copy --------------------------------------------------------------------------

  /** Copies 64-byte blocks; the array elements are the blocks, and at least one is copied. */
  method MmioMemcpyX64<D>(dst: array<D>, d: nat, src: array<D>, s: nat, bytecnt: nat)
    requires dst != src && 0 < bytecnt && bytecnt % 64 == 0
    requires d + bytecnt / 64 <= dst.Length && s + bytecnt / 64 <= src.Length
    modifies dst
    ensures var n := bytecnt / 64;
            dst[..] == old(dst[..d]) + src[s..s + n] + old(dst[d + n..])
  {
    ghost var n := bytecnt / 64;
    ghost var was := dst[..];
    var i, rest := 1, bytecnt - 64;
    dst[d] := src[s];
    while rest > 0
      invariant 1 <= i <= n && rest == 64 * (n - i)
      invariant forall k :: 0 <= k < dst.Length ==> dst[k] == if d <= k < d + i then src[s + (k - d)] else was[k]
    {
      dst[d + i] := src[s + i];
      i, rest := i + 1, rest - 64;
    }
  }

  /** The same copy as it is made: eight words at a time, at least once. */
  method MmioMemcpyX64Words<W>(dst: array<W>, d: nat, src: array<W>, s: nat, bytecnt: nat)
    requires dst != src && 0 < bytecnt && bytecnt % 64 == 0
    requires d + bytecnt / 8 <= dst.Length && s + bytecnt / 8 <= src.Length
    modifies dst
    ensures var n := bytecnt / 8;
            dst[..] == old(dst[..d]) + src[s..s + n] + old(dst[d + n..])
  {
    ghost var n, was := bytecnt / 8, dst[..];
    var i, rest, more := 0, bytecnt, true;
    while more
      invariant 0 <= i <= n && rest == 8 * (n - i) && rest % 64 == 0 && more == (rest > 0)
      invariant forall k :: 0 <= k < dst.Length ==> dst[k] == if d <= k < d + i then src[s + (k - d)] else was[k]
      decreases rest
    {
      EightWords(dst, d + i, src, s + i);
      i, rest := i + 8, rest - 64;
      more := rest > 0;
    }
    Spliced(dst[..], was, d, src[s..s + n]);
  }

  lemma Spliced<W>(after: seq<W>, was: seq<W>, d: nat, part: seq<W>)
    requires |after| == |was| && d + |part| <= |was|
    requires forall k :: 0 <= k < |was| ==> after[k] == if d <= k < d + |part| then part[k - d] else was[k]
    ensures after == was[..d] + part + was[d + |part|..]
  {
  }

  /** One round of the copy loop. */
  method EightWords<W>(dst: array<W>, d: nat, src: array<W>, s: nat)
    requires dst != src && d + 8 <= dst.Length && s + 8 <= src.Length
    modifies dst
    ensures forall k :: 0 <= k < dst.Length ==> dst[k] == if d <= k < d + 8 then src[s + (k - d)] else old(dst[k])
  {
    dst[d] := src[s];
    dst[d + 1] := src[s + 1];
    dst[d + 2] := src[s + 2];
    dst[d + 3] := src[s + 3];
    dst[d + 4] := src[s + 4];
    dst[d + 5] := src[s + 5];
    dst[d + 6] := src[s + 6];
    dst[d + 7] := src[s + 7];
  }

  /** A sequence of blocks as one sequence of words. */
  function Flat<W>(blocks: seq<seq<W>>): seq<W> { if blocks == [] then [] else blocks[0] + Flat(blocks[1..]) }

  /** Blocks of eight words. */
  predicate Eights<W>(blocks: seq<seq<W>>) { forall k :: 0 <= k < |blocks| ==> |blocks[k]| == 8 }

  lemma {:induction false} FlatSize<W>(blocks: seq<seq<W>>)
    requires Eights(blocks)
    ensures |Flat(blocks)| == 8 * |blocks|
  {
    if blocks != [] { FlatSize(blocks[1..]); }
  }

  lemma {:induction false} FlatJoin<W>(a: seq<seq<W>>, b: seq<seq<W>>)
    ensures Flat(a + b) == Flat(a) + Flat(b)
    decreases |a|
  {
    if a == [] {
      assert a + b == b;
    } else {
      assert (a + b)[1..] == a[1..] + b;
      FlatJoin(a[1..], b);
    }
  }

  lemma FlatCut<W>(blocks: seq<seq<W>>, k: nat)
    requires Eights(blocks) && k <= |blocks|
    ensures |Flat(blocks)| == 8 * |blocks|
    ensures Flat(blocks[..k]) == Flat(blocks)[..8 * k] && Flat(blocks[k..]) == Flat(blocks)[8 * k..]
  {
    hide Flat;
    assert blocks == blocks[..k] + blocks[k..];
    FlatJoin(blocks[..k], blocks[k..]);
    FlatSize(blocks);
    FlatSize(blocks[..k]);
  }

  lemma FlatPart<W>(blocks: seq<seq<W>>, lo: nat, hi: nat)
    requires Eights(blocks) && lo <= hi <= |blocks|
    ensures |Flat(blocks)| == 8 * |blocks| && Flat(blocks[lo..hi]) == Flat(blocks)[8 * lo..8 * hi]
  {
    hide Flat;
    FlatCut(blocks, hi);
    FlatCut(blocks[..hi], lo);
    SlicePrefix(blocks, lo, hi);
    SlicePrefix(Flat(blocks), 8 * lo, 8 * hi);
  }

  lemma SlicePrefix<T>(s: seq<T>, lo: nat, hi: nat)
    requires lo <= hi <= |s|
    ensures s[..hi][lo..] == s[lo..hi]
  {
  }

  /** Copying whole blocks, as MmioMemcpyX64 does, is copying their words, as MmioMemcpyX64Words does. */
  lemma BlocksAreWords<W>(dst: seq<seq<W>>, d: nat, src: seq<seq<W>>, s: nat, n: nat)
    requires Eights(dst) && Eights(src) && d + n <= |dst| && s + n <= |src|
    ensures |Flat(dst)| == 8 * |dst| && |Flat(src)| == 8 * |src|
    ensures Flat(dst[..d] + src[s..s + n] + dst[d + n..])
         == Flat(dst)[..8 * d] + Flat(src)[8 * s..8 * (s + n)] + Flat(dst)[8 * (d + n)..]
  {
    hide Flat, Eights;
    FlatJoin(dst[..d] + src[s..s + n], dst[d + n..]);
    FlatJoin(dst[..d], src[s..s + n]);
    FlatCut(dst, d);
    FlatCut(dst, d + n);
    FlatPart(src, s, s + n);
  }
}
