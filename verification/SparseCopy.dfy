/**
Copying a disk image while keeping its holes.

A source file is its bytes together with a layout that says which of them are stored;
a hole reads as zeros. `limit` says after how many seeks the file system stops
supporting `SEEK_DATA` and `SEEK_HOLE`; `None` means that it never does.
*/
module SparseCopy {
  import opened Options

  type Bytes = seq<int>

  // ---------------------------------------------------------------- files

  function Zeros(n: nat): (z: Bytes)
    ensures |z| == n && forall i :: 0 <= i < n ==> z[i] == 0
  {
    seq(n, _ => 0)
  }

  function Pad(c: Bytes, n: nat): Bytes {
    if |c| < n then c + Zeros(n - |c|) else c
  }

  /** The content after writing `bs` at `pos`; a gap before it reads as zeros. */
  function Splice(c: Bytes, pos: nat, bs: Bytes): Bytes {
    if bs == [] then c
    else
      var padded := Pad(c, pos);
      padded[..pos] + bs + (if pos + |bs| < |padded| then padded[pos + |bs|..] else [])
  }

  class OutFile {
    var content: Bytes
    var pos: nat

    constructor ()
      ensures content == [] && pos == 0
    {
      content, pos := [], 0;
    }

    method Seek(p: nat)
      modifies this`pos
      ensures pos == p
    {
      pos := p;
    }

    method Write(bs: Bytes)
      modifies this
      ensures content == Splice(old(content), old(pos), bs) && pos == old(pos) + |bs|
    {
      content := Splice(content, pos, bs);
      pos := pos + |bs|;
    }

    method Truncate(n: nat)
      modifies this`content
      ensures content == Pad(old(content), n)[..n]
    {
      content := Pad(content, n)[..n];
    }
  }

  // ---------------------------------------------------------------- layouts

  ghost predicate HolesAreZero(src: Bytes, stored: seq<bool>) {
    |stored| == |src| && forall i :: 0 <= i < |src| && !stored[i] ==> src[i] == 0
  }

  /** `SEEK_DATA`: the first stored byte from here on, or ENXIO. */
  function NextData(stored: seq<bool>, from: nat): (r: Option<nat>)
    ensures r.Some? ==> from <= r.value < |stored| && stored[r.value] && forall i :: from <= i < r.value ==> !stored[i]
    ensures r.None? ==> forall i :: from <= i < |stored| ==> !stored[i]
    decreases |stored| - from
  {
    if from >= |stored| then None
    else if stored[from] then Some(from)
    else NextData(stored, from + 1)
  }

  /** `SEEK_HOLE`: the first byte that is not stored from here on; the end of the file is a hole. */
  function NextHole(stored: seq<bool>, from: nat): (r: nat)
    ensures from <= r && (from <= |stored| ==> r <= |stored|)
    ensures forall i :: from <= i < r && i < |stored| ==> stored[i]
    ensures r < |stored| ==> !stored[r]
    decreases |stored| - from
  {
    if from >= |stored| || !stored[from] then from else NextHole(stored, from + 1)
  }

  /** How many seeks the copy makes from here on. */
  function Seeks(stored: seq<bool>, from: nat): (n: nat)
    ensures from < |stored| ==> n > 0
    decreases |stored| - from
  {
    if from >= |stored| then 0
    else
      var data := NextData(stored, from);
      if data.None? then 1 else 2 + Seeks(stored, NextHole(stored, data.value))
  }

  // ---------------------------------------------------------------- the copy

  const CHUNK: nat := 1024 * 1024

  /** `io.CopyBuffer` over a range of the source. */
  method CopyRange(src: Bytes, from: nat, to: nat, out: OutFile)
    requires from <= to <= |src|
    modifies out
    ensures out.content == Splice(old(out.content), old(out.pos), src[from..to])
    ensures out.pos == old(out.pos) + (to - from)
  {
    var i := from;
    while i < to
      invariant from <= i <= to
      invariant out.content == Splice(old(out.content), old(out.pos), src[from..i])
      invariant out.pos == old(out.pos) + (i - from)
    {
      var n := if i + CHUNK < to then i + CHUNK else to;
      SpliceRange(old(out.content), old(out.pos), src, from, i, n);
      out.Write(src[i..n]);
      i := n;
    }
  }

  /** Two writes in a row are one write. */
  lemma SpliceMore(c: Bytes, pos: nat, a: Bytes, b: Bytes)
    ensures Splice(Splice(c, pos, a), pos + |a|, b) == Splice(c, pos, a + b)
  {
    if a == [] {
      assert a + b == b;
    } else if b == [] {
      assert a + b == a;
    } else {
      var d := Splice(c, pos, a);
      assert |d| >= pos + |a|;
    }
  }

  lemma SpliceRange(c: Bytes, pos: nat, src: Bytes, from: nat, i: nat, n: nat)
    requires from <= i <= n <= |src|
    ensures Splice(Splice(c, pos, src[from..i]), pos + (i - from), src[i..n]) == Splice(c, pos, src[from..n])
  {
    SpliceMore(c, pos, src[from..i], src[i..n]);
    assert src[from..i] + src[i..n] == src[from..n];
  }

  lemma AppendAfterGap(src: Bytes, stored: seq<bool>, offset: nat, data: nat, hole: nat)
    requires HolesAreZero(src, stored) && offset <= data < hole <= |src|
    requires forall i :: offset <= i < data ==> !stored[i]
    ensures Splice(src[..offset], data, src[data..hole]) == src[..hole]
  {
    var padded := Pad(src[..offset], data);
    assert padded == src[..data];
  }

  /** The dense copy writes the whole source at the current position. */
  method CopyFileDense(src: Bytes, out: OutFile)
    modifies out
    ensures out.content == Splice(old(out.content), old(out.pos), src)
  {
    CopyRange(src, 0, |src|, out);
    assert src[0..|src|] == src;
  }

  /**
  `copySparseFile` into an empty file. The copy is exact for every layout unless seek
  support is lost after the first segment and before the last seek.
  */
  method CopySparseFile(src: Bytes, stored: seq<bool>, limit: Option<nat>, out: OutFile)
    requires HolesAreZero(src, stored) && out.content == [] && out.pos == 0
    modifies out
    ensures out.content == src <==> (limit.Some? ==> limit.value <= 1 || limit.value >= Seeks(stored, 0))
  {
    var size := |src|;
    if size == 0 {
      return;
    }
    var offset, used := 0, 0;
    while offset < size
      invariant 0 <= offset <= size && out.pos == offset && out.content == src[..offset]
      invariant used + Seeks(stored, offset) == Seeks(stored, 0)
      invariant limit.Some? ==> used <= limit.value
      invariant if offset == 0 then used == 0 else used >= 2
      decreases size - offset
    {
      if limit == Some(used) {
        ghost var at := offset;
        CopyFileDense(src, out);
        Fallback(src, at);
        return;
      }
      used := used + 1;
      var data := NextData(stored, offset);
      if data.None? {
        assert offset <= |src|;
        break;
      }
      if limit == Some(used) {
        ghost var at := offset;
        CopyFileDense(src, out);
        Fallback(src, at);
        return;
      }
      used := used + 1;
      var hole := NextHole(stored, data.value);
      if hole > size {
        hole := size;
      }
      AppendAfterGap(src, stored, offset, data.value, hole);
      out.Seek(data.value);
      CopyRange(src, data.value, hole, out);
      offset := hole;
    }
    assert Pad(out.content, size) == src;
    out.Truncate(size);
  }

  /** A dense copy behind what has been copied already is never the source. */
  lemma Fallback(src: Bytes, at: nat)
    requires at < |src|
    ensures Splice(src[..at], at, src) == src <==> at == 0
  {
    assert Splice(src[..at], at, src) == src[..at] + src;
  }

  /** The condition can fail: two stored bytes around a hole, and support lost after two seeks. */
  lemma SupportLostMidway()
    ensures HolesAreZero([1, 0, 1], [true, false, true]) && 1 < 2 < Seeks([true, false, true], 0)
  {
    var stored := [true, false, true];
    assert NextData(stored, 0) == Some(0) && NextHole(stored, 0) == 1;
  }
}
