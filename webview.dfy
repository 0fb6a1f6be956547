/** The Berkelium-backed web texture (pipeline/Webview.cpp): the flag that
    makes the first paint a full upload, and the packing of each dirty
    rectangle's rows into the scroll buffer before it is uploaded.

    Berkelium's window is an oracle: a paint arrives as a BGRA bitmap with
    its rectangle and the rectangles to copy, and the texture uploads the
    view issues are returned as values. A `Rect` is Berkelium's: left, top,
    width and height, with `right() == left + width` and
    `bottom() == top + height`. */
module Webview {
  import opened Wrappers

  datatype Rect = Rect(left: int, top: int, width: int, height: int)
  {
    function Right(): int { left + width }
    function Bottom(): int { top + height }
  }

  /** A texture upload: the whole texture (`glTexImage2D`) or a
      sub-rectangle of it (`glTexSubImage2D`), with the bytes handed to
      GL. */
  datatype Upload =
    | Full(width: int, height: int, pixels: seq<bv8>)
    | Sub(x: int, y: int, width: int, height: int, pixels: seq<bv8>)

  /** Byte offset in the bitmap of row `jj` of a copy rectangle whose
      top-left corner is at (`left`, `top`) within a bitmap `bw` pixels
      wide (line 73). */
  function RowStart(bw: int, left: int, top: int, jj: int): int
  {
    (left + (jj + top) * bw) * 4
  }

  /** Every row the copy loop reads lies inside the bitmap. */
  predicate RowsInBitmap(bitmap: seq<bv8>, bw: int, left: int, top: int, wid: nat, hig: nat)
  {
    forall jj :: 0 <= jj < hig ==> 0 <= RowStart(bw, left, top, jj) && RowStart(bw, left, top, jj) + wid * 4 <= |bitmap|
  }

  /** The first `hig` rows of a copy rectangle, packed one after the
      other, `wid * 4` bytes each. */
  function Packed(bitmap: seq<bv8>, bw: int, left: int, top: int, wid: nat, hig: nat): (r: seq<bv8>)
    requires RowsInBitmap(bitmap, bw, left, top, wid, hig)
    ensures |r| == hig * (wid * 4)
  {
    if hig == 0 then []
    else
      var s := RowStart(bw, left, top, hig - 1);
      Packed(bitmap, bw, left, top, wid, hig - 1) + bitmap[s..s + wid * 4]
  }

  /** Row `jj` of a copy rectangle lands at byte `jj * wid * 4` of the
      packed buffer and holds the `wid * 4` bitmap bytes from
      `(left + (jj + top) * bitmap width) * 4` on. */
  lemma {:induction false} PackedRow(bitmap: seq<bv8>, bw: int, left: int, top: int, wid: nat, hig: nat, jj: nat)
    requires RowsInBitmap(bitmap, bw, left, top, wid, hig) && jj < hig
    ensures var p := Packed(bitmap, bw, left, top, wid, hig); var s := RowStart(bw, left, top, jj);
      (jj + 1) * (wid * 4) <= |p| && p[jj * (wid * 4)..(jj + 1) * (wid * 4)] == bitmap[s..s + wid * 4]
  {
    var prev := Packed(bitmap, bw, left, top, wid, hig - 1);
    var last := RowStart(bw, left, top, hig - 1);
    var s := RowStart(bw, left, top, jj);
    assert Packed(bitmap, bw, left, top, wid, hig) == prev + bitmap[last..last + wid * 4];
    if jj < hig - 1 {
      PackedRow(bitmap, bw, left, top, wid, hig - 1, jj);
    }
    ChunkOfConcat(prev, bitmap[last..last + wid * 4], wid * 4, hig - 1, jj, bitmap[s..s + wid * 4]);
  }

  /** Appending one more `n`-byte row to `k` packed rows keeps row `jj`
      where it was, or puts it at the end when `jj == k`. */
  lemma ChunkOfConcat(u: seq<bv8>, v: seq<bv8>, n: nat, k: nat, jj: nat, want: seq<bv8>)
    requires |v| == n && |u| == k * n && jj <= k
    requires jj < k ==> (jj + 1) * n <= |u| && u[jj * n..(jj + 1) * n] == want
    requires jj == k ==> v == want
    ensures (jj + 1) * n <= |u + v| && (u + v)[jj * n..(jj + 1) * n] == want
  {
    NextRow(jj, n, k + 1);
  }

  lemma NextRow(jj: nat, n: nat, hig: nat)
    requires jj < hig
    ensures (jj + 1) * n == jj * n + n && (jj + 1) * n <= hig * n
  {
  }

  /** What the copy loop of `onPaint` (lines 67-76) reads is inside the
      bitmap, and what it writes fits the scroll buffer. */
  predicate CopyFits(bitmap: seq<bv8>, bitmapRect: Rect, rects: seq<Rect>, bufferSize: nat)
  {
    forall i :: 0 <= i < |rects| ==>
      rects[i].width >= 0 && rects[i].height >= 0 &&
      rects[i].height * (rects[i].width * 4) <= bufferSize &&
      RowsInBitmap(bitmap, bitmapRect.width, rects[i].left - bitmapRect.left, rects[i].top - bitmapRect.top,
                   rects[i].width, rects[i].height)
  }

  /** The uploads `onPaint` issues for the copy rectangles: each
      rectangle's rows packed, uploaded at the rectangle's position. */
  function CopyUploads(bitmap: seq<bv8>, bitmapRect: Rect, rects: seq<Rect>, bufferSize: nat): (r: seq<Upload>)
    requires CopyFits(bitmap, bitmapRect, rects, bufferSize)
    ensures |r| == |rects|
  {
    if rects == [] then []
    else
      var c := rects[|rects| - 1];
      CopyUploads(bitmap, bitmapRect, rects[..|rects| - 1], bufferSize) +
        [Sub(c.left, c.top, c.width, c.height,
             Packed(bitmap, bitmapRect.width, c.left - bitmapRect.left, c.top - bitmapRect.top, c.width, c.height))]
  }

  /** Each copy rectangle gets its own upload, in order, at its own
      position and size. */
  lemma {:induction false} CopyUploadsPlacement(bitmap: seq<bv8>, bitmapRect: Rect, rects: seq<Rect>, bufferSize: nat)
    requires CopyFits(bitmap, bitmapRect, rects, bufferSize)
    ensures var u := CopyUploads(bitmap, bitmapRect, rects, bufferSize);
      forall i :: 0 <= i < |rects| ==>
        u[i].Sub? && u[i].x == rects[i].left && u[i].y == rects[i].top &&
        u[i].width == rects[i].width && u[i].height == rects[i].height &&
        |u[i].pixels| == rects[i].height * (rects[i].width * 4)
  {
    if rects != [] {
      var init := rects[..|rects| - 1];
      assert CopyFits(bitmap, bitmapRect, init, bufferSize) by {
        forall i | 0 <= i < |init|
          ensures init[i] == rects[i]
        {
        }
      }
      CopyUploadsPlacement(bitmap, bitmapRect, init, bufferSize);
    }
  }

  /** One more copy rectangle adds its own upload at the end. */
  lemma CopyUploadsStep(bitmap: seq<bv8>, bitmapRect: Rect, rects: seq<Rect>, bufferSize: nat, i: nat)
    requires CopyFits(bitmap, bitmapRect, rects, bufferSize) && i < |rects|
    ensures CopyFits(bitmap, bitmapRect, rects[..i + 1], bufferSize)
    ensures var c := rects[i];
      CopyUploads(bitmap, bitmapRect, rects[..i + 1], bufferSize) ==
        CopyUploads(bitmap, bitmapRect, rects[..i], bufferSize) +
        [Sub(c.left, c.top, c.width, c.height,
             Packed(bitmap, bitmapRect.width, c.left - bitmapRect.left, c.top - bitmapRect.top, c.width, c.height))]
  {
    assert rects[..i + 1][..i] == rects[..i];
  }

  /** The bitmap rectangle covers the whole view, as the full refresh
      demands (line 55). */
  predicate CoversView(r: Rect, hres: int, vres: int)
  {
    r.left == 0 && r.top == 0 && r.Right() == hres && r.Bottom() == vres
  }

  /** `Webview`: the view size, the full-refresh flag and the scroll
      buffer. */
  class Webview {
    var hres: int
    var vres: int
    var needsFullRefresh: bool
    const scrollBuffer: array<bv8>

    /** `Webview(page, w, h)` (lines 27-45): records the size, asks for a
        full refresh and allocates `w * (h + 1) * 4` bytes of scroll
        buffer; `new char[...]` needs a non-negative size that fits an
        `int`. */
    constructor (w: int, h: int)
      requires 0 <= w && -1 <= h && w * (h + 1) * 4 < 0x8000_0000
      ensures hres == w && vres == h && needsFullRefresh
      ensures fresh(scrollBuffer) && scrollBuffer.Length == w * (h + 1) * 4
    {
      hres, vres := w, h;
      needsFullRefresh := true;
      scrollBuffer := new bv8[w * (h + 1) * 4];
    }

    /** `memcpy(scroll_buffer + dst, bitmap + src, n)`. */
    method CopyBytes(bitmap: seq<bv8>, src: int, dst: nat, n: nat)
      requires 0 <= src && src + n <= |bitmap| && dst + n <= scrollBuffer.Length
      modifies scrollBuffer
      ensures scrollBuffer[..] == old(scrollBuffer[..dst]) + bitmap[src..src + n] + old(scrollBuffer[dst + n..])
    {
      var k := 0;
      while k < n
        invariant 0 <= k <= n
        invariant scrollBuffer[..] == old(scrollBuffer[..dst]) + bitmap[src..src + k] + old(scrollBuffer[dst + k..])
      {
        scrollBuffer[dst + k] := bitmap[src + k];
        k := k + 1;
        assert bitmap[src..src + k] == bitmap[src..src + k - 1] + [bitmap[src + k - 1]];
      }
    }

    /** The row loop of one copy rectangle (lines 72-74): afterwards the
        buffer starts with the rectangle's rows, packed. */
    method PackRect(bitmap: seq<bv8>, bw: int, left: int, top: int, wid: nat, hig: nat)
      requires RowsInBitmap(bitmap, bw, left, top, wid, hig)
      requires hig * (wid * 4) <= scrollBuffer.Length
      modifies scrollBuffer
      ensures scrollBuffer[..hig * (wid * 4)] == Packed(bitmap, bw, left, top, wid, hig)
    {
      var n := wid * 4;
      var jj := 0;
      while jj < hig
        invariant 0 <= jj <= hig
        invariant jj * n <= hig * n
        invariant scrollBuffer[..jj * n] == Packed(bitmap, bw, left, top, wid, jj)
      {
        NextRow(jj, n, hig);
        ghost var before := scrollBuffer[..];
        CopyBytes(bitmap, RowStart(bw, left, top, jj), jj * n, n);
        assert scrollBuffer[..jj * n] == before[..jj * n];
        assert scrollBuffer[..(jj + 1) * n] == scrollBuffer[..jj * n] + scrollBuffer[jj * n..(jj + 1) * n];
        jj := jj + 1;
      }
    }

    /** `onPaint` (lines 52-78). While a full refresh is pending, only a
        bitmap covering the whole view is taken: it is uploaded whole and
        the flag cleared; any other paint is ignored. Afterwards each copy
        rectangle is packed and uploaded, in order. A scroll offset only
        logs. */
    method OnPaint(bitmap: seq<bv8>, bitmapRect: Rect, rects: seq<Rect>, dx: int, dy: int)
      returns (uploads: seq<Upload>)
      requires !needsFullRefresh ==> CopyFits(bitmap, bitmapRect, rects, scrollBuffer.Length)
      modifies this`needsFullRefresh, scrollBuffer
      ensures old(needsFullRefresh) && !CoversView(bitmapRect, hres, vres) ==> uploads == [] && needsFullRefresh
      ensures old(needsFullRefresh) && CoversView(bitmapRect, hres, vres) ==>
        uploads == [Full(hres, vres, bitmap)] && !needsFullRefresh
      ensures !old(needsFullRefresh) ==>
        !needsFullRefresh && uploads == CopyUploads(bitmap, bitmapRect, rects, scrollBuffer.Length)
    {
      if needsFullRefresh {
        if bitmapRect.left != 0 || bitmapRect.top != 0 || bitmapRect.Right() != hres || bitmapRect.Bottom() != vres {
          return [];
        }
        needsFullRefresh := false;
        return [Full(hres, vres, bitmap)];
      }
      uploads := [];
      var i := 0;
      while i < |rects|
        invariant 0 <= i <= |rects| && !needsFullRefresh
        invariant CopyFits(bitmap, bitmapRect, rects[..i], scrollBuffer.Length)
        invariant uploads == CopyUploads(bitmap, bitmapRect, rects[..i], scrollBuffer.Length)
      {
        var c := rects[i];
        var wid, hig := c.width, c.height;
        var top, left := c.top - bitmapRect.top, c.left - bitmapRect.left;
        CopyUploadsStep(bitmap, bitmapRect, rects, scrollBuffer.Length, i);
        PackRect(bitmap, bitmapRect.width, left, top, wid, hig);
        uploads := uploads + [Sub(c.left, c.top, wid, hig, scrollBuffer[..hig * (wid * 4)])];
        i := i + 1;
      }
      assert rects[..i] == rects;
    }

    /** `onCreatedWindow` (lines 80-84): a new window with a degenerate
        initial size is resized to the view's size; any other keeps its
        size. The view becomes its delegate either way. */
    method OnCreatedWindow(initial: Rect) returns (resize: Option<(int, int)>)
      ensures resize.Some? <==> initial.width < 1 || initial.height < 1
      ensures resize.Some? ==> resize.value == (hres, vres)
    {
      resize := None;
      if initial.width < 1 || initial.height < 1 {
        resize := Some((hres, vres));
      }
    }
  }
}
