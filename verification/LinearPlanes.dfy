/** A linear box's v210a source (fill and key) unpacked once into four float planes
    (engine/src/core/dme.hpp, dmeFetchLinear to dmeUnpackPixel; dmeUnpackCpu in engine/src/core/dme.cpp). */
module LinearPlanes {
  import opened V210
  import Dme

  /** Lines of v210 words with a line of key words each; `pairs` is half the (even) width. */
  datatype V210a = V210a(words: seq<seq<bv32>>, key: seq<seq<bv32>>, pairs: nat)
  {
    function Width(): nat {
      2 * pairs
    }

    function Height(): nat {
      |words|
    }

    predicate Ok() {
      |key| == |words| && forall r :: 0 <= r < |words| ==> |words[r]| >= 4 * Groups(2 * pairs) && |key[r]| >= (2 * pairs + 2) / 3
    }
  }

  function Value(v: bv16): real {
    v as int as real
  }

  /** Planes 0 Y, 1 Cb, 2 Cr, 3 key. */
  function PlaneWidth(src: V210a, plane: nat): nat {
    if plane == 1 || plane == 2 then src.pairs else src.Width()
  }

  /** Every sample of a line is in its words and its key words. */
  lemma IndicesFit(pairs: nat, j: nat)
    ensures j < 2 * pairs ==> j / 6 * 4 + 4 <= 4 * Groups(2 * pairs) && j / 3 < (2 * pairs + 2) / 3
    ensures j < pairs ==> j / 3 * 4 + 4 <= 4 * Groups(2 * pairs) && 2 * j / 3 < (2 * pairs + 2) / 3 && (2 * j + 1) / 3 < (2 * pairs + 2) / 3
  {
  }

  /** Sample j of a plane's line: Y and chroma premultiplied by the key (a pair's mean for chroma). */
  function Fetch(src: V210a, plane: nat, row: nat, j: nat): real
    requires src.Ok() && plane < 4 && row < src.Height() && j < PlaneWidth(src, plane)
  {
    var words, key := src.words[row], src.key[row];
    IndicesFit(src.pairs, j);
    if plane == 3 then Value(KeyAt(key, j))
    else if plane == 0 then (Value(Luma(words, j)) - 64.0) * (Value(KeyAt(key, j)) / 1023.0)
    else (Value(if plane == 1 then Cb(words, j) else Cr(words, j)) - 512.0) * ((Value(KeyAt(key, 2 * j)) + Value(KeyAt(key, 2 * j + 1))) / 2046.0)
  }

  // ---- where the planes lie ----------------------------------------------------------------------------

  /** Half a plane of luma. */
  function Half(src: V210a): nat {
    src.Height() * src.pairs
  }

  /** In halves of a luma plane: Y 0 and 1, Cb 2, Cr 3, key 4 and 5. */
  function Base(src: V210a, plane: nat): nat
    requires plane < 4
  {
    if plane == 0 then 0 else if plane == 1 then 2 * Half(src) else if plane == 2 then 3 * Half(src) else 4 * Half(src)
  }

  function At(src: V210a, plane: nat, row: nat, j: nat): nat
    requires plane < 4
  {
    Base(src, plane) + row * PlaneWidth(src, plane) + j
  }

  lemma RowMajor(rows: nat, w: nat, r: nat, j: nat, s: nat, k: nat)
    requires r < rows && s < rows && j < w && k < w
    ensures 0 <= r * w + j < rows * w
    ensures r * w + j == s * w + k ==> r == s && j == k
  {
    RowBefore(rows, w, r);
    if r < s { RowBefore(s, w, r); }
    if s < r { RowBefore(r, w, s); }
  }

  lemma RowBefore(rows: nat, w: nat, r: nat)
    requires r < rows
    ensures 0 <= r * w && r * w + w <= rows * w
  {
    var more := rows - r - 1;
    assert rows * w == r * w + w + more * w;
  }

  /** The lines of the four planes never overlap, and lie inside three luma planes. */
  lemma PlanesApart(src: V210a, p: nat, r: nat, j: nat, q: nat, s: nat, k: nat)
    requires p < 4 && q < 4 && r < src.Height() && s < src.Height() && j < PlaneWidth(src, p) && k < PlaneWidth(src, q)
    ensures At(src, p, r, j) < 6 * Half(src)
    ensures At(src, p, r, j) == At(src, q, s, k) ==> p == q && r == s && j == k
  {
    InPlane(src, p, r, j);
    InPlane(src, q, s, k);
    if p == q { RowMajor(src.Height(), PlaneWidth(src, p), r, j, s, k); }
  }

  lemma InPlane(src: V210a, p: nat, r: nat, j: nat)
    requires p < 4 && r < src.Height() && j < PlaneWidth(src, p)
    ensures Base(src, p) <= At(src, p, r, j) < Base(src, p) + (if p == 1 || p == 2 then Half(src) else 2 * Half(src))
  {
    RowMajor(src.Height(), PlaneWidth(src, p), r, j, r, j);
    assert src.Height() * (2 * src.pairs) == 2 * (src.Height() * src.pairs);
  }

  // ---- unpacking ----------------------------------------------------------------------------------------

  /** Sample j of plane p comes with pixel x: chroma with the even pixel of its pair. */
  predicate OfPixel(p: nat, j: nat, x: nat) {
    x == if p == 1 || p == 2 then 2 * j else j
  }

  /** Pixel x of a row, and the chroma of its pair, into the planes; nothing else is touched. */
  method UnpackPixel(src: V210a, planes: array<real>, x: nat, row: nat)
    requires src.Ok() && row < src.Height() && x < src.Width() && planes.Length == 6 * Half(src)
    modifies planes
    ensures forall p, r, j :: 0 <= p < 4 && 0 <= r < src.Height() && 0 <= j < PlaneWidth(src, p) ==>
              At(src, p, r, j) < planes.Length &&
              planes[At(src, p, r, j)] == if r == row && OfPixel(p, j, x) then Fetch(src, p, r, j) else old(planes[At(src, p, r, j)])
  {
    hide Fetch, At;
    forall p, r, j, q, s, k | 0 <= p < 4 && 0 <= q < 4 && 0 <= r < src.Height() && 0 <= s < src.Height() && 0 <= j < PlaneWidth(src, p) && 0 <= k < PlaneWidth(src, q)
      ensures At(src, p, r, j) < 6 * Half(src)
      ensures At(src, p, r, j) == At(src, q, s, k) ==> p == q && r == s && j == k
    {
      PlanesApart(src, p, r, j, q, s, k);
    }
    planes[At(src, 0, row, x)] := Fetch(src, 0, row, x);
    planes[At(src, 3, row, x)] := Fetch(src, 3, row, x);
    if x % 2 == 0 {
      planes[At(src, 1, row, x / 2)] := Fetch(src, 1, row, x / 2);
      planes[At(src, 2, row, x / 2)] := Fetch(src, 2, row, x / 2);
    }
  }

  /** Whether sample j of row r of a plane is written before pixel x of row `row`. */
  predicate Done(p: nat, r: nat, j: nat, x: nat, row: nat) {
    r < row || (r == row && if p == 1 || p == 2 then 2 * j < x else j < x)
  }

  /** Every plane holds exactly what is fetched from the packed lines. */
  method Unpack(src: V210a, planes: array<real>)
    requires src.Ok() && planes.Length == 6 * Half(src)
    modifies planes
    ensures Unpacked(src, planes[..])
  {
    hide Fetch, At;
    for row := 0 to src.Height()
      invariant forall p, r, j :: 0 <= p < 4 && 0 <= r < src.Height() && 0 <= j < PlaneWidth(src, p) && Done(p, r, j, 0, row) ==>
                  At(src, p, r, j) < planes.Length && planes[At(src, p, r, j)] == Fetch(src, p, r, j)
    {
      for x := 0 to src.Width()
        invariant forall p, r, j :: 0 <= p < 4 && 0 <= r < src.Height() && 0 <= j < PlaneWidth(src, p) && Done(p, r, j, x, row) ==>
                    At(src, p, r, j) < planes.Length && planes[At(src, p, r, j)] == Fetch(src, p, r, j)
      {
        UnpackPixel(src, planes, x, row);
      }
    }
  }

  // ---- the resample reads either ------------------------------------------------------------------------

  /** The four planes' lines, fetched from the packed source or read from the unpacked planes. */
  function Fetched(src: V210a): seq<seq<seq<real>>>
    requires src.Ok()
  {
    seq(4, p requires 0 <= p < 4 && src.Ok() =>
      seq(src.Height(), r requires 0 <= r < src.Height() && 0 <= p < 4 && src.Ok() =>
        seq(PlaneWidth(src, p), j requires 0 <= j < PlaneWidth(src, p) && 0 <= r < src.Height() && 0 <= p < 4 && src.Ok() => Fetch(src, p, r, j))))
  }

  ghost predicate Unpacked(src: V210a, planes: seq<real>)
    requires src.Ok()
  {
    forall p, r, j :: 0 <= p < 4 && 0 <= r < src.Height() && 0 <= j < PlaneWidth(src, p) ==>
      At(src, p, r, j) < |planes| && planes[At(src, p, r, j)] == Fetch(src, p, r, j)
  }

  function Read(src: V210a, planes: seq<real>): seq<seq<seq<real>>> {
    seq(4, p requires 0 <= p < 4 =>
      seq(src.Height(), r requires 0 <= r && 0 <= p < 4 =>
        seq(PlaneWidth(src, p), j requires 0 <= j && 0 <= r && 0 <= p < 4 => if At(src, p, r, j) < |planes| then planes[At(src, p, r, j)] else 0.0)))
  }

  lemma SameLines(src: V210a, planes: seq<real>)
    requires src.Ok() && Unpacked(src, planes)
    ensures Read(src, planes) == Fetched(src)
  {
    hide Fetch, At;
    forall p | 0 <= p < 4 ensures Read(src, planes)[p] == Fetched(src)[p] {
      forall r | 0 <= r < src.Height() ensures Read(src, planes)[p][r] == Fetched(src)[p][r] {
        assert forall j :: 0 <= j < PlaneWidth(src, p) ==> planes[At(src, p, r, j)] == Fetch(src, p, r, j);
      }
    }
  }

  /** The resample of a linear box over its source: every sample of every row it makes is the same, whether
      its lines are fetched from the packed words as it goes or read from the planes unpacked once. */
  lemma UnpackedReadsTheSame(src: V210a, planes: seq<real>, b: Dme.Box, e: int, oy: int)
    requires src.Ok() && Unpacked(src, planes)
    requires Dme.BoxFits(b) && b.kind == Dme.Kind.Linear && b.width == src.Width() && b.height == src.Height()
    requires b.pw > 0 && 0 <= e < b.cols
    ensures Dme.SourceFits(b, Read(src, planes)) && Dme.SourceFits(b, Fetched(src))
    ensures Dme.VAt(b, Read(src, planes), e, oy) == Dme.VAt(b, Fetched(src), e, oy)
  {
    hide Fetch, At;
    SameLines(src, planes);
  }
}
