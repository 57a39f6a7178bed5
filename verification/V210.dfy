/** v210 lines (engine/src/core/v210.cpp, engine/src/core/pixel.hpp): groups of four 32-bit words hold six
    luma and three Cb and Cr samples of 10 bits. Buffers are line by line here, and the bytes of a word are
    one value. */
module V210 {

  /** Three 10-bit parts in a word. */
  function Word(a: bv16, b: bv16, c: bv16): bv32 {
    ((a & 0x3ff) as bv32) | (((b & 0x3ff) as bv32) << 10) | (((c & 0x3ff) as bv32) << 20)
  }

  function Part(w: bv32, k: nat): bv16
    requires k < 3
  {
    if k == 0 then (w & 0x3ff) as bv16 else if k == 1 then ((w >> 10) & 0x3ff) as bv16 else ((w >> 20) & 0x3ff) as bv16
  }

  /** The 10 bits of a sample that a word has room for. */
  function Low10(v: bv16): bv16 {
    v & 0x3ff
  }

  lemma PartsOfWord(a: bv16, b: bv16, c: bv16)
    ensures Part(Word(a, b, c), 0) == Low10(a) && Part(Word(a, b, c), 1) == Low10(b) && Part(Word(a, b, c), 2) == Low10(c)
  {
  }

  lemma WordOfParts(w: bv32)
    ensures Word(Part(w, 0), Part(w, 1), Part(w, 2)) == w & 0x3fff_ffff
  {
  }

  datatype Group = Group(y: seq<bv16>, cb: seq<bv16>, cr: seq<bv16>)
  {
    predicate Whole() {
      |y| == 6 && |cb| == 3 && |cr| == 3
    }
  }

  function UnpackGroup(w: seq<bv32>): (g: Group)
    requires |w| == 4
    ensures g.Whole()
  {
    Group([Part(w[0], 1), Part(w[1], 0), Part(w[1], 2), Part(w[2], 1), Part(w[3], 0), Part(w[3], 2)],
          [Part(w[0], 0), Part(w[1], 1), Part(w[2], 2)],
          [Part(w[0], 2), Part(w[2], 0), Part(w[3], 1)])
  }

  function PackGroup(g: Group): (w: seq<bv32>)
    requires g.Whole()
    ensures |w| == 4
  {
    [Word(g.cb[0], g.y[0], g.cr[0]), Word(g.y[1], g.cb[1], g.y[2]), Word(g.cr[1], g.y[3], g.cb[2]), Word(g.y[4], g.cr[2], g.y[5])]
  }

  predicate TenBit(s: seq<bv16>) {
    forall i :: 0 <= i < |s| ==> Low10(s[i]) == s[i]
  }

  function Lows(s: seq<bv16>): (r: seq<bv16>)
    ensures |r| == |s| && forall i :: 0 <= i < |s| ==> r[i] == Low10(s[i])
  {
    seq(|s|, i requires 0 <= i < |s| => Low10(s[i]))
  }

  /** Packing keeps the low 10 bits of every sample. */
  lemma PackThenUnpack(g: Group)
    requires g.Whole()
    ensures UnpackGroup(PackGroup(g)) == Group(Lows(g.y), Lows(g.cb), Lows(g.cr))
  {
    hide Part, Word, Low10, Lows;
    PartsOfWord(g.cb[0], g.y[0], g.cr[0]);
    PartsOfWord(g.y[1], g.cb[1], g.y[2]);
    PartsOfWord(g.cr[1], g.y[3], g.cb[2]);
    PartsOfWord(g.y[4], g.cr[2], g.y[5]);
    var u := UnpackGroup(PackGroup(g));
    assert u.y == Lows(g.y);
    assert u.cb == Lows(g.cb);
    assert u.cr == Lows(g.cr);
  }

  /** A group of 10-bit samples comes back whole. */
  lemma GroupRoundTrip(g: Group)
    requires g.Whole() && TenBit(g.y) && TenBit(g.cb) && TenBit(g.cr)
    ensures UnpackGroup(PackGroup(g)) == g
  {
    hide UnpackGroup, PackGroup, Low10;
    PackThenUnpack(g);
  }

  /** Unpacking four words loses only the two top bits of each. */
  lemma UnpackThenPack(w: seq<bv32>, i: nat)
    requires |w| == 4 && i < 4
    ensures PackGroup(UnpackGroup(w))[i] == w[i] & 0x3fff_ffff
  {
    hide Part, Word;
    WordOfParts(w[i]);
  }

  // ---- one sample in place ---------------------------------------------------------------------------

  function Luma(words: seq<bv32>, x: nat): bv16
    requires x / 6 * 4 + 4 <= |words|
  {
    var i := x % 6;
    Part(words[x / 6 * 4 + (if i == 0 then 0 else if i <= 2 then 1 else if i == 3 then 2 else 3)],
         if i == 1 || i == 4 then 0 else if i == 0 || i == 3 then 1 else 2)
  }

  function Cb(words: seq<bv32>, x: nat): bv16
    requires x / 3 * 4 + 4 <= |words|
  {
    Part(words[x / 3 * 4 + x % 3], x % 3)
  }

  function Cr(words: seq<bv32>, x: nat): bv16
    requires x / 3 * 4 + 4 <= |words|
  {
    var j := x % 3;
    Part(words[x / 3 * 4 + (if j == 0 then 0 else j + 1)], if j == 0 then 2 else if j == 1 then 0 else 1)
  }

  /** A key line holds three samples a word. */
  function KeyAt(words: seq<bv32>, x: nat): bv16
    requires x / 3 < |words|
  {
    Part(words[x / 3], x % 3)
  }

  /** Reading a sample in place is unpacking its group. */
  lemma AccessorsAgree(words: seq<bv32>, g: nat, i: nat)
    requires g * 4 + 4 <= |words| && i < 6
    ensures (g * 6 + i) / 6 == g && (i < 3 ==> (g * 3 + i) / 3 == g)
    ensures Luma(words, g * 6 + i) == UnpackGroup(words[g * 4..g * 4 + 4]).y[i]
    ensures i < 3 ==> Cb(words, g * 3 + i) == UnpackGroup(words[g * 4..g * 4 + 4]).cb[i]
    ensures i < 3 ==> Cr(words, g * 3 + i) == UnpackGroup(words[g * 4..g * 4 + 4]).cr[i]
  {
    hide Part, Word;
    assert (g * 6 + i) / 6 == g && (g * 6 + i) % 6 == i;
    if i < 3 { assert (g * 3 + i) / 3 == g && (g * 3 + i) % 3 == i; }
  }

  // ---- whole pictures --------------------------------------------------------------------------------

  function Groups(width: nat): nat {
    (width + 5) / 6
  }

  /** Group g of a line; samples past the line are 0. */
  function GroupOf(y: seq<bv16>, cb: seq<bv16>, cr: seq<bv16>, width: nat, g: nat): (r: Group)
    requires |y| >= width && |cb| >= width / 2 && |cr| >= width / 2
    ensures r.Whole()
  {
    Group(seq(6, i requires 0 <= i => if g * 6 + i < width && g * 6 + i < |y| then y[g * 6 + i] else 0),
          seq(3, i requires 0 <= i => if g * 3 + i < width / 2 && g * 3 + i < |cb| then cb[g * 3 + i] else 0),
          seq(3, i requires 0 <= i => if g * 3 + i < width / 2 && g * 3 + i < |cr| then cr[g * 3 + i] else 0))
  }

  /** The line holds the packed picture line, and zeros behind it. */
  ghost predicate PackedLine(words: seq<bv32>, y: seq<bv16>, cb: seq<bv16>, cr: seq<bv16>, width: nat) {
    && |y| >= width && |cb| >= width / 2 && |cr| >= width / 2 && 4 * Groups(width) <= |words|
    && (forall g :: 0 <= g < Groups(width) ==> words[g * 4..g * 4 + 4] == PackGroup(GroupOf(y, cb, cr, width, g)))
    && (forall j :: 4 * Groups(width) <= j < |words| ==> words[j] == 0)
  }

  /** Every sample of a packed line reads back with its low 10 bits: at any width, also in a last group that is not full. */
  lemma LumaRoundTrip(words: seq<bv32>, y: seq<bv16>, cb: seq<bv16>, cr: seq<bv16>, width: nat, x: nat)
    requires PackedLine(words, y, cb, cr, width) && x < width
    ensures x / 6 * 4 + 4 <= |words| && Luma(words, x) == Low10(y[x])
  {
    hide Luma, PackGroup, UnpackGroup, Low10, Lows;
    var g := x / 6;
    assert g * 6 + x % 6 == x;
    AccessorsAgree(words, g, x % 6);
    PackThenUnpack(GroupOf(y, cb, cr, width, g));
  }

  lemma ChromaRoundTrip(words: seq<bv32>, y: seq<bv16>, cb: seq<bv16>, cr: seq<bv16>, width: nat, x: nat)
    requires PackedLine(words, y, cb, cr, width) && x < width / 2
    ensures x / 3 * 4 + 4 <= |words| && Cb(words, x) == Low10(cb[x]) && Cr(words, x) == Low10(cr[x])
  {
    hide Cb, Cr, PackGroup, UnpackGroup, Low10, Lows;
    var g := x / 3;
    assert g * 3 + x % 3 == x;
    AccessorsAgree(words, g, x % 3);
    var group := GroupOf(y, cb, cr, width, g);
    PackThenUnpack(group);
    assert group.cb[x % 3] == cb[x] && group.cr[x % 3] == cr[x];
  }

  /** u, v and w are unpacked from the line, as UnpackV210 leaves them. */
  ghost predicate UnpackedLine(words: seq<bv32>, u: seq<bv16>, v: seq<bv16>, w: seq<bv16>, width: nat)
    requires 4 * Groups(width) <= |words|
  {
    && |u| == width && |v| == |w| == width / 2
    && (forall x :: 0 <= x < width ==> u[x] == Luma(words, x))
    && (forall x :: 0 <= x < width / 2 ==> v[x] == Cb(words, x) && w[x] == Cr(words, x))
  }

  lemma LineRoundTrip(words: seq<bv32>, y: seq<bv16>, cb: seq<bv16>, cr: seq<bv16>, u: seq<bv16>, v: seq<bv16>, w: seq<bv16>, width: nat)
    requires |y| == width && |cb| == |cr| == width / 2 && TenBit(y) && TenBit(cb) && TenBit(cr)
    requires PackedLine(words, y, cb, cr, width) && UnpackedLine(words, u, v, w, width)
    ensures u == y && v == cb && w == cr
  {
    hide PackGroup, Luma, Cb, Cr, Low10;
    forall x | 0 <= x < width ensures u[x] == y[x] { LumaRoundTrip(words, y, cb, cr, width, x); }
    forall x | 0 <= x < width / 2 ensures v[x] == cb[x] && w[x] == cr[x] { ChromaRoundTrip(words, y, cb, cr, width, x); }
  }

  /** Packing a picture of 10-bit samples and unpacking it is the identity, at every width and height. */
  lemma PictureRoundTrip(words: seq<seq<bv32>>, y: seq<seq<bv16>>, cb: seq<seq<bv16>>, cr: seq<seq<bv16>>,
                         u: seq<seq<bv16>>, v: seq<seq<bv16>>, w: seq<seq<bv16>>, width: nat)
    requires |words| == |y| == |cb| == |cr| == |u| == |v| == |w|
    requires forall r :: 0 <= r < |y| ==> |y[r]| == width && |cb[r]| == |cr[r]| == width / 2 && TenBit(y[r]) && TenBit(cb[r]) && TenBit(cr[r])
    requires forall r :: 0 <= r < |y| ==> PackedLine(words[r], y[r], cb[r], cr[r], width) && UnpackedLine(words[r], u[r], v[r], w[r], width)
    ensures u == y && v == cb && w == cr
  {
    hide PackedLine, UnpackedLine, TenBit;
    forall r | 0 <= r < |y| ensures u[r] == y[r] && v[r] == cb[r] && w[r] == cr[r] {
      LineRoundTrip(words[r], y[r], cb[r], cr[r], u[r], v[r], w[r], width);
    }
  }

  function RowOf<T>(a: array2<T>, row: nat): (r: seq<T>)
    reads a
    requires row < a.Length0
    ensures |r| == a.Length1 && forall i :: 0 <= i < |r| ==> r[i] == a[row, i]
  {
    seq(a.Length1, i requires 0 <= i < a.Length1 reads a => a[row, i])
  }

  method PackV210(y: array2<bv16>, cb: array2<bv16>, cr: array2<bv16>, width: nat, height: nat, dst: array2<bv32>)
    requires y.Length0 >= height && cb.Length0 >= height && cr.Length0 >= height && dst.Length0 >= height
    requires y.Length1 >= width && cb.Length1 >= width / 2 && cr.Length1 >= width / 2 && dst.Length1 >= 4 * Groups(width)
    modifies dst
    ensures forall row :: 0 <= row < height ==> PackedLine(RowOf(dst, row), RowOf(y, row), RowOf(cb, row), RowOf(cr, row), width)
  {
    for row := 0 to height
      invariant forall r :: 0 <= r < row ==> PackedLine(RowOf(dst, r), RowOf(y, r), RowOf(cb, r), RowOf(cr, r), width)
    {
      ghost var before := seq(row, r requires 0 <= r < row && row <= dst.Length0 reads dst => RowOf(dst, r));
      PackLine(RowOf(y, row), RowOf(cb, row), RowOf(cr, row), width, dst, row);
      forall r | 0 <= r < row ensures RowOf(dst, r) == before[r] {
      }
    }
  }

  /** No other row changes. */
  twostate predicate OtherRowsStay<T>(a: array2<T>, row: nat)
    reads a
  {
    forall r, j :: 0 <= r < a.Length0 && 0 <= j < a.Length1 && r != row ==> a[r, j] == old(a[r, j])
  }

  method ClearLine(dst: array2<bv32>, row: nat)
    requires row < dst.Length0
    modifies dst
    ensures OtherRowsStay(dst, row) && forall j :: 0 <= j < dst.Length1 ==> dst[row, j] == 0
  {
    for j := 0 to dst.Length1
      invariant OtherRowsStay(dst, row) && forall k :: 0 <= k < j ==> dst[row, k] == 0
    {
      dst[row, j] := 0;
    }
  }

  method PutGroup(dst: array2<bv32>, row: nat, g: nat, w: seq<bv32>)
    requires row < dst.Length0 && g * 4 + 4 <= dst.Length1 && |w| == 4
    modifies dst
    ensures OtherRowsStay(dst, row) && RowOf(dst, row)[g * 4..g * 4 + 4] == w
    ensures forall j :: 0 <= j < dst.Length1 && !(g * 4 <= j < g * 4 + 4) ==> dst[row, j] == old(dst[row, j])
  {
    dst[row, g * 4], dst[row, g * 4 + 1], dst[row, g * 4 + 2], dst[row, g * 4 + 3] := w[0], w[1], w[2], w[3];
  }

  method PackLine(y: seq<bv16>, cb: seq<bv16>, cr: seq<bv16>, width: nat, dst: array2<bv32>, row: nat)
    requires |y| >= width && |cb| >= width / 2 && |cr| >= width / 2
    requires row < dst.Length0 && dst.Length1 >= 4 * Groups(width)
    modifies dst
    ensures OtherRowsStay(dst, row) && PackedLine(RowOf(dst, row), y, cb, cr, width)
  {
    hide PackGroup, GroupOf;
    ClearLine(dst, row);
    var g := 0;
    while g * 6 < width
      invariant 0 <= g <= Groups(width) && OtherRowsStay(dst, row)
      invariant forall h :: 0 <= h < g ==> RowOf(dst, row)[h * 4..h * 4 + 4] == PackGroup(GroupOf(y, cb, cr, width, h))
      invariant forall k :: 4 * g <= k < dst.Length1 ==> dst[row, k] == 0
    {
      var gy := Gather(y, g * 6, width, 6);
      var gcb := Gather(cb, g * 3, width / 2, 3);
      var gcr := Gather(cr, g * 3, width / 2, 3);
      Gathered(y, cb, cr, width, g, Group(gy, gcb, gcr));
      ghost var before := RowOf(dst, row);
      PutGroup(dst, row, g, PackGroup(Group(gy, gcb, gcr)));
      forall h | 0 <= h < g ensures RowOf(dst, row)[h * 4..h * 4 + 4] == before[h * 4..h * 4 + 4] {
      }
      g := g + 1;
    }
  }

  lemma Gathered(y: seq<bv16>, cb: seq<bv16>, cr: seq<bv16>, width: nat, g: nat, r: Group)
    requires |y| >= width && |cb| >= width / 2 && |cr| >= width / 2 && r.Whole()
    requires forall k :: 0 <= k < 6 ==> r.y[k] == if g * 6 + k < width then y[g * 6 + k] else 0
    requires forall k :: 0 <= k < 3 ==> r.cb[k] == if g * 3 + k < width / 2 then cb[g * 3 + k] else 0
    requires forall k :: 0 <= k < 3 ==> r.cr[k] == if g * 3 + k < width / 2 then cr[g * 3 + k] else 0
    ensures r == GroupOf(y, cb, cr, width, g)
  {
    var o := GroupOf(y, cb, cr, width, g);
    assert r.y == o.y && r.cb == o.cb && r.cr == o.cr;
  }

  /** n samples from `first` on; past the end of the line 0. */
  method Gather(s: seq<bv16>, first: nat, end: nat, n: nat) returns (r: seq<bv16>)
    requires end <= |s|
    ensures |r| == n && forall k :: 0 <= k < n ==> r[k] == if first + k < end then s[first + k] else 0
  {
    r := seq(n, k => 0);
    var i := 0;
    while i < n && first + i < end
      invariant 0 <= i <= n && |r| == n
      invariant forall k :: 0 <= k < n ==> r[k] == if k < i && first + k < end then s[first + k] else 0
    {
      r := r[i := s[first + i]];
      i := i + 1;
    }
  }

  method UnpackV210(src: array2<bv32>, width: nat, height: nat, y: array2<bv16>, cb: array2<bv16>, cr: array2<bv16>)
    requires y.Length0 >= height && cb.Length0 >= height && cr.Length0 >= height && src.Length0 >= height
    requires y.Length1 >= width && cb.Length1 >= width / 2 && cr.Length1 >= width / 2 && src.Length1 >= 4 * Groups(width)
    requires y != cb && y != cr && cb != cr
    modifies y, cb, cr
    ensures forall row, x :: 0 <= row < height && 0 <= x < width ==> y[row, x] == Luma(RowOf(src, row), x)
    ensures forall row, x :: 0 <= row < height && 0 <= x < width / 2 ==> cb[row, x] == Cb(RowOf(src, row), x) && cr[row, x] == Cr(RowOf(src, row), x)
  {
    for row := 0 to height
      invariant forall r, x :: 0 <= r < row && 0 <= x < width ==> y[r, x] == Luma(RowOf(src, r), x)
      invariant forall r, x :: 0 <= r < row && 0 <= x < width / 2 ==> cb[r, x] == Cb(RowOf(src, r), x) && cr[r, x] == Cr(RowOf(src, r), x)
    {
      UnpackLine(RowOf(src, row), width, y, cb, cr, row);
    }
  }

  method UnpackLine(words: seq<bv32>, width: nat, y: array2<bv16>, cb: array2<bv16>, cr: array2<bv16>, row: nat)
    requires |words| >= 4 * Groups(width) && row < y.Length0 && row < cb.Length0 && row < cr.Length0
    requires y.Length1 >= width && cb.Length1 >= width / 2 && cr.Length1 >= width / 2
    requires y != cb && y != cr && cb != cr
    modifies y, cb, cr
    ensures forall x :: 0 <= x < width ==> y[row, x] == Luma(words, x)
    ensures forall x :: 0 <= x < width / 2 ==> cb[row, x] == Cb(words, x) && cr[row, x] == Cr(words, x)
    ensures forall r, x :: 0 <= r < y.Length0 && 0 <= x < y.Length1 && r != row ==> y[r, x] == old(y[r, x])
    ensures forall r, x :: 0 <= r < cb.Length0 && 0 <= x < cb.Length1 && r != row ==> cb[r, x] == old(cb[r, x])
    ensures forall r, x :: 0 <= r < cr.Length0 && 0 <= x < cr.Length1 && r != row ==> cr[r, x] == old(cr[r, x])
  {
    hide Luma, Cb, Cr, UnpackGroup;
    var g := 0;
    while g * 6 < width
      invariant 0 <= g <= Groups(width)
      invariant forall x :: 0 <= x < width && x < 6 * g ==> y[row, x] == Luma(words, x)
      invariant forall x :: 0 <= x < width / 2 && x < 3 * g ==> cb[row, x] == Cb(words, x) && cr[row, x] == Cr(words, x)
      invariant forall r, x :: 0 <= r < y.Length0 && 0 <= x < y.Length1 && r != row ==> y[r, x] == old(y[r, x])
      invariant forall r, x :: 0 <= r < cb.Length0 && 0 <= x < cb.Length1 && r != row ==> cb[r, x] == old(cb[r, x])
      invariant forall r, x :: 0 <= r < cr.Length0 && 0 <= x < cr.Length1 && r != row ==> cr[r, x] == old(cr[r, x])
    {
      var u := UnpackGroup(words[g * 4..g * 4 + 4]);
      PutLuma(words, g, width, u.y, y, row);
      PutChroma(words, g, width, u, cb, cr, row);
      g := g + 1;
    }
  }

  method PutLuma(words: seq<bv32>, g: nat, width: nat, samples: seq<bv16>, y: array2<bv16>, row: nat)
    requires |words| >= 4 * g + 4 && row < y.Length0 && y.Length1 >= width && |samples| == 6 && samples == UnpackGroup(words[g * 4..g * 4 + 4]).y
    modifies y
    ensures forall x :: 6 * g <= x < width && x < 6 * g + 6 ==> x / 6 * 4 + 4 <= |words| && y[row, x] == Luma(words, x)
    ensures forall r, x :: 0 <= r < y.Length0 && 0 <= x < y.Length1 && (r != row || x < 6 * g || x >= 6 * g + 6) ==> y[r, x] == old(y[r, x])
  {
    hide Luma, UnpackGroup;
    var i := 0;
    while i < 6 && g * 6 + i < width
      invariant 0 <= i <= 6 && (g * 6 < width ==> g * 6 + i <= width) && (g * 6 >= width ==> i == 0)
      invariant forall x :: 6 * g <= x < 6 * g + i ==> x / 6 * 4 + 4 <= |words| && y[row, x] == Luma(words, x)
      invariant forall r, x :: 0 <= r < y.Length0 && 0 <= x < y.Length1 && (r != row || x < 6 * g || x >= 6 * g + i) ==> y[r, x] == old(y[r, x])
    {
      AccessorsAgree(words, g, i);
      y[row, g * 6 + i] := samples[i];
      i := i + 1;
    }
  }

  method PutChroma(words: seq<bv32>, g: nat, width: nat, u: Group, cb: array2<bv16>, cr: array2<bv16>, row: nat)
    requires |words| >= 4 * g + 4 && row < cb.Length0 && row < cr.Length0 && cb.Length1 >= width / 2 && cr.Length1 >= width / 2 && cb != cr
    requires u == UnpackGroup(words[g * 4..g * 4 + 4])
    modifies cb, cr
    ensures forall x :: 3 * g <= x < width / 2 && x < 3 * g + 3 ==> x / 3 * 4 + 4 <= |words| && cb[row, x] == Cb(words, x) && cr[row, x] == Cr(words, x)
    ensures forall r, x :: 0 <= r < cb.Length0 && 0 <= x < cb.Length1 && (r != row || x < 3 * g || x >= 3 * g + 3) ==> cb[r, x] == old(cb[r, x])
    ensures forall r, x :: 0 <= r < cr.Length0 && 0 <= x < cr.Length1 && (r != row || x < 3 * g || x >= 3 * g + 3) ==> cr[r, x] == old(cr[r, x])
  {
    hide Cb, Cr, UnpackGroup;
    var i := 0;
    while i < 3 && g * 3 + i < width / 2
      invariant 0 <= i <= 3
      invariant i > 0 ==> 3 * g + i <= width / 2
      invariant forall x :: 3 * g <= x < 3 * g + i ==> x / 3 * 4 + 4 <= |words| && cb[row, x] == Cb(words, x) && cr[row, x] == Cr(words, x)
      invariant forall r, x :: 0 <= r < cb.Length0 && 0 <= x < cb.Length1 && (r != row || x < 3 * g || x >= 3 * g + i) ==> cb[r, x] == old(cb[r, x])
      invariant forall r, x :: 0 <= r < cr.Length0 && 0 <= x < cr.Length1 && (r != row || x < 3 * g || x >= 3 * g + i) ==> cr[r, x] == old(cr[r, x])
    {
      AccessorsAgree(words, g, i);
      cb[row, g * 3 + i] := u.cb[i];
      cr[row, g * 3 + i] := u.cr[i];
      i := i + 1;
    }
  }
}
