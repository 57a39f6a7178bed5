/** What an ME's keys show in one grain, and why a source that is not reported cannot be seen
    (engine/src/core/visibility.cpp; the layers are drawn as engine/src/engine/engine.cpp:1943-2044 does). */
module Visibility {
  import opened RealMath
  import opened Keyframes
  import opened MixerTypes

  datatype Rect = Rect(l: real, r: real, t: real, b: real)

  function PictureRect(d: BoxState): Rect {
    var half := d.size / 2.0;
    Rect(d.x - half + d.cropLeft * d.size, d.x + half - d.cropRight * d.size,
         d.y - half + d.cropTop * d.size, d.y + half - d.cropBottom * d.size)
  }

  const MIN_SHOWN := 0.0001

  predicate BoxShows(d: BoxState) {
    d.size > 0.0 &&
    var p := PictureRect(d);
    MinR(p.r, 1.0) - MaxR(p.l, 0.0) > MIN_SHOWN && MinR(p.b, 1.0) - MaxR(p.t, 0.0) > MIN_SHOWN
  }

  predicate BoxCovers(d: BoxState) {
    var p := PictureRect(d);
    d.soft <= 0.0 && p.l <= 0.0 && p.r >= 1.0 && p.t <= 0.0 && p.b >= 1.0
  }

  /** A box that covers the raster shows on it, and covers every point of it. */
  lemma CoveringBoxShows(d: BoxState, x: real, y: real)
    requires BoxCovers(d) && d.size >= 0.0 && 0.0 <= d.cropLeft && 0.0 <= d.cropRight && 0.0 <= x <= 1.0 && 0.0 <= y <= 1.0
    ensures BoxShows(d)
    ensures var p := PictureRect(d); p.l <= x <= p.r && p.t <= y <= p.b
  {
    var p := PictureRect(d);
    ProductRises(d.cropLeft, d.size, d.cropLeft, d.size);
    ProductRises(d.cropRight, d.size, d.cropRight, d.size);
    assert p.r - p.l == d.size - d.cropLeft * d.size - d.cropRight * d.size;
  }

  // ---- the keyers of one ME --------------------------------------------------------------------

  function Only(me: int, upstream: bool, keys: seq<KeyPlan>): seq<KeyPlan> {
    if |keys| == 0 then []
    else (if keys[0].me == me && keys[0].upstream == upstream then [keys[0]] else []) + Only(me, upstream, keys[1..])
  }

  /** ME me's layers bottom to top: its upstream keyers, then its DSKs. */
  function Layers(me: int, keys: seq<KeyPlan>): seq<KeyPlan> {
    Only(me, true, keys) + Only(me, false, keys)
  }

  predicate Boxed(key: KeyPlan) {
    key.upstream && (key.settings.pip || key.settings.dme.enabled)
  }

  predicate Shows(key: KeyPlan) {
    key.gain > 0.0 && key.settings.gain > 0.0 && (Boxed(key) ==> BoxShows(key.settings.dme.state))
  }

  predicate Covers(key: KeyPlan) {
    Shows(key) && key.settings.pip && Boxed(key) && key.gain >= 1.0 && key.settings.gain >= 1.0 && BoxCovers(key.settings.dme.state)
  }

  /** The layer shows a source of the mixer (a linear key's fill is none). */
  predicate Carries(key: KeyPlan, source: Source) {
    Shows(key) && (key.settings.pip || key.settings.luma) && key.settings.source == source
  }

  /** No covering pip lies over layer k. */
  predicate Seen(layers: seq<KeyPlan>, k: int)
    requires -1 <= k < |layers|
  {
    forall j :: k < j < |layers| ==> !Covers(layers[j])
  }

  ghost predicate Visible(layers: seq<KeyPlan>, source: Source) {
    source != Black && exists k :: 0 <= k < |layers| && Carries(layers[k], source) && Seen(layers, k)
  }

  datatype KeyVisibility = KeyVisibility(keyed: seq<Source>, backgroundCovered: bool)

  /** From layer k - 1 down, with the sources found above it, topmost last. */
  function Look(layers: seq<KeyPlan>, k: nat, found: seq<Source>): KeyVisibility
    requires k <= |layers|
  {
    if k == 0 then KeyVisibility(found, false)
    else
      var key := layers[k - 1];
      if !Shows(key) then Look(layers, k - 1, found)
      else
        var s := key.settings;
        var more := if (s.pip || s.luma) && s.source != Black && s.source !in found then [s.source] + found else found;
        if Covers(key) then KeyVisibility(more, true) else Look(layers, k - 1, more)
  }

  function VisibilityOf(me: int, keys: seq<KeyPlan>): KeyVisibility {
    Look(Layers(me, keys), |Layers(me, keys)|, [])
  }

  function MarkMe(p: MePlan, keys: seq<KeyPlan>): MePlan {
    var v := VisibilityOf(p.me, keys);
    p.(keyed := v.keyed, backgroundCovered := v.backgroundCovered)
  }

  function MarkVisibility(plan: FramePlan): (r: FramePlan)
    ensures r.keys == plan.keys && |r.mes| == |plan.mes|
    ensures forall j :: 0 <= j < |r.mes| ==> r.mes[j] == MarkMe(plan.mes[j], plan.keys)
  {
    plan.(mes := seq(|plan.mes|, j requires 0 <= j < |plan.mes| => MarkMe(plan.mes[j], plan.keys)))
  }

  // ---- as the code does it -----------------------------------------------------------------------

  lemma OnlyStep(me: int, upstream: bool, keys: seq<KeyPlan>, i: nat)
    requires i < |keys|
    ensures Only(me, upstream, keys[..i + 1])
         == Only(me, upstream, keys[..i]) + (if keys[i].me == me && keys[i].upstream == upstream then [keys[i]] else [])
  {
    if i == 0 {
      assert keys[..1][1..] == [];
    } else {
      OnlyStep(me, upstream, keys[1..], i - 1);
      assert keys[1..][..i - 1] == keys[..i][1..] && keys[1..][..i] == keys[..i + 1][1..];
    }
  }

  method KeyVisibilityOf(me: int, keys: seq<KeyPlan>) returns (out: KeyVisibility)
    ensures out == VisibilityOf(me, keys)
  {
    var up, down: seq<KeyPlan> := [], [];
    for i := 0 to |keys|
      invariant up == Only(me, true, keys[..i]) && down == Only(me, false, keys[..i])
    {
      OnlyStep(me, true, keys, i);
      OnlyStep(me, false, keys, i);
      if keys[i].me == me {
        if keys[i].upstream { up := up + [keys[i]]; } else { down := down + [keys[i]]; }
      }
    }
    assert keys[..|keys|] == keys;
    var layers := up + down;
    var found: seq<Source> := [];
    var covered := false;
    var k := |layers|;
    while k > 0 && !covered
      invariant 0 <= k <= |layers|
      invariant VisibilityOf(me, keys) == if covered then KeyVisibility(found, true) else Look(layers, k, found)
      decreases k
    {
      k := k - 1;
      var key := layers[k];
      var s := key.settings;
      if key.gain <= 0.0 || s.gain <= 0.0 {
        continue;
      }
      var boxed := key.upstream && (s.pip || s.dme.enabled);
      if boxed && !BoxShows(s.dme.state) {
        continue;
      }
      if (s.pip || s.luma) && s.source != Black && s.source !in found {
        found := [s.source] + found;
      }
      covered := s.pip && boxed && key.gain >= 1.0 && s.gain >= 1.0 && BoxCovers(s.dme.state);
    }
    out := KeyVisibility(found, covered);
  }

  // ---- what it reports ---------------------------------------------------------------------------

  ghost predicate VisibleFrom(layers: seq<KeyPlan>, k: nat, source: Source)
    requires k <= |layers|
  {
    source != Black && exists i :: k <= i < |layers| && Carries(layers[i], source) && Seen(layers, i)
  }

  predicate Distinct(s: seq<Source>) {
    forall i, j :: 0 <= i < j < |s| ==> s[i] != s[j]
  }

  lemma {:induction false} LookReports(layers: seq<KeyPlan>, k: nat, found: seq<Source>)
    requires k <= |layers| && Distinct(found)
    requires k < |layers| ==> Seen(layers, k - 1)
    requires forall source :: source in found <==> VisibleFrom(layers, k, source)
    ensures var v := Look(layers, k, found);
            && Distinct(v.keyed)
            && (forall source :: source in v.keyed <==> Visible(layers, source))
            && (v.backgroundCovered <==> !Seen(layers, -1))
  {
    if k > 0 {
      var key := layers[k - 1];
      var s := key.settings;
      assert Seen(layers, k - 1);
      var more := if Shows(key) && (s.pip || s.luma) && s.source != Black && s.source !in found then [s.source] + found else found;
      forall source ensures source in more <==> VisibleFrom(layers, k - 1, source) {
        if Carries(key, source) && source != Black { assert source in more; }
        if source in more && source !in found { assert Carries(layers[k - 1], source); }
      }
      if Covers(key) {
        forall source ensures VisibleFrom(layers, k - 1, source) <==> Visible(layers, source) {
          forall i | 0 <= i < k - 1 ensures !Seen(layers, i) {
            assert Covers(layers[k - 1]);
          }
        }
      } else {
        LookReports(layers, k - 1, more);
      }
    }
  }

  /** A source is reported, once, exactly when some showing luma key or pip carries it with no covering
      pip above; the background counts as covered exactly when a covering pip shows. */
  lemma ReportsExactlyTheVisible(me: int, keys: seq<KeyPlan>)
    ensures var v := VisibilityOf(me, keys);
            && Distinct(v.keyed)
            && (forall source :: source in v.keyed <==> Visible(Layers(me, keys), source))
            && (v.backgroundCovered <==> !Seen(Layers(me, keys), -1))
  {
    LookReports(Layers(me, keys), |Layers(me, keys)|, []);
  }

  // ---- the picture -------------------------------------------------------------------------------

  /** One sample of a grain: each source's value, each linear key's fill, each layer's alpha, which may depend
      on the value it keys, and the stinger's fill and alpha (0 without one). */
  datatype Pixel = Pixel(image: Source -> real, fill: nat -> real, alpha: (nat, real) -> real, sting: real, stingAlpha: real)

  function LayerValue(key: KeyPlan, k: nat, p: Pixel): real {
    if key.settings.pip || key.settings.luma then p.image(key.settings.source) else p.fill(k)
  }

  /** Hidden layers have alpha 0, covering ones 1, the others whatever their key says. */
  function LayerAlpha(key: KeyPlan, k: nat, p: Pixel): real {
    if !Shows(key) then 0.0 else if Covers(key) then 1.0 else p.alpha(k, LayerValue(key, k, p))
  }

  function Over(under: real, value: real, alpha: real): real {
    under + (value - under) * alpha
  }

  /** The layers from `first` to n - 1 over what is under them. */
  function Compose(layers: seq<KeyPlan>, first: nat, n: nat, under: real, p: Pixel): real
    requires first <= n <= |layers|
  {
    if n == first then under
    else Over(Compose(layers, first, n - 1, under, p), LayerValue(layers[n - 1], n - 1, p), LayerAlpha(layers[n - 1], n - 1, p))
  }

  /** Program: the upstream keys over the background, the stinger over them, the DSKs over that, and Fade to
      Black over everything. */
  function Program(me: int, keys: seq<KeyPlan>, background: real, ftb: real, p: Pixel): real {
    var layers, up := Layers(me, keys), |Only(me, true, keys)|;
    var stung := Over(Compose(layers, 0, up, background, p), p.sting, p.stingAlpha);
    Over(Compose(layers, up, |layers|, stung, p), p.image(Black), ftb)
  }

  /** p and q look the same in every reported source and in Black, and key alike. */
  ghost predicate Agree(v: KeyVisibility, p: Pixel, q: Pixel) {
    p == q.(image := p.image) && p.image(Black) == q.image(Black) && forall source :: source in v.keyed ==> p.image(source) == q.image(source)
  }

  lemma {:induction false} ComposeSame(layers: seq<KeyPlan>, v: KeyVisibility, first: nat, n: nat, b: real, c: real, p: Pixel, q: Pixel)
    requires first <= n <= |layers| && Agree(v, p, q)
    requires forall source :: source in v.keyed <==> Visible(layers, source)
    requires Seen(layers, n - 1)
    requires Seen(layers, first - 1) ==> b == c
    ensures Compose(layers, first, n, b, p) == Compose(layers, first, n, c, q)
    decreases n
  {
    if n > first {
      var key := layers[n - 1];
      if Shows(key) && (key.settings.pip || key.settings.luma) {
        assert Carries(layers[n - 1], key.settings.source);
        assert p.image(key.settings.source) == q.image(key.settings.source);
      }
      if !Covers(key) {
        ComposeSame(layers, v, first, n - 1, b, c, p, q);
      }
    }
  }

  /** Sound: Program depends on no source that is not reported, and not on a covered background, with any
      stinger and any Fade to Black. */
  lemma UnreportedIsUnseen(me: int, keys: seq<KeyPlan>, b: real, c: real, ftb: real, p: Pixel, q: Pixel)
    requires var v := VisibilityOf(me, keys); Agree(v, p, q) && (v.backgroundCovered || b == c)
    ensures Program(me, keys, b, ftb, p) == Program(me, keys, c, ftb, q)
  {
    ReportsExactlyTheVisible(me, keys);
    var layers, up, v := Layers(me, keys), |Only(me, true, keys)|, VisibilityOf(me, keys);
    if Seen(layers, up - 1) { ComposeSame(layers, v, 0, up, b, c, p, q); }
    ComposeSame(layers, v, up, |layers|, Over(Compose(layers, 0, up, b, p), p.sting, p.stingAlpha), Over(Compose(layers, 0, up, c, q), q.sting, q.stingAlpha), p, q);
  }

  lemma {:induction false} ClearAbove(layers: seq<KeyPlan>, k: int, first: nat, n: nat, under: real, p: Pixel)
    requires -1 <= k && k + 1 <= n <= |layers| && first <= n && Seen(layers, k)
    requires forall i: nat, v :: i > k ==> p.alpha(i, v) == 0.0
    ensures Compose(layers, first, n, under, p) == if first <= k + 1 then Compose(layers, first, k + 1, under, p) else under
    decreases n
  {
    if n > k + 1 && n > first {
      ClearAbove(layers, k, first, n - 1, under, p);
      assert !Covers(layers[n - 1]);
    }
  }

  /** The picture is what layer k shows when nothing above it does. */
  lemma LayerIsProgram(me: int, keys: seq<KeyPlan>, k: int, b: real, ftb: real, p: Pixel)
    requires -1 <= k < |Layers(me, keys)| && Seen(Layers(me, keys), k) && p.stingAlpha == 0.0
    requires forall i: nat, v :: i > k ==> p.alpha(i, v) == 0.0
    requires k >= 0 ==> LayerAlpha(Layers(me, keys)[k], k, p) == 1.0
    ensures Program(me, keys, b, ftb, p) == Over(if k < 0 then b else LayerValue(Layers(me, keys)[k], k, p), p.image(Black), ftb)
  {
    var layers, up := Layers(me, keys), |Only(me, true, keys)|;
    if k < up {
      ClearAbove(layers, k, 0, up, b, p);
      ClearAbove(layers, k, up, |layers|, Over(Compose(layers, 0, up, b, p), p.sting, p.stingAlpha), p);
    } else {
      ClearAbove(layers, k, up, |layers|, Over(Compose(layers, 0, up, b, p), p.sting, p.stingAlpha), p);
    }
  }

  /** Nothing too much is reported: every reported source can decide Program, whatever it shows, under any Fade to Black. */
  lemma ReportedMatters(me: int, keys: seq<KeyPlan>, source: Source, b: real, ftb: real, image: Source -> real)
    requires source in VisibilityOf(me, keys).keyed
    ensures exists p: Pixel :: p.image == image && Program(me, keys, b, ftb, p) == Over(image(source), image(Black), ftb)
  {
    ReportsExactlyTheVisible(me, keys);
    var layers := Layers(me, keys);
    var k :| 0 <= k < |layers| && Carries(layers[k], source) && Seen(layers, k);
    var p := Pixel(image, i => 0.0, (i, v) => if i == k then 1.0 else 0.0, 0.0, 0.0);
    LayerIsProgram(me, keys, k, b, ftb, p);
    assert p.image == image && Program(me, keys, b, ftb, p) == Over(image(source), image(Black), ftb);
  }

  /** A background that does not count as covered can be the picture. */
  lemma UncoveredMatters(me: int, keys: seq<KeyPlan>, b: real, ftb: real, image: Source -> real)
    requires !VisibilityOf(me, keys).backgroundCovered
    ensures exists p: Pixel :: p.image == image && Program(me, keys, b, ftb, p) == Over(b, image(Black), ftb)
  {
    ReportsExactlyTheVisible(me, keys);
    var p := Pixel(image, i => 0.0, (i, v) => 0.0, 0.0, 0.0);
    LayerIsProgram(me, keys, -1, b, ftb, p);
    assert p.image == image && Program(me, keys, b, ftb, p) == Over(b, image(Black), ftb);
  }
}
