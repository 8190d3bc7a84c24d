/** restrictToMargins (src/svg.panzoom.js:477-606): the clamp of a viewBox's
    origin into limits derived from a reference viewBox, the configured
    margins and the offsets between the viewBox and the part of the surface
    that actually shows content under the svg's preserveAspectRatio. */
module Margins {
  import opened Geometry
  import opened Wrappers

  /** SVGPreserveAspectRatio.align (section 7.8 of SVG 1.1). */
  datatype Align =
    | AlignUnknown | AlignNone
    | XMinYMin | XMidYMin | XMaxYMin
    | XMinYMid | XMidYMid | XMaxYMid
    | XMinYMax | XMidYMax | XMaxYMax
  {
    predicate XMin() { this == XMinYMin || this == XMinYMid || this == XMinYMax }
    predicate XMid() { this == XMidYMin || this == XMidYMid || this == XMidYMax }
    predicate XMax() { this == XMaxYMin || this == XMaxYMid || this == XMaxYMax }
    predicate YMin() { this == XMinYMin || this == XMidYMin || this == XMaxYMin }
    predicate YMid() { this == XMinYMid || this == XMidYMid || this == XMaxYMid }
    predicate YMax() { this == XMinYMax || this == XMidYMax || this == XMaxYMax }
    /** One of the nine alignments that position the viewBox. */
    predicate Positions() { this != AlignUnknown && this != AlignNone }
  }

  /** SVGPreserveAspectRatio.meetOrSlice; an unknown value behaves as meet. */
  datatype MeetOrSlice = MeetOrSliceUnknown | Meet | Slice

  /** The svg element's `width` and `height` attributes and its
      preserveAspectRatio. */
  datatype Display = Display(width: real, height: real, align: Align, meetOrSlice: MeetOrSlice)

  predicate ValidDisplay(d: Display) {
    d.width > 0.0 && d.height > 0.0
  }

  /** options.margins */
  datatype Margins = Margins(top: real, left: real, bottom: real, right: real)

  /** Distances, in user units, from the sides of the viewBox to the sides of
      the region that is shown. */
  datatype Offsets = Offsets(left: real, right: real, top: real, bottom: real)

  /** The bounds of the clamp: rightLimit <= x <= leftLimit and
      bottomLimit <= y <= topLimit. */
  datatype Limits = Limits(left: real, right: real, top: real, bottom: real)

  const NoOffsets: Offsets := Offsets(0.0, 0.0, 0.0, 0.0)

  /** How the surface's aspect ratio relates to the viewBox's. */
  datatype Fit = Fit(
    /** the viewBox and the svg have the same aspect ratio */
    same: bool,
    /** changedAxis === "width": the svg is relatively wider */
    isWidth: bool,
    /** the shown region differs from the viewBox horizontally */
    horizontal: bool,
    /** shown length / viewBox length along that axis */
    ratio: real)

  function AspectFit(ref: Box, d: Display): (f: Fit)
    requires Positive(ref) && ValidDisplay(d)
    ensures f.ratio > 0.0
  {
    var svgAspectRatio := d.width / d.height;
    var viewboxAspectRatio := ref.width / ref.height;
    var isMeet := d.meetOrSlice != Slice;
    var isWidth := svgAspectRatio > viewboxAspectRatio;
    var horizontal := (isMeet && isWidth) || (!isMeet && !isWidth);
    var ratio := if horizontal then svgAspectRatio / viewboxAspectRatio
                 else viewboxAspectRatio / svgAspectRatio;
    Fit(viewboxAspectRatio == svgAspectRatio, isWidth, horizontal, ratio)
  }

  /** Where the offset of the given length goes for each alignment. */
  function SideOffsets(align: Align, horizontal: bool, offset: real): Offsets {
    if horizontal then
      if align.XMid() then Offsets(offset / 2.0, -offset / 2.0, 0.0, 0.0)
      else if align.XMin() then Offsets(0.0, -offset, 0.0, 0.0)
      else if align.XMax() then Offsets(offset, 0.0, 0.0, 0.0)
      else NoOffsets
    else
      if align.YMid() then Offsets(0.0, 0.0, offset / 2.0, -offset / 2.0)
      else if align.YMin() then Offsets(0.0, 0.0, 0.0, -offset)
      else if align.YMax() then Offsets(0.0, 0.0, offset, 0.0)
      else NoOffsets
  }

  /** The viewport offsets as the source computes them: the offset's length
      is taken from `box[changedAxis]`, the width when the svg is relatively
      wider and the height otherwise. */
  function ViewportOffsetsAsWritten(box: Box, ref: Box, d: Display): (r: Offsets)
    requires Positive(ref) && ValidDisplay(d)
    ensures d.align == AlignNone || d.align == AlignUnknown ==> r == NoOffsets
    ensures AspectFit(ref, d).same ==> r == NoOffsets
  {
    if d.align == AlignNone then NoOffsets
    else
      var fit := AspectFit(ref, d);
      if fit.same then NoOffsets
      else
        var side := if fit.isWidth then box.width else box.height;
        SideOffsets(d.align, fit.horizontal, side - side * fit.ratio)
  }

  /** The viewport offsets with the offset's length taken from the axis
      along which the shown region differs from the viewBox. */
  function ViewportOffsets(box: Box, ref: Box, d: Display): (r: Offsets)
    requires Positive(ref) && ValidDisplay(d)
    ensures d.align == AlignNone || d.align == AlignUnknown ==> r == NoOffsets
    ensures d.meetOrSlice != Slice ==> r == ViewportOffsetsAsWritten(box, ref, d)
  {
    SizeOffsets(box.width, box.height, ref, d)
  }

  /** ViewportOffsets for a viewBox of the given size: only the size
      matters, not the origin. */
  function SizeOffsets(width: real, height: real, ref: Box, d: Display): (r: Offsets)
    requires Positive(ref) && ValidDisplay(d)
  {
    if d.align == AlignNone then NoOffsets
    else
      var fit := AspectFit(ref, d);
      if fit.same then NoOffsets
      else
        var side := if fit.horizontal then width else height;
        SideOffsets(d.align, fit.horizontal, side - side * fit.ratio)
  }

  /** The region of user space that section 7.8 of SVG 1.1 shows when the
      viewBox vb is drawn in a d.width x d.height viewport: the viewBox is
      scaled uniformly (to fit for meet, to cover for slice) and aligned. */
  function VisibleRegion(vb: Box, d: Display): (r: Box)
    requires Positive(vb) && ValidDisplay(d) && d.align.Positions()
    ensures Positive(r)
  {
    var sx := d.width / vb.width;
    var sy := d.height / vb.height;
    var scale := if d.meetOrSlice == Slice then Max(sx, sy) else Min(sx, sy);
    assert scale > 0.0;
    var w := d.width / scale;
    var h := d.height / scale;
    var x := if d.align.XMin() then vb.x
             else if d.align.XMid() then vb.x + (vb.width - w) / 2.0
             else vb.x + vb.width - w;
    var y := if d.align.YMin() then vb.y
             else if d.align.YMid() then vb.y + (vb.height - h) / 2.0
             else vb.y + vb.height - h;
    Box(x, y, w, h)
  }

  /** Lines 590-601: the limits for a box of the given size, given the
      viewport offsets. */
  function OffsetLimits(box: Box, ref: Box, m: Margins, off: Offsets): Limits {
    Limits(ref.width + ref.x - m.left - off.left,
           ref.x + m.right - box.width - off.right,
           ref.height + ref.y - m.top - off.top,
           ref.y + m.bottom - box.height - off.bottom)
  }

  /** The limits with the offsets of ViewportOffsets. */
  function MarginLimits(box: Box, ref: Box, m: Margins, d: Display): Limits
    requires Positive(ref) && ValidDisplay(d)
  {
    OffsetLimits(box, ref, m, ViewportOffsets(box, ref, d))
  }

  /** The limits with the offsets as the source computes them. */
  function MarginLimitsAsWritten(box: Box, ref: Box, m: Margins, d: Display): Limits
    requires Positive(ref) && ValidDisplay(d)
  {
    OffsetLimits(box, ref, m, ViewportOffsetsAsWritten(box, ref, d))
  }

  /** `Math.min(hi, Math.max(lo, v))` */
  function Clamp(v: real, lo: real, hi: real): (r: real)
    ensures lo <= hi ==> lo <= r <= hi
    ensures lo > hi ==> r == hi
    ensures lo <= v <= hi ==> r == v
  {
    Min(hi, Max(lo, v))
  }

  /** The box that restrictToMargins returns: unchanged without margins,
      otherwise with its origin clamped into the limits. */
  function Restrict(box: Box, ref: Box, margins: Option<Margins>, d: Display): (r: Box)
    requires Positive(ref) && ValidDisplay(d)
    ensures margins.None? ==> r == box
    ensures r.width == box.width && r.height == box.height
    ensures margins.Some? ==>
      var lim := MarginLimits(box, ref, margins.value, d);
      (lim.right <= lim.left ==> lim.right <= r.x <= lim.left) &&
      (lim.bottom <= lim.top ==> lim.bottom <= r.y <= lim.top)
  {
    match margins
    case None => box
    case Some(m) => ClampOrigin(box, MarginLimits(box, ref, m, d))
  }

  /** Lines 603-604: the origin clamped into the limits. */
  function ClampOrigin(box: Box, lim: Limits): Box {
    box.(x := Clamp(box.x, lim.right, lim.left), y := Clamp(box.y, lim.bottom, lim.top))
  }

  /** restrictToMargins exactly as the source computes it, with the offsets
      of ViewportOffsetsAsWritten. It agrees with Restrict except in slice
      mode. */
  function RestrictAsWritten(box: Box, ref: Box, margins: Option<Margins>, d: Display): (r: Box)
    requires Positive(ref) && ValidDisplay(d)
    ensures margins.None? ==> r == box
    ensures r.width == box.width && r.height == box.height
    ensures margins.Some? ==>
      var lim := MarginLimitsAsWritten(box, ref, margins.value, d);
      (lim.right <= lim.left ==> lim.right <= r.x <= lim.left) &&
      (lim.bottom <= lim.top ==> lim.bottom <= r.y <= lim.top)
    ensures d.meetOrSlice != Slice ==> r == Restrict(box, ref, margins, d)
  {
    match margins
    case None => box
    case Some(m) => ClampOrigin(box, MarginLimitsAsWritten(box, ref, m, d))
  }

  /** In slice mode the two differ: a 100 x 100 svg showing a 200 x 100
      viewBox with xMidYMid slice, no margins, and a box at x = 160. The
      source's left limit is 175, so the box stays at 160, although the
      shown region's left side (x = 50 inside the box) then lies at 210,
      10 units past the right edge of the content; the corrected limit is
      150. */
  lemma SliceRestrictDiffers()
    ensures RestrictAsWritten(SliceBox, SliceRef, Some(NoMargins), SliceDisplay).x == 160.0
    ensures Restrict(SliceBox, SliceRef, Some(NoMargins), SliceDisplay).x == 150.0
    ensures VisibleRegion(SliceBox, SliceDisplay).x == 210.0
  {
    SliceAsWrittenKeeps();
    SliceCorrectedClamps();
    SliceRegion();
  }

  lemma SliceAsWrittenKeeps()
    ensures RestrictAsWritten(SliceBox, SliceRef, Some(NoMargins), SliceDisplay).x == 160.0
  {
    var d, ref, box, m := SliceDisplay, SliceRef, SliceBox, NoMargins;
    SliceFit();
    assert ViewportOffsetsAsWritten(box, ref, d) == Offsets(25.0, -25.0, 0.0, 0.0);
    var lim := MarginLimitsAsWritten(box, ref, m, d);
    assert lim == Limits(175.0, -175.0, 100.0, -100.0);
    assert RestrictAsWritten(box, ref, Some(m), d) == ClampOrigin(box, lim);
  }

  lemma SliceCorrectedClamps()
    ensures Restrict(SliceBox, SliceRef, Some(NoMargins), SliceDisplay).x == 150.0
  {
    var d, ref, box, m := SliceDisplay, SliceRef, SliceBox, NoMargins;
    SliceFit();
    assert SideOffsets(d.align, true, 200.0 - 200.0 * 0.5) == Offsets(50.0, -50.0, 0.0, 0.0);
    assert SizeOffsets(200.0, 100.0, ref, d) == Offsets(50.0, -50.0, 0.0, 0.0);
    assert MarginLimits(box, ref, m, d) == Limits(150.0, -150.0, 100.0, -100.0);
  }

  lemma SliceFit()
    ensures AspectFit(SliceRef, SliceDisplay) == Fit(false, false, true, 0.5)
  {
  }

  lemma SliceRegion()
    ensures VisibleRegion(SliceBox, SliceDisplay) == Box(210.0, 0.0, 100.0, 100.0)
  {
    var d, box := SliceDisplay, SliceBox;
    assert d.width / box.width == 0.5 && d.height / box.height == 1.0;
    assert d.width / 1.0 == 100.0;
  }

  const SliceDisplay := Display(100.0, 100.0, XMidYMid, Slice)
  const SliceRef := Box(0.0, 0.0, 200.0, 100.0)
  const SliceBox := Box(160.0, 0.0, 200.0, 100.0)
  const NoMargins := Margins(0.0, 0.0, 0.0, 0.0)

  /** The limits depend on the box only through its size. */
  lemma LimitsIgnoreOrigin(b1: Box, b2: Box, ref: Box, m: Margins, d: Display)
    requires Positive(ref) && ValidDisplay(d)
    requires b1.width == b2.width && b1.height == b2.height
    ensures MarginLimits(b1, ref, m, d) == MarginLimits(b2, ref, m, d)
  {
    assert ViewportOffsets(b1, ref, d) == SizeOffsets(b2.width, b2.height, ref, d);
  }

  /** Clamping twice is clamping once. */
  lemma RestrictIdempotent(box: Box, ref: Box, margins: Option<Margins>, d: Display)
    requires Positive(ref) && ValidDisplay(d)
    ensures Restrict(Restrict(box, ref, margins, d), ref, margins, d) == Restrict(box, ref, margins, d)
  {
    if margins.Some? {
      var once := Restrict(box, ref, margins, d);
      LimitsIgnoreOrigin(box, once, ref, margins.value, d);
    }
  }

  /** A box already inside the limits is left where it is; when the limits
      cross (the margins leave no room), the origin collapses onto the left
      and top limits. */
  lemma RestrictInsideAndCollapsed(box: Box, ref: Box, m: Margins, d: Display)
    requires Positive(ref) && ValidDisplay(d)
    ensures var lim := MarginLimits(box, ref, m, d);
            var r := Restrict(box, ref, Some(m), d);
            (lim.right <= box.x <= lim.left ==> r.x == box.x) &&
            (lim.bottom <= box.y <= lim.top ==> r.y == box.y) &&
            (lim.right > lim.left ==> r.x == lim.left) &&
            (lim.bottom > lim.top ==> r.y == lim.top)
  {
  }

  /** The clamped origin is the point of the allowed interval nearest to the
      original one, on each axis. */
  lemma RestrictIsNearest(box: Box, ref: Box, m: Margins, d: Display, zx: real, zy: real)
    requires Positive(ref) && ValidDisplay(d)
    requires var lim := MarginLimits(box, ref, m, d);
             lim.right <= zx <= lim.left && lim.bottom <= zy <= lim.top
    ensures var r := Restrict(box, ref, Some(m), d);
            Dist(r.x, box.x) <= Dist(zx, box.x) && Dist(r.y, box.y) <= Dist(zy, box.y)
  {
  }

  function Dist(a: real, b: real): real { if a <= b then b - a else a - b }

  /** p / q > r / t exactly when p * t > r * q, for positive q and t. */
  lemma QuotientOrder(p: real, q: real, r: real, t: real)
    requires q > 0.0 && t > 0.0
    ensures p / q > r / t <==> p * t > r * q
    ensures p / q == r / t <==> p * t == r * q
  {
    var k := q * t;
    assert k > 0.0;
    assert (p / q) * k == p * t;
    assert (r / t) * k == r * q;
  }

  /** Comparing the aspect ratios W / H and w / h is comparing the scale
      factors W / w and H / h. */
  lemma AspectVersusScale(W: real, H: real, w: real, h: real)
    requires W > 0.0 && H > 0.0 && w > 0.0 && h > 0.0
    ensures W / H > w / h <==> W / w > H / h
    ensures W / H == w / h <==> W / w == H / h
  {
    QuotientOrder(W, H, w, h);
    QuotientOrder(W, w, H, h);
  }

  /** L / (L / l) == l */
  lemma ScaleBack(L: real, l: real)
    requires L > 0.0 && l > 0.0
    ensures L / (L / l) == l
  {
    var q := L / l;
    assert q * l == L;
    assert q > 0.0;
  }

  /** A length W shown at scale H / h covers w times the aspect-ratio
      quotient (W / H) / (w / h). */
  lemma CrossScale(W: real, H: real, w: real, h: real)
    requires W > 0.0 && H > 0.0 && w > 0.0 && h > 0.0
    ensures W / (H / h) == w * ((W / H) / (w / h))
  {
    var a := W / H;
    var c := w / h;
    assert a * H == W;
    assert c * h == w;
    assert c > 0.0;
    var q := H / h;
    assert q * h == H;
    assert q > 0.0;
    assert (a * h) * q == a * H;
    assert W / q == a * h;
    assert w * (a / c) == (c * h) * (a / c);
    assert (c * h) * (a / c) == a * h by {
      assert c * (a / c) == a;
    }
  }

  /** A length H shown at scale W / w covers h times the aspect-ratio
      quotient (w / h) / (W / H). */
  lemma CrossScaleTaller(W: real, H: real, w: real, h: real)
    requires W > 0.0 && H > 0.0 && w > 0.0 && h > 0.0
    ensures H / (W / w) == h * ((w / h) / (W / H))
  {
    var a := W / H;
    var c := w / h;
    var q := W / w;
    assert a * H == W && a > 0.0;
    assert c * h == w;
    assert q * w == W && q > 0.0;
    var t := h * (c / a);
    assert t * a == w by {
      assert (c / a) * a == c;
    }
    assert (t * q) * a == H * a by {
      assert (t * a) * q == w * q;
    }
    assert t * q == H;
  }

  /** The size of the region that is shown: the viewBox's size, except
      along the axis where the aspect ratios force a crop or a margin. */
  lemma {:induction false} VisibleSize(b: Box, d: Display)
    requires Positive(b) && ValidDisplay(d) && d.align.Positions()
    ensures var fit := AspectFit(b, d);
            var v := VisibleRegion(b, d);
            if fit.same then v.width == b.width && v.height == b.height
            else if fit.horizontal then v.width == b.width * fit.ratio && v.height == b.height
            else v.width == b.width && v.height == b.height * fit.ratio
  {
    var fit := AspectFit(b, d);
    if fit.same {
      VisibleSizeSame(b, d);
    } else if fit.horizontal {
      VisibleSizeWider(b, d);
    } else {
      VisibleSizeTaller(b, d);
    }
  }

  lemma VisibleSizeSame(b: Box, d: Display)
    requires Positive(b) && ValidDisplay(d) && d.align.Positions() && AspectFit(b, d).same
    ensures VisibleRegion(b, d).width == b.width && VisibleRegion(b, d).height == b.height
  {
    var W, H, w, h := d.width, d.height, b.width, b.height;
    AspectVersusScale(W, H, w, h);
    ScaleBack(W, w);
    ScaleBack(H, h);
    assert W / w == H / h;
  }

  lemma VisibleSizeWider(b: Box, d: Display)
    requires Positive(b) && ValidDisplay(d) && d.align.Positions()
    requires !AspectFit(b, d).same && AspectFit(b, d).horizontal
    ensures VisibleRegion(b, d).width == b.width * AspectFit(b, d).ratio
    ensures VisibleRegion(b, d).height == b.height
  {
    var W, H, w, h := d.width, d.height, b.width, b.height;
    AspectVersusScale(W, H, w, h);
    ScaleBack(H, h);
    CrossScale(W, H, w, h);
    var sx := W / w;
    var sy := H / h;
    var scale := if d.meetOrSlice == Slice then Max(sx, sy) else Min(sx, sy);
    assert scale == sy;
  }

  lemma VisibleSizeTaller(b: Box, d: Display)
    requires Positive(b) && ValidDisplay(d) && d.align.Positions()
    requires !AspectFit(b, d).same && !AspectFit(b, d).horizontal
    ensures VisibleRegion(b, d).width == b.width
    ensures VisibleRegion(b, d).height == b.height * AspectFit(b, d).ratio
  {
    var W, H, w, h := d.width, d.height, b.width, b.height;
    AspectVersusScale(W, H, w, h);
    ScaleBack(W, w);
    CrossScaleTaller(W, H, w, h);
    var sx := W / w;
    var sy := H / h;
    var scale := if d.meetOrSlice == Slice then Max(sx, sy) else Min(sx, sy);
    assert scale == sx;
  }

  /** Along the axis where the shown region differs from the viewBox, the
      offset of length (viewBox length - shown length) lands the sides of
      the viewBox on the sides of the shown region. */
  lemma HorizontalSides(align: Align, bx: real, bw: real, vx: real, vw: real)
    requires align.Positions()
    requires vx == (if align.XMin() then bx else if align.XMid() then bx + (bw - vw) / 2.0 else bx + bw - vw)
    ensures var o := SideOffsets(align, true, bw - vw);
            bx + o.left == vx && bx + bw + o.right == vx + vw && o.top == 0.0 && o.bottom == 0.0
  {
  }

  lemma VerticalSides(align: Align, top: real, bh: real, vy: real, vh: real)
    requires align.Positions()
    requires vy == (if align.YMin() then top else if align.YMid() then top + (bh - vh) / 2.0 else top + bh - vh)
    ensures var o := SideOffsets(align, false, bh - vh);
            top + o.top == vy && top + bh + o.bottom == vy + vh && o.left == 0.0 && o.right == 0.0
  {
  }

  /** The viewBox's sides sit on the shown region's sides (the conclusion of
      OffsetsMatchVisibleRegion). */
  ghost predicate SidesMatch(b: Box, d: Display)
    requires Positive(b) && ValidDisplay(d) && d.align.Positions()
  {
    var o := ViewportOffsets(b, b, d);
    var v := VisibleRegion(b, d);
    b.x + o.left == v.x && b.x + b.width + o.right == v.x + v.width &&
    b.y + o.top == v.y && b.y + b.height + o.bottom == v.y + v.height
  }

  /** The offsets of ViewportOffsets put the sides of the viewBox exactly on
      the sides of the region that section 7.8 of SVG 1.1 shows. */
  lemma {:induction false} OffsetsMatchVisibleRegion(b: Box, d: Display)
    requires Positive(b) && ValidDisplay(d) && d.align.Positions()
    ensures SidesMatch(b, d)
  {
    VisibleSize(b, d);
    var fit := AspectFit(b, d);
    if fit.same {
      SidesMatchSameAspect(b, d);
    } else if fit.horizontal {
      SidesMatchHorizontal(b, d);
    } else {
      SidesMatchVertical(b, d);
    }
  }

  lemma SidesMatchSameAspect(b: Box, d: Display)
    requires Positive(b) && ValidDisplay(d) && d.align.Positions()
    requires AspectFit(b, d).same
    requires VisibleRegion(b, d).width == b.width && VisibleRegion(b, d).height == b.height
    ensures SidesMatch(b, d)
  {
    assert ViewportOffsets(b, b, d) == NoOffsets;
  }

  lemma SidesMatchHorizontal(b: Box, d: Display)
    requires Positive(b) && ValidDisplay(d) && d.align.Positions()
    requires !AspectFit(b, d).same && AspectFit(b, d).horizontal
    requires VisibleRegion(b, d).width == b.width * AspectFit(b, d).ratio
    requires VisibleRegion(b, d).height == b.height
    ensures SidesMatch(b, d)
  {
    var v := VisibleRegion(b, d);
    assert v.y == b.y;
    assert ViewportOffsets(b, b, d) == SideOffsets(d.align, true, b.width - v.width);
    HorizontalSides(d.align, b.x, b.width, v.x, v.width);
  }

  lemma SidesMatchVertical(b: Box, d: Display)
    requires Positive(b) && ValidDisplay(d) && d.align.Positions()
    requires !AspectFit(b, d).same && !AspectFit(b, d).horizontal
    requires VisibleRegion(b, d).width == b.width
    requires VisibleRegion(b, d).height == b.height * AspectFit(b, d).ratio
    ensures SidesMatch(b, d)
  {
    VerticalKeepsX(b, d);
    VerticalMovesY(b, d);
  }

  lemma VerticalKeepsX(b: Box, d: Display)
    requires Positive(b) && ValidDisplay(d) && d.align.Positions()
    requires !AspectFit(b, d).same && !AspectFit(b, d).horizontal
    requires VisibleRegion(b, d).width == b.width
    ensures var v := VisibleRegion(b, d); var o := ViewportOffsets(b, b, d);
            b.x + o.left == v.x && b.x + b.width + o.right == v.x + v.width
  {
    var v := VisibleRegion(b, d);
    NoHorizontalOffsets(b, b, d);
    VisibleOrigin(b, d);
    UnshiftedAxis(d.align.XMin(), d.align.XMid(), b.x, b.width, v.x, v.width);
  }

  lemma VerticalMovesY(b: Box, d: Display)
    requires Positive(b) && ValidDisplay(d) && d.align.Positions()
    requires !AspectFit(b, d).same && !AspectFit(b, d).horizontal
    requires VisibleRegion(b, d).height == b.height * AspectFit(b, d).ratio
    ensures var v := VisibleRegion(b, d); var o := ViewportOffsets(b, b, d);
            b.y + o.top == v.y && b.y + b.height + o.bottom == v.y + v.height
  {
    var v := VisibleRegion(b, d);
    VerticalOffsets(b, d);
    VisibleOrigin(b, d);
    VerticalSides(d.align, b.y, b.height, v.y, v.height);
  }

  lemma VerticalOffsets(b: Box, d: Display)
    requires Positive(b) && ValidDisplay(d) && d.align.Positions()
    requires !AspectFit(b, d).same && !AspectFit(b, d).horizontal
    requires VisibleRegion(b, d).height == b.height * AspectFit(b, d).ratio
    ensures ViewportOffsets(b, b, d) == SideOffsets(d.align, false, b.height - VisibleRegion(b, d).height)
  {
  }

  /** When the shown region differs from the viewBox only vertically, the
      left and right offsets are zero. */
  lemma NoHorizontalOffsets(box: Box, ref: Box, d: Display)
    requires Positive(ref) && ValidDisplay(d) && !AspectFit(ref, d).horizontal
    ensures ViewportOffsets(box, ref, d).left == 0.0 && ViewportOffsets(box, ref, d).right == 0.0
  {
    var fit := AspectFit(ref, d);
    if d.align != AlignNone && !fit.same {
      var o := SideOffsets(d.align, false, box.height - box.height * fit.ratio);
      assert ViewportOffsets(box, ref, d) == o;
      assert o.left == 0.0 && o.right == 0.0;
    }
  }

  /** An axis on which the shown region is as long as the viewBox starts where the viewBox does. */
  lemma UnshiftedAxis(lo: bool, mid: bool, bx: real, bw: real, vx: real, vw: real)
    requires vw == bw
    requires vx == (if lo then bx else if mid then bx + (bw - vw) / 2.0 else bx + bw - vw)
    ensures vx == bx
  {
  }

  /** Where the shown region starts, in terms of its own size. */
  lemma VisibleOrigin(b: Box, d: Display)
    requires Positive(b) && ValidDisplay(d) && d.align.Positions()
    ensures var v := VisibleRegion(b, d);
            v.x == (if d.align.XMin() then b.x else if d.align.XMid() then b.x + (b.width - v.width) / 2.0
                    else b.x + b.width - v.width) &&
            v.y == (if d.align.YMin() then b.y else if d.align.YMid() then b.y + (b.height - v.height) / 2.0
                    else b.y + b.height - v.height)
  {
  }

  /** The source's offsets misplace the sides in slice mode: a 200 x 100
      viewBox in a 100 x 100 svg with "xMidYMid slice" shows x from 50 to
      150, but the source puts the viewport's left side at 25. */
  lemma SliceOffsetsAsWrittenMisplaced()
    ensures var b := Box(0.0, 0.0, 200.0, 100.0);
            var d := Display(100.0, 100.0, XMidYMid, Slice);
            VisibleRegion(b, d).x == 50.0 &&
            ViewportOffsets(b, b, d).left == 50.0 &&
            ViewportOffsetsAsWritten(b, b, d).left == 25.0
  {
    var b := Box(0.0, 0.0, 200.0, 100.0);
    var d := Display(100.0, 100.0, XMidYMid, Slice);
    assert AspectFit(b, d) == Fit(false, false, true, 0.5);
  }
}
