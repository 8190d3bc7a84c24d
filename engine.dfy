/** The state of an SvgPanZoom instance (src/svg.panzoom.js) and one step
    function per public method: what each method does to the instance's
    fields and to what the document shows (the svg's viewBox attribute and
    the agent group's transform attribute). */
module Engine {
  import opened Wrappers
  import opened Geometry
  import opened Margins

  /** The options the engine reads (zoomSpeed is folded into the wheel
      curve, see Handlers.WheelZoom; `hasBeforePan` says whether
      options.beforePan is a function). */
  datatype Options = Options(
    performance: bool,
    zoomMin: real,
    zoomMax: real,
    zoomOnCtrl: bool,
    enableWheelZoom: bool,
    enablePinchZoom: bool,
    enablePanning: bool,
    panButton: int,
    oneFingerPan: bool,
    margins: Option<Margins>,
    linePixels: real,
    screenPixels: real,
    agentOnly: bool,
    hasBeforePan: bool)

  /** 2^1074 */
  const TwoPow1074: real := 202402253307310618352495346718917307049556649764142118356901358027430339567995346891960383701437124495187077864316811911389808737385793476867013399940738509921517424276566361364466907742093216341239767678472745068562007483424692698618103355649159556340810056512358769552333414615230502532186327508646006263307707741093494784.0

  /** Number.MIN_VALUE, 2^-1074. */
  const MinValue: real := 1.0 / TwoPow1074

  /** Number.MAX_VALUE, (2 - 2^-52) * 2^1023 = 2^1024 - 2^971. */
  const MaxValue: real := 179769313486231570814527423731704356798070567525844996598917476803157260780028538760589558632766878171540458953514382464234321326889464182768467546703537516986049910576551282076245490090389328944075868508455133942304583236903222948165808559332123348274797826204144723168738177180919299881250404026184124858368.0

  /** defaultOptions (src/svg.panzoom.js:24-39); an option the caller does
      not set is undefined, which reads as false. */
  function DefaultOptions(): (o: Options)
    ensures o.zoomMin == MinValue && o.zoomMax == MaxValue
    ensures 0.0 < o.zoomMin <= 1.0 <= o.zoomMax
    ensures o.performance && o.zoomOnCtrl && o.enableWheelZoom && o.enablePinchZoom && o.enablePanning
    ensures o.panButton == 0 && !o.oneFingerPan && o.margins.None? && !o.agentOnly
    ensures o.linePixels == 17.0 && o.screenPixels == 53.0
  {
    Options(true, MinValue, MaxValue, true, true, true, true, 0, false, None, 17.0, 53.0, false, false)
  }

  /** What the constructor fixes: the options, whether an agent group
      exists, the original viewBox, the agent's original matrix, and the
      svg's size and preserveAspectRatio. */
  datatype Config = Config(
    options: Options, hasAgent: bool, original: Box, originalMatrix: Matrix, display: Display)

  predicate ValidConfig(c: Config) {
    0.0 < c.options.zoomMin <= c.options.zoomMax &&
    Positive(c.original) && ValidDisplay(c.display) && c.originalMatrix.s > 0.0
  }

  /** The callback that update() hands to requestAnimationFrame, with the
      value it captured when it was requested. */
  datatype Commit = WriteViewbox(box: Box) | WriteTransform(matrix: Matrix)

  /** The events the engine dispatches on its event target. */
  datatype Notice =
    | ZoomRequested(level: real, focus: Point)
    | PinchZoomStarted
    | PinchZoomEnded
    | PanStarted
    | Panned(current: Point, last: Point)
    | PanEnded

  /** Which handlers are registered: wheel, touchstart (pinch start), the
      pinch's touchmove/touchend, mousedown (pan start), the pan's
      move/up. */
  datatype Listening = Listening(
    wheel: bool, pinchStart: bool, pinchMove: bool, panStart: bool, panMove: bool)

  /** What zoom and pan change: this.zoomLevel, this.viewbox and
      this.panZoomAgentTransform (None is null). */
  datatype View = View(zoomLevel: real, viewbox: Box, agent: Option<Matrix>)

  /** What the document shows: the svg's viewBox attribute, the agent's
      transform attribute (None once it is removed), and the callback
      waiting for the next animation frame (lasts.frameTimer). */
  datatype Doc = Doc(svgViewbox: Box, agentAttr: Option<Matrix>, frame: Option<Commit>)

  /** The handlers' bookkeeping: isZooming, isPanning,
      isPanStartEventEmited, lasts.point, lasts.touches (null reads as the
      empty list) and the registered listeners. */
  datatype Gesture = Gesture(
    isZooming: bool,
    isPanning: bool,
    panStartEmitted: bool,
    lastPoint: Option<Point>,
    lastTouches: seq<Point>,
    listening: Listening)

  /** An instance, with the events it has dispatched so far. */
  datatype State = State(view: View, doc: Doc, gesture: Gesture, notices: seq<Notice>)

  /** The result of a method that can throw: the state at the point where
      it returned or threw. */
  datatype Outcome = Outcome(state: State, threw: bool)

  predicate ViewValid(c: Config, v: View) {
    v.zoomLevel > 0.0 && Positive(v.viewbox) &&
    (!c.hasAgent ==> v.agent.None?) &&
    (v.agent.Some? ==> v.agent.value.s > 0.0)
  }

  predicate CommitValid(c: Config, k: Commit) {
    (k.WriteViewbox? ==> Positive(k.box)) && (k.WriteTransform? ==> c.hasAgent)
  }

  predicate DocValid(c: Config, d: Doc) {
    Positive(d.svgViewbox) &&
    (!c.hasAgent ==> d.agentAttr.None?) &&
    (d.frame.Some? ==> c.options.performance && CommitValid(c, d.frame.value))
  }

  predicate GestureValid(g: Gesture) {
    (g.listening.panMove ==> g.lastPoint.Some?) &&
    (g.panStartEmitted ==> g.isPanning)
  }

  /** The branch zoom and pan take: the agent's matrix is changed when there
      is an agent and a pan is in progress or agent-only mode is on. */
  predicate AgentChannel(c: Config, s: State) {
    c.hasAgent && (s.gesture.isPanning || c.options.agentOnly)
  }

  /** What the engine keeps true between calls: its divisions are defined,
      no matrix it multiplies by is null, a pending frame is only left in
      performance mode, and isPanStartEventEmited implies isPanning. */
  predicate Valid(c: Config, s: State) {
    ValidConfig(c) && ViewValid(c, s.view) && DocValid(c, s.doc) && GestureValid(s.gesture) &&
    (AgentChannel(c, s) ==> s.view.agent.Some?)
  }

  /** The actOnAgent test of update (lines 421-423). */
  predicate ActOnAgent(c: Config, s: State) {
    (c.options.agentOnly && c.hasAgent) || (c.hasAgent && s.gesture.isPanning && s.view.agent.Some?)
  }

  /** Under the invariant, update commits to the same channel that zoom and
      pan changed. */
  lemma ChannelsCoincide(c: Config, s: State)
    requires Valid(c, s)
    ensures ActOnAgent(c, s) <==> AgentChannel(c, s)
  {
  }

  /** The constructor (lines 113-200) with the agent found or not;
      listeners are registered per the enable options. */
  function Init(c: Config): (s: State)
    requires ValidConfig(c)
    ensures Valid(c, s)
    ensures s.view.zoomLevel == 1.0 && s.view.viewbox == c.original && s.doc.svgViewbox == c.original
    ensures c.hasAgent ==> s.view.agent == Some(c.originalMatrix) && s.doc.agentAttr == s.view.agent
    ensures !s.gesture.isPanning && !s.gesture.isZooming && s.doc.frame.None? && s.notices == []
  {
    var agent := if c.hasAgent then Some(c.originalMatrix) else None;
    State(View(1.0, c.original, agent), Doc(c.original, agent, None),
          Gesture(false, false, false, None, [],
                  Listening(c.options.enableWheelZoom, c.options.enablePinchZoom, false, c.options.enablePanning, false)),
          [])
  }

  /** restrictToMargins (lines 477-606) applied to `box`: the clamped box,
      and this.viewbox, which it replaces by the svg's live viewBox when
      margins are set. */
  datatype Restricted = Restricted(view: View, box: Box)

  function RestrictToMargins(c: Config, s: State, box: Box): (r: Restricted)
    requires Valid(c, s)
    ensures ViewValid(c, r.view)
    ensures r.view.zoomLevel == s.view.zoomLevel && r.view.agent == s.view.agent
    ensures r.box == Restrict(box, s.doc.svgViewbox, c.options.margins, c.display)
    ensures c.options.margins.None? ==> r.view == s.view
    ensures c.options.margins.Some? ==> r.view.viewbox == s.doc.svgViewbox
    ensures Positive(box) ==> Positive(r.box)
  {
    match c.options.margins
    case None => Restricted(s.view, box)
    case Some(_) =>
      Restricted(s.view.(viewbox := s.doc.svgViewbox),
                 Restrict(box, s.doc.svgViewbox, c.options.margins, c.display))
  }

  /** The commit that a non-animated update requests: the agent's current
      matrix, or a margin-clamped copy of the current viewbox. */
  function RequestedCommit(c: Config, s: State): (r: Commit)
    requires Valid(c, s)
    ensures CommitValid(c, r)
    ensures ActOnAgent(c, s) ==> r == WriteTransform(s.view.agent.value)
    ensures !ActOnAgent(c, s) ==>
      r == WriteViewbox(Restrict(s.view.viewbox, s.doc.svgViewbox, c.options.margins, c.display))
  {
    if ActOnAgent(c, s) then WriteTransform(s.view.agent.value)
    else WriteViewbox(RestrictToMargins(c, s, s.view.viewbox).box)
  }

  /** The doUpdate callback (lines 437-441 and 445-448): it clears the
      frame slot and writes the captured value; a transform is written only
      while the agent still has a matrix. */
  function ApplyCommit(c: Config, s: State, k: Commit): (r: State)
    requires Valid(c, s) && CommitValid(c, k)
    ensures Valid(c, r)
    ensures r.view == s.view && r.gesture == s.gesture && r.notices == s.notices
    ensures r.doc.frame.None?
    ensures k.WriteViewbox? ==> r.doc.svgViewbox == k.box && r.doc.agentAttr == s.doc.agentAttr
    ensures k.WriteTransform? ==> r.doc.svgViewbox == s.doc.svgViewbox
    ensures k.WriteTransform? ==>
      r.doc.agentAttr == (if s.view.agent.Some? then Some(k.matrix) else s.doc.agentAttr)
  {
    match k
    case WriteViewbox(b) => s.(doc := s.doc.(frame := None, svgViewbox := b))
    case WriteTransform(m) =>
      s.(doc := s.doc.(frame := None, agentAttr := if s.view.agent.Some? then Some(m) else s.doc.agentAttr))
  }

  /** The animation frame firing: the pending callback runs. */
  function FireFrame(c: Config, s: State): (r: State)
    requires Valid(c, s) && s.doc.frame.Some?
    ensures Valid(c, r) && r.doc.frame.None?
    ensures r.view == s.view && r.gesture == s.gesture && r.notices == s.notices
  {
    ApplyCommit(c, s, s.doc.frame.value)
  }

  /** update (lines 420-460). Animated, it writes the agent's matrix or the
      viewBox at once (the transition itself is not modelled); the viewBox
      it writes is this.viewbox after restrictToMargins, which with margins
      is the live viewBox. Not animated, it builds the commit now and either
      runs it (performance === false) or leaves it as the pending frame,
      cancelling any earlier one. */
  function Update(c: Config, s: State, animate: bool): (r: State)
    requires Valid(c, s)
    ensures Valid(c, r)
    ensures r.gesture == s.gesture && r.notices == s.notices
    ensures r.view.zoomLevel == s.view.zoomLevel && r.view.agent == s.view.agent
  {
    if animate then
      if ActOnAgent(c, s) then s.(doc := s.doc.(agentAttr := s.view.agent))
      else
        var v := RestrictToMargins(c, s, s.view.viewbox).view;
        s.(view := v, doc := s.doc.(svgViewbox := v.viewbox))
    else
      var k := RequestedCommit(c, s);
      var t := if ActOnAgent(c, s) then s else s.(view := RestrictToMargins(c, s, s.view.viewbox).view);
      if c.options.performance then t.(doc := t.doc.(frame := Some(k)))
      else ApplyCommit(c, t, k)
  }

  /** Performance mode leaves exactly one pending commit, holding the value
      captured when update ran; without it nothing is left pending. */
  lemma UpdatePendingCommit(c: Config, s: State)
    requires Valid(c, s)
    ensures c.options.performance ==> Update(c, s, false).doc.frame == Some(RequestedCommit(c, s))
    ensures !c.options.performance ==> Update(c, s, false).doc.frame.None?
  {
  }

  /** Off the agent channel update commits this.viewbox clamped against
      the live viewBox: at once when animated or when performance is off,
      at the next frame otherwise. With margins an animated update writes
      the live viewBox back, so the svg does not change. */
  lemma UpdateOnViewbox(c: Config, s: State, animate: bool)
    requires Valid(c, s) && !ActOnAgent(c, s)
    ensures var r := Update(c, s, animate);
      var clamped := Restrict(s.view.viewbox, s.doc.svgViewbox, c.options.margins, c.display);
      r.doc.agentAttr == s.doc.agentAttr &&
      (c.options.margins.None? ==> r.view.viewbox == s.view.viewbox) &&
      (!animate && c.options.performance ==> r.doc.frame == Some(WriteViewbox(clamped))) &&
      (!animate && !c.options.performance ==> r.doc.svgViewbox == clamped) &&
      (animate && c.options.margins.None? ==> r.doc.svgViewbox == s.view.viewbox) &&
      (animate && c.options.margins.Some? ==> r.doc == s.doc)
  {
  }

  /** On the agent channel update commits the agent's current matrix: at
      once when animated or when performance is off, at the next frame
      otherwise; this.viewbox and the svg's viewBox are left alone. */
  lemma UpdateOnAgent(c: Config, s: State, animate: bool)
    requires Valid(c, s) && ActOnAgent(c, s)
    ensures var r := Update(c, s, animate);
      r.view == s.view && r.doc.svgViewbox == s.doc.svgViewbox &&
      (animate ==> r.doc.agentAttr == s.view.agent && r.doc.frame == s.doc.frame) &&
      (!animate && c.options.performance ==>
         r.doc.frame == Some(WriteTransform(s.view.agent.value)) && r.doc.agentAttr == s.doc.agentAttr) &&
      (!animate && !c.options.performance ==> r.doc.agentAttr == s.view.agent && r.doc.frame.None?)
  {
  }

  /** A new non-animated update cancels the pending frame: the state it
      leaves does not depend on what was pending. */
  lemma UpdateReplacesPending(c: Config, s: State, f: Option<Commit>)
    requires Valid(c, s) && Valid(c, s.(doc := s.doc.(frame := f)))
    ensures Update(c, s.(doc := s.doc.(frame := f)), false) == Update(c, s, false)
  {
    var t := s.(doc := s.doc.(frame := f));
    assert RequestedCommit(c, t) == RequestedCommit(c, s);
    if !ActOnAgent(c, s) {
      assert RestrictToMargins(c, t, t.view.viewbox).view == RestrictToMargins(c, s, s.view.viewbox).view;
    }
  }

  /** Deferring the commit to the next animation frame ends where
      committing at once (performance === false) does. */
  lemma {:induction false} DeferredEqualsImmediate(c: Config, s: State)
    requires Valid(c, s) && c.options.performance && s.doc.frame.None?
    ensures Valid(c.(options := c.options.(performance := false)), s)
    ensures FireFrame(c, Update(c, s, false)) == Update(c.(options := c.options.(performance := false)), s, false)
  {
    var c' := c.(options := c.options.(performance := false));
    assert RequestedCommit(c', s) == RequestedCommit(c, s) by {
      assert ActOnAgent(c', s) == ActOnAgent(c, s);
      assert RestrictToMargins(c', s, s.view.viewbox) == RestrictToMargins(c, s, s.view.viewbox);
    }
    var t := if ActOnAgent(c, s) then s else s.(view := RestrictToMargins(c, s, s.view.viewbox).view);
    assert Update(c, s, false) == t.(doc := t.doc.(frame := Some(RequestedCommit(c, s))));
    assert Update(c', s, false) == ApplyCommit(c', t, RequestedCommit(c, s));
  }

  /** The zoom ratio after the clamp of lines 239-244: the new level lands
      on zoomMax on an overshoot and on zoomMin on an undershoot. */
  function EffectiveRatio(level: real, ratio: real, zoomMin: real, zoomMax: real): (r: real)
    requires level > 0.0 && 0.0 < zoomMin <= zoomMax
    ensures r > 0.0
  {
    var lvl := level * ratio;
    if lvl > zoomMax then zoomMax / level
    else if lvl < zoomMin then zoomMin / level
    else
      PositiveFactor(level, ratio);
      ratio
  }

  lemma PositiveFactor(a: real, b: real)
    requires a > 0.0 && a * b > 0.0
    ensures b > 0.0
  {
  }

  /** `Math.abs(ratio - 1) <= 0.008` */
  predicate Suppressed(ratio: real) {
    -0.008 <= ratio - 1.0 <= 0.008
  }

  /** The ratio zoom applies to the state s, or None when it returns early. */
  function ZoomRatio(c: Config, s: State, ratio: real): (r: Option<real>)
    requires Valid(c, s)
    ensures r.Some? ==> r.value > 0.0
    ensures r.Some? ==> r.value == EffectiveRatio(s.view.zoomLevel, ratio, c.options.zoomMin, c.options.zoomMax)
  {
    if ratio == 0.0 then None
    else
      var k := EffectiveRatio(s.view.zoomLevel, ratio, c.options.zoomMin, c.options.zoomMax);
      if Suppressed(k) then None else Some(k)
  }

  /** zoom (lines 236-272). */
  function Zoom(c: Config, s: State, ratio: real, focus: Option<Point>, animate: bool): (r: State)
    requires Valid(c, s)
    ensures Valid(c, r)
    ensures r.gesture == s.gesture && r.notices == s.notices
  {
    match ZoomRatio(c, s, ratio)
    case None => s
    case Some(k) =>
      var t := s.(view := ZoomView(c, s, k, focus.GetOr(Center(c.original))));
      ChannelsCoincide(c, t);
      Update(c, t, animate)
  }

  /** The part of zoom before update: the agent's matrix is scaled by k
      about the focus, or this.viewbox becomes the svg's live viewBox
      scaled by 1 / k about it; the level is multiplied by k. */
  function ZoomView(c: Config, s: State, k: real, f: Point): (r: View)
    requires Valid(c, s) && k > 0.0
    ensures ViewValid(c, r) && r.zoomLevel == s.view.zoomLevel * k
  {
    if AgentChannel(c, s) then
      var m := ScaleO(s.view.agent.value, k, f);
      assert m.s > 0.0;
      View(s.view.zoomLevel * k, s.view.viewbox, Some(m))
    else
      ScaleAboutBox(s.doc.svgViewbox, 1.0 / k, f);
      View(s.view.zoomLevel * k, TransformBox(s.doc.svgViewbox, ScaleAbout(1.0 / k, f)), s.view.agent)
  }

  /** A falsy ratio, or one that the clamp brings within 0.008 of 1,
      leaves everything as it was. */
  lemma ZoomNoOp(c: Config, s: State, ratio: real, focus: Option<Point>, animate: bool)
    requires Valid(c, s)
    requires ratio == 0.0 || Suppressed(EffectiveRatio(s.view.zoomLevel, ratio, c.options.zoomMin, c.options.zoomMax))
    ensures Zoom(c, s, ratio, focus, animate) == s
  {
  }

  /** Where zoom(ratio) must put the level n: inside [zoomMin, zoomMax], on
      the bound that level * ratio overshoots, else on level * ratio. */
  predicate LevelLanded(target: real, zoomMin: real, zoomMax: real, n: real) {
    zoomMin <= n <= zoomMax &&
    (target > zoomMax ==> n == zoomMax) &&
    (target < zoomMin ==> n == zoomMin) &&
    (zoomMin <= target <= zoomMax ==> n == target)
  }

  /** Zoom is update applied after ZoomView. */
  lemma ZoomIsUpdate(c: Config, s: State, ratio: real, focus: Option<Point>, animate: bool)
    requires Valid(c, s) && ZoomRatio(c, s, ratio).Some?
    ensures var k := ZoomRatio(c, s, ratio).value;
      var t := s.(view := ZoomView(c, s, k, focus.GetOr(Center(c.original))));
      k == EffectiveRatio(s.view.zoomLevel, ratio, c.options.zoomMin, c.options.zoomMax) &&
      Valid(c, t) && (ActOnAgent(c, t) <==> AgentChannel(c, s)) &&
      Zoom(c, s, ratio, focus, animate) == Update(c, t, animate) &&
      Zoom(c, s, ratio, focus, animate).view.zoomLevel == t.view.zoomLevel
  {
    var k := ZoomRatio(c, s, ratio).value;
    var t := s.(view := ZoomView(c, s, k, focus.GetOr(Center(c.original))));
    ChannelsCoincide(c, t);
  }

  /** The clamp of zoom lands the level inside [zoomMin, zoomMax]: on
      zoomMax after an overshoot, on zoomMin after an undershoot, and on
      level * ratio otherwise (zoom multiplies the level by the effective
      ratio, see ZoomRatio, ZoomView and ZoomIsUpdate). */
  lemma ZoomLandsInBounds(level: real, ratio: real, zoomMin: real, zoomMax: real)
    requires level > 0.0 && 0.0 < zoomMin <= zoomMax
    ensures LevelLanded(level * ratio, zoomMin, zoomMax, level * EffectiveRatio(level, ratio, zoomMin, zoomMax))
  {
    var n := level * EffectiveRatio(level, ratio, zoomMin, zoomMax);
    if level * ratio > zoomMax {
      assert n == level * (zoomMax / level);
    } else if level * ratio < zoomMin {
      assert n == level * (zoomMin / level);
    } else {
      assert n == level * ratio;
    }
  }

  /** A zoom that starts with the level inside [zoomMin, zoomMax] leaves
      it there. */
  lemma ZoomKeepsBounds(c: Config, s: State, ratio: real, focus: Option<Point>, animate: bool)
    requires Valid(c, s) && c.options.zoomMin <= s.view.zoomLevel <= c.options.zoomMax
    ensures var r := Zoom(c, s, ratio, focus, animate);
      c.options.zoomMin <= r.view.zoomLevel <= c.options.zoomMax
  {
    match ZoomRatio(c, s, ratio)
    case None =>
      ZoomNoOp(c, s, ratio, focus, animate);
    case Some(k) =>
      ZoomLevel(c, s, ratio, focus, animate, k);
      ZoomRatioInBounds(c, s, ratio, k);
      ZoomViewInBounds(c, s, k, focus.GetOr(Center(c.original)));
  }

  /** The level after zoom is the one the view change computed. */
  lemma ZoomLevel(c: Config, s: State, ratio: real, focus: Option<Point>, animate: bool, k: real)
    requires Valid(c, s) && ZoomRatio(c, s, ratio) == Some(k)
    ensures Zoom(c, s, ratio, focus, animate).view.zoomLevel
         == ZoomView(c, s, k, focus.GetOr(Center(c.original))).zoomLevel
  {
    ZoomIsUpdate(c, s, ratio, focus, animate);
  }

  /** ZoomView puts the level at level * k. */
  lemma ZoomViewInBounds(c: Config, s: State, k: real, f: Point)
    requires Valid(c, s) && k > 0.0
    requires c.options.zoomMin <= s.view.zoomLevel * k <= c.options.zoomMax
    ensures c.options.zoomMin <= ZoomView(c, s, k, f).zoomLevel <= c.options.zoomMax
  {
  }

  /** The ratio that zoom goes on with lands the level inside
      [zoomMin, zoomMax]. */
  lemma ZoomRatioInBounds(c: Config, s: State, ratio: real, k: real)
    requires Valid(c, s) && ZoomRatio(c, s, ratio) == Some(k)
    ensures c.options.zoomMin <= s.view.zoomLevel * k <= c.options.zoomMax
  {
    var lo, hi, level := c.options.zoomMin, c.options.zoomMax, s.view.zoomLevel;
    assert k == EffectiveRatio(level, ratio, lo, hi);
    EffectiveLevelInBounds(level, ratio, lo, hi, k);
  }

  /** ZoomLandsInBounds for a ratio already computed. */
  lemma EffectiveLevelInBounds(level: real, ratio: real, lo: real, hi: real, k: real)
    requires level > 0.0 && 0.0 < lo <= hi && k == EffectiveRatio(level, ratio, lo, hi)
    ensures lo <= level * k <= hi
  {
    ZoomLandsInBounds(level, ratio, lo, hi);
  }

  /** On the agent channel a zoom scales the agent's matrix about the focus
      and leaves this.viewbox alone; otherwise it leaves the matrix alone and
      this.viewbox becomes the live viewBox scaled by 1 / k about the focus
      (without margins, where restrictToMargins leaves it). */
  lemma ZoomChannels(c: Config, s: State, ratio: real, focus: Option<Point>, animate: bool)
    requires Valid(c, s) && ZoomRatio(c, s, ratio).Some?
    ensures var k := ZoomRatio(c, s, ratio).value;
      var f := focus.GetOr(Center(c.original));
      var r := Zoom(c, s, ratio, focus, animate);
      (AgentChannel(c, s) ==> r.view.viewbox == s.view.viewbox && r.view.agent == Some(ScaleO(s.view.agent.value, k, f))) &&
      (!AgentChannel(c, s) && c.options.margins.None? ==>
         r.view.agent == s.view.agent && r.view.viewbox == TransformBox(s.doc.svgViewbox, ScaleAbout(1.0 / k, f)))
  {
    ZoomIsUpdate(c, s, ratio, focus, animate);
    var k := ZoomRatio(c, s, ratio).value;
    var t := s.(view := ZoomView(c, s, k, focus.GetOr(Center(c.original))));
    if !AgentChannel(c, s) {
      UpdateOnViewbox(c, t, animate);
    }
  }

  /** Zooming on the viewBox channel without margins keeps the focus where
      it was on the surface. */
  lemma ZoomKeepsFocus(c: Config, s: State, ratio: real, f: Point, animate: bool)
    requires Valid(c, s) && ZoomRatio(c, s, ratio).Some?
    requires !AgentChannel(c, s) && c.options.margins.None?
    ensures ViewCoord(Zoom(c, s, ratio, Some(f), animate).view.viewbox, f) == ViewCoord(s.doc.svgViewbox, f)
  {
    ZoomChannels(c, s, ratio, Some(f), animate);
    ZoomKeepsFocusInPlace(s.doc.svgViewbox, ZoomRatio(c, s, ratio).value, f);
  }

  /** pan (lines 313-328). */
  function Pan(c: Config, s: State, dx: real, dy: real, animate: bool): (r: State)
    requires Valid(c, s)
    ensures Valid(c, r)
    ensures r.gesture == s.gesture && r.notices == s.notices && r.view.zoomLevel == s.view.zoomLevel
  {
    var t := s.(view := PanView(c, s, dx, dy));
    ChannelsCoincide(c, t);
    Update(c, t, animate)
  }

  /** The part of pan before update. */
  function PanView(c: Config, s: State, dx: real, dy: real): (r: View)
    requires Valid(c, s)
    ensures ViewValid(c, r) && r.zoomLevel == s.view.zoomLevel
    ensures !AgentChannel(c, s) ==>
      r.agent == s.view.agent &&
      r.viewbox == Box(s.view.viewbox.x - dx, s.view.viewbox.y - dy, s.view.viewbox.width, s.view.viewbox.height)
  {
    if AgentChannel(c, s) then s.view.(agent := Some(TranslateO(s.view.agent.value, dx, dy)))
    else
      var v := s.view.viewbox;
      TransformBoxByPositiveScale(v, Translation(-dx, -dy));
      View(s.view.zoomLevel, TransformBox(v, Translation(-dx, -dy)), s.view.agent)
  }

  /** On the agent channel a pan translates the agent's matrix by
      (dx, dy) and leaves this.viewbox alone. */
  lemma PanOnAgent(c: Config, s: State, dx: real, dy: real, animate: bool)
    requires Valid(c, s) && AgentChannel(c, s)
    ensures var r := Pan(c, s, dx, dy, animate);
      r.view.agent == Some(TranslateO(s.view.agent.value, dx, dy)) && r.view.viewbox == s.view.viewbox
  {
    PanIsUpdate(c, s, dx, dy, animate);
  }

  /** Pan is update applied after PanView. */
  lemma PanIsUpdate(c: Config, s: State, dx: real, dy: real, animate: bool)
    requires Valid(c, s)
    ensures var t := s.(view := PanView(c, s, dx, dy));
      Valid(c, t) && (ActOnAgent(c, t) <==> AgentChannel(c, s)) &&
      Pan(c, s, dx, dy, animate) == Update(c, t, animate)
  {
    ChannelsCoincide(c, s.(view := PanView(c, s, dx, dy)));
  }

  /** Off the agent channel a pan leaves the matrix alone and moves
      this.viewbox by (-dx, -dy); without margins that is where it stays,
      and in performance mode the pending frame holds the moved box
      clamped against the live viewBox. */
  lemma PanOnViewbox(c: Config, s: State, dx: real, dy: real, animate: bool)
    requires Valid(c, s) && !AgentChannel(c, s)
    ensures var r := Pan(c, s, dx, dy, animate);
      var moved := Box(s.view.viewbox.x - dx, s.view.viewbox.y - dy, s.view.viewbox.width, s.view.viewbox.height);
      r.view.agent == s.view.agent &&
      (c.options.margins.None? ==> r.view.viewbox == moved) &&
      (!animate && c.options.performance ==>
         r.doc.frame == Some(WriteViewbox(Restrict(moved, s.doc.svgViewbox, c.options.margins, c.display))))
  {
    var t := s.(view := PanView(c, s, dx, dy));
    PanIsUpdate(c, s, dx, dy, animate);
    UpdateOnViewbox(c, t, animate);
    assert t.view.viewbox == Box(s.view.viewbox.x - dx, s.view.viewbox.y - dy, s.view.viewbox.width, s.view.viewbox.height);
    assert t.doc == s.doc;
  }

  /** restore (lines 219-228): back to the original viewBox; the caller's
      default is animate = true. */
  function Restore(c: Config, s: State, animate: bool): (r: State)
    requires Valid(c, s)
    ensures Valid(c, r)
    ensures r.gesture == s.gesture && r.notices == s.notices && r.view.zoomLevel == s.view.zoomLevel
    ensures r.view.agent == s.view.agent
  {
    Update(c, s.(view := s.view.(viewbox := c.original)), animate)
  }

  /** Without margins and off the agent channel, restore shows the original
      viewBox, at once or at the next frame. */
  lemma RestoreShowsOriginal(c: Config, s: State, animate: bool)
    requires Valid(c, s) && !ActOnAgent(c, s) && c.options.margins.None?
    ensures var r := Restore(c, s, animate);
      (animate || !c.options.performance ==> r.doc.svgViewbox == c.original) &&
      (!animate && c.options.performance ==> r.doc.frame == Some(WriteViewbox(c.original)))
  {
    UpdateOnViewbox(c, s.(view := s.view.(viewbox := c.original)), animate);
  }

  /** With margins an animated restore writes the live viewBox back: what
      the svg shows does not change. */
  lemma RestoreWithMarginsStays(c: Config, s: State)
    requires Valid(c, s) && !ActOnAgent(c, s) && c.options.margins.Some?
    ensures Restore(c, s, true).doc == s.doc
  {
    UpdateOnViewbox(c, s.(view := s.view.(viewbox := c.original)), true);
  }

  /** agentTransformToViewbox (lines 202-217): the agent's matrix is folded
      into the viewBox, written straight to the svg, and the agent's
      transform is removed. */
  function AgentTransformToViewbox(c: Config, s: State): (r: State)
    requires Valid(c, s) && !s.gesture.isPanning
    ensures Valid(c, r)
    ensures r.gesture == s.gesture && r.notices == s.notices && r.view.zoomLevel == s.view.zoomLevel
  {
    if c.options.agentOnly || !c.hasAgent || s.view.agent.None? then s
    else
      var m := s.view.agent.value;
      assert Inverse(m).s > 0.0 by { assert Inverse(m).s * m.s == 1.0; }
      TransformBoxByPositiveScale(s.view.viewbox, Inverse(m));
      var v := TransformBox(s.view.viewbox, Inverse(m));
      s.(view := s.view.(viewbox := v, agent := None), doc := s.doc.(agentAttr := None, svgViewbox := v))
  }

  /** Folding the agent into the viewBox keeps the picture: once the agent's
      matrix m and this.viewbox are what the document shows, every point q
      appears where m(q) appeared before, and the transform is gone. */
  lemma {:induction false} FoldKeepsPicture(c: Config, s: State, q: Point)
    requires Valid(c, s) && !s.gesture.isPanning
    requires !c.options.agentOnly && c.hasAgent && s.view.agent.Some?
    requires s.doc.agentAttr == s.view.agent && s.doc.svgViewbox == s.view.viewbox
    ensures var r := AgentTransformToViewbox(c, s);
      r.doc.agentAttr.None? && r.view.agent.None? && r.doc.svgViewbox == r.view.viewbox &&
      ViewCoord(r.doc.svgViewbox, q) == ViewCoord(s.doc.svgViewbox, Apply(s.doc.agentAttr.value, q))
  {
    ReconcileKeepsView(s.view.viewbox, s.view.agent.value, q);
  }

  /** updateByViewbox (lines 461-466): without an agent, the box is clamped
      and written to the svg at once. The box must have a positive size. */
  function UpdateByViewbox(c: Config, s: State, box: Box): (r: State)
    requires Valid(c, s) && Positive(box)
    ensures Valid(c, r)
    ensures r.gesture == s.gesture && r.notices == s.notices
  {
    if c.hasAgent then s
    else
      var rr := RestrictToMargins(c, s, box);
      s.(view := rr.view, doc := s.doc.(svgViewbox := rr.box))
  }

  /** With an agent updateByViewbox does nothing; without one the svg shows
      the box clamped against its live viewBox. */
  lemma UpdateByViewboxWrites(c: Config, s: State, box: Box)
    requires Valid(c, s) && Positive(box)
    ensures var r := UpdateByViewbox(c, s, box);
      (c.hasAgent ==> r == s) &&
      (!c.hasAgent ==> r.doc.svgViewbox == Restrict(box, s.doc.svgViewbox, c.options.margins, c.display)) &&
      (!c.hasAgent && c.options.margins.None? ==> r.doc.svgViewbox == box)
  {
  }

  /** updateByTransform (lines 467-471); None is a falsy transform. */
  function UpdateByTransform(c: Config, s: State, transform: Option<Matrix>): (r: State)
    requires Valid(c, s)
    ensures Valid(c, r)
    ensures r.view == s.view && r.gesture == s.gesture && r.notices == s.notices
    ensures r.doc.agentAttr == (if c.hasAgent && transform.Some? then transform else s.doc.agentAttr)
  {
    if c.hasAgent && transform.Some? then s.(doc := s.doc.(agentAttr := transform)) else s
  }

  /** zoomTo (lines 280-305) with a level: it brings `focus` (the original
      centre by default) to the original centre, sets the level, and writes
      the agent's matrix. It throws when the agent has no matrix. */
  function ZoomTo(c: Config, s: State, lvl: real, focus: Option<Point>): (r: Outcome)
    requires Valid(c, s) && lvl > 0.0
    ensures Valid(c, r.state)
    ensures r.state.gesture == s.gesture && r.state.notices == s.notices
  {
    if s.view.agent.None? then Outcome(s, true)
    else
      var center := Center(c.original);
      var delta := lvl / s.view.zoomLevel;
      var m := CenterOn(s.view.agent.value, focus.GetOr(center), center, delta);
      assert m.s > 0.0;
      Outcome(s.(view := s.view.(agent := Some(m), zoomLevel := s.view.zoomLevel * delta),
                 doc := s.doc.(agentAttr := Some(m))), false)
  }

  /** zoomTo throws exactly when the agent's matrix is null; otherwise the
      focus lands on the original centre, the level is lvl, the matrix is
      scaled by lvl over the old level, and the document shows the matrix. */
  lemma ZoomToCentres(c: Config, s: State, lvl: real, focus: Option<Point>)
    requires Valid(c, s) && lvl > 0.0
    ensures var r := ZoomTo(c, s, lvl, focus);
      (r.threw <==> s.view.agent.None?) &&
      (r.threw ==> r.state == s) &&
      (!r.threw ==>
         r.state.view.zoomLevel == lvl && r.state.view.agent.Some? &&
         r.state.doc.agentAttr == r.state.view.agent &&
         Apply(r.state.view.agent.value, focus.GetOr(Center(c.original))) == Center(c.original) &&
         r.state.view.agent.value.s * s.view.zoomLevel == s.view.agent.value.s * lvl)
  {
    if s.view.agent.Some? {
      var delta := lvl / s.view.zoomLevel;
      assert s.view.zoomLevel * delta == lvl;
    }
  }

  /** panTo's target: an element (by its bbox), "fit-center", or a point. */
  datatype PanTarget = AtPoint(p: Point) | AtElement(bbox: Box) | FitCenter

  /** panTo's zoom level, a number or "auto" (meaningful for elements). */
  datatype ZoomArg = Level(level: real) | Auto

  predicate PanToArgs(target: PanTarget, zoom: ZoomArg) {
    (zoom.Level? ==> zoom.level > 0.0) &&
    (zoom.Auto? ==> target.AtElement? && Positive(target.bbox))
  }

  /** The user-space point panTo brings to the centre. */
  function PanToPoint(c: Config, target: PanTarget): Point {
    match target
    case AtPoint(p) => p
    case AtElement(b) => Center(b)
    case FitCenter => Center(c.original)
  }

  /** The level panTo zooms to; "auto" makes the element's longer side,
      relative to the original viewBox, a tenth of the view. */
  function PanToLevel(c: Config, target: PanTarget, zoom: ZoomArg): (r: real)
    requires ValidConfig(c) && PanToArgs(target, zoom)
    ensures r > 0.0
    ensures zoom.Level? ==> r == zoom.level
    ensures zoom.Auto? ==>
      r * Max(target.bbox.height / c.original.height, target.bbox.width / c.original.width) == 0.1
  {
    match zoom
    case Level(l) => l
    case Auto =>
      var b := target.bbox;
      var big := Max(b.height / c.original.height, b.width / c.original.width);
      assert big > 0.0;
      0.1 / big
  }

  /** panTo (lines 337-402): zoomTo with the point and level taken from the
      target; the duration only chooses whether the agent's transform is
      animated. A null agent matrix is caught and logged, leaving the state
      as it was. */
  function PanTo(c: Config, s: State, target: PanTarget, zoom: ZoomArg): (r: State)
    requires Valid(c, s) && PanToArgs(target, zoom)
    ensures Valid(c, r)
  {
    ZoomTo(c, s, PanToLevel(c, target, zoom), Some(PanToPoint(c, target))).state
  }

  /** panTo centres the target at the level asked for, or changes nothing
      when the agent's matrix is null. */
  lemma PanToCentres(c: Config, s: State, target: PanTarget, zoom: ZoomArg)
    requires Valid(c, s) && PanToArgs(target, zoom)
    ensures var r := PanTo(c, s, target, zoom);
      (s.view.agent.None? ==> r == s) &&
      (s.view.agent.Some? ==>
         r.view.zoomLevel == PanToLevel(c, target, zoom) && r.view.agent.Some? &&
         r.doc.agentAttr == r.view.agent &&
         Apply(r.view.agent.value, PanToPoint(c, target)) == Center(c.original))
  {
    ZoomToCentres(c, s, PanToLevel(c, target, zoom), Some(PanToPoint(c, target)));
  }
}
