/** The DOM event handlers of SvgPanZoom (src/svg.panzoom.js:613-983) as
    steps on Engine.State. What a handler reads from the browser is an
    input: the event, svg.point's screen-to-user matrix `toUser`, the
    result of svg.zoom(), whether a listener called preventDefault on the
    event the handler dispatched, and the (awaited) result of
    options.beforePan. */
module Handlers {
  import opened Wrappers
  import opened Geometry
  import opened Gestures
  import opened Engine

  /** `this.eventTarget.dispatch(...)`: the notice is recorded. */
  function Notify(s: State, n: Notice): (r: State)
    ensures r.notices == s.notices + [n]
    ensures r.view == s.view && r.doc == s.doc && r.gesture == s.gesture
  {
    s.(notices := s.notices + [n])
  }

  /** With zoomOnCtrl, a wheel event without the ctrl key is ignored. */
  predicate WheelGated(c: Config, ev: WheelEvent) {
    c.options.zoomOnCtrl && !ev.ctrlKey
  }

  /** The level handleWheelZoom reports and zooms from: svg.zoom() unless
      agent-only mode is on. */
  function WheelLevel(c: Config, s: State, svgZoom: real): real {
    if c.options.agentOnly then s.view.zoomLevel else svgZoom
  }

  /** The zoom ratio of a wheel event: `curve` applied to the delta
      normalised to pixels. */
  function WheelRatio(c: Config, ev: WheelEvent, curve: real -> real): real {
    curve(NormalizedDeltaY(ev, c.options.linePixels, c.options.screenPixels))
  }

  /** The level handleWheelZoom's zoom event asks for: the level it zooms
      from times the ratio. */
  function WheelRequest(c: Config, s: State, ev: WheelEvent, curve: real -> real, svgZoom: real): real {
    WheelLevel(c, s, svgZoom) * WheelRatio(c, ev, curve)
  }

  /** handleWheelZoom (lines 613-673). `curve` is the map from the
      normalised pixel delta d to `Math.pow(1 + zoomSpeed, -d / 100)`. */
  function WheelZoom(c: Config, s: State, ev: WheelEvent, curve: real -> real, toUser: Matrix,
                     svgZoom: real, prevented: bool): (r: State)
    requires Valid(c, s) && svgZoom > 0.0
    ensures Valid(c, r) && r.gesture == s.gesture
    ensures WheelGated(c, ev) ==> r == s
    ensures !WheelGated(c, ev) && prevented ==>
      r.doc == s.doc && r.view.viewbox == s.view.viewbox && r.view.agent == s.view.agent &&
      r.view.zoomLevel == WheelLevel(c, s, svgZoom)
  {
    if WheelGated(c, ev) then s
    else
      var ratio := WheelRatio(c, ev, curve);
      var focus := Apply(toUser, ev.client);
      var u := WheelNotified(c, s, ev, curve, toUser, svgZoom);
      if prevented then u
      else
        Zoom(c, u, ratio, Some(focus), false)
  }

  /** The state handleWheelZoom reaches just after dispatching its zoom
      event. */
  function WheelNotified(c: Config, s: State, ev: WheelEvent, curve: real -> real, toUser: Matrix,
                         svgZoom: real): (r: State)
    requires Valid(c, s) && svgZoom > 0.0
    ensures Valid(c, r)
    ensures r.view == View(WheelLevel(c, s, svgZoom), s.view.viewbox, s.view.agent)
    ensures r.doc == s.doc && r.gesture == s.gesture
    ensures r.notices ==
      s.notices + [ZoomRequested(WheelRequest(c, s, ev, curve, svgZoom), Apply(toUser, ev.client))]
  {
    Notify(s.(view := View(WheelLevel(c, s, svgZoom), s.view.viewbox, s.view.agent)),
           ZoomRequested(WheelRequest(c, s, ev, curve, svgZoom), Apply(toUser, ev.client)))
  }

  /** An accepted wheel event dispatches its zoom event, then zooms unless
      a listener cancelled it. */
  lemma WheelZoomSteps(c: Config, s: State, ev: WheelEvent, curve: real -> real, toUser: Matrix,
                       svgZoom: real, prevented: bool)
    requires Valid(c, s) && svgZoom > 0.0 && !WheelGated(c, ev)
    ensures var u := WheelNotified(c, s, ev, curve, toUser, svgZoom);
      WheelZoom(c, s, ev, curve, toUser, svgZoom, prevented) ==
        if prevented then u else Zoom(c, u, WheelRatio(c, ev, curve), Some(Apply(toUser, ev.client)), false)
  {
  }

  /** An accepted wheel event dispatches one zoom event carrying the level
      it asks for (the current level times the ratio) and the pointer's
      user-space position, whether or not a listener cancels it. */
  lemma WheelZoomAnnounces(c: Config, s: State, ev: WheelEvent, curve: real -> real, toUser: Matrix,
                           svgZoom: real, prevented: bool)
    requires Valid(c, s) && svgZoom > 0.0 && !WheelGated(c, ev)
    ensures WheelZoom(c, s, ev, curve, toUser, svgZoom, prevented).notices ==
      s.notices + [ZoomRequested(WheelRequest(c, s, ev, curve, svgZoom), Apply(toUser, ev.client))]
  {
    WheelZoomSteps(c, s, ev, curve, toUser, svgZoom, prevented);
    var u := WheelNotified(c, s, ev, curve, toUser, svgZoom);
    assert u.notices ==
      s.notices + [ZoomRequested(WheelRequest(c, s, ev, curve, svgZoom), Apply(toUser, ev.client))];
    if !prevented {
      assert Zoom(c, u, WheelRatio(c, ev, curve), Some(Apply(toUser, ev.client)), false).notices == u.notices;
    }
  }

  /** An accepted wheel event that no listener cancels zooms about the
      pointer: without agent-only mode and off the agent channel, with no
      margins, the point under the pointer stays where it was on the
      surface. */
  lemma WheelZoomKeepsPointer(c: Config, s: State, ev: WheelEvent, curve: real -> real, toUser: Matrix,
                              svgZoom: real)
    requires Valid(c, s) && svgZoom > 0.0 && !WheelGated(c, ev)
    requires !AgentChannel(c, s) && c.options.margins.None?
    requires ZoomRatio(c, s.(view := View(WheelLevel(c, s, svgZoom), s.view.viewbox, s.view.agent)),
                       WheelRatio(c, ev, curve)).Some?
    ensures var f := Apply(toUser, ev.client);
      ViewCoord(WheelZoom(c, s, ev, curve, toUser, svgZoom, false).view.viewbox, f) == ViewCoord(s.doc.svgViewbox, f)
  {
    var ratio := WheelRatio(c, ev, curve);
    var focus := Apply(toUser, ev.client);
    var level := WheelLevel(c, s, svgZoom);
    var t := s.(view := View(level, s.view.viewbox, s.view.agent));
    var u := Notify(t, ZoomRequested(WheelRequest(c, s, ev, curve, svgZoom), focus));
    assert ZoomRatio(c, u, ratio) == ZoomRatio(c, t, ratio);
    ZoomKeepsFocus(c, u, ratio, focus, false);
  }

  /** handlePanStart (lines 837-888) with `allowed` the awaited result of
      options.beforePan. It is an async function: `threw` means that its
      promise is rejected, which happens when the event has no touch. */
  function PanStart(c: Config, s: State, ev: PointerEvent, allowed: bool): (r: Outcome)
    requires Valid(c, s)
    ensures Valid(c, r.state)
    ensures r.state.view == s.view && r.state.doc == s.doc && r.state.notices == s.notices
    ensures r.state.gesture.isPanning == s.gesture.isPanning && r.state.gesture.isZooming == s.gesture.isZooming
    ensures !ButtonAccepted(ev, c.options.panButton) || (c.options.hasBeforePan && !allowed) ==>
      r == Outcome(s, false)
    ensures ButtonAccepted(ev, c.options.panButton) && (c.options.hasBeforePan ==> allowed) ==>
      var g := r.state.gesture;
      !g.panStartEmitted && !g.listening.panStart && g.lastTouches == NormalizeEvent(ev) &&
      (r.threw <==> !s.gesture.isZooming && |NormalizeEvent(ev)| == 0) &&
      (s.gesture.isZooming || r.threw ==>
         g.lastPoint == s.gesture.lastPoint && g.listening.panMove == s.gesture.listening.panMove) &&
      (!s.gesture.isZooming && !r.threw ==>
         g.listening.panMove && g.lastPoint == Some(NormalizeEvent(ev)[0]))
  {
    if !ButtonAccepted(ev, c.options.panButton) then Outcome(s, false)
    else if c.options.hasBeforePan && !allowed then Outcome(s, false)
    else
      ArmPan(c, s, NormalizeEvent(ev))
  }

  /** Lines 859-887 of handlePanStart, once the event is accepted: the
      start flag is cleared, the mousedown handler removed and the touches
      stored; unless a pinch is in progress, the first touch becomes the
      last point (throwing when there is none) and the move handler is
      registered. */
  function ArmPan(c: Config, s: State, touches: seq<Point>): (r: Outcome)
    requires Valid(c, s)
    ensures Valid(c, r.state)
    ensures r.state.view == s.view && r.state.doc == s.doc && r.state.notices == s.notices
    ensures r.threw <==> !s.gesture.isZooming && |touches| == 0
  {
    var g := s.gesture;
    var l := g.listening;
    if g.isZooming || |touches| == 0 then
      Outcome(s.(gesture := Gesture(g.isZooming, g.isPanning, false, g.lastPoint, touches,
                                    Listening(l.wheel, l.pinchStart, l.pinchMove, false, l.panMove))),
              !g.isZooming)
    else
      Outcome(s.(gesture := Gesture(g.isZooming, g.isPanning, false, Some(touches[0]), touches,
                                    Listening(l.wheel, l.pinchStart, l.pinchMove, false, true))),
              false)
  }

  /** handlePanStop (lines 893-921): the pan listeners are swapped back,
      and only a pan whose start was announced ends with panEnd and folds
      the agent's matrix into the viewBox. */
  function PanStop(c: Config, s: State): (r: State)
    requires Valid(c, s)
    ensures Valid(c, r)
    ensures r.gesture.lastPoint.None? && !r.gesture.listening.panMove && r.gesture.listening.panStart
    ensures !r.gesture.panStartEmitted && r.gesture.isZooming == s.gesture.isZooming
    ensures r.gesture.lastTouches == s.gesture.lastTouches && r.gesture.listening.pinchStart == s.gesture.listening.pinchStart
    ensures r.gesture.listening.pinchMove == s.gesture.listening.pinchMove && r.gesture.listening.wheel == s.gesture.listening.wheel
    ensures !s.gesture.panStartEmitted ==>
      r.view == s.view && r.doc == s.doc && r.notices == s.notices && r.gesture.isPanning == s.gesture.isPanning
    ensures s.gesture.panStartEmitted ==>
      !r.gesture.isPanning && r.notices == s.notices + [PanEnded] && r.view.zoomLevel == s.view.zoomLevel
  {
    var l := s.gesture.listening;
    var g := Gesture(s.gesture.isZooming, s.gesture.isPanning && !s.gesture.panStartEmitted, false, None,
                     s.gesture.lastTouches, Listening(l.wheel, l.pinchStart, l.pinchMove, true, false));
    if s.gesture.panStartEmitted then AgentTransformToViewbox(c, Notify(s.(gesture := g), PanEnded))
    else s.(gesture := g)
  }

  /** Ending an announced pan removes the agent's transform and keeps the
      picture: once the document shows the agent's matrix m and this.viewbox,
      every point q appears where m(q) appeared before. */
  lemma PanStopKeepsPicture(c: Config, s: State, q: Point)
    requires Valid(c, s) && s.gesture.panStartEmitted
    requires !c.options.agentOnly && c.hasAgent && s.view.agent.Some?
    requires s.doc.agentAttr == s.view.agent && s.doc.svgViewbox == s.view.viewbox
    ensures var r := PanStop(c, s);
      r.doc.agentAttr.None? && r.view.agent.None? && r.doc.svgViewbox == r.view.viewbox &&
      ViewCoord(r.doc.svgViewbox, q) == ViewCoord(s.doc.svgViewbox, Apply(s.doc.agentAttr.value, q))
  {
    var l := s.gesture.listening;
    var g := Gesture(s.gesture.isZooming, false, false, None,
                     s.gesture.lastTouches, Listening(l.wheel, l.pinchStart, l.pinchMove, true, false));
    var t := Notify(s.(gesture := g), PanEnded);
    FoldKeepsPicture(c, t, q);
    var u := AgentTransformToViewbox(c, t);
    assert PanStop(c, s).doc == u.doc && PanStop(c, s).view == u.view;
  }

  /** The last and current pointer positions in user space, and the delta. */
  function PanDelta(toUser: Matrix, last: Point, cur: Point): (r: Point)
    ensures Apply(toUser, last).x + r.x == Apply(toUser, cur).x
    ensures Apply(toUser, last).y + r.y == Apply(toUser, cur).y
  {
    Point(Apply(toUser, cur).x - Apply(toUser, last).x, Apply(toUser, cur).y - Apply(toUser, last).y)
  }

  /** What the first move of a pan does before panning (lines 946-966):
      the flags are set, panStart is announced, this.viewbox is re-read
      from the svg, and the agent's matrix is reset to the identity unless
      agent-only mode is on. */
  function BeginPan(c: Config, s: State): (r: State)
    requires Valid(c, s) && !s.gesture.panStartEmitted
    ensures Valid(c, r)
    ensures r.gesture == s.gesture.(isPanning := true, panStartEmitted := true)
    ensures r.notices == s.notices + [PanStarted] && r.doc == s.doc && r.view.zoomLevel == s.view.zoomLevel
    ensures r.view.viewbox == s.doc.svgViewbox
    ensures r.view.agent == (if c.hasAgent && !c.options.agentOnly then Some(Identity) else s.view.agent)
  {
    var u := Notify(s.(gesture := s.gesture.(isPanning := true, panStartEmitted := true)), PanStarted);
    var v := u.view.(viewbox := s.doc.svgViewbox);
    if c.hasAgent && !c.options.agentOnly then u.(view := v.(agent := Some(Identity))) else u.(view := v)
  }

  /** handlePanning (lines 927-983). It throws when the event has no touch
      or no pan is in progress (lasts.point is null). */
  function Panning(c: Config, s: State, ev: PointerEvent, toUser: Matrix, prevented: bool): (r: Outcome)
    requires Valid(c, s)
    ensures Valid(c, r.state)
    ensures r.threw <==> |NormalizeEvent(ev)| == 0 || s.gesture.lastPoint.None?
    ensures r.threw ==> r.state == s
    ensures !r.threw && PanDelta(toUser, s.gesture.lastPoint.value, NormalizeEvent(ev)[0]) == Point(0.0, 0.0) ==>
      r.state == s
  {
    var touches := NormalizeEvent(ev);
    if |touches| == 0 || s.gesture.lastPoint.None? then Outcome(s, true)
    else
      var cur := touches[0];
      var d := PanDelta(toUser, s.gesture.lastPoint.value, cur);
      if d.x == 0.0 && d.y == 0.0 then Outcome(s, false)
      else
        var t := if s.gesture.panStartEmitted then s else BeginPan(c, s);
        Outcome(PanMove(c, t, toUser, s.gesture.lastPoint.value, cur, prevented), false)
  }

  /** Lines 968-982 of handlePanning: the move is announced with both
      pointer positions in user space and, unless a listener cancels it,
      the last point advances and the view pans by the user-space delta. */
  function PanMove(c: Config, s: State, toUser: Matrix, last: Point, cur: Point, prevented: bool): (r: State)
    requires Valid(c, s)
    ensures Valid(c, r) && r.view.zoomLevel == s.view.zoomLevel
    ensures r.notices == s.notices + [Panned(Apply(toUser, cur), Apply(toUser, last))]
    ensures r.gesture == s.gesture.(lastPoint := if prevented then s.gesture.lastPoint else Some(cur))
    ensures prevented ==> r.view == s.view && r.doc == s.doc
  {
    var d := PanDelta(toUser, last, cur);
    var u := Notify(s, Panned(Apply(toUser, cur), Apply(toUser, last)));
    if prevented then u
    else Pan(c, u.(gesture := u.gesture.(lastPoint := Some(cur))), d.x, d.y, false)
  }

  /** A move that changes the pointer's user-space position announces
      panStart once (on the first move) and then the move itself; the pan
      is then in progress. The last point advances unless a listener
      cancels the panning event. */
  lemma PanningAnnounces(c: Config, s: State, ev: PointerEvent, toUser: Matrix, prevented: bool)
    requires Valid(c, s) && |NormalizeEvent(ev)| > 0 && s.gesture.lastPoint.Some?
    requires PanDelta(toUser, s.gesture.lastPoint.value, NormalizeEvent(ev)[0]) != Point(0.0, 0.0)
    ensures var r := Panning(c, s, ev, toUser, prevented).state;
      var p1 := Apply(toUser, s.gesture.lastPoint.value);
      var p2 := Apply(toUser, NormalizeEvent(ev)[0]);
      r.gesture.isPanning && r.gesture.panStartEmitted && r.view.zoomLevel == s.view.zoomLevel &&
      r.notices == s.notices + (if s.gesture.panStartEmitted then [] else [PanStarted]) + [Panned(p2, p1)] &&
      r.gesture.lastPoint == (if prevented then s.gesture.lastPoint else Some(NormalizeEvent(ev)[0]))
  {
    var cur := NormalizeEvent(ev)[0];
    var t := if s.gesture.panStartEmitted then s else BeginPan(c, s);
    assert Panning(c, s, ev, toUser, prevented).state ==
           PanMove(c, t, toUser, s.gesture.lastPoint.value, cur, prevented);
  }

  /** The first move of a pan with an agent (and agent-only mode off)
      leaves the agent's matrix holding exactly the move: the identity
      translated by the user-space delta. */
  lemma FirstMoveTranslatesAgent(c: Config, s: State, ev: PointerEvent, toUser: Matrix)
    requires Valid(c, s) && |NormalizeEvent(ev)| > 0 && s.gesture.lastPoint.Some?
    requires !s.gesture.panStartEmitted && c.hasAgent && !c.options.agentOnly
    requires PanDelta(toUser, s.gesture.lastPoint.value, NormalizeEvent(ev)[0]) != Point(0.0, 0.0)
    ensures var d := PanDelta(toUser, s.gesture.lastPoint.value, NormalizeEvent(ev)[0]);
      Panning(c, s, ev, toUser, false).state.view.agent == Some(TranslateO(Identity, d.x, d.y))
  {
    var cur := NormalizeEvent(ev)[0];
    var d := PanDelta(toUser, s.gesture.lastPoint.value, cur);
    var u := Notify(BeginPan(c, s), Panned(Apply(toUser, cur), Apply(toUser, s.gesture.lastPoint.value)));
    var w := u.(gesture := u.gesture.(lastPoint := Some(cur)));
    assert Panning(c, s, ev, toUser, false).state == Pan(c, w, d.x, d.y, false) by {
      assert Panning(c, s, ev, toUser, false).state ==
             PanMove(c, BeginPan(c, s), toUser, s.gesture.lastPoint.value, cur, false);
    }
    assert AgentChannel(c, w);
    PanOnAgent(c, w, d.x, d.y, false);
  }

  /** The first move of a pan without an agent moves this.viewbox, re-read
      from the svg, by minus the user-space delta (when no margins apply). */
  lemma FirstMoveMovesViewbox(c: Config, s: State, ev: PointerEvent, toUser: Matrix)
    requires Valid(c, s) && |NormalizeEvent(ev)| > 0 && s.gesture.lastPoint.Some?
    requires !s.gesture.panStartEmitted && !c.hasAgent && c.options.margins.None?
    requires PanDelta(toUser, s.gesture.lastPoint.value, NormalizeEvent(ev)[0]) != Point(0.0, 0.0)
    ensures var d := PanDelta(toUser, s.gesture.lastPoint.value, NormalizeEvent(ev)[0]);
      var b := s.doc.svgViewbox;
      Panning(c, s, ev, toUser, false).state.view.viewbox == Box(b.x - d.x, b.y - d.y, b.width, b.height)
  {
    var cur := NormalizeEvent(ev)[0];
    var d := PanDelta(toUser, s.gesture.lastPoint.value, cur);
    var u := Notify(BeginPan(c, s), Panned(Apply(toUser, cur), Apply(toUser, s.gesture.lastPoint.value)));
    var w := u.(gesture := u.gesture.(lastPoint := Some(cur)));
    assert Panning(c, s, ev, toUser, false).state == Pan(c, w, d.x, d.y, false) by {
      assert Panning(c, s, ev, toUser, false).state ==
             PanMove(c, BeginPan(c, s), toUser, s.gesture.lastPoint.value, cur, false);
    }
    assert !AgentChannel(c, w);
    PanOnViewbox(c, w, d.x, d.y, false);
  }

  /** Whether a touch that does not pinch is handed to the pan handlers. */
  predicate OneFingerHandoff(c: Config) {
    c.options.enablePanning && c.options.oneFingerPan
  }

  /** handlePinchZoomStart (lines 680-725). One touch hands over to the pan
      handler when one-finger pan is on (handlePanStart is async and not
      awaited, so a rejection does not reach this handler); two or more stop
      any pan and start the pinch unless a listener cancels pinchZoomStart. */
  function PinchZoomStart(c: Config, s: State, ev: PointerEvent, allowed: bool, prevented: bool): (r: State)
    requires Valid(c, s)
    ensures Valid(c, r) && r.view.zoomLevel == s.view.zoomLevel
    ensures r.gesture.lastTouches == NormalizeEvent(ev)
    ensures |NormalizeEvent(ev)| < 2 && !OneFingerHandoff(c) ==>
      r == s.(gesture := s.gesture.(lastTouches := NormalizeEvent(ev)))
    ensures |NormalizeEvent(ev)| >= 2 ==> r == PinchTakeover(c, s, NormalizeEvent(ev), prevented)
  {
    var touches := NormalizeEvent(ev);
    if |touches| < 2 then
      var t := s.(gesture := s.gesture.(lastTouches := touches));
      if OneFingerHandoff(c) then PanStart(c, t, ev, allowed).state else t
    else PinchTakeover(c, s, touches, prevented)
  }

  /** Lines 694-724 of handlePinchZoomStart, for two or more touches: any
      pan is stopped, pinchZoomStart is announced and, unless a listener
      cancels it, the pinch starts. */
  function PinchTakeover(c: Config, s: State, touches: seq<Point>, prevented: bool): (r: State)
    requires Valid(c, s)
    ensures Valid(c, r) && r.view.zoomLevel == s.view.zoomLevel && r.gesture.lastTouches == touches
    ensures r.notices == s.notices + (if OneFingerHandoff(c) && s.gesture.panStartEmitted then [PanEnded] else [])
                         + [PinchZoomStarted]
    ensures !prevented ==>
      r.gesture.isZooming && r.gesture.listening.pinchMove && !r.gesture.listening.pinchStart &&
      (c.hasAgent && !c.options.agentOnly ==> r.view.agent == Some(Identity)) &&
      (!c.hasAgent || c.options.agentOnly ==> r.view.viewbox == r.doc.svgViewbox)
    ensures prevented ==> r.gesture.isZooming == s.gesture.isZooming
  {
    var t := s.(gesture := s.gesture.(lastTouches := touches));
    var u := if OneFingerHandoff(c) then PanStop(c, t) else t;
    var w := Notify(u, PinchZoomStarted);
    if prevented then w else StartPinch(c, w)
  }

  /** Lines 709-724 of handlePinchZoomStart: the pinch listeners are swapped
      in, and the agent's matrix is reset (or this.viewbox re-read from the
      svg) as the base the pinch works from. */
  function StartPinch(c: Config, s: State): (r: State)
    requires Valid(c, s)
    ensures Valid(c, r) && r.doc == s.doc && r.notices == s.notices && r.view.zoomLevel == s.view.zoomLevel
    ensures r.gesture.isZooming && r.gesture.listening.pinchMove && !r.gesture.listening.pinchStart
    ensures r.gesture.lastTouches == s.gesture.lastTouches && r.gesture.isPanning == s.gesture.isPanning
    ensures c.hasAgent && !c.options.agentOnly ==> r.view.agent == Some(Identity)
    ensures !c.hasAgent || c.options.agentOnly ==> r.view.viewbox == r.doc.svgViewbox
  {
    var l := s.gesture.listening;
    var t := s.(gesture := s.gesture.(isZooming := true,
                listening := Listening(l.wheel, false, true, l.panStart, l.panMove)));
    if c.hasAgent && !c.options.agentOnly then t.(view := View(t.view.zoomLevel, t.view.viewbox, Some(Identity)))
    else t.(view := View(t.view.zoomLevel, t.doc.svgViewbox, t.view.agent))
  }

  /** handlePinchZoomStop (lines 732-753): the pinch ends once at most one
      touch is left; a remaining touch is handed to the pan handler when
      one-finger pan is on. */
  function PinchZoomStop(c: Config, s: State, ev: PointerEvent, allowed: bool): (r: State)
    requires Valid(c, s)
    ensures Valid(c, r)
    ensures |NormalizeEvent(ev)| > 1 ==> r == s
    ensures |NormalizeEvent(ev)| <= 1 ==>
      !r.gesture.isZooming && r.notices == s.notices + [PinchZoomEnded] &&
      !r.gesture.listening.pinchMove && r.gesture.listening.pinchStart &&
      r.view == s.view && r.doc == s.doc
    ensures |NormalizeEvent(ev)| == 0 || !OneFingerHandoff(c) ==>
      r.gesture.listening.panStart == s.gesture.listening.panStart
  {
    var touches := NormalizeEvent(ev);
    if |touches| > 1 then s
    else
      var t := Notify(s.(gesture := s.gesture.(isZooming := false,
                          listening := s.gesture.listening.(pinchMove := false, pinchStart := true))),
                      PinchZoomEnded);
      if |touches| > 0 && OneFingerHandoff(c) then PanStart(c, t, ev, allowed).state
      else t
  }

  /** The outcome of handlePinchZoom: the state when it threw, and the
      arithmetic it did before. */
  datatype PinchOutcome = PinchOutcome(state: State, math: Option<PinchMath>)

  /** handlePinchZoom (lines 759-831). It reads the last and the current
      first two touches (throwing at once if either list is shorter),
      computes the zoom amount and the focus points, stores the current
      touches, and then throws at line 815, where the undeclared `box` is
      read (the page is assumed to define no global `box`): the pinch never
      reaches the view. `lastDistance` and `currentDistance` are the two
      Math.sqrt results; with a current distance of 0 the amount is
      Infinity, which is not modelled (math is None). */
  function PinchZoom(c: Config, s: State, ev: PointerEvent, toUser: Matrix,
                     lastDistance: real, currentDistance: real): (r: PinchOutcome)
    requires Valid(c, s)
    ensures Valid(c, r.state)
    ensures r.state.view == s.view && r.state.doc == s.doc && r.state.notices == s.notices
    ensures |s.gesture.lastTouches| < 2 || |NormalizeEvent(ev)| < 2 ==> r.state == s && r.math.None?
    ensures |s.gesture.lastTouches| >= 2 && |NormalizeEvent(ev)| >= 2 ==>
      r.state == s.(gesture := s.gesture.(lastTouches := NormalizeEvent(ev))) &&
      (currentDistance != 0.0 <==> r.math.Some?)
    ensures r.math.Some? ==>
      var m := r.math.value;
      (c.options.zoomMin <= s.view.zoomLevel <= c.options.zoomMax ==> m.amount == lastDistance / currentDistance) &&
      (s.view.zoomLevel < c.options.zoomMin ==> m.amount <= 1.0) &&
      (s.view.zoomLevel > c.options.zoomMax ==> m.amount >= 1.0) &&
      Apply(m.transform, m.focusAhead) == m.focus
  {
    var current := NormalizeEvent(ev);
    if |s.gesture.lastTouches| < 2 || |current| < 2 then PinchOutcome(s, None)
    else
      var t := s.(gesture := s.gesture.(lastTouches := current));
      if currentDistance == 0.0 then PinchOutcome(t, None)
      else
        var m := PinchStep(s.gesture.lastTouches, current, lastDistance, currentDistance, s.view.zoomLevel,
                           c.options.zoomMin, c.options.zoomMax, toUser);
        PinchOutcome(t, Some(m))
  }
}
