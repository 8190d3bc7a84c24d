/** The SvgPanZoom instance (src/svg.panzoom.js:55-984) as an object whose
    methods update its fields in place. Its fields are the instance's own
    (zoomLevel, viewbox, panZoomAgentTransform, the gesture flags and
    `lasts`) together with what it writes to the document (the svg's
    viewBox, the agent's transform attribute, the callback waiting for the
    next animation frame) and the events it has dispatched. Each method is
    proved to leave the object in the state the matching step function of
    Engine or Handlers gives, so every property proved there holds of it. */
module Instance {
  import opened Wrappers
  import opened Geometry
  import opened Margins
  import opened Gestures
  import Engine
  import Handlers

  class PanZoom {
    /** What the constructor fixes (options, agent, original viewBox). */
    const config: Engine.Config

    var zoomLevel: real
    var viewbox: Box
    /** panZoomAgentTransform; None is null. */
    var agentTransform: Option<Matrix>
    /** The svg's viewBox attribute. */
    var svgViewbox: Box
    /** The agent group's transform attribute; None once it is removed. */
    var agentAttr: Option<Matrix>
    /** lasts.frameTimer and the callback it will run. */
    var frame: Option<Engine.Commit>
    var isZooming: bool
    var isPanning: bool
    var panStartEmitted: bool
    /** lasts.point and lasts.touches. */
    var lastPoint: Option<Point>
    var lastTouches: seq<Point>
    /** The registered event handlers. */
    var listening: Engine.Listening
    /** The events dispatched on the event target so far. */
    var dispatched: seq<Engine.Notice>

    /** The object's fields as an Engine.State. */
    function Snapshot(): Engine.State
      reads this
    {
      Engine.State(Engine.View(zoomLevel, viewbox, agentTransform),
                   Engine.Doc(svgViewbox, agentAttr, frame),
                   Engine.Gesture(isZooming, isPanning, panStartEmitted, lastPoint, lastTouches, listening),
                   dispatched)
    }

    predicate Valid()
      reads this
    {
      Engine.Valid(config, Snapshot())
    }

    /** The constructor (lines 113-200), once the agent group has been
        looked up and the original viewBox and matrix read. */
    constructor (c: Engine.Config)
      requires Engine.ValidConfig(c)
      ensures config == c && Valid() && Snapshot() == Engine.Init(c)
    {
      config := c;
      viewbox := c.original;
      svgViewbox := c.original;
      agentTransform := if c.hasAgent then Some(c.originalMatrix) else None;
      agentAttr := if c.hasAgent then Some(c.originalMatrix) else None;
      zoomLevel := 1.0;
      frame := None;
      isZooming := false;
      isPanning := false;
      panStartEmitted := false;
      lastPoint := None;
      lastTouches := [];
      listening := Engine.Listening(c.options.enableWheelZoom, c.options.enablePinchZoom, false,
                                    c.options.enablePanning, false);
      dispatched := [];
    }

    /** restrictToMargins (lines 477-606): returns `box` clamped against the
        live viewBox (the source clamps the box object in place), and with
        margins replaces this.viewbox by the live viewBox. */
    method RestrictToMargins(box: Box) returns (clamped: Box)
      requires Valid()
      modifies this
      ensures Valid()
      ensures var rr := Engine.RestrictToMargins(config, old(Snapshot()), box);
        clamped == rr.box && Snapshot() == old(Snapshot()).(view := rr.view)
    {
      if config.options.margins.None? {
        return box;
      }
      viewbox := svgViewbox;
      clamped := Restrict(box, svgViewbox, config.options.margins, config.display);
    }

    /** The doUpdate callback of update (lines 437-441 and 445-448). */
    method RunCommit(k: Engine.Commit)
      requires Valid() && Engine.CommitValid(config, k)
      modifies this
      ensures Valid() && Snapshot() == Engine.ApplyCommit(config, old(Snapshot()), k)
    {
      frame := None;
      match k
      case WriteViewbox(b) =>
        svgViewbox := b;
      case WriteTransform(m) =>
        if agentTransform.Some? {
          agentAttr := Some(m);
        }
    }

    /** The browser running the callback requestAnimationFrame was given. */
    method FireFrame()
      requires Valid() && frame.Some?
      modifies this
      ensures Valid() && Snapshot() == Engine.FireFrame(config, old(Snapshot()))
    {
      RunCommit(frame.value);
    }

    /** update (lines 420-460). */
    method Update(animate: bool)
      requires Valid()
      modifies this
      ensures Valid() && Snapshot() == Engine.Update(config, old(Snapshot()), animate)
    {
      var actOnAgent := (config.options.agentOnly && config.hasAgent) ||
                        (config.hasAgent && isPanning && agentTransform.Some?);
      if animate {
        if actOnAgent {
          agentAttr := agentTransform;
          return;
        }
        var ignored := RestrictToMargins(viewbox);
        svgViewbox := viewbox;
      } else {
        var k: Engine.Commit;
        if actOnAgent {
          k := Engine.WriteTransform(agentTransform.value);
        } else {
          var clamped := RestrictToMargins(viewbox);
          k := Engine.WriteViewbox(clamped);
        }
        if !config.options.performance {
          RunCommit(k);
        } else {
          frame := Some(k);
        }
      }
    }

    /** zoom (lines 236-272). */
    method Zoom(ratio: real, focus: Option<Point>, animate: bool)
      requires Valid()
      modifies this
      ensures Valid() && Snapshot() == Engine.Zoom(config, old(Snapshot()), ratio, focus, animate)
    {
      if ratio == 0.0 {
        return;
      }
      var k := ClampRatio(ratio);
      if Engine.Suppressed(k) {
        return;
      }
      ScaleView(k, focus.GetOr(Center(config.original)));
      Update(animate);
    }

    /** Lines 239-244 of zoom: the ratio that lands the level on zoomMax or
        zoomMin when it would overshoot or undershoot. */
    method ClampRatio(ratio: real) returns (k: real)
      requires Valid()
      ensures k == Engine.EffectiveRatio(zoomLevel, ratio, config.options.zoomMin, config.options.zoomMax)
      ensures zoomLevel * ratio > config.options.zoomMax ==> zoomLevel * k == config.options.zoomMax
      ensures zoomLevel * ratio < config.options.zoomMin ==> zoomLevel * k == config.options.zoomMin
      ensures config.options.zoomMin <= zoomLevel * ratio <= config.options.zoomMax ==> k == ratio
    {
      k := ratio;
      var lvl := zoomLevel * ratio;
      if lvl > config.options.zoomMax {
        k := config.options.zoomMax / zoomLevel;
      } else if lvl < config.options.zoomMin {
        k := config.options.zoomMin / zoomLevel;
      }
    }

    /** Lines 255-267 of zoom: the agent's matrix is scaled by k about the
        focus, or this.viewbox becomes the live viewBox scaled by 1 / k
        about it; the level is multiplied by k. */
    method ScaleView(k: real, f: Point)
      requires Valid() && k > 0.0
      modifies this
      ensures Valid()
      ensures Snapshot() == old(Snapshot()).(view := Engine.ZoomView(config, old(Snapshot()), k, f))
    {
      ghost var v := Engine.ZoomView(config, Snapshot(), k, f);
      if config.hasAgent && (isPanning || config.options.agentOnly) {
        agentTransform := Some(ScaleO(agentTransform.value, k, f));
      } else {
        viewbox := TransformBox(svgViewbox, ScaleAbout(1.0 / k, f));
      }
      zoomLevel := zoomLevel * k;
      assert Engine.View(zoomLevel, viewbox, agentTransform) == v;
    }

    /** zoomTo with a null level (line 281): the current level. */
    method CurrentZoom() returns (level: real)
      requires Valid()
      ensures level == zoomLevel && level > 0.0
    {
      return zoomLevel;
    }

    /** zoomTo (lines 280-305) with a level; `threw` when the agent's
        matrix is null. */
    method ZoomTo(lvl: real, focus: Option<Point>) returns (threw: bool)
      requires Valid() && lvl > 0.0
      modifies this
      ensures Valid()
      ensures var o := Engine.ZoomTo(config, old(Snapshot()), lvl, focus);
        Snapshot() == o.state && threw == o.threw
    {
      var center := Center(config.original);
      var delta := lvl / zoomLevel;
      var f := focus.GetOr(center);
      if agentTransform.None? {
        return true;
      }
      var m := CenterOn(agentTransform.value, f, center, delta);
      agentTransform := Some(m);
      zoomLevel := zoomLevel * delta;
      agentAttr := Some(m);
      return false;
    }

    /** pan (lines 313-328). */
    method Pan(dx: real, dy: real, animate: bool)
      requires Valid()
      modifies this
      ensures Valid() && Snapshot() == Engine.Pan(config, old(Snapshot()), dx, dy, animate)
    {
      ghost var t := old(Snapshot()).(view := Engine.PanView(config, old(Snapshot()), dx, dy));
      if config.hasAgent && (isPanning || config.options.agentOnly) {
        agentTransform := Some(TranslateO(agentTransform.value, dx, dy));
      } else {
        viewbox := TransformBox(viewbox, Translation(-dx, -dy));
      }
      assert Snapshot() == t;
      Update(animate);
    }

    /** panTo (lines 337-402): the point and level come from the target; a
        null agent matrix is caught, leaving everything as it was. */
    method PanTo(target: Engine.PanTarget, zoom: Engine.ZoomArg)
      requires Valid() && Engine.PanToArgs(target, zoom)
      modifies this
      ensures Valid() && Snapshot() == Engine.PanTo(config, old(Snapshot()), target, zoom)
    {
      var threw := ZoomTo(Engine.PanToLevel(config, target, zoom), Some(Engine.PanToPoint(config, target)));
    }

    /** restore (lines 219-228). */
    method Restore(animate: bool)
      requires Valid()
      modifies this
      ensures Valid() && Snapshot() == Engine.Restore(config, old(Snapshot()), animate)
    {
      viewbox := config.original;
      Update(animate);
    }

    /** agentTransformToViewbox (lines 202-217). */
    method AgentTransformToViewbox()
      requires Valid() && !isPanning
      modifies this
      ensures Valid() && Snapshot() == Engine.AgentTransformToViewbox(config, old(Snapshot()))
    {
      if config.options.agentOnly || !config.hasAgent || agentTransform.None? {
        return;
      }
      viewbox := TransformBox(viewbox, Inverse(agentTransform.value));
      agentAttr := None;
      agentTransform := None;
      svgViewbox := viewbox;
    }

    /** updateByViewbox (lines 461-466). */
    method UpdateByViewbox(box: Box)
      requires Valid() && Positive(box)
      modifies this
      ensures Valid() && Snapshot() == Engine.UpdateByViewbox(config, old(Snapshot()), box)
    {
      if config.hasAgent {
        return;
      }
      var clamped := RestrictToMargins(box);
      svgViewbox := clamped;
    }

    /** updateByTransform (lines 467-471). */
    method UpdateByTransform(transform: Option<Matrix>)
      requires Valid()
      modifies this
      ensures Valid() && Snapshot() == Engine.UpdateByTransform(config, old(Snapshot()), transform)
    {
      if config.hasAgent && transform.Some? {
        agentAttr := transform;
      }
    }

    /** handleWheelZoom (lines 613-673); see Handlers.WheelZoom for the
        inputs that stand for the browser. */
    method HandleWheelZoom(ev: WheelEvent, curve: real -> real, toUser: Matrix, svgZoom: real, prevented: bool)
      requires Valid() && svgZoom > 0.0
      modifies this
      ensures Valid()
      ensures Snapshot() == Handlers.WheelZoom(config, old(Snapshot()), ev, curve, toUser, svgZoom, prevented)
    {
      if config.options.zoomOnCtrl && !ev.ctrlKey {
        return;
      }
      var ratio := Handlers.WheelRatio(config, ev, curve);
      var focus := Apply(toUser, ev.client);
      if !config.options.agentOnly {
        zoomLevel := svgZoom;
      }
      var requested := zoomLevel * ratio;
      assert requested == Handlers.WheelRequest(config, old(Snapshot()), ev, curve, svgZoom);
      dispatched := dispatched + [Engine.ZoomRequested(requested, focus)];
      Handlers.WheelZoomSteps(config, old(Snapshot()), ev, curve, toUser, svgZoom, prevented);
      assert Snapshot() == Handlers.WheelNotified(config, old(Snapshot()), ev, curve, toUser, svgZoom);
      if prevented {
        return;
      }
      Zoom(ratio, Some(focus), false);
    }

    /** handlePanStart (lines 837-888); `threw` means its promise is
        rejected. */
    method HandlePanStart(ev: PointerEvent, allowed: bool) returns (threw: bool)
      requires Valid()
      modifies this
      ensures Valid()
      ensures var o := Handlers.PanStart(config, old(Snapshot()), ev, allowed);
        Snapshot() == o.state && threw == o.threw
    {
      if !ButtonAccepted(ev, config.options.panButton) {
        return false;
      } else if config.options.hasBeforePan && !allowed {
        return false;
      }
      threw := ArmPan(NormalizeEvent(ev));
    }

    /** Lines 859-887 of handlePanStart, once the event is accepted. */
    method ArmPan(touches: seq<Point>) returns (threw: bool)
      requires Valid()
      modifies this
      ensures Valid()
      ensures var o := Handlers.ArmPan(config, old(Snapshot()), touches);
        Snapshot() == o.state && threw == o.threw
    {
      panStartEmitted := false;
      listening := Engine.Listening(listening.wheel, listening.pinchStart, listening.pinchMove, false,
                                    listening.panMove);
      lastTouches := touches;
      if isZooming || |touches| == 0 {
        return !isZooming;
      }
      lastPoint := Some(touches[0]);
      listening := Engine.Listening(listening.wheel, listening.pinchStart, listening.pinchMove, false, true);
      return false;
    }

    /** handlePanStop (lines 893-921). The pan's move and up handlers are
        removed before the agent is folded into the viewBox. */
    method HandlePanStop()
      requires Valid()
      modifies this
      ensures Valid() && Snapshot() == Handlers.PanStop(config, old(Snapshot()))
    {
      lastPoint := None;
      listening := listening.(panMove := false, panStart := true);
      if panStartEmitted {
        isPanning := false;
        panStartEmitted := false;
        dispatched := dispatched + [Engine.PanEnded];
        AgentTransformToViewbox();
      }
    }

    /** handlePanning (lines 927-983); `threw` when the event has no touch
        or lasts.point is null. */
    method HandlePanning(ev: PointerEvent, toUser: Matrix, prevented: bool) returns (threw: bool)
      requires Valid()
      modifies this
      ensures Valid()
      ensures var o := Handlers.Panning(config, old(Snapshot()), ev, toUser, prevented);
        Snapshot() == o.state && threw == o.threw
    {
      var touches := NormalizeEvent(ev);
      if |touches| == 0 || lastPoint.None? {
        return true;
      }
      var cur := touches[0];
      var last := lastPoint.value;
      var p1 := Apply(toUser, last);
      var p2 := Apply(toUser, cur);
      var dx := p2.x - p1.x;
      var dy := p2.y - p1.y;
      if dx == 0.0 && dy == 0.0 {
        return false;
      }
      ghost var s0 := Snapshot();
      if !panStartEmitted {
        BeginPan();
      }
      assert Snapshot() == if s0.gesture.panStartEmitted then s0 else Handlers.BeginPan(config, s0);
      PanMove(toUser, last, cur, prevented);
      return false;
    }

    /** Lines 968-982 of handlePanning: the move is announced and, unless a
        listener cancels it, the view pans. */
    method PanMove(toUser: Matrix, last: Point, cur: Point, prevented: bool)
      requires Valid()
      modifies this
      ensures Valid() && Snapshot() == Handlers.PanMove(config, old(Snapshot()), toUser, last, cur, prevented)
    {
      var p1 := Apply(toUser, last);
      var p2 := Apply(toUser, cur);
      dispatched := dispatched + [Engine.Panned(p2, p1)];
      if prevented {
        return;
      }
      lastPoint := Some(cur);
      assert Handlers.PanDelta(toUser, last, cur) == Point(p2.x - p1.x, p2.y - p1.y);
      Pan(p2.x - p1.x, p2.y - p1.y, false);
    }

    /** Lines 946-966 of handlePanning: the first move of a pan. */
    method BeginPan()
      requires Valid() && !panStartEmitted
      modifies this
      ensures Valid() && Snapshot() == Handlers.BeginPan(config, old(Snapshot()))
    {
      isPanning := true;
      panStartEmitted := true;
      dispatched := dispatched + [Engine.PanStarted];
      viewbox := svgViewbox;
      if config.hasAgent && !config.options.agentOnly {
        agentTransform := Some(Identity);
      }
    }

    /** handlePinchZoomStart (lines 680-725). The pan handler it hands a
        single touch to is not awaited, so its rejection is dropped. */
    method HandlePinchZoomStart(ev: PointerEvent, allowed: bool, prevented: bool)
      requires Valid()
      modifies this
      ensures Valid()
      ensures Snapshot() == Handlers.PinchZoomStart(config, old(Snapshot()), ev, allowed, prevented)
    {
      lastTouches := NormalizeEvent(ev);
      var handoff := config.options.enablePanning && config.options.oneFingerPan;
      if |lastTouches| < 2 {
        if handoff {
          var rejected := HandlePanStart(ev, allowed);
        }
        return;
      }
      if handoff {
        HandlePanStop();
      }
      dispatched := dispatched + [Engine.PinchZoomStarted];
      if prevented {
        return;
      }
      StartPinch();
    }

    /** Lines 709-724 of handlePinchZoomStart. */
    method StartPinch()
      requires Valid()
      modifies this
      ensures Valid() && Snapshot() == Handlers.StartPinch(config, old(Snapshot()))
    {
      listening := listening.(pinchStart := false);
      isZooming := true;
      if config.hasAgent && !config.options.agentOnly {
        agentTransform := Some(Identity);
      } else {
        viewbox := svgViewbox;
      }
      listening := listening.(pinchMove := true);
    }

    /** handlePinchZoomStop (lines 732-753). */
    method HandlePinchZoomStop(ev: PointerEvent, allowed: bool)
      requires Valid()
      modifies this
      ensures Valid()
      ensures Snapshot() == Handlers.PinchZoomStop(config, old(Snapshot()), ev, allowed)
    {
      var touches := NormalizeEvent(ev);
      if |touches| > 1 {
        return;
      }
      isZooming := false;
      dispatched := dispatched + [Engine.PinchZoomEnded];
      listening := listening.(pinchMove := false, pinchStart := true);
      if |touches| > 0 && config.options.enablePanning && config.options.oneFingerPan {
        var rejected := HandlePanStart(ev, allowed);
      }
    }

    /** handlePinchZoom (lines 759-831): it throws at line 815, reading the
        undeclared `box` (the page is assumed to define no global `box`),
        after storing the current touches when both lists hold two touches;
        `math` is what it computed before. */
    method HandlePinchZoom(ev: PointerEvent, toUser: Matrix, lastDistance: real, currentDistance: real)
      returns (threw: bool, math: Option<PinchMath>)
      requires Valid()
      modifies this
      ensures Valid() && threw
      ensures var o := Handlers.PinchZoom(config, old(Snapshot()), ev, toUser, lastDistance, currentDistance);
        Snapshot() == o.state && math == o.math
    {
      var current := NormalizeEvent(ev);
      if |lastTouches| < 2 || |current| < 2 {
        return true, None;
      }
      if currentDistance == 0.0 {
        math := None;
      } else {
        var amount := lastDistance / currentDistance;
        if (zoomLevel < config.options.zoomMin && amount > 1.0) ||
           (zoomLevel > config.options.zoomMax && amount < 1.0) {
          amount := 1.0;
        }
        var currentFocus := Midpoint(current[0], current[1]);
        var lastFocus := Midpoint(lastTouches[0], lastTouches[1]);
        var p := Apply(toUser, currentFocus);
        var focusP := Apply(toUser, FocusAhead(currentFocus, lastFocus));
        math := Some(PinchMath(amount, p, focusP, PinchTransform(amount, focusP, p)));
      }
      lastTouches := current;
      return true, math;
    }
  }
}
