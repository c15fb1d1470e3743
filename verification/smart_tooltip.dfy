/**
 * The information tooltips of the results dashboard: where an open tooltip
 * is placed so that it stays inside the viewport, and the module-wide
 * registry that keeps at most one tooltip open at a time.
 *
 * The measurements the component reads from the DOM (the trigger's and the
 * tooltip's bounding rectangles, the window size) and the mobile/tablet flag
 * are parameters. Every tooltip registers a close callback under its id; the
 * registry maps each mounted id to that tooltip's own state, and the
 * callback becomes the `CloseOthers` update.
 */
module SmartTooltip {
  import opened Common

  // ------------------------------------------------------------ placement

  /** Distance kept from the viewport edges. */
  const Padding: real := 16.0
  /** Gap between the trigger and the tooltip. */
  const Gap: real := 8.0

  datatype TriggerRect = TriggerRect(top: real, bottom: real, left: real)
  datatype Size = Size(width: real, height: real)
  datatype Position = Position(top: real, left: real)

  /** Horizontal placement on desktop: start at the trigger, pull back from the right edge, then from the left. */
  function DesktopLeft(trigger: TriggerRect, tooltip: Size, viewportWidth: real): real {
    var left0 := trigger.left;
    var left1 := if left0 + tooltip.width > viewportWidth - Padding then viewportWidth - tooltip.width - Padding else left0;
    if left1 < Padding then Padding else left1
  }

  /** Vertical placement on desktop: below the trigger, flipped above it if the bottom edge would be crossed, never above the top padding. */
  function DesktopTop(trigger: TriggerRect, tooltip: Size, viewportHeight: real): real {
    var top0 := trigger.bottom + Gap;
    var top1 := if top0 + tooltip.height > viewportHeight - Padding then trigger.top - tooltip.height - Gap else top0;
    if top1 < Padding then Padding else top1
  }

  /**
   * `calculatePosition` with its DOM reads lifted to parameters. The tooltip
   * never starts above the top padding or left of the left padding; on
   * mobile and tablet it is pinned to the left padding, and on desktop a
   * tooltip narrow enough to fit between the two paddings keeps its right
   * edge inside the right padding.
   */
  function CalculatePosition(trigger: TriggerRect, tooltip: Size, viewportWidth: real, viewportHeight: real,
                             isMobileOrTablet: bool): (p: Position)
    ensures p.top >= Padding && p.left >= Padding
    ensures isMobileOrTablet ==> p.left == Padding
    ensures !isMobileOrTablet && tooltip.width <= viewportWidth - 2.0 * Padding ==>
      p.left + tooltip.width <= viewportWidth - Padding
  {
    if isMobileOrTablet then
      Position(Max(Padding, (viewportHeight - tooltip.height) / 2.0), Padding)
    else
      Position(DesktopTop(trigger, tooltip, viewportHeight), DesktopLeft(trigger, tooltip, viewportWidth))
  }

  /**
   * On desktop the tooltip sits 8 pixels below the trigger, aligned with its
   * left edge, whenever that fits; it flips above the trigger only when it
   * would cross the bottom padding.
   */
  lemma DesktopAnchorsToTrigger(trigger: TriggerRect, tooltip: Size, vw: real, vh: real)
    ensures var p := CalculatePosition(trigger, tooltip, vw, vh, false);
      trigger.bottom + Gap + tooltip.height <= vh - Padding && trigger.bottom + Gap >= Padding ==>
        p.top == trigger.bottom + Gap
    ensures var p := CalculatePosition(trigger, tooltip, vw, vh, false);
      trigger.bottom + Gap + tooltip.height > vh - Padding ==>
        p.top == Max(Padding, trigger.top - tooltip.height - Gap)
    ensures var p := CalculatePosition(trigger, tooltip, vw, vh, false);
      Padding <= trigger.left && trigger.left + tooltip.width <= vw - Padding ==>
        p.left == trigger.left
  {
  }

  /** On mobile and tablet the tooltip is pinned to the left padding and centred vertically, wherever the trigger is. */
  lemma MobileIgnoresTrigger(trigger: TriggerRect, other: TriggerRect, tooltip: Size, vw: real, vh: real)
    ensures CalculatePosition(trigger, tooltip, vw, vh, true).left == Padding
    ensures CalculatePosition(trigger, tooltip, vw, vh, true) == CalculatePosition(other, tooltip, vw, vh, true)
    ensures vh - tooltip.height >= 2.0 * Padding ==>
      CalculatePosition(trigger, tooltip, vw, vh, true).top * 2.0 + tooltip.height == vh
  {
  }

  // ------------------------------------------------------------- registry

  /**
   * One mounted tooltip: whether it is open, whether its position has been
   * computed since it opened, whether it was opened by hovering, whether a
   * hover-out close is pending, and its last computed position.
   */
  datatype Tip = Tip(isOpen: bool, isPositioned: bool, hoverOpen: bool, closePending: bool, position: Position)

  const ClosedTip: Tip := Tip(false, false, false, false, Position(0.0, 0.0))

  /** The mounted tooltips by id, and the module-wide id of the one last opened. */
  datatype Registry = Registry(tips: map<string, Tip>, currentOpen: Option<string>)

  const Empty: Registry := Registry(map[], None)

  /** Every open tooltip is the one the registry records as open. */
  ghost predicate OpenIsCurrent(reg: Registry) {
    forall t :: t in reg.tips && reg.tips[t].isOpen ==> reg.currentOpen == Some(t)
  }

  ghost predicate AtMostOneOpen(reg: Registry) {
    forall a, b :: a in reg.tips && b in reg.tips && reg.tips[a].isOpen && reg.tips[b].isOpen ==> a == b
  }

  lemma OpenIsCurrentImpliesAtMostOne(reg: Registry)
    requires OpenIsCurrent(reg)
    ensures AtMostOneOpen(reg)
  {
  }

  /** The close callbacks of every other registered tooltip. */
  function CloseOthers(tips: map<string, Tip>, id: string): map<string, Tip> {
    map t | t in tips :: if t == id then tips[t] else tips[t].(isOpen := false, hoverOpen := false)
  }

  /**
   * `handleOpen`: close every other tooltip, record this one as open, open
   * it. No registration is added or removed, and afterwards the opened
   * tooltip is the only open one.
   */
  function HandleOpen(reg: Registry, id: string): (r: Registry)
    ensures r.tips.Keys == reg.tips.Keys
    ensures id !in reg.tips ==> r == reg
    ensures id in reg.tips ==>
      && r.currentOpen == Some(id)
      && r.tips[id].isOpen
      && (forall t :: t in r.tips && t != id ==> !r.tips[t].isOpen && !r.tips[t].hoverOpen)
    ensures id in reg.tips ==> r.tips[id] == reg.tips[id].(isOpen := true)
    ensures id in reg.tips ==> forall t :: t in r.tips && t != id ==> r.tips[t] == reg.tips[t].(isOpen := false, hoverOpen := false)
    ensures id in reg.tips ==> OpenIsCurrent(r)
  {
    if id !in reg.tips then reg
    else
      var tips := CloseOthers(reg.tips, id);
      Registry(tips[id := tips[id].(isOpen := true)], Some(id))
  }

  /**
   * `handleClose`: close this tooltip, and forget the open id only if it is
   * this one. Every other tooltip is left as it was.
   */
  function HandleClose(reg: Registry, id: string): (r: Registry)
    ensures r.tips.Keys == reg.tips.Keys
    ensures id in reg.tips ==> !r.tips[id].isOpen && !r.tips[id].isPositioned && !r.tips[id].hoverOpen
    ensures id in reg.tips && reg.currentOpen == Some(id) ==> r.currentOpen == None
    ensures reg.currentOpen != Some(id) ==> r.currentOpen == reg.currentOpen
    ensures forall t :: t in reg.tips && t != id ==> r.tips[t] == reg.tips[t]
    ensures OpenIsCurrent(reg) ==> OpenIsCurrent(r)
  {
    if id !in reg.tips then reg
    else
      Registry(
        reg.tips[id := reg.tips[id].(isOpen := false, isPositioned := false, hoverOpen := false)],
        if reg.currentOpen == Some(id) then None else reg.currentOpen)
  }

  /**
   * `handleToggle`: close if open, otherwise open as a click (not a hover).
   * The tooltip's open flag flips, and an open by toggling is never a hover
   * open.
   */
  function HandleToggle(reg: Registry, id: string): (r: Registry)
    ensures r.tips.Keys == reg.tips.Keys
    ensures id in reg.tips ==> r.tips[id].isOpen == !reg.tips[id].isOpen && !r.tips[id].hoverOpen
    ensures OpenIsCurrent(reg) ==> OpenIsCurrent(r)
  {
    if id !in reg.tips then reg
    else if reg.tips[id].isOpen then HandleClose(reg, id)
    else
      var r := HandleOpen(reg, id);
      r.(tips := r.tips[id := r.tips[id].(hoverOpen := false)])
  }

  /**
   * `handleMouseEnter`: cancel a pending hover-out close, and open as a
   * hover if closed. Desktop only: on mobile and tablet nothing changes.
   */
  function HandleMouseEnter(reg: Registry, id: string, isMobileOrTablet: bool): (r: Registry)
    ensures r.tips.Keys == reg.tips.Keys
    ensures isMobileOrTablet || id !in reg.tips ==> r == reg
    ensures !isMobileOrTablet && id in reg.tips ==> r.tips[id].isOpen && !r.tips[id].closePending
    ensures !isMobileOrTablet && id in reg.tips && !reg.tips[id].isOpen ==>
      r.tips[id].hoverOpen && r.currentOpen == Some(id)
    ensures OpenIsCurrent(reg) ==> OpenIsCurrent(r)
  {
    if isMobileOrTablet || id !in reg.tips then reg
    else
      var reg1 := reg.(tips := reg.tips[id := reg.tips[id].(closePending := false)]);
      if reg1.tips[id].isOpen then reg1
      else
        var r := HandleOpen(reg1, id);
        r.(tips := r.tips[id := r.tips[id].(hoverOpen := true)])
  }

  /**
   * `handleMouseLeave`: schedule a close, but only for a tooltip that
   * hovering opened; no tooltip opens or closes yet. Desktop only.
   */
  function HandleMouseLeave(reg: Registry, id: string, isMobileOrTablet: bool): (r: Registry)
    ensures r.tips.Keys == reg.tips.Keys && r.currentOpen == reg.currentOpen
    ensures forall t :: t in reg.tips ==> r.tips[t].isOpen == reg.tips[t].isOpen
    ensures isMobileOrTablet ==> r == reg
    ensures !isMobileOrTablet && id in reg.tips ==>
      (r.tips[id].closePending <==> (reg.tips[id].closePending || (reg.tips[id].isOpen && reg.tips[id].hoverOpen)))
  {
    if isMobileOrTablet || id !in reg.tips then reg
    else if reg.tips[id].isOpen && reg.tips[id].hoverOpen then
      reg.(tips := reg.tips[id := reg.tips[id].(closePending := true)])
    else reg
  }

  /**
   * The scheduled hover-out close runs `handleClose`: a pending close
   * closes the tooltip and is then no longer pending.
   */
  function HoverTimerFires(reg: Registry, id: string): (r: Registry)
    ensures r.tips.Keys == reg.tips.Keys
    ensures id in reg.tips && reg.tips[id].closePending ==> !r.tips[id].isOpen && !r.tips[id].closePending
    ensures id !in reg.tips || !reg.tips[id].closePending ==> r == reg
    ensures OpenIsCurrent(reg) ==> OpenIsCurrent(r)
  {
    if id !in reg.tips || !reg.tips[id].closePending then reg
    else
      var r := HandleClose(reg, id);
      r.(tips := r.tips[id := r.tips[id].(closePending := false)])
  }

  /**
   * The position effect: an open tooltip is measured and placed inside the
   * paddings. Measuring opens or closes nothing.
   */
  function Measure(reg: Registry, id: string, trigger: TriggerRect, tooltip: Size,
                   viewportWidth: real, viewportHeight: real, isMobileOrTablet: bool): (r: Registry)
    ensures r.tips.Keys == reg.tips.Keys && r.currentOpen == reg.currentOpen
    ensures forall t :: t in reg.tips ==> r.tips[t].isOpen == reg.tips[t].isOpen
    ensures id in reg.tips && reg.tips[id].isOpen ==>
      r.tips[id].isPositioned && r.tips[id].position.top >= Padding && r.tips[id].position.left >= Padding
  {
    if id !in reg.tips || !reg.tips[id].isOpen then reg
    else
      var p := CalculatePosition(trigger, tooltip, viewportWidth, viewportHeight, isMobileOrTablet);
      reg.(tips := reg.tips[id := reg.tips[id].(position := p, isPositioned := true)])
  }

  datatype TipEvent =
    | Mount(id: string)
    | Unmount(id: string)
    | MouseEnter(id: string, mobile: bool)
    | MouseLeave(id: string, mobile: bool)
    | HoverTimer(id: string)
    | ButtonClick(id: string, mobile: bool)
    /** Escape, a click outside, the backdrop or the close button: each is live only while the tooltip is open. */
    | Dismiss(id: string)
    | Measured(id: string, trigger: TriggerRect, tooltip: Size, viewportWidth: real, viewportHeight: real, mobile: bool)

  /**
   * One event. Only mounting and unmounting change which tooltips are
   * registered, and every event keeps the open tooltip, if any, recorded as
   * the open one.
   */
  function Step(reg: Registry, e: TipEvent): (r: Registry)
    ensures e.Mount? ==> r.tips.Keys == reg.tips.Keys + {e.id}
    ensures e.Unmount? ==> r.tips.Keys == reg.tips.Keys - {e.id}
    ensures !e.Mount? && !e.Unmount? ==> r.tips.Keys == reg.tips.Keys
    ensures OpenIsCurrent(reg) ==> OpenIsCurrent(r)
  {
    match e
    case Mount(id) => if id in reg.tips then reg else reg.(tips := reg.tips[id := ClosedTip])
    case Unmount(id) => reg.(tips := reg.tips - {id})
    case MouseEnter(id, mobile) => HandleMouseEnter(reg, id, mobile)
    case MouseLeave(id, mobile) => HandleMouseLeave(reg, id, mobile)
    case HoverTimer(id) => HoverTimerFires(reg, id)
    case ButtonClick(id, mobile) => if mobile then HandleToggle(reg, id) else reg
    case Dismiss(id) => if id in reg.tips && reg.tips[id].isOpen then HandleClose(reg, id) else reg
    case Measured(id, trigger, tooltip, vw, vh, mobile) => Measure(reg, id, trigger, tooltip, vw, vh, mobile)
  }

  function Run(reg: Registry, events: seq<TipEvent>): Registry
    decreases |events|
  {
    if |events| == 0 then reg else Run(Step(reg, events[0]), events[1..])
  }

  /** From no tooltips at all, no sequence of events ever leaves two tooltips open. */
  lemma {:induction false} RunKeepsAtMostOneOpen(reg: Registry, events: seq<TipEvent>)
    requires OpenIsCurrent(reg)
    ensures OpenIsCurrent(Run(reg, events)) && AtMostOneOpen(Run(reg, events))
    decreases |events|
  {
    if |events| == 0 {
      OpenIsCurrentImpliesAtMostOne(reg);
    } else {
      RunKeepsAtMostOneOpen(Step(reg, events[0]), events[1..]);
    }
  }
}
