/** The highlight context menu (src/components/ui/Annotation/AnnotationContextMenu.jsx):
    where the menu is anchored, which effects its buttons and keys produce,
    and how many Escape listeners it leaves attached. */
module ContextMenu {
  import opened Common

  /** The colour choices, in display order. */
  datatype Colour = Colour(name: string, value: string)

  const Colours: seq<Colour> := [
    Colour("Yellow", "#ffff00"),
    Colour("Green", "#00ff00"),
    Colour("Blue", "#00bfff"),
    Colour("Pink", "#ff69b4"),
    Colour("Orange", "#ffa500")
  ]

  /** The menu's box and the gap it keeps from the viewport's edges. */
  const MenuWidth := 360
  const MenuHeight := 120
  const Pad := 8

  /** `Math.round`: halves round towards +Infinity. */
  function Round(r: real): (n: int)
    ensures n as real - 0.5 <= r < n as real + 0.5
  {
    (r + 0.5).Floor
  }

  function Max(a: int, b: int): int { if a >= b then a else b }
  function Min(a: int, b: int): int { if a <= b then a else b }

  /** `clampToViewport(x, y)`: the anchor (bottom centre of the menu) moved so
      that the box lies `Pad` inside the viewport where it fits. */
  function ClampToViewport(x: int, y: int, vw: int, vh: int): (p: (int, int))
    ensures p.0 - MenuWidth / 2 >= Pad && p.1 - MenuHeight >= Pad
    ensures vw >= MenuWidth + 2 * Pad ==> p.0 + MenuWidth / 2 <= vw - Pad
    ensures vh >= MenuHeight + 2 * Pad ==> p.1 <= vh - Pad
  {
    var left := x - MenuWidth / 2;
    var top := y - MenuHeight;
    var clampedLeft := Max(Pad, Min(left, vw - MenuWidth - Pad));
    var clampedTop := Max(Pad, Min(top, vh - MenuHeight - Pad));
    (clampedLeft + MenuWidth / 2, clampedTop + MenuHeight)
  }

  /** An anchor whose box already fits is left where it is. */
  lemma ClampKeepsFittingAnchor(x: int, y: int, vw: int, vh: int)
    requires Pad <= x - MenuWidth / 2 && x + MenuWidth / 2 <= vw - Pad
    requires Pad <= y - MenuHeight && y <= vh - Pad
    ensures ClampToViewport(x, y, vw, vh) == (x, y)
  {
  }

  /** Clamping an anchor that was already clamped changes nothing. */
  lemma ClampIdempotent(x: int, y: int, vw: int, vh: int)
    requires vw >= MenuWidth + 2 * Pad && vh >= MenuHeight + 2 * Pad
    ensures var p := ClampToViewport(x, y, vw, vh); ClampToViewport(p.0, p.1, vw, vh) == p
  {
    var p := ClampToViewport(x, y, vw, vh);
    ClampKeepsFittingAnchor(p.0, p.1, vw, vh);
  }

  /** `position` as the caller passes it: either coordinate may be missing. */
  datatype Position = Position(x: Option<real>, y: Option<real>)

  /** Where the menu is drawn, or None when it renders nothing (no document,
      hidden, or no position).  A missing coordinate counts as 0. */
  function MenuAnchor(hasDocument: bool, visible: bool, position: Option<Position>, vw: int, vh: int): (a: Option<(int, int)>)
    ensures a.Some? <==> hasDocument && visible && position.Some?
    ensures a.Some? ==> a.value.0 - MenuWidth / 2 >= Pad && a.value.1 - MenuHeight >= Pad
  {
    if !hasDocument || !visible || position.None? then None
    else
      var x := Round(if position.value.x.Some? then position.value.x.value else 0.0);
      var y := Round(if position.value.y.Some? then position.value.y.value else 0.0);
      Some(ClampToViewport(x, y, vw, vh))
  }

  /** What the user does while the menu is shown. */
  datatype MenuInput =
    | ColourButton(index: nat)
    | CloseButton
    | BackdropClick(onBackdropItself: bool)

  /** What the menu asks of its owner. */
  datatype Effect = AddAnnotation(colour: string) | Close

  /** The click handlers: a colour adds a highlight in that colour and then
      closes; the close button and a click on the backdrop itself close;
      clicks inside the menu box stop there. */
  function HandleInput(input: MenuInput): (effects: seq<Effect>)
    ensures input.ColourButton? && input.index < |Colours| ==>
      effects == [AddAnnotation(Colours[input.index].value), Close]
    ensures input.CloseButton? ==> effects == [Close]
    ensures input.BackdropClick? ==> (effects == [Close] <==> input.onBackdropItself)
    ensures input.BackdropClick? && !input.onBackdropItself ==> effects == []
    ensures forall e :: e in effects && e.AddAnnotation? ==> exists c :: c in Colours && c.value == e.colour
  {
    match input
    case ColourButton(i) => if i < |Colours| then [AddAnnotation(Colours[i].value), Close] else []
    case CloseButton => [Close]
    case BackdropClick(self) => if self then [Close] else []
  }

  // ---------------------------------------------------------------------
  // Escape listeners

  /** The inputs of the `useMemo` that registers the Escape listener, one per
      recomputation (it recomputes whenever `visible`, `onClose` or
      `position` changes). */
  datatype MemoRun = MemoRun(hasDocument: bool, visible: bool, hasPosition: bool)

  predicate Registers(r: MemoRun)
  {
    r.hasDocument && r.visible && r.hasPosition
  }

  /** As written: each recomputation that passes the guard adds a listener,
      and the cleanup it returns is only the memoised value, which nothing
      calls, so no listener is ever removed. */
  function ListenersAsWritten(runs: seq<MemoRun>): (n: nat)
    ensures n <= |runs|
    ensures (forall i :: 0 <= i < |runs| ==> !Registers(runs[i])) ==> n == 0
  {
    if runs == [] then 0
    else ListenersAsWritten(runs[..|runs| - 1]) + (if Registers(runs[|runs| - 1]) then 1 else 0)
  }

  /** As an effect with cleanup would have it: only the latest run's listener
      is attached. */
  function Listeners(runs: seq<MemoRun>): (n: nat)
    ensures n <= 1
    ensures n == 1 <==> runs != [] && Registers(runs[|runs| - 1])
  {
    if runs != [] && Registers(runs[|runs| - 1]) then 1 else 0
  }

  /** Pressing Escape calls `onClose` once per attached listener. */
  function EscapeCloses(listeners: nat): (effects: seq<Effect>)
    ensures |effects| == listeners
    ensures forall e :: e in effects ==> e == Close
  {
    if listeners == 0 then [] else EscapeCloses(listeners - 1) + [Close]
  }

  /** Showing the menu and then hiding it leaves the as-written listener in
      place: Escape still calls `onClose` on a menu that is not shown. */
  lemma StaleEscapeListener()
    ensures var runs := [MemoRun(true, true, true), MemoRun(true, false, true)];
      EscapeCloses(ListenersAsWritten(runs)) == [Close] && EscapeCloses(Listeners(runs)) == []
  {
    var runs := [MemoRun(true, true, true), MemoRun(true, false, true)];
    assert runs[..1] == [MemoRun(true, true, true)];
    assert ListenersAsWritten(runs[..1]) == 1 by {
      assert runs[..1][..0] == [];
    }
  }

  /** As-written listeners pile up: each registering run adds one more
      `onClose` call per Escape press. */
  lemma ListenersAccumulate(runs: seq<MemoRun>, r: MemoRun)
    requires Registers(r)
    ensures ListenersAsWritten(runs + [r]) == ListenersAsWritten(runs) + 1
  {
    assert (runs + [r])[..|runs|] == runs;
  }

  /** With cleanup, Escape closes the menu exactly once while it is shown and
      does nothing once it is hidden. */
  lemma EscapeClosesOnlyShownMenu(runs: seq<MemoRun>)
    ensures runs != [] && Registers(runs[|runs| - 1]) ==> EscapeCloses(Listeners(runs)) == [Close]
    ensures (runs == [] || !Registers(runs[|runs| - 1])) ==> EscapeCloses(Listeners(runs)) == []
  {
  }
}
