/**
 * The two drag handles of the page. `#gutter` sits between the editor pane
 * and the right-hand pane and sets the editor pane's width; `#gutterV` sits
 * between the output section and the stdin section and sets the output
 * section's height. Each handle has its own "resizing" flag, set by a press
 * on that handle; a release anywhere clears both; a pointer move resizes the
 * pane of each handle whose flag is set, clamped to the container's current
 * size.
 */
module Resize {
  import opened Js
  import opened Monaco

  const MinLeft := 220       // narrowest editor pane
  const RightReserve := 320  // room kept for the right-hand pane
  const MinOut := 80         // lowest output section
  const InputReserve := 80   // room kept for the stdin section

  /** Page geometry a move handler reads: the split container's left edge and width, the right pane's top and height. */
  datatype Geometry = Geometry(splitLeft: int, splitWidth: int, rightTop: int, rightHeight: int)

  /**
   * The state the resize handlers write. `leftFixed` records that the editor
   * pane has been taken out of the flex layout (flex "none", the right pane
   * flex "1"), and `leftWidth` is its inline width in pixels, absent until a
   * width has been accepted; `outputFixed` and `outputHeight` are the same
   * for the output section and the stdin section.
   */
  datatype DragState = DragState(
    resizingH: bool,
    resizingV: bool,
    cursor: string,
    leftFixed: bool,
    leftWidth: Option<nat>,
    outputFixed: bool,
    outputHeight: Option<nat>)

  const Idle := DragState(false, false, "", false, None, false, None)

  /** The events the handlers listen to: a press on `#gutter`, a press on `#gutterV`, a release, a move. */
  datatype Event = DownH | DownV | Up | Move(clientX: int, clientY: int, geometry: Geometry)

  /** Raise `x` to `lo`, then lower it to `hi`. */
  function Clamp(x: int, lo: int, hi: int): (r: int)
    ensures r <= hi
    ensures lo <= hi ==> lo <= r
    ensures lo > hi ==> r == hi
  {
    var raised := if x < lo then lo else x;
    if raised > hi then hi else raised
  }

  function Distance(a: int, b: int): nat
  {
    if a < b then b - a else a - b
  }

  /**
   * With ordered bounds the clamp is the value of the range nearest to `x`
   * and leaves values already in range alone; clamping twice is clamping once.
   */
  lemma ClampProperties(x: int, lo: int, hi: int)
    ensures lo <= hi ==> forall y :: lo <= y <= hi ==> Distance(Clamp(x, lo, hi), x) <= Distance(y, x)
    ensures lo <= x <= hi ==> Clamp(x, lo, hi) == x
    ensures Clamp(Clamp(x, lo, hi), lo, hi) == Clamp(x, lo, hi)
  {
  }

  /** The editor pane width the horizontal handler computes for a pointer at `clientX`. */
  function LeftWidth(clientX: int, g: Geometry): int
  {
    Clamp(clientX - g.splitLeft, MinLeft, g.splitWidth - RightReserve)
  }

  /** The output section height the vertical handler computes for a pointer at `clientY`. */
  function OutputHeight(clientY: int, g: Geometry): int
  {
    Clamp(clientY - g.rightTop, MinOut, g.rightHeight - InputReserve)
  }

  /**
   * The editor pane always leaves 320 pixels to the right pane; it is at least
   * 220 wide when the container is at least 540 wide, and otherwise exactly
   * width - 320, below 220 and negative when the container is narrower than 320.
   */
  lemma LeftWidthBounds(clientX: int, g: Geometry)
    ensures LeftWidth(clientX, g) <= g.splitWidth - 320
    ensures g.splitWidth >= 540 ==> LeftWidth(clientX, g) >= 220
    ensures g.splitWidth < 540 ==> LeftWidth(clientX, g) == g.splitWidth - 320 < 220
    ensures LeftWidth(clientX, g) >= 0 <==> g.splitWidth >= 320
    ensures 220 <= clientX - g.splitLeft <= g.splitWidth - 320 ==> LeftWidth(clientX, g) == clientX - g.splitLeft
  {
    ClampProperties(clientX - g.splitLeft, MinLeft, g.splitWidth - RightReserve);
  }

  /**
   * The output section leaves 80 pixels to the stdin section; it is at least
   * 80 high when the pane is at least 160 high, and negative when the pane is
   * lower than 80.
   */
  lemma OutputHeightBounds(clientY: int, g: Geometry)
    ensures OutputHeight(clientY, g) <= g.rightHeight - 80
    ensures g.rightHeight >= 160 ==> OutputHeight(clientY, g) >= 80
    ensures g.rightHeight < 160 ==> OutputHeight(clientY, g) == g.rightHeight - 80 < 80
    ensures OutputHeight(clientY, g) >= 0 <==> g.rightHeight >= 80
    ensures 80 <= clientY - g.rightTop <= g.rightHeight - 80 ==> OutputHeight(clientY, g) == clientY - g.rightTop
  {
    ClampProperties(clientY - g.rightTop, MinOut, g.rightHeight - InputReserve);
  }

  /**
   * Assigning `v + "px"` to a width or height style property: a negative
   * length is invalid CSS, so the browser drops the assignment and the
   * property keeps its previous value.
   */
  function CssLength(previous: Option<nat>, v: int): Option<nat>
  {
    if v >= 0 then Some(v) else previous
  }

  /** The horizontal move handler: nothing unless its flag is set. */
  function MoveH(s: DragState, clientX: int, g: Geometry): DragState
  {
    if s.resizingH then s.(leftFixed := true, leftWidth := CssLength(s.leftWidth, LeftWidth(clientX, g))) else s
  }

  /** The vertical move handler: nothing unless its flag is set. */
  function MoveV(s: DragState, clientY: int, g: Geometry): DragState
  {
    if s.resizingV then s.(outputFixed := true, outputHeight := CssLength(s.outputHeight, OutputHeight(clientY, g))) else s
  }

  /** The state after one event; a move runs the horizontal handler, then the vertical one. */
  function Step(s: DragState, e: Event): DragState
  {
    match e
    case DownH => s.(resizingH := true, cursor := "col-resize")
    case DownV => s.(resizingV := true, cursor := "row-resize")
    case Up =>
      if s.resizingH || s.resizingV then s.(resizingH := false, resizingV := false, cursor := "") else s
    case Move(x, y, g) => MoveV(MoveH(s, x, g), y, g)
  }

  /** How many layout passes of the editor one event requests (when the editor exists). */
  function LayoutRequests(s: DragState, e: Event): (n: nat)
    ensures n <= 1
    ensures n == 1 <==> (e.Move? && s.resizingH) || (e.Up? && (s.resizingH || s.resizingV))
  {
    match e
    case Move(_, _, _) => if s.resizingH then 1 else 0
    case Up => if s.resizingH || s.resizingV then 1 else 0
    case _ => 0
  }

  /** The state after a sequence of events. */
  function Replay(s: DragState, events: seq<Event>): DragState
    decreases |events|
  {
    if events == [] then s else Replay(Step(s, events[0]), events[1..])
  }

  predicate AllMoves(events: seq<Event>)
  {
    forall i :: 0 <= i < |events| ==> events[i].Move?
  }

  lemma AllMovesSlice(events: seq<Event>, i: nat, j: nat)
    requires AllMoves(events) && i <= j <= |events|
    ensures AllMoves(events[i..j])
  {
    forall k | 0 <= k < j - i ensures events[i..j][k].Move? {
      assert events[i..j][k] == events[i + k];
    }
  }

  /** Replaying one more event is one more step. */
  lemma {:induction false} ReplaySnoc(s: DragState, events: seq<Event>, e: Event)
    ensures Replay(s, events + [e]) == Step(Replay(s, events), e)
    decreases |events|
  {
    if events == [] {
      assert [e][1..] == [];
    } else {
      assert (events + [e])[1..] == events[1..] + [e];
      ReplaySnoc(Step(s, events[0]), events[1..], e);
    }
  }

  /** A press on a handle sets that handle's flag and cursor, and nothing else. */
  lemma PressSetsOnlyItsFlag(s: DragState)
    ensures Step(s, DownH).resizingH && Step(s, DownH).cursor == "col-resize"
    ensures Step(s, DownH).(resizingH := s.resizingH, cursor := s.cursor) == s
    ensures Step(s, DownV).resizingV && Step(s, DownV).cursor == "row-resize"
    ensures Step(s, DownV).(resizingV := s.resizingV, cursor := s.cursor) == s
  {
  }

  /**
   * A move never touches the flags or the cursor, and leaves alone the pane
   * of each handle whose flag is clear. Under a set flag the pane leaves the
   * flex layout and takes the clamped size, unless that size is negative,
   * in which case it keeps its previous size.
   */
  lemma MoveRespectsFlags(s: DragState, x: int, y: int, g: Geometry)
    ensures var t := Step(s, Move(x, y, g));
      t.resizingH == s.resizingH && t.resizingV == s.resizingV && t.cursor == s.cursor
    ensures var t := Step(s, Move(x, y, g));
      !s.resizingH ==> t.leftFixed == s.leftFixed && t.leftWidth == s.leftWidth
    ensures var t := Step(s, Move(x, y, g));
      !s.resizingV ==> t.outputFixed == s.outputFixed && t.outputHeight == s.outputHeight
    ensures s.resizingH ==> Step(s, Move(x, y, g)).leftFixed
    ensures s.resizingH && g.splitWidth >= 320 ==> Step(s, Move(x, y, g)).leftWidth == Some(LeftWidth(x, g))
    ensures s.resizingH && g.splitWidth < 320 ==> Step(s, Move(x, y, g)).leftWidth == s.leftWidth
    ensures s.resizingV ==> Step(s, Move(x, y, g)).outputFixed
    ensures s.resizingV && g.rightHeight >= 80 ==> Step(s, Move(x, y, g)).outputHeight == Some(OutputHeight(y, g))
    ensures s.resizingV && g.rightHeight < 80 ==> Step(s, Move(x, y, g)).outputHeight == s.outputHeight
  {
    LeftWidthBounds(x, g);
    OutputHeightBounds(y, g);
  }

  /** A release clears both flags and the cursor; a release with no drag in progress changes nothing. */
  lemma ReleaseClears(s: DragState)
    ensures !Step(s, Up).resizingH && !Step(s, Up).resizingV
    ensures s.resizingH || s.resizingV ==> Step(s, Up).cursor == ""
    ensures !s.resizingH && !s.resizingV ==> Step(s, Up) == s
    ensures Step(s, Up).(resizingH := s.resizingH, resizingV := s.resizingV, cursor := s.cursor) == s
  {
  }

  /** Moves with both flags clear change nothing at all. */
  lemma {:induction false} MovesWhileIdleChangeNothing(s: DragState, moves: seq<Event>)
    requires !s.resizingH && !s.resizingV
    requires AllMoves(moves)
    ensures Replay(s, moves) == s
    decreases |moves|
  {
    if moves != [] {
      assert moves[0].Move?;
      AllMovesSlice(moves, 1, |moves|);
      MovesWhileIdleChangeNothing(s, moves[1..]);
    }
  }

  /** After a release, no pointer move resizes anything until the next press. */
  lemma {:induction false} MovesAfterReleaseChangeNothing(s: DragState, moves: seq<Event>)
    requires AllMoves(moves)
    ensures Replay(Step(s, Up), moves) == Step(s, Up)
  {
    ReleaseClears(s);
    MovesWhileIdleChangeNothing(Step(s, Up), moves);
  }

  /** Moves never change the flags or the cursor. */
  lemma {:induction false} MovesKeepFlags(s: DragState, moves: seq<Event>)
    requires AllMoves(moves)
    ensures Replay(s, moves).resizingH == s.resizingH && Replay(s, moves).resizingV == s.resizingV
    ensures Replay(s, moves).cursor == s.cursor
    decreases |moves|
  {
    if moves != [] {
      MoveRespectsFlags(s, moves[0].clientX, moves[0].clientY, moves[0].geometry);
      AllMovesSlice(moves, 1, |moves|);
      MovesKeepFlags(Step(s, moves[0]), moves[1..]);
    }
  }

  /**
   * During a horizontal drag the flag stays set, the editor pane is out of the
   * flex layout, and its width is the clamped width of the latest move, or,
   * when that width is negative, the width it had before that move.
   */
  lemma DragFollowsLastMove(s: DragState, moves: seq<Event>)
    requires s.resizingH
    requires AllMoves(moves) && moves != []
    ensures Replay(s, moves).resizingH && Replay(s, moves).leftFixed
    ensures var last := moves[|moves| - 1];
      last.geometry.splitWidth >= 320 ==>
        Replay(s, moves).leftWidth == Some(LeftWidth(last.clientX, last.geometry))
    ensures var last := moves[|moves| - 1];
      last.geometry.splitWidth < 320 ==>
        Replay(s, moves).leftWidth == Replay(s, moves[..|moves| - 1]).leftWidth
  {
    var n := |moves|;
    var init, last := moves[..n - 1], moves[n - 1];
    assert moves == init + [last];
    AllMovesSlice(moves, 0, n - 1);
    ReplaySnoc(s, init, last);
    MovesKeepFlags(s, init);
    MoveRespectsFlags(Replay(s, init), last.clientX, last.clientY, last.geometry);
  }

  /**
   * Nothing keeps the two flags exclusive: a press on the second handle
   * before a release of the first (e.g. a release outside the window) sets
   * both, and one move then resizes both panes.
   */
  lemma BothFlagsReachable(x: int, y: int, g: Geometry)
    ensures Replay(Idle, [DownH, DownV]).resizingH && Replay(Idle, [DownH, DownV]).resizingV
    ensures var t := Replay(Idle, [DownH, DownV, Move(x, y, g)]);
      t.leftFixed && t.outputFixed &&
      (g.splitWidth >= 320 ==> t.leftWidth == Some(LeftWidth(x, g))) &&
      (g.rightHeight >= 80 ==> t.outputHeight == Some(OutputHeight(y, g)))
  {
    var both := Step(Step(Idle, DownH), DownV);
    assert [DownH, DownV][1..] == [DownV];
    assert Replay(Idle, [DownH, DownV]) == both;
    var events := [DownH, DownV, Move(x, y, g)];
    assert events[1..] == [DownV, Move(x, y, g)] && events[1..][1..] == [Move(x, y, g)];
    assert Replay(Idle, events) == Replay(both, [Move(x, y, g)]) == Step(both, Move(x, y, g));
    MoveRespectsFlags(both, x, y, g);
  }

  /** The global flags, the body cursor and the pane styles, as the handlers update them. */
  class Resizer {
    var isResizingH: bool
    var isResizingV: bool
    var cursor: string
    var leftFixed: bool
    var leftWidth: Option<nat>
    var outputFixed: bool
    var outputHeight: Option<nat>

    function State(): DragState
      reads this
    {
      DragState(isResizingH, isResizingV, cursor, leftFixed, leftWidth, outputFixed, outputHeight)
    }

    /** The state at page load: no drag, no cursor hint, stylesheet layout. */
    constructor ()
      ensures State() == Idle
    {
      isResizingH, isResizingV, cursor := false, false, "";
      leftFixed, leftWidth, outputFixed, outputHeight := false, None, false, None;
    }

    /** Press on `#gutter`: start resizing the editor pane's width. */
    method OnGutterMouseDown()
      modifies this
      ensures State() == Step(old(State()), DownH)
    {
      isResizingH := true;
      cursor := "col-resize";
    }

    /** Press on `#gutterV`: start resizing the output section's height. */
    method OnGutterVMouseDown()
      modifies this
      ensures State() == Step(old(State()), DownV)
    {
      isResizingV := true;
      cursor := "row-resize";
    }

    /** The `#gutter` move listener; it also asks the editor for a layout pass. */
    method OnMouseMoveH(clientX: int, g: Geometry, editor: Editor?)
      modifies this, editor
      ensures State() == MoveH(old(State()), clientX, g)
      ensures editor != null ==> editor.layouts == old(editor.layouts) + (if old(isResizingH) then 1 else 0)
      ensures editor != null ==> editor.text == old(editor.text) && editor.mode == old(editor.mode)
      ensures editor != null ==> editor.theme == old(editor.theme)
    {
      if !isResizingH {
        return;
      }
      var totalWidth := g.splitWidth;
      var width := clientX - g.splitLeft;
      var minLeft := MinLeft;
      var maxLeft := totalWidth - RightReserve;
      if width < minLeft {
        width := minLeft;
      }
      if width > maxLeft {
        width := maxLeft;
      }
      leftFixed := true;
      if width >= 0 {
        // a negative width is invalid CSS: the browser ignores the assignment
        leftWidth := Some(width);
      }
      if editor != null {
        editor.Layout();
      }
    }

    /** The `#gutterV` move listener. */
    method OnMouseMoveV(clientY: int, g: Geometry)
      modifies this
      ensures State() == MoveV(old(State()), clientY, g)
    {
      if !isResizingV {
        return;
      }
      var offsetY := clientY - g.rightTop;
      var minOut := MinOut;
      var maxOut := g.rightHeight - InputReserve;
      var h := offsetY;
      if h < minOut {
        h := minOut;
      }
      if h > maxOut {
        h := maxOut;
      }
      outputFixed := true;
      if h >= 0 {
        // a negative height is invalid CSS: the browser ignores the assignment
        outputHeight := Some(h);
      }
    }

    /** One pointer move: both move listeners run, the horizontal one first. */
    method OnMouseMove(clientX: int, clientY: int, g: Geometry, editor: Editor?)
      modifies this, editor
      ensures State() == Step(old(State()), Move(clientX, clientY, g))
      ensures editor != null ==>
        editor.layouts == old(editor.layouts) + LayoutRequests(old(State()), Move(clientX, clientY, g))
      ensures editor != null ==> editor.text == old(editor.text) && editor.mode == old(editor.mode)
      ensures editor != null ==> editor.theme == old(editor.theme)
    {
      OnMouseMoveH(clientX, g, editor);
      OnMouseMoveV(clientY, g);
    }

    /** Release anywhere in the page: end whichever drags are in progress. */
    method OnMouseUp(editor: Editor?)
      modifies this, editor
      ensures State() == Step(old(State()), Up)
      ensures editor != null ==> editor.layouts == old(editor.layouts) + LayoutRequests(old(State()), Up)
      ensures editor != null ==> editor.text == old(editor.text) && editor.mode == old(editor.mode)
      ensures editor != null ==> editor.theme == old(editor.theme)
    {
      if isResizingH || isResizingV {
        isResizingH := false;
        isResizingV := false;
        cursor := "";
        if editor != null {
          editor.Layout();
        }
      }
    }
  }
}
