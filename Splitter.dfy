/** The splitter window of an editor frame: up to four editor panes arranged in
    a grid of one or two rows and one or two columns, separated by split bars the
    user drags, toggles or double-clicks. */
module Splitter {
  import opened Common

  /** Number of view slots the splitter owns. */
  const MAXCOUNTOFVIEW := 4
  /** Width of a split bar and the extra grab margin around it, before DPI scaling. */
  const SPLITTER_FRAME_WIDTH := 3
  const SPLITTER_MARGIN := 2

  /** An editor view; every view is created with the number of the pane it fills. */
  datatype EditView = EditView(index: int)

  datatype Rect = Rect(left: int, top: int, right: int, bottom: int)

  /** One element of the child list: a pane number and the rectangle given to it. */
  datatype Child = Child(index: int, rc: Rect)

  /** The cursor shape the mouse handler selects over a split bar. */
  datatype Cursor = Unchanged | SizeNS | SizeWE | SizeAll

  /** The cursor shown over a hit code: a resize arrow for each bar, the four-way
      arrow at their crossing, and no change elsewhere. */
  function CursorFor(hit: int): Cursor
  {
    if hit == 1 then SizeNS else if hit == 2 then SizeWE else if hit == 3 then SizeAll else Unchanged
  }

  /** Application messages the splitter window handles; `OtherAppMsg` stands for any
      other message in the application range. */
  datatype AppMessage = DoSplitMsg(posX: int, posY: int) | SetActivePaneMsg(pane: int) | OtherAppMsg

  /** A split position closer than `margin` to either edge of a window of size `max`
      (the far edge counting the margin twice) removes the split. */
  function CheckMargin(value: int, max: int, margin: int): (r: int)
    ensures margin <= value <= max - margin * 2 ==> r == value
    ensures !(margin <= value <= max - margin * 2) ==> r == 0
  {
    if value < margin || max - margin * 2 < value then 0 else value
  }

  /** A position that passed the check once passes it again unchanged, as long as the
      window keeps its size. */
  lemma CheckMarginIdempotent(value: int, max: int, margin: int)
    requires 0 < margin
    ensures CheckMargin(CheckMargin(value, max, margin), max, margin) == CheckMargin(value, max, margin)
  {
  }

  // ---------------------------------------------------------------------------
  // Reference description of the pane layout

  /** Pane `p` is shown in a `rows` x `cols` layout: panes are numbered row by row,
      so its row `p / 2` and its column `p % 2` must both exist. */
  predicate PaneVisible(p: int, rows: int, cols: int)
  {
    0 <= p < MAXCOUNTOFVIEW && p / 2 < rows && p % 2 < cols
  }

  predicate StrictlyIncreasing(s: seq<int>)
  {
    forall i, j :: 0 <= i < j < |s| ==> s[i] < s[j]
  }

  /** The visible panes numbered `p` or more, in increasing order. */
  function VisibleFrom(p: nat, rows: int, cols: int): seq<int>
    decreases MAXCOUNTOFVIEW - p
  {
    if p >= MAXCOUNTOFVIEW then []
    else if PaneVisible(p, rows, cols) then [p] + VisibleFrom(p + 1, rows, cols)
    else VisibleFrom(p + 1, rows, cols)
  }

  /** VisibleFrom lists exactly the visible panes numbered `p` or more. */
  lemma {:induction false} VisibleFromMembers(p: nat, rows: int, cols: int)
    decreases MAXCOUNTOFVIEW - p
    ensures forall q :: q in VisibleFrom(p, rows, cols) <==> p <= q && PaneVisible(q, rows, cols)
  {
    if p < MAXCOUNTOFVIEW {
      VisibleFromMembers(p + 1, rows, cols);
    }
  }

  /** VisibleFrom lists them in increasing order. */
  lemma {:induction false} VisibleFromIncreasing(p: nat, rows: int, cols: int)
    decreases MAXCOUNTOFVIEW - p
    ensures StrictlyIncreasing(VisibleFrom(p, rows, cols))
  {
    if p < MAXCOUNTOFVIEW {
      VisibleFromIncreasing(p + 1, rows, cols);
      VisibleFromMembers(p + 1, rows, cols);
      var rest := VisibleFrom(p + 1, rows, cols);
      forall j | 0 <= j < |rest|
        ensures p < rest[j]
      {
        assert rest[j] in rest;
      }
    }
  }

  /** All visible panes of a layout in increasing order: the order in which the
      next-pane and previous-pane commands walk them. */
  function PaneList(rows: int, cols: int): seq<int>
  {
    VisibleFrom(0, rows, cols)
  }

  /** The pane list holds exactly the visible panes, in increasing order. */
  lemma PaneListSpec(rows: int, cols: int)
    ensures forall q :: q in PaneList(rows, cols) <==> PaneVisible(q, rows, cols)
    ensures StrictlyIncreasing(PaneList(rows, cols))
  {
    VisibleFromMembers(0, rows, cols);
    VisibleFromIncreasing(0, rows, cols);
  }

  /** The four layouts and their panes: 1x1 shows {0}, 2x1 shows {0,2}, 1x2 shows
      {0,1} and 2x2 shows all four. */
  lemma PaneListShapes()
    ensures PaneList(1, 1) == [0]
    ensures PaneList(2, 1) == [0, 2]
    ensures PaneList(1, 2) == [0, 1]
    ensures PaneList(2, 2) == [0, 1, 2, 3]
  {
  }

  /** The element after `p` in `s`, or -1 when `p` is last or absent. */
  function NextIn(s: seq<int>, p: int): int
  {
    if |s| < 2 then -1 else if s[0] == p then s[1] else NextIn(s[1..], p)
  }

  /** The element before `p` in `s`, or -1 when `p` is first or absent. */
  function PrevIn(s: seq<int>, p: int): int
  {
    if |s| < 2 then -1 else if s[1] == p then s[0] else PrevIn(s[1..], p)
  }

  /** In a list of pane numbers without repetitions, stepping forward from the k-th
      element reaches the (k+1)-th and stepping back from it returns; both steps
      fall off the list (-1) exactly at its ends. */
  lemma {:induction false} NextPrevInverse(s: seq<int>, k: int)
    requires StrictlyIncreasing(s)
    requires forall i :: 0 <= i < |s| ==> 0 <= s[i]
    requires 0 <= k < |s|
    ensures NextIn(s, s[k]) == if k + 1 < |s| then s[k + 1] else -1
    ensures PrevIn(s, s[k]) == if k > 0 then s[k - 1] else -1
  {
    if |s| >= 2 {
      if k == 0 {
        PrevAbsent(s[1..], s[0]);
      } else {
        assert s[0] != s[k];
        NextPrevInverse(s[1..], k - 1);
      }
    }
  }

  /** Neither step starts from an element that is not in the list. */
  lemma {:induction false} StepAbsent(s: seq<int>, p: int)
    requires p !in s
    ensures NextIn(s, p) == -1 && PrevIn(s, p) == -1
  {
    if |s| >= 2 {
      StepAbsent(s[1..], p);
    }
  }

  /** Stepping back to an element smaller than every element of the list fails. */
  lemma {:induction false} PrevAbsent(s: seq<int>, p: int)
    requires forall i :: 0 <= i < |s| ==> p < s[i]
    ensures PrevIn(s, p) == -1
  {
    if |s| >= 2 {
      PrevAbsent(s[1..], p);
    }
  }

  /** The pane that keeps the focus when the layout becomes `rows` x `cols`: the old
      active pane's row survives only if there are two rows, its column only if
      there are two columns. */
  function ProjectPane(p: int, rows: int, cols: int): int
  {
    (if rows == 2 then p / 2 else 0) * 2 + (if cols == 2 then p % 2 else 0)
  }

  /** The projected pane is always shown, and a pane that is already shown keeps
      the focus. */
  lemma ProjectPaneVisible(p: int, rows: int, cols: int)
    requires 0 <= p < MAXCOUNTOFVIEW
    requires rows in {1, 2} && cols in {1, 2}
    ensures PaneVisible(ProjectPane(p, rows, cols), rows, cols)
    ensures PaneVisible(p, rows, cols) ==> ProjectPane(p, rows, cols) == p
  {
  }

  /** The pane numbers of a child list, in order. */
  function Indices(children: seq<Child>): (s: seq<int>)
    ensures |s| == |children|
    ensures forall k :: 0 <= k < |s| ==> s[k] == children[k].index
  {
    seq(|children|, k requires 0 <= k < |children| => children[k].index)
  }

  /** Number of occupied slots. */
  function CountViews(slots: seq<Option<EditView>>): nat
  {
    if slots == [] then 0 else (if slots[0].Some? then 1 else 0) + CountViews(slots[1..])
  }

  /** Slots filled as a prefix of length `c` hold exactly `c` views. */
  lemma {:induction false} CountViewsPrefix(slots: seq<Option<EditView>>, c: int)
    requires 0 <= c <= |slots|
    requires forall i :: 0 <= i < c ==> slots[i].Some?
    requires forall i :: c <= i < |slots| ==> slots[i].None?
    ensures CountViews(slots) == c
  {
    if slots != [] {
      if c > 0 {
        CountViewsPrefix(slots[1..], c - 1);
      } else {
        CountViewsPrefix(slots[1..], 0);
      }
    }
  }

  /** Is `c` strictly inside the grab zone of a bar at `pos`? */
  predicate OnBar(c: int, pos: int, frameWidth: int, margin: int)
  {
    pos - margin < c && c < pos + frameWidth + margin
  }

  // ---------------------------------------------------------------------------
  // The splitter window

  class SplitterWnd {
    /** DPI scaling of horizontal and vertical lengths (DpiScaleX / DpiScaleY). */
    const scaleX: int -> int
    const scaleY: int -> int

    /** The four view slots; slot `i` either is empty or holds the view of pane `i`. */
    const childWnd: array<Option<EditView>>
    /** Number of filled slots; they always form a prefix. */
    var childWndCount: int

    var allSplitRows: int
    var allSplitCols: int
    /** Vertical split position (between the rows) and horizontal split position
        (between the columns); 0 means "no split". */
    var vSplitPos: int
    var hSplitPos: int
    /** Which bars are being dragged: bit 1 the vertical split, bit 2 the horizontal one. */
    var dragging: int
    var dragPosX: int
    var dragPosY: int
    var activePane: int

    /** Client size recorded by the base window on WM_SIZE. */
    var cx: int
    var cy: int

    /** Both grid dimensions are 1 or 2. */
    predicate LayoutValid()
      reads this
    {
      allSplitRows in {1, 2} && allSplitCols in {1, 2}
    }

    /** The filled slots form a prefix, and slot `i` holds the view of pane `i`. */
    ghost predicate SlotsValid()
      reads this, childWnd
    {
      && childWnd.Length == MAXCOUNTOFVIEW
      && 1 <= childWndCount <= MAXCOUNTOFVIEW
      && (forall i :: 0 <= i < childWndCount ==> childWnd[i] == Some(EditView(i)))
      && (forall i :: childWndCount <= i < MAXCOUNTOFVIEW ==> childWnd[i] == None)
    }

    ghost predicate Valid()
      reads this, childWnd
    {
      && SlotsValid()
      && 0 < scaleX(32) && 0 < scaleY(32)
      && LayoutValid()
      && (allSplitRows == 2 <==> vSplitPos != 0)
      && (allSplitCols == 2 <==> hSplitPos != 0)
      && 0 <= vSplitPos && 0 <= hSplitPos
      && (childWndCount < MAXCOUNTOFVIEW ==> allSplitRows == 1 && allSplitCols == 1)
      && dragging in {0, 1, 2, 3}
      && 0 <= activePane < MAXCOUNTOFVIEW
    }

    /** Every slot holds its view, as after any split. */
    ghost predicate AllViews()
      reads this, childWnd
    {
      && childWnd.Length == MAXCOUNTOFVIEW
      && childWndCount == MAXCOUNTOFVIEW
      && (forall i :: 0 <= i < MAXCOUNTOFVIEW ==> childWnd[i] == Some(EditView(i)))
    }

    /** A new splitter: one view in slot 0, no split, pane 0 active, no drag. */
    constructor (scaleX: int -> int, scaleY: int -> int)
      requires 0 < scaleX(32) && 0 < scaleY(32)
      ensures Valid() && fresh(childWnd)
      ensures this.scaleX == scaleX && this.scaleY == scaleY
      ensures childWndCount == 1 && childWnd[0] == Some(EditView(0))
      ensures allSplitRows == 1 && allSplitCols == 1
      ensures vSplitPos == 0 && hSplitPos == 0
      ensures dragging == 0 && dragPosX == 0 && dragPosY == 0
      ensures activePane == 0
      ensures cx == 0 && cy == 0
    {
      this.scaleX := scaleX;
      this.scaleY := scaleY;
      childWnd := new Option<EditView>[MAXCOUNTOFVIEW](i => if i == 0 then Some(EditView(0)) else None);
      childWndCount := 1;
      allSplitRows, allSplitCols := 1, 1;
      vSplitPos, hSplitPos := 0, 0;
      dragging, dragPosX, dragPosY := 0, 0, 0;
      activePane := 0;
      cx, cy := 0, 0;
    }

    // -------------------------------------------------------------------------
    // Queries

    /** The view of the active pane. */
    function GetActiveView(): (v: EditView)
      reads this, childWnd
      requires Valid()
      requires childWnd[activePane].Some?
      ensures v.index == activePane
      ensures Some(v) == childWnd[activePane]
    {
      childWnd[activePane].value
    }

    /** The view of pane `n`. */
    function GetView(n: int): (v: EditView)
      reads this, childWnd
      requires Valid()
      requires 0 <= n < MAXCOUNTOFVIEW && childWnd[n].Some?
      ensures v.index == n
    {
      childWnd[n].value
    }

    /** Pane `n` has a view. */
    function IsPaneEnabled(n: int): (r: bool)
      reads this, childWnd
      requires Valid()
      ensures r <==> 0 <= n < MAXCOUNTOFVIEW && childWnd[n].Some?
    {
      0 <= n && n < childWndCount
    }

    /** Number of views created so far. */
    function CountPanes(): (n: int)
      reads this, childWnd
      requires Valid()
      ensures n == CountViews(childWnd[..])
      ensures 1 <= n <= MAXCOUNTOFVIEW
    {
      CountViewsPrefix(childWnd[..], childWndCount);
      childWndCount
    }

    /** The panes of the current layout and their rectangles.  The rectangles are
        kept as the window code computes them (right and bottom are extents). */
    function CalcChildren(cx: int, cy: int): (children: seq<Child>)
      reads this
      requires LayoutValid()
      ensures Indices(children) == PaneList(allSplitRows, allSplitCols)
      ensures children[0] == Child(0, children[0].rc)
    {
      PaneListShapes();
      var frameHeight := scaleY(SPLITTER_FRAME_WIDTH);
      var frameWidth := scaleX(SPLITTER_FRAME_WIDTH);
      if allSplitRows == 1 && allSplitCols == 1 then
        [Child(0, Rect(0, 0, cx, cy))]
      else if allSplitRows == 2 && allSplitCols == 1 then
        [Child(0, Rect(0, 0, cx, vSplitPos)),
         Child(2, Rect(0, vSplitPos + frameHeight, cx, cy - (vSplitPos + frameHeight)))]
      else if allSplitRows == 1 && allSplitCols == 2 then
        [Child(0, Rect(0, 0, hSplitPos, cy)),
         Child(1, Rect(hSplitPos + frameWidth, 0, cx - (hSplitPos + frameWidth), cy))]
      else
        [Child(0, Rect(0, 0, hSplitPos, vSplitPos)),
         Child(1, Rect(hSplitPos + frameWidth, 0, cx - (hSplitPos + frameWidth), cy)),
         Child(2, Rect(0, vSplitPos + frameHeight, hSplitPos, cy - (vSplitPos + frameHeight))),
         Child(3, Rect(hSplitPos + frameWidth, vSplitPos + frameHeight,
                       cx - (hSplitPos + frameWidth), cy - (vSplitPos + frameHeight)))]
    }

    /** Which split bars the point lies on: bit 1 for the bar between the rows, bit 2
        for the bar between the columns.  A bar counts only if it exists. */
    function HitTestSplitter(xPos: int, yPos: int): (r: int)
      reads this
      requires LayoutValid()
      ensures 0 <= r <= 3
      ensures (r == 1 || r == 3) <==>
        allSplitRows == 2 && OnBar(yPos, vSplitPos, scaleX(SPLITTER_FRAME_WIDTH), scaleX(SPLITTER_MARGIN))
      ensures (r == 2 || r == 3) <==>
        allSplitCols == 2 && OnBar(xPos, hSplitPos, scaleX(SPLITTER_FRAME_WIDTH), scaleX(SPLITTER_MARGIN))
    {
      var frameWidth := scaleX(SPLITTER_FRAME_WIDTH);
      var margin := scaleX(SPLITTER_MARGIN);
      if allSplitRows == 1 && allSplitCols == 1 then 0
      else if allSplitRows == 2 && allSplitCols == 1 then
        (if vSplitPos - margin < yPos && yPos < vSplitPos + frameWidth + margin then 1 else 0)
      else if allSplitRows == 1 && allSplitCols == 2 then
        (if hSplitPos - margin < xPos && xPos < hSplitPos + frameWidth + margin then 2 else 0)
      else if vSplitPos - margin < yPos && yPos < vSplitPos + frameWidth + margin &&
              hSplitPos - margin < xPos && xPos < hSplitPos + frameWidth + margin then 3
      else if vSplitPos - margin < yPos && yPos < vSplitPos + frameWidth + margin then 1
      else if hSplitPos - margin < xPos && xPos < hSplitPos + frameWidth + margin then 2
      else 0
    }

    /** The pane before the active one in the pane list, or -1
        (PanesFollowPaneList relates it to the pane list). */
    function GetPrevPane(): int
      reads this
    {
      if allSplitRows == 1 && allSplitCols == 1 then -1
      else if allSplitRows == 2 && allSplitCols == 1 then
        (if activePane == 2 then 0 else -1)
      else if allSplitRows == 1 && allSplitCols == 2 then
        (if activePane == 1 then 0 else -1)
      else if activePane == 1 then 0
      else if activePane == 2 then 1
      else if activePane == 3 then 2
      else -1
    }

    /** The pane after the active one in the pane list, or -1. */
    function GetNextPane(): int
      reads this
    {
      if allSplitRows == 1 && allSplitCols == 1 then -1
      else if allSplitRows == 2 && allSplitCols == 1 then
        (if activePane == 0 then 2 else -1)
      else if allSplitRows == 1 && allSplitCols == 2 then
        (if activePane == 0 then 1 else -1)
      else if activePane == 0 then 1
      else if activePane == 1 then 2
      else if activePane == 2 then 3
      else -1
    }

    /** The first pane of every layout. */
    function GetFirstPane(): (p: int)
      reads this
      requires LayoutValid()
      ensures p == PaneList(allSplitRows, allSplitCols)[0]
    {
      PaneListShapes();
      0
    }

    /** The last pane of the current layout. */
    function GetLastPane(): (p: int)
      reads this
      requires LayoutValid()
      ensures var panes := PaneList(allSplitRows, allSplitCols); p == panes[|panes| - 1]
    {
      PaneListShapes();
      if allSplitRows == 1 && allSplitCols == 1 then 0
      else if allSplitRows == 1 && allSplitCols == 2 then 1
      else if allSplitRows == 2 && allSplitCols == 1 then 2
      else 3
    }

    /** The split positions DoSplit ends with for a request (nHorizontal, nVertical):
        (-1, -1) asks for the current positions again, and every position passes
        the margin check against the current client size. */
    function SplitTarget(nHorizontal: int, nVertical: int, oldH: int, oldV: int): (int, int)
      reads this
    {
      var h := if nHorizontal == -1 && nVertical == -1 then oldH else nHorizontal;
      var v := if nHorizontal == -1 && nVertical == -1 then oldV else nVertical;
      (CheckMargin(h, cx, scaleX(32)), CheckMargin(v, cy, scaleY(32)))
    }

    // -------------------------------------------------------------------------
    // Operations

    /** Creates the view of pane `index` if the child list names that pane and its
        slot is still empty. */
    method CreatePane(index: int, children: seq<Child>) returns (created: bool)
      requires childWnd.Length == MAXCOUNTOFVIEW
      requires forall i :: i in Indices(children) ==> 0 <= i < MAXCOUNTOFVIEW
      modifies this`childWndCount, childWnd
      ensures created <==> index in Indices(children) && old(childWnd[index]) == None
      ensures created ==> childWnd[index] == Some(EditView(index)) && childWndCount == old(childWndCount) + 1
      ensures forall i :: 0 <= i < MAXCOUNTOFVIEW && (i != index || !created) ==> childWnd[i] == old(childWnd[i])
      ensures !created ==> childWndCount == old(childWndCount)
    {
      created := false;
      if index in Indices(children) && childWnd[index] == None {
        childWnd[index] := Some(EditView(index));
        childWndCount := childWndCount + 1;
        created := true;
      }
    }

    /** The fill loop of DoSplit: every empty slot gets its view, in slot order. */
    method FillViews()
      requires SlotsValid()
      modifies this`childWndCount, childWnd
      ensures SlotsValid()
      ensures childWndCount == MAXCOUNTOFVIEW
    {
      while childWndCount != MAXCOUNTOFVIEW
        invariant 1 <= childWndCount <= MAXCOUNTOFVIEW
        invariant forall i :: 0 <= i < childWndCount ==> childWnd[i] == Some(EditView(i))
        invariant forall i :: childWndCount <= i < MAXCOUNTOFVIEW ==> childWnd[i] == None
        decreases MAXCOUNTOFVIEW - childWndCount
      {
        childWnd[childWndCount] := Some(EditView(childWndCount));
        childWndCount := childWndCount + 1;
      }
    }

    /** Creates the pane of every child; with all slots filled this creates nothing. */
    method CreatePanes(children: seq<Child>)
      requires SlotsValid() && childWndCount == MAXCOUNTOFVIEW
      requires forall i :: i in Indices(children) ==> 0 <= i < MAXCOUNTOFVIEW
      modifies this`childWndCount, childWnd
      ensures childWndCount == MAXCOUNTOFVIEW
      ensures forall i :: 0 <= i < MAXCOUNTOFVIEW ==> childWnd[i] == old(childWnd[i])
    {
      for k := 0 to |children|
        invariant childWndCount == MAXCOUNTOFVIEW
        invariant forall i :: 0 <= i < MAXCOUNTOFVIEW ==> childWnd[i] == old(childWnd[i])
      {
        var created := CreatePane(children[k].index, children);
      }
    }

    /** Splits the window at the given positions (0: no split, -1 for both: keep the
        current positions), creating all four views first.  Returns the pane that
        is told to become active. */
    method DoSplit(nHorizontal: int, nVertical: int) returns (notified: int)
      requires Valid()
      modifies this`hSplitPos, this`vSplitPos, this`childWndCount, this`allSplitRows, this`allSplitCols, childWnd
      ensures Valid()
      ensures (hSplitPos, vSplitPos) == SplitTarget(nHorizontal, nVertical, old(hSplitPos), old(vSplitPos))
      ensures AllViews()
      ensures notified == ProjectPane(old(activePane), allSplitRows, allSplitCols)
      ensures PaneVisible(notified, allSplitRows, allSplitCols)
    {
      SetSplitPositions(nHorizontal, nVertical);
      FillViews();
      var children := CalcChildren(cx, cy);
      PaneListSpec(allSplitRows, allSplitCols);
      CreatePanes(children);

      notified := ApplyLayout();
    }

    /** The position step of DoSplit: (-1, -1) keeps the current positions, and
        both positions pass the margin check. */
    method SetSplitPositions(nHorizontal: int, nVertical: int)
      modifies this`hSplitPos, this`vSplitPos
      ensures (hSplitPos, vSplitPos) == SplitTarget(nHorizontal, nVertical, old(hSplitPos), old(vSplitPos))
    {
      var h, v := nHorizontal, nVertical;
      if h == -1 && v == -1 {
        v := vSplitPos;
        h := hSplitPos;
      }
      v := CheckMargin(v, cy, scaleY(32));
      h := CheckMargin(h, cx, scaleX(32));
      vSplitPos := v;
      hSplitPos := h;
    }

    /** The layout branch of DoSplit: the grid follows the new split positions, and
        the pane to activate is chosen from the old active pane. */
    method ApplyLayout() returns (notified: int)
      requires 0 <= activePane < MAXCOUNTOFVIEW
      modifies this`allSplitRows, this`allSplitCols
      ensures allSplitRows == (if vSplitPos != 0 then 2 else 1)
      ensures allSplitCols == (if hSplitPos != 0 then 2 else 1)
      ensures notified == ProjectPane(activePane, allSplitRows, allSplitCols)
      ensures PaneVisible(notified, allSplitRows, allSplitCols)
    {
      if vSplitPos == 0 && hSplitPos == 0 {
        allSplitRows, allSplitCols := 1, 1;
        notified := 0;
      } else if vSplitPos != 0 && hSplitPos == 0 {
        allSplitRows, allSplitCols := 2, 1;
        notified := if activePane == 0 || activePane == 1 then 0 else 2;
      } else if vSplitPos == 0 && hSplitPos != 0 {
        allSplitRows, allSplitCols := 1, 2;
        notified := if activePane == 0 || activePane == 2 then 0 else 1;
      } else {
        allSplitRows, allSplitCols := 2, 2;
        notified := activePane;
      }
      ProjectPaneVisible(activePane, allSplitRows, allSplitCols);
    }

    /** Records the pane that has the focus. */
    method SetActivePane(index: int)
      requires Valid()
      requires 0 <= index < MAXCOUNTOFVIEW
      modifies this`activePane
      ensures Valid()
      ensures activePane == index
    {
      activePane := index;
    }

    /** Toggles the split between the rows: removes it when present, else splits at
        half the client height; the split between the columns is kept. */
    method VSplitOnOff(clientRight: nat, clientBottom: nat) returns (notified: int)
      requires Valid()
      modifies this`hSplitPos, this`vSplitPos, this`childWndCount, this`allSplitRows, this`allSplitCols, childWnd
      ensures Valid() && AllViews()
      ensures hSplitPos == CheckMargin(old(hSplitPos), cx, scaleX(32))
      ensures vSplitPos == if old(allSplitRows) == 1 then CheckMargin(clientBottom / 2, cy, scaleY(32)) else 0
      ensures notified == ProjectPane(activePane, allSplitRows, allSplitCols)
    {
      if allSplitRows == 1 && allSplitCols == 1 {
        notified := DoSplit(0, clientBottom / 2);
      } else if allSplitRows == 1 && allSplitCols > 1 {
        notified := DoSplit(hSplitPos, clientBottom / 2);
      } else if allSplitRows > 1 && allSplitCols == 1 {
        notified := DoSplit(0, 0);
      } else {
        notified := DoSplit(hSplitPos, 0);
      }
    }

    /** Toggles the split between the columns, symmetric to VSplitOnOff. */
    method HSplitOnOff(clientRight: nat, clientBottom: nat) returns (notified: int)
      requires Valid()
      modifies this`hSplitPos, this`vSplitPos, this`childWndCount, this`allSplitRows, this`allSplitCols, childWnd
      ensures Valid() && AllViews()
      ensures vSplitPos == CheckMargin(old(vSplitPos), cy, scaleY(32))
      ensures hSplitPos == if old(allSplitCols) == 1 then CheckMargin(clientRight / 2, cx, scaleX(32)) else 0
      ensures notified == ProjectPane(activePane, allSplitRows, allSplitCols)
    {
      if allSplitRows == 1 && allSplitCols == 1 {
        notified := DoSplit(clientRight / 2, 0);
      } else if allSplitRows == 1 && allSplitCols > 1 {
        notified := DoSplit(0, 0);
      } else if allSplitRows > 1 && allSplitCols == 1 {
        notified := DoSplit(clientRight / 2, vSplitPos);
      } else {
        notified := DoSplit(0, vSplitPos);
      }
    }

    /** With both splits present removes both; otherwise adds each missing split at
        half the client size and keeps the existing one. */
    method VHSplitOnOff(clientRight: nat, clientBottom: nat) returns (notified: int)
      requires Valid()
      modifies this`hSplitPos, this`vSplitPos, this`childWndCount, this`allSplitRows, this`allSplitCols, childWnd
      ensures Valid() && AllViews()
      ensures old(allSplitRows) == 2 && old(allSplitCols) == 2 ==> vSplitPos == 0 && hSplitPos == 0
      ensures !(old(allSplitRows) == 2 && old(allSplitCols) == 2) ==>
        vSplitPos == CheckMargin(if old(allSplitRows) == 1 then clientBottom / 2 else old(vSplitPos), cy, scaleY(32)) &&
        hSplitPos == CheckMargin(if old(allSplitCols) == 1 then clientRight / 2 else old(hSplitPos), cx, scaleX(32))
      ensures notified == ProjectPane(activePane, allSplitRows, allSplitCols)
    {
      var x, y;
      if allSplitRows > 1 && allSplitCols > 1 {
        x, y := 0, 0;
      } else {
        y := if allSplitRows == 1 then clientBottom / 2 else vSplitPos;
        x := if allSplitCols == 1 then clientRight / 2 else hSplitPos;
      }
      notified := DoSplit(x, y);
    }

    /** Moves the drag tracker to (xPos, yPos). */
    method DrawSplitter(xPos: int, yPos: int)
      modifies this`dragPosX, this`dragPosY
      ensures dragPosX == xPos && dragPosY == yPos
    {
      dragPosX := xPos;
      dragPosY := yPos;
    }

    /** WM_MOUSEMOVE: picks the cursor for the bar under the mouse and, while a drag
        is in progress, moves the tracker to the mouse position clamped to
        [DpiScaleX(1), client edge - DpiScaleX(6)] on each axis. */
    method OnMouseMove(lParam: int, clientRight: nat, clientBottom: nat) returns (cursor: Cursor)
      requires Valid()
      modifies this`dragPosX, this`dragPosY
      ensures Valid()
      ensures var hit := HitTestSplitter(ShortOf(LoWord(lParam)), ShortOf(HiWord(lParam)));
        cursor == CursorFor(hit)
      ensures dragging == 0 ==> dragPosX == old(dragPosX) && dragPosY == old(dragPosY)
      ensures dragging != 0 ==>
        dragPosX == Clamp(ShortOf(LoWord(lParam)), scaleX(1), clientRight - scaleX(6)) &&
        dragPosY == Clamp(ShortOf(HiWord(lParam)), scaleX(1), clientBottom - scaleX(6))
    {
      var xPos := ShortOf(LoWord(lParam));
      var yPos := ShortOf(HiWord(lParam));
      var hit := HitTestSplitter(xPos, yPos);
      cursor := CursorFor(hit);
      if dragging != 0 {
        var n1 := scaleX(1);
        var n6 := scaleX(6);
        if xPos < n1 {
          xPos := n1;
        }
        if xPos > clientRight - n6 {
          xPos := clientRight - n6;
        }
        if yPos < n1 {
          yPos := n1;
        }
        if yPos > clientBottom - n6 {
          yPos := clientBottom - n6;
        }
        DrawSplitter(xPos, yPos);
      }
    }

    /** WM_LBUTTONDOWN: starts dragging the bars under the mouse, if any, and puts the
        tracker at the mouse position. */
    method OnLButtonDown(lParam: int)
      requires Valid()
      modifies this`dragging, this`dragPosX, this`dragPosY
      ensures Valid()
      ensures var hit := HitTestSplitter(ShortOf(LoWord(lParam)), ShortOf(HiWord(lParam)));
        dragging == if hit != 0 then hit else old(dragging)
      ensures dragPosX == ShortOf(LoWord(lParam)) && dragPosY == ShortOf(HiWord(lParam))
    {
      var xPos := ShortOf(LoWord(lParam));
      var yPos := ShortOf(HiWord(lParam));
      var hit := HitTestSplitter(xPos, yPos);
      if hit != 0 {
        dragging := hit;
      }
      DrawSplitter(xPos, yPos);
    }

    /** WM_LBUTTONUP: ends a drag and moves the dragged bars to the tracker position;
        a bar that is not dragged keeps its position.  Returns the pane notified by
        the split, if one was made. */
    method OnLButtonUp() returns (notified: Option<int>)
      requires Valid()
      modifies this`hSplitPos, this`vSplitPos, this`childWndCount, this`allSplitRows, this`allSplitCols, childWnd, this`dragging, this`dragPosX, this`dragPosY
      ensures Valid()
      ensures dragging == 0 && dragPosX == old(dragPosX) && dragPosY == old(dragPosY)
      ensures old(dragging) == 0 ==>
        && notified == None && hSplitPos == old(hSplitPos) && vSplitPos == old(vSplitPos)
        && childWndCount == old(childWndCount) && unchanged(childWnd)
        && allSplitRows == old(allSplitRows) && allSplitCols == old(allSplitCols)
      ensures old(dragging) != 0 ==> AllViews() && notified == Some(ProjectPane(activePane, allSplitRows, allSplitCols))
      ensures old(dragging) == 1 ==>
        (hSplitPos, vSplitPos) == SplitTarget(old(hSplitPos), if old(allSplitRows) == 1 then 0 else old(dragPosY), old(hSplitPos), old(vSplitPos))
      ensures old(dragging) == 2 ==>
        (hSplitPos, vSplitPos) == SplitTarget(if old(allSplitCols) == 1 then 0 else old(dragPosX), old(vSplitPos), old(hSplitPos), old(vSplitPos))
      ensures old(dragging) == 3 ==>
        (hSplitPos, vSplitPos) == SplitTarget(if old(allSplitCols) == 1 then 0 else old(dragPosX),
                                              if old(allSplitRows) == 1 then 0 else old(dragPosY), old(hSplitPos), old(vSplitPos))
    {
      notified := None;
      if dragging != 0 {
        DrawSplitter(dragPosX, dragPosY);
        var draggingOld := dragging;
        dragging := 0;
        var y := if allSplitRows == 1 then 0 else dragPosY;
        var x := if allSplitCols == 1 then 0 else dragPosX;
        var pane;
        if draggingOld == 1 {
          pane := DoSplit(hSplitPos, y);
        } else if draggingOld == 2 {
          pane := DoSplit(x, vSplitPos);
        } else {
          pane := DoSplit(x, y);
        }
        notified := Some(pane);
      }
    }

    /** WM_LBUTTONDBLCLK: a double-click on the bar between the rows removes that
        split, on the bar between the columns removes that one, on their crossing
        removes both; then the mouse move is replayed at the same point. */
    method OnLButtonDblClk(lParam: int, clientRight: nat, clientBottom: nat) returns (cursor: Cursor)
      requires Valid()
      modifies this`hSplitPos, this`vSplitPos, this`childWndCount, this`allSplitRows, this`allSplitCols, childWnd, this`dragPosX, this`dragPosY
      ensures Valid()
      ensures var hit := old(HitTestSplitter(ShortOf(LoWord(lParam)), ShortOf(HiWord(lParam))));
        && (hit == 1 ==> vSplitPos == 0 && hSplitPos == CheckMargin(old(hSplitPos), cx, scaleX(32)))
        && (hit == 2 ==> hSplitPos == 0 && vSplitPos == CheckMargin(old(vSplitPos), cy, scaleY(32)))
        && (hit == 3 ==> vSplitPos == 0 && hSplitPos == 0)
        && (hit == 0 ==> vSplitPos == old(vSplitPos) && hSplitPos == old(hSplitPos)
                         && childWndCount == old(childWndCount) && unchanged(childWnd)
                         && allSplitRows == old(allSplitRows) && allSplitCols == old(allSplitCols))
        && (hit != 0 ==> AllViews())
      ensures cursor == CursorFor(HitTestSplitter(ShortOf(LoWord(lParam)), ShortOf(HiWord(lParam))))
      ensures dragging == 0 ==> dragPosX == old(dragPosX) && dragPosY == old(dragPosY)
      ensures dragging != 0 ==>
        dragPosX == Clamp(ShortOf(LoWord(lParam)), scaleX(1), clientRight - scaleX(6)) &&
        dragPosY == Clamp(ShortOf(HiWord(lParam)), scaleX(1), clientBottom - scaleX(6))
    {
      var xPos := ShortOf(LoWord(lParam));
      var yPos := ShortOf(HiWord(lParam));
      var hit := HitTestSplitter(xPos, yPos);
      var pane;
      if hit == 1 {
        var x := if allSplitCols == 1 then 0 else hSplitPos;
        pane := DoSplit(x, 0);
      } else if hit == 2 {
        var y := if allSplitRows == 1 then 0 else vSplitPos;
        pane := DoSplit(0, y);
      } else if hit == 3 {
        pane := DoSplit(0, 0);
      }
      MakeLongRoundTrip(xPos, yPos);
      cursor := OnMouseMove(MakeLong(xPos, yPos), clientRight, clientBottom);
    }

    /** Application messages: MYWM_DOSPLIT splits at the requested positions, except
        that a split already present keeps its position; MYWM_SETACTIVEPANE records
        the active pane. */
    method DispatchEvent_WM_APP(msg: AppMessage)
      requires Valid()
      requires msg.SetActivePaneMsg? ==> 0 <= msg.pane < MAXCOUNTOFVIEW
      modifies this`hSplitPos, this`vSplitPos, this`childWndCount, this`allSplitRows, this`allSplitCols, childWnd, this`activePane
      ensures Valid()
      ensures msg.DoSplitMsg? ==>
        (hSplitPos, vSplitPos) == SplitTarget(if old(hSplitPos) != 0 then old(hSplitPos) else msg.posX,
                                              if old(vSplitPos) != 0 then old(vSplitPos) else msg.posY,
                                              old(hSplitPos), old(vSplitPos))
        && AllViews() && activePane == old(activePane)
      ensures msg.SetActivePaneMsg? ==>
        && activePane == msg.pane && hSplitPos == old(hSplitPos) && vSplitPos == old(vSplitPos)
        && childWndCount == old(childWndCount) && unchanged(childWnd)
        && allSplitRows == old(allSplitRows) && allSplitCols == old(allSplitCols)
      ensures msg.OtherAppMsg? ==> unchanged(this) && unchanged(childWnd)
    {
      match msg {
        case DoSplitMsg(posX, posY) =>
          var x, y := posX, posY;
          if hSplitPos != 0 {
            x := hSplitPos;
          }
          if vSplitPos != 0 {
            y := vSplitPos;
          }
          var pane := DoSplit(x, y);
        case SetActivePaneMsg(pane) =>
          SetActivePane(pane);
        case OtherAppMsg =>
      }
    }
  }

  /** The next-pane and previous-pane commands walk the pane list of the current
      layout: from the k-th visible pane they reach the (k+1)-th and (k-1)-th, and
      -1 past either end or from a pane that is not shown. */
  lemma PanesFollowPaneList(w: SplitterWnd)
    requires w.LayoutValid()
    ensures w.GetNextPane() == NextIn(PaneList(w.allSplitRows, w.allSplitCols), w.activePane)
    ensures w.GetPrevPane() == PrevIn(PaneList(w.allSplitRows, w.allSplitCols), w.activePane)
  {
    var s := PaneList(w.allSplitRows, w.allSplitCols);
    PaneListShapes();
    PaneListSpec(w.allSplitRows, w.allSplitCols);
    if w.activePane in s {
      var k :| 0 <= k < |s| && s[k] == w.activePane;
      NextPrevInverse(s, k);
    } else {
      StepAbsent(s, w.activePane);
    }
  }

  /** `v` limited to `[lo, hi]`, lower bound first, as the mouse handler clamps. */
  function Clamp(v: int, lo: int, hi: int): (r: int)
    ensures lo <= hi ==> lo <= r <= hi
    ensures lo <= v <= hi ==> r == v
  {
    var a := if v < lo then lo else v;
    if a > hi then hi else a
  }
}
