/** Placing label chips around boxes on an annotated page: the stacking ladder, the
    side a chip takes, its width cap, and the whole render loop. Coordinates are
    reals, y grows downwards. */
module ChipLayout {
  import opened Wrappers

  datatype Rect = Rect(left: real, top: real, right: real, bottom: real)

  const STACK_GAP: real := 3.0
  const PADDING: real := 4.0
  const MAX_WIDTH_FRACTION: real := 0.35
  const MAX_PAGE_FRACTION: real := 0.9
  const ELLIPSIS: string := "…"

  predicate Overlap(a: Rect, b: Rect) {
    !(a.right <= b.left || b.right <= a.left || a.bottom <= b.top || b.bottom <= a.top)
  }

  predicate Blocked(r: Rect, avoid: seq<Rect>) {
    exists i :: 0 <= i < |avoid| && Overlap(r, avoid[i])
  }

  predicate Sized(r: Rect, width: real, height: real) {
    r.right == r.left + width && r.bottom == r.top + height
  }

  // ---------------------------------------------------------------- the ladder

  /** The rect `n` places further from where it started, one height plus the gap each. */
  function Rung(r: Rect, height: real, down: bool, n: nat): Rect {
    if n == 0 then r
    else
      var prev := Rung(r, height, down, n - 1);
      var top := if down then prev.bottom + STACK_GAP else prev.top - height - STACK_GAP;
      Rect(prev.left, top, prev.right, top + height)
  }

  /** Whether a rect lies beyond the edge a ladder must not cross. */
  predicate Beyond(r: Rect, height: real, down: bool, bound: Option<real>) {
    if down then bound.Some? && r.top + height > bound.value
    else r.top < (if bound.Some? then bound.value else 0.0)
  }

  /** The ladder stops at its first free rung, or at the last one before the edge. */
  ghost predicate StopsAt(r: Rect, height: real, down: bool, bound: Option<real>, avoid: seq<Rect>,
                          n: nat, cleared: bool)
  {
    && (forall i :: 0 <= i < n ==> Blocked(Rung(r, height, down, i), avoid))
    && (forall i :: 0 < i <= n ==> !Beyond(Rung(r, height, down, i), height, down, bound))
    && (cleared <==> !Blocked(Rung(r, height, down, n), avoid))
    && (!cleared ==> Beyond(Rung(r, height, down, n + 1), height, down, bound))
  }

  /** Where the ladder stops is determined. */
  lemma StopIsUnique(r: Rect, height: real, down: bool, bound: Option<real>, avoid: seq<Rect>,
                     n: nat, cleared: bool, m: nat, cleared': bool)
    requires StopsAt(r, height, down, bound, avoid, n, cleared)
    requires StopsAt(r, height, down, bound, avoid, m, cleared')
    ensures n == m && cleared == cleared'
  {}

  function Lowest(avoid: seq<Rect>): (y: real)
    ensures forall i :: 0 <= i < |avoid| ==> avoid[i].bottom <= y
  {
    if avoid == [] then 0.0
    else
      var rest := Lowest(avoid[1..]);
      assert forall i :: 1 <= i < |avoid| ==> avoid[i] == avoid[1..][i - 1];
      if rest < avoid[0].bottom then avoid[0].bottom else rest
  }

  /** Steps of at least one unit shrink the whole part of a distance. */
  function Measure(r: Rect, down: bool, bound: Option<real>, avoid: seq<Rect>): int {
    if down then (Lowest(avoid) - r.top).Floor
    else (r.top - (if bound.Some? then bound.value else 0.0)).Floor
  }

  /** Ends for every input, downwards even with no bound: past the lowest rect to
      avoid, nothing can be in the way. */
  method StackClear(rect: Rect, avoid: seq<Rect>, width: real, height: real, down: bool, bound: Option<real>)
    returns (r: Rect, cleared: bool, ghost n: nat)
    requires Sized(rect, width, height) && height >= 0.0
    ensures r == Rung(rect, height, down, n) && StopsAt(rect, height, down, bound, avoid, n, cleared)
    ensures Sized(r, width, height) && r.left == rect.left
    ensures if down then r.top >= rect.top else r.bottom <= rect.bottom
    ensures down && bound.None? ==> cleared
    ensures !down ==> n == 0 || r.top >= (if bound.Some? then bound.value else 0.0)
  {
    r, n := rect, 0;
    while Blocked(r, avoid)
      invariant r == Rung(rect, height, down, n) && Sized(r, width, height) && r.left == rect.left
      invariant forall i :: 0 <= i < n ==> Blocked(Rung(rect, height, down, i), avoid)
      invariant forall i :: 0 < i <= n ==> !Beyond(Rung(rect, height, down, i), height, down, bound)
      invariant if down then r.top >= rect.top else r.bottom <= rect.bottom
      decreases Measure(r, down, bound, avoid)
    {
      var newTop: real;
      if down {
        newTop := r.bottom + STACK_GAP;
        if bound.Some? && newTop + height > bound.value {
          return r, false, n;
        }
      } else {
        newTop := r.top - height - STACK_GAP;
        if newTop < (if bound.Some? then bound.value else 0.0) {
          return r, false, n;
        }
      }
      r := Rect(r.left, newTop, r.left + width, newTop + height);
      n := n + 1;
    }
    cleared := true;
  }

  // ---------------------------------------------------------------- one chip

  /** The end of the box a chip hangs from: its left one if the chip then fits. */
  function AnchorX(boxLeft: real, boxRight: real, width: real, maxX: Option<real>): real {
    if maxX.None? || boxLeft + width <= maxX.value then boxLeft
    else if boxRight - width > 0.0 then boxRight - width
    else 0.0
  }

  /** A chip no wider than the image, hung from a box inside it, stays inside it. */
  lemma AnchorStaysOnCanvas(boxLeft: real, boxRight: real, width: real, maxX: real)
    requires 0.0 <= boxLeft && boxRight <= maxX && width <= maxX
    ensures var x := AnchorX(boxLeft, boxRight, width, Some(maxX));
            0.0 <= x && x + width <= maxX && (x == boxLeft || x + width == boxRight || x == 0.0)
  {}

  /** `r` is where the ladder from `start` stops, at a free rung or not. */
  ghost predicate Ladder(start: Rect, height: real, down: bool, bound: Option<real>, avoid: seq<Rect>,
                         r: Rect, cleared: bool)
  {
    exists n: nat :: StopsAt(start, height, down, bound, avoid, n, cleared) && r == Rung(start, height, down, n)
  }

  method PlaceBelow(x: real, boxBottom: real, width: real, height: real, avoid: seq<Rect>, maxY: Option<real>)
    returns (r: Rect, ghost cleared: bool)
    requires height >= 0.0
    ensures Ladder(Rect(x, boxBottom, x + width, boxBottom + height), height, true, maxY, avoid, r, cleared)
    ensures Sized(r, width, height) && r.left == x && r.top >= boxBottom
    ensures Blocked(r, avoid) ==> maxY.Some? && r.bottom + STACK_GAP + height > maxY.value
  {
    var start := Rect(x, boxBottom, x + width, boxBottom + height);
    r, cleared := start, true;
    ghost var n := 0;
    if avoid != [] {
      var c;
      r, c, n := StackClear(start, avoid, width, height, true, maxY);
      cleared := c;
    }
    assert StopsAt(start, height, true, maxY, avoid, n, cleared) && r == Rung(start, height, true, n);
  }

  /** The rect a chip gets: the first free rung above its box that stays on the image,
      or else wherever the ladder below the box stops. */
  ghost predicate Placed(box: Rect, width: real, height: real, avoid: seq<Rect>, maxX: Option<real>,
                         maxY: Option<real>, r: Rect)
  {
    var x := AnchorX(box.left, box.right, width, maxX);
    var above := Rect(x, box.top - height, x + width, box.top);
    var below := Rect(x, box.bottom, x + width, box.bottom + height);
    if above.top >= 0.0 && exists free :: Ladder(above, height, false, Some(0.0), avoid, free, true)
    then Ladder(above, height, false, Some(0.0), avoid, r, true)
    else Ladder(below, height, true, maxY, avoid, r, true) || Ladder(below, height, true, maxY, avoid, r, false)
  }

  method PlaceChip(box: Rect, width: real, height: real, avoid: seq<Rect>, maxX: Option<real>, maxY: Option<real>)
    returns (r: Rect)
    requires height >= 0.0
    ensures Placed(box, width, height, avoid, maxX, maxY, r)
    ensures Sized(r, width, height) && r.left == AnchorX(box.left, box.right, width, maxX)
    // beside its own box, never on it: above within the image, or below
    ensures (0.0 <= r.top && r.bottom <= box.top) || box.bottom <= r.top
    ensures !Overlap(r, box)
    // free of every earlier chip, unless one more rung down would leave the image
    ensures Blocked(r, avoid) ==> maxY.Some? && r.bottom + STACK_GAP + height > maxY.value
  {
    var x := AnchorX(box.left, box.right, width, maxX);
    var aboveTop := box.top - height;
    if aboveTop >= 0.0 {
      var above := Rect(x, aboveTop, x + width, aboveTop + height);
      assert above == Rect(x, box.top - height, x + width, box.top);
      var cleared;
      ghost var n;
      r, cleared, n := StackClear(above, avoid, width, height, false, Some(0.0));
      assert Ladder(above, height, false, Some(0.0), avoid, r, cleared);
      if cleared {
        return;
      }
      forall free | Ladder(above, height, false, Some(0.0), avoid, free, true) ensures false {
        var m: nat :| StopsAt(above, height, false, Some(0.0), avoid, m, true);
        StopIsUnique(above, height, false, Some(0.0), avoid, n, false, m, true);
      }
    }
    ghost var c;
    r, c := PlaceBelow(x, box.bottom, width, height, avoid, maxY);
  }

  // ---------------------------------------------------------------- caption width

  /** Without the trailing characters that `space` counts as white. */
  function RStrip(space: char -> bool, s: string): (r: string)
    ensures r <= s && (r == "" || !space(r[|r| - 1]))
    ensures forall i :: |r| <= i < |s| ==> space(s[i])
  {
    if s == "" || !space(s[|s| - 1]) then s else RStrip(space, s[..|s| - 1])
  }

  function Shortened(space: char -> bool, text: string, n: nat): string
    requires n <= |text|
  {
    RStrip(space, text[..n]) + ELLIPSIS
  }

  /** Cuts as little as fits: the text itself, or the longest shortened form that is
      narrow enough, or a bare ellipsis when none is. */
  method TruncateToFit(measure: string -> real, space: char -> bool, text: string, maxWidth: real) returns (r: string)
    ensures measure(text) <= maxWidth ==> r == text
    ensures measure(text) > maxWidth ==>
              if exists n :: 0 < n <= |text| && measure(Shortened(space, text, n)) <= maxWidth
              then exists n :: 0 < n <= |text| && r == Shortened(space, text, n) && measure(r) <= maxWidth
                               && forall m :: n < m <= |text| ==> measure(Shortened(space, text, m)) > maxWidth
              else r == ELLIPSIS
    ensures r == "" ==> text == ""
  {
    if measure(text) <= maxWidth {
      return text;
    }
    var n := |text|;
    while n > 0
      invariant 0 <= n <= |text|
      invariant forall m :: n < m <= |text| ==> measure(Shortened(space, text, m)) > maxWidth
    {
      var candidate := RStrip(space, text[..n]) + ELLIPSIS;
      if measure(candidate) <= maxWidth {
        assert candidate == Shortened(space, text, n);
        return candidate;
      }
      n := n - 1;
    }
    return ELLIPSIS;
  }

  // ---------------------------------------------------------------- the page

  datatype Page = Page(width: real, height: real, dpi: real, imageWidth: real, imageHeight: real)
  datatype OverlayBox = OverlayBox(x0: real, y0: real, x1: real, y1: real, caption: string)

  /** How wide and tall a caption is drawn, and which characters are white. */
  datatype Font = Font(width: string -> real, height: string -> real, space: char -> bool)

  ghost predicate NonNegative(font: Font) {
    forall s: string :: font.height(s) >= 0.0
  }

  function NonNeg(x: real): real { if x < 0.0 then 0.0 else x }

  predicate CoversPage(b: OverlayBox, page: Page) {
    var pageArea := page.width * page.height;
    pageArea > 0.0 && (NonNeg(b.x1 - b.x0) * NonNeg(b.y1 - b.y0)) / pageArea >= MAX_PAGE_FRACTION
  }

  /** Page points, measured from the bottom left, as pixels from the top left. */
  function ToPixels(b: OverlayBox, page: Page): Rect {
    var scale := page.dpi / 72.0;
    Rect(b.x0 * scale, (page.height - b.y1) * scale, b.x1 * scale, (page.height - b.y0) * scale)
  }

  function Kept(boxes: seq<OverlayBox>, page: Page): seq<OverlayBox> {
    if boxes == [] then []
    else Kept(boxes[..|boxes| - 1], page)
         + (if CoversPage(boxes[|boxes| - 1], page) then [] else [boxes[|boxes| - 1]])
  }

  /** Exactly the boxes that do not cover the page are drawn, each as often as it is given. */
  lemma {:induction false} KeptAre(boxes: seq<OverlayBox>, page: Page)
    ensures forall b :: multiset(Kept(boxes, page))[b] == if CoversPage(b, page) then 0 else multiset(boxes)[b]
  {
    if boxes != [] {
      assert boxes == boxes[..|boxes| - 1] + [boxes[|boxes| - 1]];
      KeptAre(boxes[..|boxes| - 1], page);
    }
  }

  /** And in the order they are given. */
  lemma {:induction false} KeptInOrder(first: seq<OverlayBox>, more: seq<OverlayBox>, page: Page)
    ensures Kept(first, page) <= Kept(first + more, page)
  {
    if more == [] {
      assert first + more == first;
    } else {
      assert (first + more)[..|first + more| - 1] == first + more[..|more| - 1];
      KeptInOrder(first, more[..|more| - 1], page);
    }
  }

  /** Two chips may share space only if the later one was stopped by the bottom edge. */
  ghost predicate Separate(chips: seq<Rect>, maxY: real) {
    forall i, j :: 0 <= i < j < |chips| && Overlap(chips[j], chips[i]) ==>
      chips[j].bottom + STACK_GAP + (chips[j].bottom - chips[j].top) > maxY
  }

  ghost predicate OffTheirBoxes(chips: seq<Rect>, boxes: seq<OverlayBox>, page: Page) {
    |chips| == |boxes|
    && forall i :: 0 <= i < |chips| ==>
         !Overlap(chips[i], ToPixels(boxes[i], page))
         && (chips[i].top >= 0.0 || chips[i].top >= ToPixels(boxes[i], page).bottom)
  }

  function Budget(page: Page): real { page.imageWidth * MAX_WIDTH_FRACTION - 2.0 * PADDING }

  /** A chip is as wide as its caption, cut to a share of the image; hung from a box on the
      image it stays on the image, at the box's left end wherever it fits there. */
  predicate HangsAcross(chip: Rect, box: Rect, page: Page, font: Font) {
    var width := chip.right - chip.left;
    && (width <= Budget(page) + 2.0 * PADDING || width <= 1.0 + 2.0 * PADDING || width == font.width(ELLIPSIS) + 2.0 * PADDING)
    && (box.left + width <= page.imageWidth ==> chip.left == box.left)
    && (0.0 <= box.left && box.right <= page.imageWidth && width <= page.imageWidth ==>
          0.0 <= chip.left && chip.right <= page.imageWidth
          && (chip.left == box.left || chip.right == box.right || chip.left == 0.0))
  }

  predicate AllHang(chips: seq<Rect>, boxes: seq<OverlayBox>, page: Page, font: Font) {
    |chips| == |boxes| && forall i :: 0 <= i < |chips| ==> HangsAcross(chips[i], ToPixels(boxes[i], page), page, font)
  }

  /** The chip of one box, beside every chip before it. */
  method DrawChip(page: Page, b: OverlayBox, font: Font, before: seq<Rect>) returns (chip: Rect)
    requires NonNegative(font)
    ensures HangsAcross(chip, ToPixels(b, page), page, font) && !Overlap(chip, ToPixels(b, page))
    ensures chip.top >= 0.0 || chip.top >= ToPixels(b, page).bottom
    ensures Blocked(chip, before) ==> chip.bottom + STACK_GAP + (chip.bottom - chip.top) > page.imageHeight
  {
    var box := ToPixels(b, page);
    var budget := page.imageWidth * MAX_WIDTH_FRACTION - 2.0 * PADDING;
    var text := TruncateToFit(font.width, font.space, b.caption, if budget < 1.0 then 1.0 else budget);
    var width := font.width(text) + 2.0 * PADDING;
    var height := font.height(text) + 2.0 * PADDING;
    chip := PlaceChip(box, width, height, before, Some(page.imageWidth), Some(page.imageHeight));
  }

  method RenderOverlay(page: Page, boxes: seq<OverlayBox>, font: Font) returns (chips: seq<Rect>)
    requires NonNegative(font)
    ensures OffTheirBoxes(chips, Kept(boxes, page), page)
    ensures Separate(chips, page.imageHeight)
    ensures AllHang(chips, Kept(boxes, page), page, font)
  {
    chips := [];
    var i := 0;
    while i < |boxes|
      invariant 0 <= i <= |boxes|
      invariant OffTheirBoxes(chips, Kept(boxes[..i], page), page)
      invariant Separate(chips, page.imageHeight)
      invariant AllHang(chips, Kept(boxes[..i], page), page, font)
    {
      assert boxes[..i + 1][..i] == boxes[..i];
      if !CoversPage(boxes[i], page) {
        var chip := DrawChip(page, boxes[i], font, chips);
        assert forall k :: 0 <= k < |chips| && Overlap(chip, chips[k]) ==> Blocked(chip, chips);
        chips := chips + [chip];
      }
      i := i + 1;
    }
    assert boxes[..i] == boxes;
  }

  /** A page whose chips all keep clear of the bottom edge shows them all apart. */
  lemma ApartAwayFromTheEdge(chips: seq<Rect>, maxY: real)
    requires Separate(chips, maxY)
    requires forall i :: 0 <= i < |chips| ==>
               chips[i].bottom + STACK_GAP + (chips[i].bottom - chips[i].top) <= maxY
    ensures forall i, j :: 0 <= i < |chips| && 0 <= j < |chips| && i != j ==> !Overlap(chips[i], chips[j])
  {
    forall i, j | 0 <= i < |chips| && 0 <= j < |chips| && i != j ensures !Overlap(chips[i], chips[j]) {
      assert Overlap(chips[i], chips[j]) == Overlap(chips[j], chips[i]);
    }
  }

  /** A box on the page lies on the image of the page, the right way up: left of right, and
      what is higher on the page nearer the top of the image. */
  lemma PixelsFollowPoints(b: OverlayBox, page: Page, y: real)
    requires page.dpi > 0.0 && 0.0 <= b.x0 <= b.x1 <= page.width && 0.0 <= b.y0 <= b.y1 <= page.height
    ensures var r, scale := ToPixels(b, page), page.dpi / 72.0;
            0.0 <= r.left <= r.right <= page.width * scale && 0.0 <= r.top <= r.bottom <= page.height * scale
            && r.right - r.left == (b.x1 - b.x0) * scale && r.bottom - r.top == (b.y1 - b.y0) * scale
            && (y >= b.y1 <==> (page.height - y) * scale <= r.top)
  {}
}
