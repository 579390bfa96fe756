/** Which boxes an overlay draws and what their colour says. */
module OverlayBoxes {
  import opened Wrappers
  import opened CaseStores
  import opened Dossiers
  import opened Courts
  import opened Gates
  import opened Propagation

  datatype Role = SupportsShipped | NeedsMoreEvidence | AnchorOfRefused | Neutral

  datatype Element = Element(anchor: AnchorId, box: BBox, caption: string, ground: Option<GroundId>)

  datatype DrawnBox = DrawnBox(anchor: AnchorId, box: BBox, role: Role, caption: string)

  function RoleOf(ground: Option<GroundId>, status: Statuses): Role {
    if ground.None? || ground.value !in status then Neutral
    else match status[ground.value]
      case Shipped => SupportsShipped
      case FlaggedForReview => NeedsMoreEvidence
      case _ => AnchorOfRefused
  }

  function Drawn(e: Element, status: Statuses): DrawnBox {
    DrawnBox(e.anchor, e.box, RoleOf(e.ground, status), e.caption)
  }

  /** The boxes that are, or are not, neutral, in order. */
  function Only(boxes: seq<DrawnBox>, neutral: bool): seq<DrawnBox> {
    if boxes == [] then []
    else
      var last := boxes[|boxes| - 1];
      Only(boxes[..|boxes| - 1], neutral) + (if (last.role == Neutral) == neutral then [last] else [])
  }

  /** The first `n`, or with a negative `n` all but the last `-n`. */
  function Front<T>(s: seq<T>, n: int): (r: seq<T>)
    ensures r <= s && |r| <= |s| && (0 <= n ==> |r| <= n)
  {
    if n < 0 then s[..Max(0, |s| + n)] else if n <= |s| then s[..n] else s
  }

  /** Within the ceiling nothing changes; beyond it decided boxes come first, and neutral
      ones fill what is left. */
  function Capped(boxes: seq<DrawnBox>, ceiling: int): seq<DrawnBox> {
    if |boxes| <= ceiling then boxes
    else
      var decided := Front(Only(boxes, false), ceiling);
      decided + (if ceiling - |decided| > 0 then Front(Only(boxes, true), ceiling - |decided|) else [])
  }

  method BuildOverlayBoxes(elements: seq<Element>, status: Statuses, ceiling: int) returns (boxes: seq<DrawnBox>)
    ensures boxes == Capped(seq(|elements|, i requires 0 <= i < |elements| => Drawn(elements[i], status)), ceiling)
    ensures |elements| <= ceiling ==>
              |boxes| == |elements|
              && forall i :: 0 <= i < |boxes| ==>
                   boxes[i].anchor == elements[i].anchor && boxes[i].box == elements[i].box
                   && boxes[i].caption == elements[i].caption && boxes[i].role == RoleOf(elements[i].ground, status)
  {
    boxes := [];
    var i := 0;
    while i < |elements|
      invariant 0 <= i <= |elements| && |boxes| == i
      invariant forall j :: 0 <= j < i ==> boxes[j] == Drawn(elements[j], status)
    {
      boxes := boxes + [Drawn(elements[i], status)];
      i := i + 1;
    }
    assert boxes == seq(|elements|, i requires 0 <= i < |elements| => Drawn(elements[i], status));
    if |boxes| <= ceiling {
      return;
    }
    var decided := Front(Only(boxes, false), ceiling);
    var remaining := ceiling - |decided|;
    boxes := decided + (if remaining > 0 then Front(Only(boxes, true), remaining) else []);
  }

  // ---------------------------------------------------------------- what the ceiling drops

  lemma {:induction false} OnlySplit(boxes: seq<DrawnBox>)
    ensures |Only(boxes, true)| + |Only(boxes, false)| == |boxes|
    ensures forall b :: b in Only(boxes, true) ==> b.role == Neutral
    ensures forall b :: b in Only(boxes, false) ==> b.role != Neutral
  {
    if boxes != [] {
      OnlySplit(boxes[..|boxes| - 1]);
    }
  }

  lemma {:induction false} OnlyOfUniform(boxes: seq<DrawnBox>, neutral: bool)
    requires forall b :: b in boxes ==> (b.role == Neutral) == neutral
    ensures Only(boxes, neutral) == boxes && Only(boxes, !neutral) == []
  {
    if boxes != [] {
      assert boxes == boxes[..|boxes| - 1] + [boxes[|boxes| - 1]];
      OnlyOfUniform(boxes[..|boxes| - 1], neutral);
    }
  }

  lemma {:induction false} OnlyOfConcat(a: seq<DrawnBox>, b: seq<DrawnBox>, neutral: bool)
    ensures Only(a + b, neutral) == Only(a, neutral) + Only(b, neutral)
  {
    if b == [] {
      assert a + b == a;
    } else {
      assert (a + b)[..|a + b| - 1] == a + b[..|b| - 1];
      OnlyOfConcat(a, b[..|b| - 1], neutral);
    }
  }

  /** For every list and every ceiling that is not negative: exactly the ceiling is drawn, or
      everything; decided boxes survive first, each group loses only its last ones and keeps
      its order, and no neutral box is drawn while a decided one is dropped. */
  lemma CeilingKeepsTheDecided(boxes: seq<DrawnBox>, ceiling: nat)
    ensures var r := Capped(boxes, ceiling);
            |r| == (if |boxes| <= ceiling then |boxes| else ceiling)
            && Only(r, false) <= Only(boxes, false) && Only(r, true) <= Only(boxes, true)
            && (Only(r, true) != [] ==> Only(r, false) == Only(boxes, false))
  {
    var decided, neutral := Only(boxes, false), Only(boxes, true);
    OnlySplit(boxes);
    if |boxes| > ceiling {
      var d := Front(decided, ceiling);
      var n := if ceiling - |d| > 0 then Front(neutral, ceiling - |d|) else [];
      OnlyOfUniform(d, false);
      OnlyOfUniform(n, true);
      OnlyOfConcat(d, n, false);
      OnlyOfConcat(d, n, true);
    }
  }

  /** A negative ceiling draws no neutral box, and drops that many decided ones from the end. */
  lemma NegativeCeiling(boxes: seq<DrawnBox>, ceiling: int)
    requires ceiling < 0
    ensures var r := Capped(boxes, ceiling);
            r <= Only(boxes, false) && Only(r, true) == [] && |r| == Max(0, |Only(boxes, false)| + ceiling)
  {
    var decided := Only(boxes, false);
    var d := decided[..Max(0, |decided| + ceiling)];
    OnlySplit(boxes);
    assert Capped(boxes, ceiling) == d by {
      assert d + [] == d;
    }
    forall b | b in d ensures b.role != Neutral {
      assert b in decided;
    }
    OnlyOfUniform(d, false);
  }

  // ---------------------------------------------------------------- what a colour says

  predicate Refuses(status: Statuses, g: GroundId) {
    g in status && (status[g] == RefusedIrrelevant || status[g] == RefusedUnsubstantiated)
  }

  predicate Flags(status: Statuses, g: GroundId) { g in status && status[g] == FlaggedForReview }

  predicate SomeRefused(ids: seq<GroundId>, status: Statuses) { exists g :: g in ids && Refuses(status, g) }

  predicate SomeFlagged(ids: seq<GroundId>, status: Statuses) { exists g :: g in ids && Flags(status, g) }

  lemma WorstShows(ids: seq<GroundId>, status: Statuses)
    requires exists g :: g in ids && g in status
    ensures RoleOf(MostSevere(ids, status), status) ==
            if SomeRefused(ids, status) then AnchorOfRefused
            else if SomeFlagged(ids, status) then NeedsMoreEvidence
            else SupportsShipped
  {
    MostSevereWins(ids, status);
    MostSevereIs(ids, status);
    var g :| g in ids && g in status;
    var i :| 0 <= i < |ids| && ids[i] == g;
    var w := MostSevere(ids, status).value;
    if SomeRefused(ids, status) {
      var h :| h in ids && Refuses(status, h);
      assert Severity(status[h]) <= Severity(status[w]);
    } else if SomeFlagged(ids, status) {
      var h :| h in ids && Flags(status, h);
      assert Severity(status[h]) <= Severity(status[w]);
    }
  }

  /** A box on a page that was cited only as a whole shows the worst that befell any ground
      citing it: refused before flagged before shipped. A box on a page with any cited box
      keeps its own ground's colour, and is neutral without one. */
  lemma ColourOfABox(anchors: Manifest, cited: Cited, pages: PageLevel, status: Statuses, id: AnchorId)
    requires KeyedById(anchors) && id in anchors && Boxed(anchors[id])
    ensures var a := anchors[id];
            var ids := if AnchorId(a.sourceDoc, a.page, None) in pages then pages[AnchorId(a.sourceDoc, a.page, None)] else [];
            var role := RoleOf(Reads(Propagated(anchors, cited, pages, status, None), a), status);
            if PageHasDirect(anchors, cited, a.sourceDoc, a.page) then role == RoleOf(Reads(cited, a), status)
            else if !exists g :: g in ids && g in status then role == Neutral
            else role == if SomeRefused(ids, status) then AnchorOfRefused
                         else if SomeFlagged(ids, status) then NeedsMoreEvidence
                         else SupportsShipped
  {
    var a := anchors[id];
    var pageId := AnchorId(a.sourceDoc, a.page, None);
    var ids := if pageId in pages then pages[pageId] else [];
    AllOrNothingPerPage(anchors, cited, pages, status, None, id);
    if exists g :: g in ids && g in status {
      WorstShows(ids, status);
    }
  }
}
