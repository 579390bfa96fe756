/** Spreading a page-level citation's outcome onto the boxes drawn on that page. */
module Propagation {
  import opened Wrappers
  import opened CaseStores
  import opened Dossiers
  import opened Courts
  import opened Gates

  function Severity(s: GateStatus): int {
    match s
    case Shipped => 1
    case FlaggedForReview => 2
    case RefusedUnsubstantiated => 3
    case RefusedIrrelevant => 3
  }

  type Statuses = map<GroundId, GateStatus>

  /** Is `g` decided, and more severe than everything decided before it, and at least as
      severe as everything decided after? */
  predicate Wins(ids: seq<GroundId>, status: Statuses, i: int) {
    && 0 <= i < |ids| && ids[i] in status
    && (forall j :: 0 <= j < i && ids[j] in status ==> Severity(status[ids[j]]) < Severity(status[ids[i]]))
    && (forall j :: i < j < |ids| && ids[j] in status ==> Severity(status[ids[j]]) <= Severity(status[ids[i]]))
  }

  predicate Undecided(ids: seq<GroundId>, status: Statuses) {
    forall i :: 0 <= i < |ids| ==> ids[i] !in status
  }

  /** The first of the most severe. */
  function MostSevere(ids: seq<GroundId>, status: Statuses): (r: Option<GroundId>)
    ensures r.Some? ==> r.value in ids && r.value in status
  {
    if ids == [] then None
    else
      var n := |ids| - 1;
      var before := MostSevere(ids[..n], status);
      if ids[n] in status && (before.None? || Severity(status[before.value]) < Severity(status[ids[n]]))
      then Some(ids[n]) else before
  }

  ghost predicate SomeWins(ids: seq<GroundId>, status: Statuses, g: GroundId) {
    exists i :: Wins(ids, status, i) && ids[i] == g
  }

  lemma StillWins(ids: seq<GroundId>, last: GroundId, status: Statuses, g: GroundId)
    requires SomeWins(ids, status, g) && g in status
    requires last in status ==> Severity(status[last]) <= Severity(status[g])
    ensures SomeWins(ids + [last], status, g)
  {
    var i :| Wins(ids, status, i) && ids[i] == g;
    assert forall j :: 0 <= j < |ids| ==> (ids + [last])[j] == ids[j];
    assert Wins(ids + [last], status, i);
  }

  lemma NowWins(ids: seq<GroundId>, last: GroundId, status: Statuses)
    requires last in status
    requires Undecided(ids, status) ||
             exists g :: SomeWins(ids, status, g) && g in status && Severity(status[g]) < Severity(status[last])
    ensures SomeWins(ids + [last], status, last)
  {
    assert forall j :: 0 <= j < |ids| ==> (ids + [last])[j] == ids[j];
    if !Undecided(ids, status) {
      var g :| SomeWins(ids, status, g) && g in status && Severity(status[g]) < Severity(status[last]);
      var i :| Wins(ids, status, i) && ids[i] == g;
    }
    assert Wins(ids + [last], status, |ids|);
  }

  lemma {:induction false} MostSevereWins(ids: seq<GroundId>, status: Statuses)
    ensures MostSevere(ids, status).None? <==> Undecided(ids, status)
    ensures MostSevere(ids, status).Some? ==> SomeWins(ids, status, MostSevere(ids, status).value)
  {
    if ids != [] {
      var init, last := ids[..|ids| - 1], ids[|ids| - 1];
      assert ids == init + [last];
      MostSevereWins(init, status);
      if MostSevere(ids, status) == MostSevere(init, status) {
        if MostSevere(init, status).Some? {
          StillWins(init, last, status, MostSevere(init, status).value);
        }
      } else {
        NowWins(init, last, status);
      }
      assert Undecided(ids, status) <==> Undecided(init, status) && last !in status;
    }
  }

  method MostSevereGround(ids: seq<GroundId>, status: Statuses) returns (winner: Option<GroundId>)
    ensures winner == MostSevere(ids, status)
  {
    winner := None;
    var winnerSeverity := -1;
    var i := 0;
    while i < |ids|
      invariant 0 <= i <= |ids| && winner == MostSevere(ids[..i], status)
      invariant winner.None? ==> winnerSeverity == -1
      invariant winner.Some? ==> winner.value in status && winnerSeverity == Severity(status[winner.value])
    {
      assert ids[..i + 1][..i] == ids[..i];
      if ids[i] in status {
        var severity := Severity(status[ids[i]]);
        if severity > winnerSeverity {
          winner := Some(ids[i]);
          winnerSeverity := severity;
        }
      }
      i := i + 1;
    }
    assert ids[..i] == ids;
  }

  /** Which documents each ground's reviewers were shown, when that is known at all. */
  type Shown = Option<map<GroundId, set<string>>>

  predicate WasShown(shown: map<GroundId, set<string>>, g: GroundId, doc: string) {
    g in shown && doc in shown[g]
  }

  function ShownOnly(ids: seq<GroundId>, shown: map<GroundId, set<string>>, doc: string): (r: seq<GroundId>)
    ensures forall g :: g in r <==> g in ids && WasShown(shown, g, doc)
  {
    if ids == [] then []
    else
      var n := |ids| - 1;
      assert ids == ids[..n] + [ids[n]];
      ShownOnly(ids[..n], shown, doc) + (if WasShown(shown, ids[n], doc) then [ids[n]] else [])
  }

  /** Among those that cited the page: the most severe that was shown the document, or
      the most severe of all if none was. */
  function PageWinner(ids: seq<GroundId>, status: Statuses, shown: Shown, doc: string): Option<GroundId> {
    if shown.Some? && ShownOnly(ids, shown.value, doc) != [] then MostSevere(ShownOnly(ids, shown.value, doc), status)
    else MostSevere(ids, status)
  }

  // ---------------------------------------------------------------- propagation

  type Manifest = map<AnchorId, EvidenceAnchor>
  type Cited = map<Ref, GroundId>
  type PageLevel = map<AnchorId, seq<GroundId>>

  predicate Boxed(a: EvidenceAnchor) { a.box.Some? }

  predicate KeyedById(anchors: Manifest) {
    forall id :: id in anchors ==> anchors[id].id == id
  }

  /** Some box on that page was cited by its own id. */
  predicate PageHasDirect(anchors: Manifest, cited: Cited, doc: string, page: int) {
    exists id :: id in anchors && Boxed(anchors[id]) && Evidence(id) in cited
                 && anchors[id].sourceDoc == doc && anchors[id].page == page
  }

  function Inherited(anchors: Manifest, cited: Cited, pages: PageLevel, status: Statuses, shown: Shown,
                     a: EvidenceAnchor): Option<GroundId>
  {
    var pageId := AnchorId(a.sourceDoc, a.page, None);
    if !Boxed(a) || Evidence(a.id) in cited || PageHasDirect(anchors, cited, a.sourceDoc, a.page) then None
    else if pageId !in pages || pages[pageId] == [] then None
    else PageWinner(pages[pageId], status, shown, a.sourceDoc)
  }

  /** `cited`, and beside it what `gain` adds for the anchors in `ids`. */
  function Fill(cited: Cited, ids: set<AnchorId>, gain: AnchorId -> Option<GroundId>): Cited {
    cited + (map id | id in ids && gain(id).Some? :: Evidence(id) := gain(id).value)
  }

  lemma FillReads(cited: Cited, ids: set<AnchorId>, gain: AnchorId -> Option<GroundId>, ref: Ref)
    ensures var r := Fill(cited, ids, gain);
            if ref.Evidence? && ref.anchor in ids && gain(ref.anchor).Some?
            then ref in r && r[ref] == gain(ref.anchor).value
            else (ref in r <==> ref in cited) && (ref in r ==> r[ref] == cited[ref])
  {}

  lemma FillStep(cited: Cited, ids: set<AnchorId>, gain: AnchorId -> Option<GroundId>, id: AnchorId)
    ensures Fill(cited, ids + {id}, gain) ==
            if gain(id).Some? then Fill(cited, ids, gain)[Evidence(id) := gain(id).value] else Fill(cited, ids, gain)
  {
    var after := Fill(cited, ids + {id}, gain);
    var expected := if gain(id).Some? then Fill(cited, ids, gain)[Evidence(id) := gain(id).value]
                    else Fill(cited, ids, gain);
    forall ref ensures (ref in after <==> ref in expected) && (ref in after ==> after[ref] == expected[ref]) {
      FillReads(cited, ids + {id}, gain, ref);
      FillReads(cited, ids, gain, ref);
    }
  }

  function Gain(anchors: Manifest, cited: Cited, pages: PageLevel, status: Statuses, shown: Shown)
    : AnchorId -> Option<GroundId>
  {
    id => if id in anchors then Inherited(anchors, cited, pages, status, shown, anchors[id]) else None
  }

  /** The effective ground of every reference. The manifest is a set of anchors here, so
      its order cannot matter. */
  function Propagated(anchors: Manifest, cited: Cited, pages: PageLevel, status: Statuses, shown: Shown): Cited {
    Fill(cited, anchors.Keys, Gain(anchors, cited, pages, status, shown))
  }

  method DirectPages(d: CaseDossier, cited: Cited) returns (direct: set<(string, int)>)
    requires d.anchors.Valid() && KeyedById(d.anchors.at)
    ensures forall doc, page :: (doc, page) in direct <==> PageHasDirect(d.anchors.at, cited, doc, page)
  {
    var anchors := d.anchors.at;
    direct := {};
    var i := 0;
    while i < |d.anchors.keys|
      invariant 0 <= i <= |d.anchors.keys|
      invariant forall p :: p in direct <==>
                  exists j :: 0 <= j < i && Boxed(anchors[d.anchors.keys[j]]) && Evidence(d.anchors.keys[j]) in cited
                    && (anchors[d.anchors.keys[j]].sourceDoc, anchors[d.anchors.keys[j]].page) == p
    {
      var a := anchors[d.anchors.keys[i]];
      if a.box.Some? && Evidence(a.id) in cited {
        direct := direct + {(a.sourceDoc, a.page)};
      }
      i := i + 1;
    }
    forall doc, page ensures (doc, page) in direct <==> PageHasDirect(anchors, cited, doc, page) {
      if PageHasDirect(anchors, cited, doc, page) {
        var id :| id in anchors && Boxed(anchors[id]) && Evidence(id) in cited
                  && anchors[id].sourceDoc == doc && anchors[id].page == page;
        assert id in d.anchors.keys;
        var j :| 0 <= j < |d.anchors.keys| && d.anchors.keys[j] == id;
        assert (anchors[d.anchors.keys[j]].sourceDoc, anchors[d.anchors.keys[j]].page) == (doc, page);
      }
    }
  }

  /** What one anchor gains, given the pages with a directly cited box. */
  method Inherit(ghost anchors: Manifest, cited: Cited, pages: PageLevel, status: Statuses, shown: Shown,
                 direct: set<(string, int)>, a: EvidenceAnchor)
    returns (inherited: Option<GroundId>)
    requires forall doc, page :: (doc, page) in direct <==> PageHasDirect(anchors, cited, doc, page)
    ensures inherited == Inherited(anchors, cited, pages, status, shown, a)
  {
    inherited := None;
    if a.box.Some? && Evidence(a.id) !in cited && (a.sourceDoc, a.page) !in direct {
      var pageId := AnchorId(a.sourceDoc, a.page, None);
      if pageId in pages && pages[pageId] != [] {
        inherited := Winner(pages[pageId], status, shown, a.sourceDoc);
      }
    }
  }

  /** The keys of a dictionary, all of them seen. */
  lemma AllSeen(anchors: Dict<AnchorId, EvidenceAnchor>, done: set<AnchorId>)
    requires anchors.Valid() && forall id :: id in done <==> id in anchors.keys
    ensures done == anchors.at.Keys
  {}

  lemma OneMoreSeen(keys: seq<AnchorId>, i: nat, done: set<AnchorId>)
    requires i < |keys| && forall id :: id in done <==> id in keys[..i]
    ensures forall id :: id in done + {keys[i]} <==> id in keys[..i + 1]
  {
    assert keys[..i + 1] == keys[..i] + [keys[i]];
  }

  method PropagatePageLevel(d: CaseDossier, cited: Cited, pages: PageLevel, status: Statuses, shown: Shown)
    returns (result: Cited)
    requires d.anchors.Valid() && KeyedById(d.anchors.at)
    ensures result == Propagated(d.anchors.at, cited, pages, status, shown)
  {
    var anchors := d.anchors.at;
    var direct := DirectPages(d, cited);
    result := cited;
    ghost var gain := Gain(anchors, cited, pages, status, shown);
    ghost var done: set<AnchorId> := {};
    assert Fill(cited, {}, gain) == cited;
    var i := 0;
    while i < |d.anchors.keys|
      invariant 0 <= i <= |d.anchors.keys|
      invariant forall id :: id in done <==> id in d.anchors.keys[..i]
      invariant result == Fill(cited, done, gain)
    {
      var a := anchors[d.anchors.keys[i]];
      FillStep(cited, done, gain, a.id);
      OneMoreSeen(d.anchors.keys, i, done);
      done := done + {a.id};
      var inherited := Inherit(anchors, cited, pages, status, shown, direct, a);
      if inherited.Some? {
        result := result[Evidence(a.id) := inherited.value];
      }
      i := i + 1;
    }
    assert d.anchors.keys[..i] == d.anchors.keys;
    AllSeen(d.anchors, done);
  }

  method Winner(ids: seq<GroundId>, status: Statuses, shown: Shown, doc: string) returns (winner: Option<GroundId>)
    ensures winner == PageWinner(ids, status, shown, doc)
  {
    if shown.Some? {
      var qualifying := ShownOnly(ids, shown.value, doc);
      if qualifying != [] {
        winner := MostSevereGround(qualifying, status);
        return;
      }
    }
    winner := MostSevereGround(ids, status);
  }

  // ---------------------------------------------------------------- its rules

  /** A direct citation keeps its ground, whatever else cites its page. */
  lemma DirectCitationsStay(anchors: Manifest, cited: Cited, pages: PageLevel, status: Statuses, shown: Shown)
    requires KeyedById(anchors)
    ensures var r := Propagated(anchors, cited, pages, status, shown);
            (forall ref :: ref in cited ==> ref in r && r[ref] == cited[ref])
            && (forall ref :: ref in r && ref !in cited ==> ref.Evidence? && ref.anchor in anchors && Boxed(anchors[ref.anchor]))
  {
    var gain := Gain(anchors, cited, pages, status, shown);
    forall ref {
      FillReads(cited, anchors.Keys, gain, ref);
    }
  }

  /** What a box reads in the result. */
  function Reads(r: Cited, a: EvidenceAnchor): Option<GroundId> {
    if Evidence(a.id) in r then Some(r[Evidence(a.id)]) else None
  }

  /** On a page with any directly cited box nothing is gained; on any other page every box
      reads the page's one winner, or nothing. */
  lemma AllOrNothingPerPage(anchors: Manifest, cited: Cited, pages: PageLevel, status: Statuses, shown: Shown, id: AnchorId)
    requires KeyedById(anchors) && id in anchors && Boxed(anchors[id])
    ensures var r := Propagated(anchors, cited, pages, status, shown);
            var a := anchors[id];
            var pageId := AnchorId(a.sourceDoc, a.page, None);
            Reads(r, a) ==
            if PageHasDirect(anchors, cited, a.sourceDoc, a.page) then Reads(cited, a)
            else if pageId in pages && pages[pageId] != [] then PageWinner(pages[pageId], status, shown, a.sourceDoc)
            else None
  {
    var a := anchors[id];
    FillReads(cited, anchors.Keys, Gain(anchors, cited, pages, status, shown), Evidence(id));
    if Evidence(id) in cited {
      assert PageHasDirect(anchors, cited, a.sourceDoc, a.page);
    }
  }

  /** The winner of a page is one that cited it, decided and of greatest severity: among
      those shown the document if any of them was, among all otherwise. */
  lemma WinnerIsMostSevere(ids: seq<GroundId>, status: Statuses, shown: Shown, doc: string, g: GroundId)
    requires PageWinner(ids, status, shown, doc) == Some(g)
    ensures g in ids && g in status
    ensures var rivals := if shown.Some? && exists h :: h in ids && WasShown(shown.value, h, doc)
                          then ShownOnly(ids, shown.value, doc) else ids;
            g in rivals && forall h :: h in rivals && h in status ==> Severity(status[h]) <= Severity(status[g])
  {
    MostSevereIs(ids, status);
    if shown.Some? {
      var some := ShownOnly(ids, shown.value, doc);
      MostSevereIs(some, status);
      if exists h :: h in ids && WasShown(shown.value, h, doc) {
        var h :| h in ids && WasShown(shown.value, h, doc);
        assert h in some;
      } else {
        assert forall h :: h !in some;
      }
    }
  }

  lemma MostSevereIs(ids: seq<GroundId>, status: Statuses)
    ensures MostSevere(ids, status).Some? ==>
              forall h :: h in ids && h in status ==>
                Severity(status[h]) <= Severity(status[MostSevere(ids, status).value])
  {
    MostSevereWins(ids, status);
    if MostSevere(ids, status).Some? {
      var i :| Wins(ids, status, i) && ids[i] == MostSevere(ids, status).value;
      forall h | h in ids && h in status ensures Severity(status[h]) <= Severity(status[ids[i]]) {
        var j :| 0 <= j < |ids| && ids[j] == h;
      }
    }
  }

  /** Applying it to its own result changes nothing. */
  lemma PropagationIsIdempotent(anchors: Manifest, cited: Cited, pages: PageLevel, status: Statuses, shown: Shown)
    requires KeyedById(anchors)
    ensures var r := Propagated(anchors, cited, pages, status, shown);
            Propagated(anchors, r, pages, status, shown) == r
  {
    var r := Propagated(anchors, cited, pages, status, shown);
    var gain := Gain(anchors, r, pages, status, shown);
    forall id | id in anchors ensures gain(id).None? {
      NothingMoreInherited(anchors, cited, pages, status, shown, id);
    }
    forall ref ensures ref in Fill(r, anchors.Keys, gain) <==> ref in r
      ensures ref in r ==> Fill(r, anchors.Keys, gain)[ref] == r[ref]
    {
      FillReads(r, anchors.Keys, gain, ref);
    }
  }

  lemma NothingMoreInherited(anchors: Manifest, cited: Cited, pages: PageLevel, status: Statuses, shown: Shown, id: AnchorId)
    requires KeyedById(anchors) && id in anchors
    ensures Inherited(anchors, Propagated(anchors, cited, pages, status, shown), pages, status, shown, anchors[id]).None?
  {
    var a := anchors[id];
    var r := Propagated(anchors, cited, pages, status, shown);
    FillReads(cited, anchors.Keys, Gain(anchors, cited, pages, status, shown), Evidence(id));
    if Boxed(a) && Evidence(id) !in r && PageHasDirect(anchors, cited, a.sourceDoc, a.page) {
      var other :| other in anchors && Boxed(anchors[other]) && Evidence(other) in cited
                   && anchors[other].sourceDoc == a.sourceDoc && anchors[other].page == a.page;
      FillReads(cited, anchors.Keys, Gain(anchors, cited, pages, status, shown), Evidence(other));
      assert PageHasDirect(anchors, r, a.sourceDoc, a.page);
    }
  }
}
