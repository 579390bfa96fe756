/** What a concern rebuilt from the log has forgotten, and what that does to the ground it
    becomes. */
module RebuiltConcerns {
  import opened Wrappers
  import opened CaseStores
  import opened Interviews
  import opened Rehydration
  import opened RehydrationLaws
  import opened Texts
  import I = InterviewLaws
  import Intake

  // ---------------------------------------------------------------- disputes across a restart

  /** The text of a concern after one more clarification. */
  function TextAfter(k: Clerk, f: FlowState, said: Said): Option<string> {
    var g := Submitted(k, f, said).flow;
    if g.current.None? then None else Some(g.current.value.redacted)
  }

  /** A dispute after a restart loses the statement: the new clarification is all the
      rebuilt text holds, and it is the live text exactly when the concern's base is blank. */
  lemma RebuiltDisputeLosesTheStatement(k: Clerk, turns: seq<Turn>, f: FlowState, dispute: Said, clarified: Said)
    requires k.space(' ') && InSync(turns, f) && f.stage == Confirming
    requires !k.affirms(dispute.answer) && dispute.reply.Some? && clarified.reply.Some?
    ensures var live := TextAfter(k, Submitted(k, f, dispute).flow, clarified);
            var rebuilt := TextAfter(k, Submitted(k, Rebuilt(k, turns, []), dispute).flow, clarified);
            rebuilt == Some(Trim(k, k.redact(clarified.answer)))
            && (live == rebuilt <==> Blank(k, f.current.value.base))
  {
    var added := k.redact(clarified.answer);
    RebuiltIsInSync(k, turns, f, []);
    DisputedText(k, f, dispute, clarified);
    DisputedText(k, Rebuilt(k, turns, []), dispute, clarified);
    NothingAdded(k, added);
    LikeNothingIff(k, f.current.value.base, added);
  }

  lemma DisputedText(k: Clerk, f: FlowState, dispute: Said, clarified: Said)
    requires f.stage == Confirming && f.current.Some? && !k.affirms(dispute.answer) && dispute.reply.Some?
    ensures TextAfter(k, Submitted(k, f, dispute).flow, clarified) ==
            Some(Trim(k, f.current.value.base + " " + k.redact(clarified.answer)))
  {
    var g := Submitted(k, f, dispute).flow;
    assert g.stage == Clarifying && g.current.value.disputed != [] && g.current.value.base == f.current.value.base;
  }

  lemma NothingAdded(k: Clerk, added: string)
    requires k.space(' ')
    ensures Trim(k, "" + " " + added) == Trim(k, added) && "" + " " + added == " " + added
  {
    AddedIs(k, "", added);
    TrimmedIs(k, added);
  }

  /** What a rebuilt concern keeps of its clarifications, disputed ones included. */
  function KeptWording(k: Clerk, turns: seq<Turn>): string { k.redact(Lines(Clarifications(Block(turns)))) }

  /** A restart between a dispute and its new clarification: the live text goes back to the
      base, the rebuilt one to all it ever held, and the two agree exactly when those read
      alike. For a base as the offline normaliser makes it, that is exactly when nothing
      of the earlier clarifications is left. */
  lemma RebuiltDisputeKeepsTheWording(k: Clerk, turns: seq<Turn>, f: FlowState, clarified: Said)
    requires k.space(' ') && InSync(turns, f) && f.stage == Clarifying && f.current.value.disputed != []
    requires clarified.reply.Some?
    ensures InProgressConcern(k, turns).Some?
    ensures var live, rebuilt := TextAfter(k, f, clarified), TextAfter(k, Rebuilt(k, turns, []), clarified);
            var base, added, all := f.current.value.base, k.redact(clarified.answer), InProgressConcern(k, turns).value.redacted;
            (live == rebuilt <==>
               if Blank(k, added) then Trim(k, base) == Trim(k, all) else TrimStart(k, base) == TrimStart(k, all))
            && (base == Trim(k, k.redact(f.current.value.initial)) && Lines(Clarifications(Block(turns))) != "" ==>
                  (live == rebuilt <==> Blank(k, KeptWording(k, turns))))
  {
    var base, added, initial := f.current.value.base, k.redact(clarified.answer), f.current.value.initial;
    RebuiltIsInSync(k, turns, f, []);
    AlikeIff(k, base, InProgressConcern(k, turns).value.redacted, added);
    LikeKeptIff(k, k.redact(initial), KeptWording(k, turns), added);
  }

  // ---------------------------------------------------------------- from a confirmation to a ground

  /** The ground is not there yet, nor tagged. */
  predicate Fileable(p: Filing, d: CaseData, r: RaisedConcern) {
    var g := p.idOf(r.kind, r.initial);
    g != "" && g !in d.grounds && !Logged(d.events, CallerId(GroundCategoryKey(g)))
  }

  lemma StillFileable(p: Filing, d: CaseData, r: RaisedConcern, t: Turn)
    requires Fileable(p, d, r)
    ensures Fileable(p, PersistedIn(d, t), r)
  {}

  /** No event tags the ground, under whatever id. */
  predicate Untagged(d: CaseData, g: GroundId) {
    forall i :: 0 <= i < |d.events| && d.events[i].body.Caller? && d.events[i].body.note.CategoryAssigned? ==>
      d.events[i].body.note.g != g
  }

  lemma StillUntagged(d: CaseData, g: GroundId, t: Turn)
    requires Untagged(d, g)
    ensures Untagged(PersistedIn(d, t), g)
  {}

  /** The first tag of a ground filed now is the one it is filed under. */
  lemma FiledUnder(p: Filing, d: CaseData, r: RaisedConcern)
    requires Fileable(p, d, r) && Untagged(d, p.idOf(r.kind, r.initial))
    ensures var g := p.idOf(r.kind, r.initial);
            var after := Filed(p, d, r);
            Intake.GroundIntake(g, p.categoryOf(r.kind), ClaimOf(r)) in Intake.Candidates(after.events, after.grounds)
  {
    var g := p.idOf(r.kind, r.initial);
    var after := Filed(p, d, r);
    FiledIsCandidate(p, d, r);
    Intake.CandidatesAre(after.events, after.grounds);
    Intake.CategoriesAre(after.events, after.grounds);
    var cs := Intake.Candidates(after.events, after.grounds);
    var i :| 0 <= i < |cs| && cs[i].id == g;
    assert cs[i] in cs && Intake.TaggedFirst(after.events, after.grounds, cs[i]);
    var j: nat :| Intake.FirstTag(after.events, after.grounds, g, j) && after.events[j].body.note.category == cs[i].category;
    FiledLast(p, d, r, j);
  }

  lemma FiledLast(p: Filing, d: CaseData, r: RaisedConcern, j: nat)
    requires Fileable(p, d, r) && Untagged(d, p.idOf(r.kind, r.initial))
    requires var after := Filed(p, d, r);
             j < |after.events| && after.events[j].body.Caller? && after.events[j].body.note.CategoryAssigned?
             && after.events[j].body.note.g == p.idOf(r.kind, r.initial)
    ensures Filed(p, d, r).events[j].body.note.category == p.categoryOf(r.kind)
  {
    var after := Filed(p, d, r);
    assert forall i :: 0 <= i < |d.events| ==> after.events[i] == d.events[i];
    assert j >= |d.events|;
  }

  lemma FiledIsCandidate(p: Filing, d: CaseData, r: RaisedConcern)
    requires Fileable(p, d, r)
    ensures var g := p.idOf(r.kind, r.initial);
            var after := Filed(p, d, r);
            g in after.grounds && after.grounds[g].status == Proposed && after.grounds[g].claim == ClaimOf(r)
            && Intake.Seen(Intake.Candidates(after.events, after.grounds), g)
  {
    var g := p.idOf(r.kind, r.initial);
    var after := Filed(p, d, r);
    var e := after.events[|after.events| - 1];
    assert e.body == Caller(CategoryAssigned(g, p.categoryOf(r.kind), r.kind, r.evidence));
    Intake.CandidatesAre(after.events, after.grounds);
    assert Intake.Assigns(e, after.grounds);
  }

  /** An affirmed confirmation files a ground that the tribunal will take up, claimed in
      the redacted words unless there are none, and under the category of its type. */
  lemma ConfirmedIsCandidate(k: Clerk, p: Filing, s: Console, said: Said)
    requires s.flow.Some? && s.flow.value.stage == Confirming && s.flow.value.current.Some?
    requires k.affirms(said.answer) && said.reply.Some? && Fileable(p, s.data, s.flow.value.current.value)
    ensures var r := s.flow.value.current.value;
            var g := p.idOf(r.kind, r.initial);
            var d := Answered(k, p, s, said).console.data;
            g in d.grounds && d.grounds[g].status == Proposed
            && d.grounds[g].claim == (if r.redacted != "" then r.redacted else r.initial)
            && Intake.Seen(Intake.Candidates(d.events, d.grounds), g)
            && (Untagged(s.data, g) ==>
                  Intake.GroundIntake(g, p.categoryOf(r.kind), d.grounds[g].claim) in Intake.Candidates(d.events, d.grounds))
  {
    var r := s.flow.value.current.value;
    var resident, asked := Turn(true, Confirming, said.answer), Turn(false, AskMore, said.reply.value);
    StillFileable(p, s.data, r, resident);
    StillFileable(p, PersistedIn(s.data, resident), r, asked);
    FiledIsCandidate(p, PersistedIn(PersistedIn(s.data, resident), asked), r.(confirmed := true));
    if Untagged(s.data, p.idOf(r.kind, r.initial)) {
      StillUntagged(s.data, p.idOf(r.kind, r.initial), resident);
      StillUntagged(PersistedIn(s.data, resident), p.idOf(r.kind, r.initial), asked);
      FiledUnder(p, PersistedIn(PersistedIn(s.data, resident), asked), r.(confirmed := true));
    }
  }

  /** Filed and rebuilt: a confirmed concern comes back with its type, its documents and the
      text its ground claims, and counts as confirmed. */
  lemma ConfirmedConcernReturns(k: Clerk, p: Filing, d: CaseData, r: RaisedConcern)
    requires Fileable(p, d, r)
    ensures var g := p.idOf(r.kind, r.initial);
            var after := Filed(p, d, r);
            g in after.grounds
            && var back := ConfirmedConcern(k, after.grounds[g], Tags(after.events));
               back.kind == r.kind && back.evidence == r.evidence && back.confirmed
               && back.initial == back.redacted == ClaimOf(r)
  {
    var g := p.idOf(r.kind, r.initial);
    var after := Filed(p, d, r);
    var e := after.events[|after.events| - 1];
    assert e.body == Caller(CategoryAssigned(g, p.categoryOf(r.kind), r.kind, r.evidence));
  }

  // ---------------------------------------------------------------- filed after a restart

  lemma FiledSameIff(p: Filing, d: CaseData, a: RaisedConcern, b: RaisedConcern)
    requires Fileable(p, d, a) && Fileable(p, d, b) && a.initial == b.initial
    ensures Filed(p, d, a) == Filed(p, d, b) <==>
            a.kind == b.kind && a.evidence == b.evidence && ClaimOf(a) == ClaimOf(b)
  {
    var da, db := Filed(p, d, a), Filed(p, d, b);
    FiledIsCandidate(p, d, a);
    FiledIsCandidate(p, d, b);
    if da == db {
      assert da.events[|da.events| - 1].body == Caller(CategoryAssigned(p.idOf(a.kind, a.initial), p.categoryOf(a.kind), a.kind, a.evidence));
      assert db.events[|db.events| - 1].body == Caller(CategoryAssigned(p.idOf(b.kind, b.initial), p.categoryOf(b.kind), b.kind, b.evidence));
    }
  }

  /** The flow of an affirmed confirmation. */
  lemma AffirmedStep(k: Clerk, f: FlowState, said: Said)
    requires f.stage == Confirming && f.current.Some? && k.affirms(said.answer) && said.reply.Some?
    ensures var s := Submitted(k, f, said);
            s.reply == Ok(Turn(false, AskMore, said.reply.value))
            && s.flow.concerns == f.concerns + [f.current.value.(confirmed := true)]
  {}

  lemma RecordedAffirmed(p: Filing, d: CaseData, stepped: Stepped, asked: Turn, concerns: seq<RaisedConcern>, r: RaisedConcern)
    requires stepped.reply == Ok(asked) && asked.stage == AskMore && stepped.flow.concerns == concerns + [r]
    ensures Recorded(p, d, stepped) == Filed(p, PersistedIn(d, asked), r)
  {}

  lemma AffirmedIs(k: Clerk, p: Filing, s: Console, said: Said)
    requires s.flow.Some? && s.flow.value.stage == Confirming && s.flow.value.current.Some?
    requires k.affirms(said.answer) && said.reply.Some?
    ensures Answered(k, p, s, said).console.data ==
            Filed(p, PersistedIn(PersistedIn(s.data, Turn(true, Confirming, said.answer)), Turn(false, AskMore, said.reply.value)),
                  s.flow.value.current.value.(confirmed := true))
  {
    var f := s.flow.value;
    AffirmedStep(k, f, said);
    RecordedAffirmed(p, PersistedIn(s.data, Turn(true, Confirming, said.answer)), Submitted(k, f, said),
                     Turn(false, AskMore, said.reply.value), f.concerns, f.current.value.(confirmed := true));
  }

  /** A concern confirmed after a restart that came in the middle of it is filed as the live
      one would have been exactly when its type is the keyword one, no document was attached
      to it, and its text survived: ground, claim, category and tag, the whole case. */
  lemma FiledAsLiveIff(k: Clerk, p: Filing, d: CaseData, f: FlowState, confirmed: seq<RaisedConcern>, said: Said)
    requires InSync(Turns(d.events), f) && f.stage == Confirming && k.affirms(said.answer) && said.reply.Some?
    requires Fileable(p, d, f.current.value)
    requires InProgressConcern(k, Turns(d.events)).Some? ==> Fileable(p, d, InProgressConcern(k, Turns(d.events)).value)
    ensures InProgressConcern(k, Turns(d.events)).Some?
    ensures var live, rebuilt := f.current.value, InProgressConcern(k, Turns(d.events)).value;
            Answered(k, p, Console(d, Some(f)), said).console.data
            == Answered(k, p, Console(d, Some(Rebuilt(k, Turns(d.events), confirmed))), said).console.data
            <==> live.kind == k.classify(live.initial) && live.evidence == [] && ClaimOf(live) == ClaimOf(rebuilt)
  {
    var turns := Turns(d.events);
    RebuiltIsInSync(k, turns, f, confirmed);
    var live, rebuilt := f.current.value, InProgressConcern(k, turns).value;
    var resident, asked := Turn(true, Confirming, said.answer), Turn(false, AskMore, said.reply.value);
    AffirmedIs(k, p, Console(d, Some(f)), said);
    AffirmedIs(k, p, Console(d, Some(Rebuilt(k, turns, confirmed))), said);
    StillFileable(p, d, live, resident);
    StillFileable(p, PersistedIn(d, resident), live, asked);
    StillFileable(p, d, rebuilt, resident);
    StillFileable(p, PersistedIn(d, resident), rebuilt, asked);
    FiledSameIff(p, PersistedIn(PersistedIn(d, resident), asked), live.(confirmed := true), rebuilt.(confirmed := true));
  }

  // ---------------------------------------------------------------- when the text survives

  lemma ClarificationsGrow(turns: seq<Turn>, t: Turn)
    requires !AsksForMore(t)
    ensures Clarifications(Block(turns + [t])) == Clarifications(Block(turns)) + (if Clarifies(t) then [t.text] else [])
  {
    BlockGrows(turns, t);
    assert (Block(turns) + [t])[..|Block(turns)|] == Block(turns);
  }

  lemma TwoLines(a: string, b: string)
    ensures Lines([a, b]) == a + "\n" + b
  {
    assert [a, b][..1] == [a];
  }

  /** Whether the text survived: after one clarification and nothing else said, exactly when
      the base reads like the redacted statement. */
  lemma OneClarificationSurvivesIff(k: Clerk, turns: seq<Turn>, f: FlowState, clarification: string)
    requires k.space(' ') && InSync(turns, f) && f.stage == Confirming
    requires Clarifications(Block(turns)) == [clarification] && clarification != ""
    requires f.current.value.redacted == I.RoundText(k, f.current.value.base, I.Round(Some(clarification), None))
    ensures InProgressConcern(k, turns).Some?
    ensures var base, statement, added := f.current.value.base, k.redact(f.current.value.initial), k.redact(clarification);
            f.current.value.redacted == InProgressConcern(k, turns).value.redacted <==>
            if Blank(k, added) then Trim(k, base) == Trim(k, statement) else TrimStart(k, base) == TrimStart(k, statement)
  {
    RebuiltIsInSync(k, turns, f, []);
    AlikeIff(k, f.current.value.base, k.redact(f.current.value.initial), k.redact(clarification));
  }

  /** An answer that declines to add evidence is dropped by the live flow and kept by the
      rebuilt one; with redaction working line by line, it shows unless it redacts to nothing. */
  lemma DeclinedAnswerShowsIff(k: Clerk, turns: seq<Turn>, f: FlowState, clarification: string, declined: string)
    requires k.space(' ') && k.space('\n') && InSync(turns, f) && f.stage == Confirming
    requires Clarifications(Block(turns)) == [clarification, declined]
    requires f.current.value.base == k.redact(f.current.value.initial)
    requires f.current.value.redacted == I.RoundText(k, f.current.value.base, I.Round(Some(clarification), None))
    requires k.redact(clarification + "\n" + declined) == k.redact(clarification) + "\n" + k.redact(declined)
    ensures InProgressConcern(k, turns).Some?
    ensures f.current.value.redacted == InProgressConcern(k, turns).value.redacted <==> Blank(k, k.redact(declined))
  {
    RebuiltIsInSync(k, turns, f, []);
    var base, added, more := f.current.value.base, k.redact(clarification), "\n" + k.redact(declined);
    TwoLines(clarification, declined);
    assert base + " " + (added + "\n" + k.redact(declined)) == (base + " " + added) + more;
    MoreShowsIff(k, base + " " + added, more);
    BlankConcat(k, "\n", k.redact(declined));
  }

  lemma {:induction false} LinesConcat(xs: seq<string>, ys: seq<string>)
    requires xs != [] && ys != []
    ensures Lines(xs + ys) == Lines(xs) + "\n" + Lines(ys)
  {
    var init, last := ys[..|ys| - 1], ys[|ys| - 1];
    assert (xs + ys)[..|xs + ys| - 1] == xs + init;
    if init == [] {
      assert xs + init == xs;
    } else {
      LinesConcat(xs, init);
      assert Lines(xs) + "\n" + Lines(init) + "\n" + last == Lines(xs) + "\n" + (Lines(init) + "\n" + last);
    }
  }

  /** Redaction works line by line. */
  ghost predicate ByLine(k: Clerk) {
    forall a, b :: k.redact(a + "\n" + b) == k.redact(a) + "\n" + k.redact(b)
  }

  /** Lines as the rebuilt text has them. */
  function Kept(k: Clerk, lines: seq<string>): Option<string> {
    if lines == [] then None else Some(k.redact(Lines(lines)))
  }

  /** Lines that follow others. */
  function Below(k: Clerk, lines: seq<string>): string { if lines == [] then "" else "\n" + k.redact(Lines(lines)) }

  lemma KeptAbove(k: Clerk, earlier: seq<string>, rest: seq<string>)
    requires ByLine(k) && rest != []
    ensures k.redact(Lines(earlier + rest)) == Above(Kept(k, earlier), k.redact(Lines(rest)))
  {
    if earlier == [] {
      assert earlier + rest == rest;
    } else {
      LinesConcat(earlier, rest);
    }
  }

  lemma KeptBelow(k: Clerk, a: string, later: seq<string>)
    requires ByLine(k)
    ensures k.redact(Lines([a] + later)) == k.redact(a) + Below(k, later)
  {
    if later == [] {
      assert [a] + later == [a];
    } else {
      LinesConcat([a], later);
    }
  }

  lemma KeptIs(k: Clerk, earlier: seq<string>, a: string, later: seq<string>)
    requires ByLine(k)
    ensures k.redact(Lines(earlier + [a] + later)) == Above(Kept(k, earlier), k.redact(a) + Below(k, later))
  {
    KeptAbove(k, earlier, [a] + later);
    KeptBelow(k, a, later);
    assert earlier + [a] + later == earlier + ([a] + later);
  }

  /** The rebuilt text, on the live base. */
  lemma RebuiltTextIs(k: Clerk, turns: seq<Turn>, f: FlowState, earlier: seq<string>, a: string, later: seq<string>)
    requires k.space(' ') && ByLine(k) && InSync(turns, f) && f.stage == Confirming
    requires Clarifications(Block(turns)) == earlier + [a] + later && Lines(earlier + [a] + later) != ""
    requires TrimStart(k, f.current.value.base) == TrimStart(k, k.redact(f.current.value.initial))
    ensures InProgressConcern(k, turns).Some?
    ensures InProgressConcern(k, turns).value.redacted ==
            Trim(k, f.current.value.base + " " + Above(Kept(k, earlier), k.redact(a) + Below(k, later)))
  {
    RebuiltIsInSync(k, turns, f, []);
    KeptIs(k, earlier, a, later);
    AlikeInFront(k, f.current.value.base, k.redact(f.current.value.initial), Above(Kept(k, earlier), k.redact(a) + Below(k, later)));
  }

  /** Nothing above a text shows: there is nothing, or it is blank and so is the text or
      what precedes. */
  predicate NothingAbove(k: Clerk, base: string, earlier: seq<string>, a: string) {
    earlier == [] || (Blank(k, k.redact(Lines(earlier))) && (Blank(k, base) || Blank(k, k.redact(a))))
  }

  /** Any number of disputed rounds earlier, and declined answers later: the live text holds
      the latest clarification only, the rebuilt one every line. They agree exactly when
      nothing of the later lines shows, nor of the earlier ones. */
  lemma TextSurvivesIff(k: Clerk, turns: seq<Turn>, f: FlowState, earlier: seq<string>, a: string, later: seq<string>)
    requires k.space(' ') && k.space('\n') && ByLine(k) && InSync(turns, f) && f.stage == Confirming
    requires Clarifications(Block(turns)) == earlier + [a] + later && Lines(earlier + [a] + later) != ""
    requires TrimStart(k, f.current.value.base) == TrimStart(k, k.redact(f.current.value.initial))
    requires f.current.value.redacted == I.RoundText(k, f.current.value.base, I.Round(Some(a), None))
    ensures InProgressConcern(k, turns).Some?
    ensures f.current.value.redacted == InProgressConcern(k, turns).value.redacted <==>
            (later == [] || Blank(k, k.redact(Lines(later)))) && NothingAbove(k, f.current.value.base, earlier, a)
  {
    RebuiltTextIs(k, turns, f, earlier, a, later);
    SurroundedIff(k, f.current.value.base, Kept(k, earlier), k.redact(a), Below(k, later));
    if later != [] {
      BlankConcat(k, "\n", k.redact(Lines(later)));
    }
  }

  /** The same when an answer about evidence was kept as well. If it shows, the live flow's
      trimming in between shows too: the clarification must then end visibly, or nothing
      before the evidence be visible at all; and no earlier round may have left anything. */
  lemma TextWithEvidenceSurvivesIff(k: Clerk, turns: seq<Turn>, f: FlowState, earlier: seq<string>, a: string, evidence: string)
    requires k.space(' ') && k.space('\n') && ByLine(k) && InSync(turns, f) && f.stage == Confirming
    requires Clarifications(Block(turns)) == earlier + [a] + [evidence] && Lines(earlier + [a] + [evidence]) != ""
    requires TrimStart(k, f.current.value.base) == TrimStart(k, k.redact(f.current.value.initial))
    requires f.current.value.redacted == I.RoundText(k, f.current.value.base, I.Round(Some(a), Some(evidence)))
    ensures InProgressConcern(k, turns).Some?
    ensures var base, added := f.current.value.base, k.redact(a);
            f.current.value.redacted == InProgressConcern(k, turns).value.redacted <==>
            if Blank(k, k.redact(evidence)) then NothingAbove(k, base, earlier, a)
            else if earlier == [] then EndsVisibly(k, added) || (Blank(k, base) && Blank(k, added))
            else Blank(k, base) && Blank(k, k.redact(Lines(earlier))) && (Blank(k, added) || EndsVisibly(k, added))
  {
    RebuiltTextIs(k, turns, f, earlier, a, [evidence]);
    EvidenceKeptIff(k, f.current.value.base, Kept(k, earlier), k.redact(a), k.redact(evidence));
  }

  lemma EvidenceKeptIff(k: Clerk, base: string, earlier: Option<string>, added: string, line: string)
    requires k.space(' ') && k.space('\n')
    ensures Trim(k, Trim(k, base + " " + added) + "\n" + line)
            == Trim(k, base + " " + Above(earlier, added + ("\n" + line))) <==>
            if Blank(k, line) then earlier.None? || (Blank(k, earlier.value) && (Blank(k, base) || Blank(k, added)))
            else if earlier.None? then EndsVisibly(k, added) || (Blank(k, base) && Blank(k, added))
            else Blank(k, base) && Blank(k, earlier.value) && (Blank(k, added) || EndsVisibly(k, added))
  {
    if Blank(k, line) {
      SurroundedIff(k, base, earlier, added, "\n" + line);
      BlankConcat(k, "\n", line);
      AddedAfter(k, Trim(k, base + " " + added), '\n', line);
      TrimmedStays(k, base + " " + added);
    } else if earlier.None? {
      LineBelowIff(k, base, added, line);
      assert base + " " + (added + ("\n" + line)) == base + " " + added + "\n" + line;
    } else {
      LineBothSidesIff(k, base, earlier.value, added, line);
      var high := earlier.value + "\n" + added;
      assert base + " " + (earlier.value + "\n" + (added + ("\n" + line))) == base + " " + high + "\n" + line;
    }
  }

  // ---------------------------------------------------------------- and over any interview

  /** The evidence an answer about evidence leaves, if there was one. */
  function EvidenceIn(k: Clerk, later: seq<string>): Option<string> {
    if later == [] || Declines(k, later[0]) then None else Some(later[0])
  }

  /** The latest clarification, what was said before it and what about evidence since. */
  ghost predicate Splits(k: Clerk, f: FlowState, earlier: seq<string>, a: string, later: seq<string>) {
    && Clarifications(Block(f.transcript)) == earlier + [a] + later && |later| <= 1
    && I.LastRound(k, f.transcript) == I.Round(Some(a), EvidenceIn(k, later))
    && (f.stage == RequestingEvidence ==> later == [])
  }

  predicate PastClarifying(f: FlowState) { f.stage == RequestingEvidence || f.stage == Confirming }

  lemma ClarifiedSplits(k: Clerk, f: FlowState, said: Said)
    requires f.stage == Clarifying && f.current.Some? && said.reply.Some?
    ensures Splits(k, Submitted(k, f, said).flow, Clarifications(Block(f.transcript)), said.answer, [])
  {
    var resident, asked := Turn(true, Clarifying, said.answer), Turn(false, RequestingEvidence, said.reply.value);
    I.OneMoreTurn(k, f.transcript, resident);
    I.OneMoreTurn(k, f.transcript + [resident], asked);
    ClarificationsGrow(f.transcript, resident);
    ClarificationsGrow(f.transcript + [resident], asked);
  }

  lemma EvidenceSplits(k: Clerk, f: FlowState, said: Said, earlier: seq<string>, a: string)
    requires f.stage == RequestingEvidence && f.current.Some? && said.reply.Some? && Splits(k, f, earlier, a, [])
    ensures Splits(k, Submitted(k, f, said).flow, earlier, a, [said.answer])
  {
    var resident, asked := Turn(true, RequestingEvidence, said.answer), Turn(false, Confirming, said.reply.value);
    I.OneMoreTurn(k, f.transcript, resident);
    I.OneMoreTurn(k, f.transcript + [resident], asked);
    ClarificationsGrow(f.transcript, resident);
    ClarificationsGrow(f.transcript + [resident], asked);
  }

  lemma AttachedSplits(k: Clerk, f: FlowState, document: string, message: Option<string>, earlier: seq<string>, a: string, later: seq<string>)
    requires f.current.Some? && f.transcript != [] && message.Some? && PastClarifying(f) && Splits(k, f, earlier, a, later)
    ensures Splits(k, Uploaded(f, document, message).flow, earlier, a, later)
  {
    I.OneMoreTurn(k, f.transcript, Turn(false, Confirming, message.value));
    ClarificationsGrow(f.transcript, Turn(false, Confirming, message.value));
  }

  lemma RequestSplits(k: Clerk, f: FlowState, r: I.Request, earlier: seq<string>, a: string, later: seq<string>)
    returns (earlier': seq<string>, a': string, later': seq<string>)
    requires I.Sound(k, f) && I.Worded(r) && (PastClarifying(f) ==> Splits(k, f, earlier, a, later))
    ensures PastClarifying(I.Handled(k, f, r).flow) ==> Splits(k, I.Handled(k, f, r).flow, earlier', a', later')
  {
    earlier', a', later' := earlier, a, later;
    match r {
      case Attach(document, message) =>
        if PastClarifying(f) {
          AttachedSplits(k, f, document, message, earlier, a, later);
        }
      case Answer(said) =>
        if f.stage == Clarifying {
          earlier', a', later' := Clarifications(Block(f.transcript)), said.answer, [];
          ClarifiedSplits(k, f, said);
        } else if f.stage == RequestingEvidence {
          later' := [said.answer];
          EvidenceSplits(k, f, said, earlier, a);
        }
    }
  }

  lemma {:induction false} InterviewSplits(k: Clerk, greeting: string, requests: seq<I.Request>)
    returns (earlier: seq<string>, a: string, later: seq<string>)
    requires forall i :: 0 <= i < |requests| ==> I.Worded(requests[i])
    ensures var f := I.Interviewed(k, I.Begun(greeting), requests);
            PastClarifying(f) ==> Splits(k, f, earlier, a, later)
  {
    earlier, a, later := [], "", [];
    if requests != [] {
      var init, last := requests[..|requests| - 1], requests[|requests| - 1];
      assert forall i :: 0 <= i < |init| ==> init[i] == requests[i];
      earlier, a, later := InterviewSplits(k, greeting, init);
      I.InterviewIsSound(k, greeting, init);
      assert I.Worded(last);
      earlier, a, later := RequestSplits(k, I.Interviewed(k, I.Begun(greeting), init), last, earlier, a, later);
    }
  }

  /** When a text survives: `earlier` rounds, the latest clarification, and at most one
      answer about evidence since. */
  predicate Survives(k: Clerk, base: string, earlier: seq<string>, a: string, later: seq<string>) {
    var added := k.redact(a);
    if later == [] || Blank(k, k.redact(later[0])) then NothingAbove(k, base, earlier, a)
    else if Declines(k, later[0]) then false
    else if earlier == [] then EndsVisibly(k, added) || (Blank(k, base) && Blank(k, added))
    else Blank(k, base) && Blank(k, k.redact(Lines(earlier))) && (Blank(k, added) || EndsVisibly(k, added))
  }

  /** Any interview up to a confirmation, however often disputed. The log's clarifications
      fall into earlier rounds, the latest clarification and at most one answer about
      evidence since; the rebuilt text is the live one exactly when nothing of the earlier
      rounds nor of a declined answer shows, nor the live flow's trimming before evidence
      that was kept. */
  lemma InterviewTextSurvivesIff(k: Clerk, greeting: string, requests: seq<I.Request>)
    returns (earlier: seq<string>, a: string, later: seq<string>)
    requires k.space(' ') && k.space('\n') && ByLine(k) && forall i :: 0 <= i < |requests| ==> I.Worded(requests[i])
    requires var f := I.Interviewed(k, I.Begun(greeting), requests);
             InSync(f.transcript, f) && f.stage == Confirming && Lines(Clarifications(Block(f.transcript))) != ""
             && TrimStart(k, f.current.value.base) == TrimStart(k, k.redact(f.current.value.initial))
    ensures var f := I.Interviewed(k, I.Begun(greeting), requests);
            Splits(k, f, earlier, a, later) && InProgressConcern(k, f.transcript).Some?
            && (f.current.value.redacted == InProgressConcern(k, f.transcript).value.redacted <==>
                  Survives(k, f.current.value.base, earlier, a, later))
  {
    var f := I.Interviewed(k, I.Begun(greeting), requests);
    earlier, a, later := InterviewSplits(k, greeting, requests);
    I.InterviewIsSound(k, greeting, requests);
    SplitTextSurvivesIff(k, f, earlier, a, later);
  }

  lemma SplitTextSurvivesIff(k: Clerk, f: FlowState, earlier: seq<string>, a: string, later: seq<string>)
    requires k.space(' ') && k.space('\n') && ByLine(k) && I.Sound(k, f) && InSync(f.transcript, f) && f.stage == Confirming
    requires Splits(k, f, earlier, a, later) && Lines(earlier + [a] + later) != ""
    requires TrimStart(k, f.current.value.base) == TrimStart(k, k.redact(f.current.value.initial))
    ensures InProgressConcern(k, f.transcript).Some?
    ensures f.current.value.redacted == InProgressConcern(k, f.transcript).value.redacted <==>
            Survives(k, f.current.value.base, earlier, a, later)
  {
    if EvidenceIn(k, later).None? {
      TextSurvivesIff(k, f.transcript, f, earlier, a, later);
      assert later != [] ==> later == [later[0]] && Lines(later) == later[0];
    } else {
      assert later == [later[0]];
      TextWithEvidenceSurvivesIff(k, f.transcript, f, earlier, a, later[0]);
    }
  }

  // ---------------------------------------------------------------- and so what is filed

  /** A text with a visible base shows, whatever was said since. */
  lemma RoundShows(k: Clerk, base: string, round: I.Round)
    requires k.space(' ') && k.space('\n') && !Blank(k, base)
    ensures I.RoundText(k, base, round) != ""
  {
    if round.clarification.Some? {
      var clarified := base + " " + k.redact(round.clarification.value);
      BlankAfter(k, base, ' ', k.redact(round.clarification.value));
      TrimmedIs(k, clarified);
      TrimmedStays(k, clarified);
      TrimmedIs(k, Trim(k, clarified));
      if round.evidence.Some? {
        BlankAfter(k, Trim(k, clarified), '\n', k.redact(round.evidence.value));
        TrimmedIs(k, Trim(k, clarified) + "\n" + k.redact(round.evidence.value));
      }
    }
  }

  /** A rebuilt text with a visible statement shows, too. */
  lemma RebuiltShows(k: Clerk, initial: string, parts: seq<string>)
    requires k.space(' ') && !Blank(k, k.redact(initial))
    ensures RebuiltConcern(k, initial, parts).redacted != ""
  {
    if parts != [] && Lines(parts) != "" {
      BlankAfter(k, k.redact(initial), ' ', k.redact(Lines(parts)));
      TrimmedIs(k, k.redact(initial) + " " + k.redact(Lines(parts)));
    }
  }

  /** The claim is the text, where the statement leaves anything visible. */
  lemma ClaimsAreTexts(k: Clerk, f: FlowState)
    requires k.space(' ') && k.space('\n') && I.Sound(k, f) && InSync(f.transcript, f) && f.stage == Confirming
    requires !Blank(k, f.current.value.base) && !Blank(k, k.redact(f.current.value.initial))
    ensures InProgressConcern(k, f.transcript).Some?
    ensures ClaimOf(f.current.value) == f.current.value.redacted
    ensures ClaimOf(InProgressConcern(k, f.transcript).value) == InProgressConcern(k, f.transcript).value.redacted
  {
    RebuiltIsInSync(k, f.transcript, f, []);
    RoundShows(k, f.current.value.base, I.LastRound(k, f.transcript));
    RebuiltShows(k, f.current.value.initial, Clarifications(Block(f.transcript)));
  }

  /** The same interview, confirmed by the process that heard it or by one that restarts
      first, files the same ground, claim and tag exactly when its type is the keyword one,
      no document was attached, and its text survives as above. */
  lemma InterviewFiledAsLiveIff(
    k: Clerk, p: Filing, d: CaseData, greeting: string, requests: seq<I.Request>, confirmed: seq<RaisedConcern>, said: Said)
    returns (earlier: seq<string>, a: string, later: seq<string>)
    requires k.space(' ') && k.space('\n') && ByLine(k) && forall i :: 0 <= i < |requests| ==> I.Worded(requests[i])
    requires k.affirms(said.answer) && said.reply.Some?
    requires var f := I.Interviewed(k, I.Begun(greeting), requests);
             InSync(f.transcript, f) && f.stage == Confirming && Lines(Clarifications(Block(f.transcript))) != ""
             && TrimStart(k, f.current.value.base) == TrimStart(k, k.redact(f.current.value.initial))
             && !Blank(k, f.current.value.base) && Turns(d.events) == f.transcript && Fileable(p, d, f.current.value)
             && (InProgressConcern(k, f.transcript).Some? ==> Fileable(p, d, InProgressConcern(k, f.transcript).value))
    ensures var f := I.Interviewed(k, I.Begun(greeting), requests);
            Splits(k, f, earlier, a, later)
            && (Answered(k, p, Console(d, Some(f)), said).console.data
                == Answered(k, p, Console(d, Some(Rebuilt(k, f.transcript, confirmed))), said).console.data
                <==> f.current.value.kind == k.classify(f.current.value.initial) && f.current.value.evidence == []
                     && Survives(k, f.current.value.base, earlier, a, later))
  {
    var f := I.Interviewed(k, I.Begun(greeting), requests);
    earlier, a, later := InterviewTextSurvivesIff(k, greeting, requests);
    FiledAsLiveIff(k, p, d, f, confirmed, said);
    I.InterviewIsSound(k, greeting, requests);
    var cut := FrontIs(k, f.current.value.base);
    cut := FrontIs(k, k.redact(f.current.value.initial));
    ClaimsAreTexts(k, f);
  }
}
