/** When the flow rebuilt from the deduplicated log stands where the live one stands. */
module RehydrationLaws {
  import opened Wrappers
  import opened CaseStores
  import opened Interviews
  import opened Rehydration
  import InterviewLaws

  // ---------------------------------------------------------------- log and turns

  /** Turns are written under their own ids, and nothing else is. */
  predicate TurnsKept(events: seq<CaseEvent>) {
    forall i :: 0 <= i < |events| ==> KeptAt(events[i])
  }

  predicate KeptAt(e: CaseEvent) {
    && (e.id.CallerId? && e.id.key.TurnKey? <==> e.body.Caller? && e.body.note.TurnTaken?)
    && (e.body.Caller? && e.body.note.TurnTaken? ==> e.id.key.turn == e.body.note.turn)
  }

  lemma {:induction false} TurnsAreLogged(events: seq<CaseEvent>, t: Turn)
    requires TurnsKept(events)
    ensures Logged(events, CallerId(TurnKey(t))) <==> t in Turns(events)
  {
    if events != [] {
      var init, last := events[..|events| - 1], events[|events| - 1];
      assert events == init + [last];
      TurnsAreLogged(init, t);
      assert KeptAt(last);
      if Logged(init, CallerId(TurnKey(t))) {
        var i :| 0 <= i < |init| && init[i].id == CallerId(TurnKey(t));
        assert events[i].id == CallerId(TurnKey(t));
      }
    }
  }

  lemma TurnsGrow(events: seq<CaseEvent>, e: CaseEvent)
    ensures Turns(events + [e]) == Turns(events) + (if e.body.Caller? && e.body.note.TurnTaken? then [e.body.note.turn] else [])
  {
    assert (events + [e])[..|events|] == events;
  }

  /** Persisting a turn in the store writes it unless the same one is there. */
  lemma PersistedTurns(d: CaseData, t: Turn)
    requires TurnsKept(d.events)
    ensures TurnsKept(PersistedIn(d, t).events)
    ensures Turns(PersistedIn(d, t).events) == Persisted(Turns(d.events), t)
  {
    TurnsAreLogged(d.events, t);
    TurnsGrow(d.events, CaseEvent(CallerId(TurnKey(t)), Caller(TurnTaken(t)), |d.events|));
  }

  lemma OtherEventsKeepTurns(d: CaseData, id: EventId, body: Body)
    requires TurnsKept(d.events) && !(id.CallerId? && id.key.TurnKey?) && !(body.Caller? && body.note.TurnTaken?)
    ensures TurnsKept(Appended(d, id, body).events)
    ensures Turns(Appended(d, id, body).events) == Turns(d.events)
  {
    TurnsGrow(d.events, CaseEvent(id, body, |d.events|));
  }

  lemma FilingKeepsTurns(p: Filing, d: CaseData, r: RaisedConcern)
    requires TurnsKept(d.events) && Indexed(d)
    ensures var after := Filed(p, d, r); TurnsKept(after.events) && Turns(after.events) == Turns(d.events) && Indexed(after)
  {
    var g := p.idOf(r.kind, r.initial);
    var op := Propose(g, ClaimOf(r), []);
    if g !in d.grounds {
      var record := GroundRecord(g, ClaimOf(r), Proposed, []);
      OtherEventsKeepTurns(d.(order := d.order + [g], grounds := d.grounds[g := record]), ProposedId(g), GroundProposed(g, ClaimOf(r)));
    }
    OtherEventsKeepTurns(Apply(d, op).value, CallerId(GroundCategoryKey(g)), Caller(CategoryAssigned(g, p.categoryOf(r.kind), r.kind, r.evidence)));
  }

  // ---------------------------------------------------------------- the block in progress

  function Block(turns: seq<Turn>): seq<Turn> { turns[BlockStart(turns)..] }

  /** Everything since the resident was last asked for more. */
  lemma {:induction false} BlockIs(turns: seq<Turn>)
    ensures forall i :: BlockStart(turns) <= i < |turns| ==> !AsksForMore(turns[i])
    ensures BlockStart(turns) > 0 ==> AsksForMore(turns[BlockStart(turns) - 1])
  {
    if turns != [] && !AsksForMore(turns[|turns| - 1]) {
      BlockIs(turns[..|turns| - 1]);
    }
  }

  lemma BlockGrows(turns: seq<Turn>, t: Turn)
    ensures Block(turns + [t]) == if AsksForMore(t) then [] else Block(turns) + [t]
  {
    assert (turns + [t])[..|turns|] == turns;
  }

  lemma StatementGrows(block: seq<Turn>, t: Turn)
    ensures FirstStatement(block + [t]) ==
            if FirstStatement(block).None? && t.resident && t.stage == Opening then Some(t.text) else FirstStatement(block)
  {
    assert (block + [t])[..|block|] == block;
  }

  lemma {:induction false} NoStatementYet(block: seq<Turn>, t: Turn)
    requires FirstStatement(block).None? && t.resident && t.stage == Opening
    ensures t !in block
  {
    if block != [] {
      assert block == block[..|block| - 1] + [block[|block| - 1]];
      NoStatementYet(block[..|block| - 1], t);
    }
  }

  /** The statement a rebuilt concern would get. */
  function StatementIn(turns: seq<Turn>): Option<string> { FirstStatement(Block(turns)) }

  lemma StatementAfter(turns: seq<Turn>, t: Turn)
    ensures StatementIn(turns + [t]) ==
            if AsksForMore(t) then None
            else if StatementIn(turns).None? && t.resident && t.stage == Opening then Some(t.text)
            else StatementIn(turns)
  {
    BlockGrows(turns, t);
    if !AsksForMore(t) {
      StatementGrows(Block(turns), t);
    }
  }

  // ---------------------------------------------------------------- standing in the same place

  function LastOf(turns: seq<Turn>): Turn
    requires turns != []
  {
    turns[|turns| - 1]
  }

  /** Log and flow tell the same story. */
  ghost predicate InSync(turns: seq<Turn>, f: FlowState) {
    && turns != [] && f.transcript != []
    && f.stage == LastOf(turns).stage == LastOf(f.transcript).stage
    && (f.current.Some? <==> InProgress(f.stage))
    && (f.current.Some? ==> StatementIn(turns) == Some(f.current.value.initial))
    && (f.stage == Opening || f.stage == AskMore ==> StatementIn(turns).None?)
    && (f.stage != Done ==> LastOf(f.transcript) == LastOf(turns) && !LastOf(turns).resident)
  }

  /** What a rebuilt flow must share with the live one: the stage, whether a concern is
      under discussion, and what was first said about it. */
  ghost predicate Agrees(k: Clerk, turns: seq<Turn>, f: FlowState) {
    var b := Rebuilt(k, turns, []);
    && b.stage == f.stage
    && (b.current.Some? <==> f.current.Some?)
    && (f.current.Some? ==> b.current.value.initial == f.current.value.initial)
  }

  lemma RebuiltIsInSync(k: Clerk, turns: seq<Turn>, f: FlowState, confirmed: seq<RaisedConcern>)
    requires InSync(turns, f)
    ensures Agrees(k, turns, f) && InSync(turns, Rebuilt(k, turns, confirmed))
  {}

  /** The next turns of the log after an answer. */
  function TurnsAfter(k: Clerk, turns: seq<Turn>, f: FlowState, said: Said): seq<Turn> {
    var heard := Persisted(turns, Turn(true, f.stage, said.answer));
    var stepped := Submitted(k, f, said);
    if stepped.reply.Err? then heard else Persisted(heard, stepped.reply.value)
  }

  function TurnsAfterUpload(turns: seq<Turn>, f: FlowState, document: string, message: Option<string>): seq<Turn> {
    var stepped := Uploaded(f, document, message);
    if stepped.reply.Err? then turns
    else Persisted(turns, Turn(false, stepped.reply.value.stage, stepped.reply.value.text))
  }

  /** The system's next question was not asked in the same words at the same stage before,
      and a worry was not stated in the same words before. */
  predicate NewAnswer(k: Clerk, turns: seq<Turn>, f: FlowState, said: Said)
    requires said.reply.Some?
  {
    f.stage != Done ==>
      Turn(false, Submitted(k, f, said).flow.stage, said.reply.value) !in turns
      && (f.stage == Opening ==> Turn(true, Opening, said.answer) !in turns)
  }

  predicate NewUpload(turns: seq<Turn>, f: FlowState, message: Option<string>)
    requires message.Some?
  {
    f.stage == RequestingEvidence && f.current.Some? ==> Turn(false, Confirming, message.value) !in turns
  }

  /** An answer and the next question, each written unless it is there. */
  function Exchange(turns: seq<Turn>, stage: Stage, answer: string, asked: Turn): seq<Turn> {
    Persisted(Persisted(turns, Turn(true, stage, answer)), asked)
  }

  lemma ExchangeIs(turns: seq<Turn>, stage: Stage, answer: string, asked: Turn)
    requires turns != [] && LastOf(turns).stage == stage != asked.stage && !asked.resident
    ensures var after := Exchange(turns, stage, answer, asked);
            after != []
            && (LastOf(after).stage == asked.stage <==> asked !in turns)
            && (asked !in turns ==>
                  LastOf(after) == asked
                  && StatementIn(after) ==
                     if asked.stage == AskMore then None
                     else if StatementIn(turns).None? && stage == Opening && Turn(true, stage, answer) !in turns then Some(answer)
                     else StatementIn(turns))
  {
    var resident := Turn(true, stage, answer);
    StatementAfter(turns, resident);
    StatementAfter(Persisted(turns, resident), asked);
  }

  lemma MovesOn(k: Clerk, f: FlowState, said: Said)
    requires said.reply.Some? && f.stage != Done && (f.current.Some? <==> InProgress(f.stage))
    ensures var s := Submitted(k, f, said);
            s.reply == Ok(Turn(false, s.flow.stage, said.reply.value)) && s.flow.stage != f.stage
            && s.flow.transcript == f.transcript + [Turn(true, f.stage, said.answer), s.reply.value]
            && (s.flow.current.Some? <==> InProgress(s.flow.stage))
            && (InProgress(s.flow.stage) ==> f.stage == Opening || f.current.Some?)
            && (s.flow.stage == AskMore ==> f.stage == Confirming)
            && (s.flow.current.Some? ==>
                  s.flow.current.value.initial == if f.stage == Opening then said.answer else f.current.value.initial)
            && (f.stage == Opening <==> s.flow.stage == Clarifying && f.current.None?)
            && (s.flow.stage == Opening ==> f.stage == AskMore)
  {}

  lemma FinishedStays(k: Clerk, turns: seq<Turn>, f: FlowState, said: Said)
    requires InSync(turns, f) && f.stage == Done
    ensures InSync(TurnsAfter(k, turns, f, said), Submitted(k, f, said).flow)
  {}

  /** From a flow in step with its log, one answer leaves the rebuilt flow where the live
      one stands exactly when the answer's turns are new; deduplication is what parts them. */
  lemma AnswerAgreesIff(k: Clerk, turns: seq<Turn>, f: FlowState, said: Said)
    requires InSync(turns, f) && said.reply.Some?
    ensures var after := Submitted(k, f, said).flow;
            (Agrees(k, TurnsAfter(k, turns, f, said), after) <==> NewAnswer(k, turns, f, said))
            && (NewAnswer(k, turns, f, said) ==> InSync(TurnsAfter(k, turns, f, said), after))
  {
    if f.stage == Done {
      FinishedStays(k, turns, f, said);
      RebuiltIsInSync(k, TurnsAfter(k, turns, f, said), Submitted(k, f, said).flow, []);
    } else {
      MovesOn(k, f, said);
      var s := Submitted(k, f, said);
      ExchangeIs(turns, f.stage, said.answer, s.reply.value);
      assert TurnsAfter(k, turns, f, said) == Exchange(turns, f.stage, said.answer, s.reply.value);
      ExchangeAgreesIff(k, turns, f, said.answer, s.reply.value, s.flow);
    }
  }

  lemma ExchangeAgreesIff(k: Clerk, turns: seq<Turn>, f: FlowState, answer: string, asked: Turn, g: FlowState)
    requires InSync(turns, f) && f.stage != Done && asked == Turn(false, g.stage, asked.text) && g.stage != f.stage
    requires g.transcript == f.transcript + [Turn(true, f.stage, answer), asked]
    requires g.current.Some? <==> InProgress(g.stage)
    requires InProgress(g.stage) ==> f.stage == Opening || f.current.Some?
    requires g.current.Some? ==> g.current.value.initial == if f.stage == Opening then answer else f.current.value.initial
    requires (f.stage == Opening <==> g.stage == Clarifying && f.current.None?) && (g.stage == Opening ==> f.stage == AskMore)
    requires g.stage == AskMore ==> f.stage == Confirming
    ensures var after := Exchange(turns, f.stage, answer, asked);
            var isNew := asked !in turns && (f.stage == Opening ==> Turn(true, Opening, answer) !in turns);
            (Agrees(k, after, g) <==> isNew) && (isNew ==> InSync(after, g))
  {
    ExchangeIs(turns, f.stage, answer, asked);
  }

  lemma UploadAgreesIff(k: Clerk, turns: seq<Turn>, f: FlowState, document: string, message: Option<string>)
    requires InSync(turns, f) && message.Some?
    ensures var after := Uploaded(f, document, message).flow;
            (Agrees(k, TurnsAfterUpload(turns, f, document, message), after) <==> NewUpload(turns, f, message))
            && (NewUpload(turns, f, message) ==> InSync(TurnsAfterUpload(turns, f, document, message), after))
  {
    var reply := Uploaded(f, document, message).reply.value;
    StatementAfter(turns, Turn(false, reply.stage, reply.text));
  }

  // ---------------------------------------------------------------- whole runs

  datatype Visit =
    | Answer(said: Said)
    | Attach(document: string, message: Option<string>)
    | View(greeting: Option<string>)
    | Restart

  /** A restart loses the flow and nothing else. */
  function Visited(k: Clerk, p: Filing, s: Console, v: Visit): (r: Reply)
    requires Indexed(s.data)
    ensures Indexed(r.console.data)
  {
    match v
    case Answer(said) => Answered(k, p, s, said)
    case Attach(document, message) => Attached(s, document, message)
    case View(greeting) => Viewed(k, s, greeting)
    case Restart => Reply(s.(flow := None), Ok(None))
  }

  function AfterVisits(k: Clerk, p: Filing, s: Console, visits: seq<Visit>): (r: Console)
    requires Indexed(s.data)
    ensures Indexed(r.data)
  {
    if visits == [] then s
    else Visited(k, p, AfterVisits(k, p, s, visits[..|visits| - 1]), visits[|visits| - 1]).console
  }

  /** The composer answers, and what is said is new. */
  predicate NewVisit(k: Clerk, s: Console, v: Visit) {
    match v
    case Answer(said) => said.reply.Some? && (s.flow.Some? ==> NewAnswer(k, Turns(s.data.events), s.flow.value, said))
    case Attach(_, message) => message.Some? && (s.flow.Some? ==> NewUpload(Turns(s.data.events), s.flow.value, message))
    case _ => true
  }

  predicate AllNew(k: Clerk, p: Filing, s: Console, visits: seq<Visit>)
    requires Indexed(s.data)
  {
    forall i :: 0 <= i < |visits| ==> NewVisit(k, AfterVisits(k, p, s, visits[..i]), visits[i])
  }

  /** The flow at hand, or the one that would be rebuilt, is in step with the log. */
  ghost predicate Steady(k: Clerk, s: Console) {
    var turns := Turns(s.data.events);
    && TurnsKept(s.data.events)
    && (turns == [] ==> s.flow.None?)
    && (turns != [] ==> InSync(turns, if s.flow.Some? then s.flow.value else Rebuilt(k, turns, [])))
  }

  lemma RecordedTurns(p: Filing, d: CaseData, stepped: Stepped)
    requires TurnsKept(d.events) && Indexed(d)
    ensures var r := Recorded(p, d, stepped);
            TurnsKept(r.events)
            && Turns(r.events) ==
               if stepped.reply.Err? then Turns(d.events) else Persisted(Turns(d.events), stepped.reply.value)
  {
    if stepped.reply.Ok? {
      PersistedTurns(d, stepped.reply.value);
      if stepped.reply.value.stage == AskMore && stepped.flow.concerns != [] {
        FilingKeepsTurns(p, PersistedIn(d, stepped.reply.value), stepped.flow.concerns[|stepped.flow.concerns| - 1]);
      }
    }
  }

  /** An answer and what is recorded of its outcome, whatever that is. */
  lemma HeardAndRecorded(p: Filing, d: CaseData, resident: Turn, stepped: Stepped)
    requires TurnsKept(d.events) && Indexed(d)
    ensures var r, heard := Recorded(p, PersistedIn(d, resident), stepped), Persisted(Turns(d.events), resident);
            TurnsKept(r.events)
            && Turns(r.events) == if stepped.reply.Err? then heard else Persisted(heard, stepped.reply.value)
  {
    PersistedTurns(d, resident);
    RecordedTurns(p, PersistedIn(d, resident), stepped);
  }

  lemma AnsweredTurns(k: Clerk, p: Filing, s: Console, said: Said)
    requires TurnsKept(s.data.events) && Indexed(s.data) && s.flow.Some?
    ensures var r := Answered(k, p, s, said).console;
            TurnsKept(r.data.events) && Turns(r.data.events) == TurnsAfter(k, Turns(s.data.events), s.flow.value, said)
            && r.flow == Some(Submitted(k, s.flow.value, said).flow)
  {
    HeardAndRecorded(p, s.data, Turn(true, s.flow.value.stage, said.answer), Submitted(k, s.flow.value, said));
  }

  lemma AttachedTurns(s: Console, document: string, message: Option<string>)
    requires TurnsKept(s.data.events)
    ensures var r := Attached(s, document, message).console;
            TurnsKept(r.data.events)
            && (s.flow.None? ==> r.flow.None? && Turns(r.data.events) == Turns(s.data.events))
            && (s.flow.Some? ==>
                  Turns(r.data.events) == TurnsAfterUpload(Turns(s.data.events), s.flow.value, document, message)
                  && r.flow == Some(Uploaded(s.flow.value, document, message).flow))
  {
    var d1 := Appended(s.data, CallerId(DocumentUploadedKey(document)), Caller(Plain("document_uploaded")));
    OtherEventsKeepTurns(s.data, CallerId(DocumentUploadedKey(document)), Caller(Plain("document_uploaded")));
    if s.flow.Some? {
      var stepped := Uploaded(s.flow.value, document, message);
      if stepped.reply.Ok? {
        PersistedTurns(d1, Turn(false, stepped.reply.value.stage, stepped.reply.value.text));
      }
    }
  }

  lemma SteadyAnswer(k: Clerk, p: Filing, s: Console, said: Said)
    requires Indexed(s.data) && Steady(k, s) && NewVisit(k, s, Answer(said))
    ensures Steady(k, Answered(k, p, s, said).console)
  {
    if s.flow.Some? {
      AnsweredTurns(k, p, s, said);
      AnswerAgreesIff(k, Turns(s.data.events), s.flow.value, said);
    }
  }

  lemma SteadyAttach(k: Clerk, s: Console, document: string, message: Option<string>)
    requires Steady(k, s) && NewVisit(k, s, Attach(document, message))
    ensures Steady(k, Attached(s, document, message).console)
  {
    AttachedTurns(s, document, message);
    if s.flow.Some? {
      UploadAgreesIff(k, Turns(s.data.events), s.flow.value, document, message);
    }
  }

  lemma GreetingInSync(t: Turn)
    requires !t.resident && t.stage == Opening
    ensures InSync([t], FlowState(Opening, [t], [], None))
  {
    var none: seq<Turn> := [];
    assert Block(none) == none;
    StatementAfter(none, t);
    assert none + [t] == [t];
  }

  lemma SteadyGreeting(k: Clerk, d: CaseData, t: Turn)
    requires TurnsKept(d.events) && Turns(d.events) == [] && !t.resident && t.stage == Opening
    ensures Steady(k, Console(PersistedIn(d, t), Some(FlowState(Opening, [t], [], None))))
  {
    PersistedTurns(d, t);
    assert Persisted([], t) == [t];
    GreetingInSync(t);
  }

  lemma SteadyRebuilt(k: Clerk, s: Console, confirmed: seq<RaisedConcern>)
    requires Steady(k, s) && s.flow.None? && Turns(s.data.events) != []
    ensures Steady(k, s.(flow := Some(Rebuilt(k, Turns(s.data.events), confirmed))))
  {
    RebuiltIsInSync(k, Turns(s.data.events), Rebuilt(k, Turns(s.data.events), []), confirmed);
  }

  lemma SteadyView(k: Clerk, s: Console, greeting: Option<string>)
    requires Indexed(s.data) && Steady(k, s)
    ensures Steady(k, Viewed(k, s, greeting).console)
  {
    if s.flow.None? {
      if Turns(s.data.events) != [] {
        SteadyRebuilt(k, s, ConfirmedConcerns(k, s.data));
      } else if greeting.Some? {
        var t := Turn(false, Opening, greeting.value);
        SteadyGreeting(k, s.data, t);
        assert [] + [t] == [t];
      }
    }
  }

  lemma SteadyRestart(k: Clerk, s: Console)
    requires Steady(k, s)
    ensures Steady(k, s.(flow := None))
  {
    if s.flow.Some? {
      RebuiltIsInSync(k, Turns(s.data.events), s.flow.value, []);
    }
  }

  /** Over any run of answers, uploads, visits and restarts in which what is said is new,
      the flow at hand or the one that would be rebuilt stays in step with the log. */
  lemma {:induction false} RunIsSteady(k: Clerk, p: Filing, s: Console, visits: seq<Visit>)
    requires Indexed(s.data) && Steady(k, s) && AllNew(k, p, s, visits)
    ensures Steady(k, AfterVisits(k, p, s, visits))
  {
    if visits != [] {
      var init, last := visits[..|visits| - 1], visits[|visits| - 1];
      assert forall i :: 0 <= i < |init| ==> init[i] == visits[i] && init[..i] == visits[..i];
      RunIsSteady(k, p, s, init);
      var v := AfterVisits(k, p, s, init);
      assert NewVisit(k, v, last);
      match last {
        case Answer(said) => SteadyAnswer(k, p, v, said);
        case Attach(document, message) => SteadyAttach(k, v, document, message);
        case View(greeting) => SteadyView(k, v, greeting);
        case Restart => SteadyRestart(k, v);
      }
    }
  }

  lemma NewCaseIsSteady(k: Clerk, c: CaseId, publicOrigin: bool, judgeOrigin: bool)
    ensures Indexed(NewCase(c, publicOrigin, judgeOrigin)) && Steady(k, Console(NewCase(c, publicOrigin, judgeOrigin), None))
  {
    var empty := CaseData(c, [], map[], [], map[], None);
    OtherEventsKeepTurns(empty, CreatedId, CaseCreated(publicOrigin, judgeOrigin));
  }

  lemma NoAssertionInSync(k: Clerk, turns: seq<Turn>, f: FlowState, said: Said)
    requires InSync(turns, f)
    ensures Submitted(k, f, said).reply != Err(NoConcern)
  {}

  /** The live flow and the rebuilt one stand in the same place, and neither trips the
      assertion on an answer. */
  ghost predicate Interchangeable(k: Clerk, s: Console, said: Said)
    requires Indexed(s.data)
  {
    var turns := Turns(s.data.events);
    && (s.flow.Some? ==> Agrees(k, turns, s.flow.value) && Submitted(k, s.flow.value, said).reply != Err(NoConcern))
    && (turns != [] ==> Submitted(k, Rebuilt(k, turns, ConfirmedConcerns(k, s.data)), said).reply != Err(NoConcern))
  }

  lemma SteadyIsInterchangeable(k: Clerk, s: Console, said: Said)
    requires Indexed(s.data) && Steady(k, s)
    ensures Interchangeable(k, s, said)
  {
    var turns := Turns(s.data.events);
    if turns != [] {
      var f := if s.flow.Some? then s.flow.value else Rebuilt(k, turns, []);
      var b := Rebuilt(k, turns, ConfirmedConcerns(k, s.data));
      RebuiltIsInSync(k, turns, f, ConfirmedConcerns(k, s.data));
      NoAssertionInSync(k, turns, f, said);
      NoAssertionInSync(k, turns, b, said);
    }
  }

  /** Rehydration: after any such run on a new case, restarts included, the flow at hand
      and the one rebuilt from the log are interchangeable. */
  lemma RestartsKeepTheirPlace(k: Clerk, p: Filing, c: CaseId, publicOrigin: bool, judgeOrigin: bool, visits: seq<Visit>, said: Said)
    requires AllNew(k, p, Console(NewCase(c, publicOrigin, judgeOrigin), None), visits)
    ensures Interchangeable(k, AfterVisits(k, p, Console(NewCase(c, publicOrigin, judgeOrigin), None), visits), said)
  {
    NewCaseIsSteady(k, c, publicOrigin, judgeOrigin);
    RunIsSteady(k, p, Console(NewCase(c, publicOrigin, judgeOrigin), None), visits);
    SteadyIsInterchangeable(k, AfterVisits(k, p, Console(NewCase(c, publicOrigin, judgeOrigin), None), visits), said);
  }

  // ---------------------------------------------------------------- what the resident is shown

  /** Until the interview is over, looking at it shows the last turn of the log, whether or
      not the process restarted in between. */
  lemma RestartShowsTheSame(k: Clerk, s: Console, greeting: Option<string>)
    requires Indexed(s.data) && Steady(k, s) && s.flow.Some? && s.flow.value.stage != Done
    ensures Turns(s.data.events) != []
    ensures Viewed(k, s, greeting).response == Ok(Some(LastOf(Turns(s.data.events))))
    ensures Viewed(k, s.(flow := None), greeting).response == Viewed(k, s, greeting).response
  {}

  /** The reply to a new answer is what looking at the interview then shows. */
  lemma AnswerShowsTheSame(k: Clerk, p: Filing, s: Console, said: Said, greeting: Option<string>)
    requires Indexed(s.data) && Steady(k, s) && s.flow.Some? && s.flow.value.stage != Done
    requires NewVisit(k, s, Answer(said))
    ensures var r := Answered(k, p, s, said);
            Indexed(r.console.data) && r.console.flow.Some?
            && (r.console.flow.value.stage != Done ==> r.response == Viewed(k, r.console, greeting).response)
  {
    var r := Answered(k, p, s, said);
    SteadyAnswer(k, p, s, said);
    AnsweredTurns(k, p, s, said);
    MovesOn(k, s.flow.value, said);
    if r.console.flow.value.stage != Done {
      RestartShowsTheSame(k, r.console, greeting);
    }
  }

  lemma NowLogged(d: CaseData, id: EventId, body: Body, other: EventId)
    requires other == id || Logged(d.events, other)
    ensures Logged(Appended(d, id, body).events, other)
  {
    var after := Appended(d, id, body).events;
    if Logged(d.events, other) {
      var i :| 0 <= i < |d.events| && d.events[i].id == other;
      assert after[i].id == other;
    } else {
      assert after[|d.events|].id == other;
    }
  }

  /** A document is noted whether or not a flow is held, and attached to the concern under
      discussion if there is one; no ground moves. */
  lemma UploadIsNoted(s: Console, document: string, message: Option<string>)
    ensures var r := Attached(s, document, message).console;
            Logged(r.data.events, CallerId(DocumentUploadedKey(document))) && r.data.grounds == s.data.grounds
            && (s.flow.Some? && s.flow.value.current.Some? ==>
                  r.flow.Some? && r.flow.value.current.Some?
                  && r.flow.value.current.value.evidence == s.flow.value.current.value.evidence + [document])
  {
    var id, note := CallerId(DocumentUploadedKey(document)), Caller(Plain("document_uploaded"));
    NowLogged(s.data, id, note, id);
    if s.flow.Some? && Uploaded(s.flow.value, document, message).reply.Ok? {
      var t := Uploaded(s.flow.value, document, message).reply.value;
      NowLogged(Appended(s.data, id, note), CallerId(TurnKey(Turn(false, t.stage, t.text))),
                Caller(TurnTaken(Turn(false, t.stage, t.text))), id);
    }
  }

  // ---------------------------------------------------------------- what each filed ground is rebuilt as

  predicate Tagging(e: CaseEvent, g: GroundId) { e.body.Caller? && e.body.note.CategoryAssigned? && e.body.note.g == g }

  predicate LastTag(events: seq<CaseEvent>, g: GroundId, i: nat) {
    i < |events| && Tagging(events[i], g) && forall j :: i < j < |events| ==> !Tagging(events[j], g)
  }

  lemma LastTagGrows(init: seq<CaseEvent>, last: CaseEvent, g: GroundId, i: nat)
    ensures LastTag(init + [last], g, i) <==> if Tagging(last, g) then i == |init| else LastTag(init, g, i)
  {
    var all := init + [last];
    assert forall j :: 0 <= j < |init| ==> all[j] == init[j];
    assert all[|init|] == last;
  }

  /** The last event that tags a ground says what it is tagged with. */
  lemma {:induction false} TagsAre(events: seq<CaseEvent>, g: GroundId)
    ensures g in Tags(events) <==> exists i: nat :: LastTag(events, g, i)
    ensures forall i: nat :: LastTag(events, g, i) ==>
              g in Tags(events) && Tags(events)[g] == Tag(events[i].body.note.concern, events[i].body.note.evidence)
  {
    if events != [] {
      var init, last := events[..|events| - 1], events[|events| - 1];
      assert events == init + [last];
      TagsAre(init, g);
      forall i: nat { LastTagGrows(init, last, g, i); }
      if Tagging(last, g) {
        LastTagGrows(init, last, g, |init|);
      }
    }
  }

  /** A rebuilt process has one confirmed concern per ground, in the order they were filed:
      the ground's claim, with the type and documents of its last tag, or the claim's keyword
      type and no documents without one. */
  lemma RebuiltConcernIs(k: Clerk, d: CaseData, n: nat)
    requires Indexed(d) && n < |d.order| && forall g :: g in d.grounds ==> d.grounds[g].id == g
    ensures |ConfirmedConcerns(k, d)| == |d.order|
    ensures var r, g := ConfirmedConcerns(k, d)[n], d.order[n];
            r.initial == d.grounds[g].claim && r.redacted == d.grounds[g].claim && r.confirmed
            && (forall i: nat :: LastTag(d.events, g, i) ==>
                  r.kind == d.events[i].body.note.concern && r.evidence == d.events[i].body.note.evidence)
            && ((forall i: nat :: !LastTag(d.events, g, i)) ==> r.kind == k.classify(d.grounds[g].claim) && r.evidence == [])
  {
    TagsAre(d.events, d.order[n]);
  }

  // ---------------------------------------------------------------- where deduplication strands a flow

  /** A worry stated in words the log already has leaves a rebuilt flow that trips the
      assertion on every answer, and only that does. */
  lemma RepeatedStatementStrands(k: Clerk, turns: seq<Turn>, f: FlowState, said: Said)
    requires InSync(turns, f) && f.stage == Opening && said.reply.Some?
    requires Turn(false, Clarifying, said.reply.value) !in turns
    ensures InterviewLaws.Stuck(Rebuilt(k, TurnsAfter(k, turns, f, said), [])) <==> Turn(true, Opening, said.answer) in turns
  {
    MovesOn(k, f, said);
    var asked := Submitted(k, f, said).reply.value;
    ExchangeIs(turns, Opening, said.answer, asked);
    AnswerAgreesIff(k, turns, f, said);
  }

  /** A question already asked in the same words at the same stage leaves the rebuilt flow
      a stage behind, so the next answer is taken as the answer to the previous question. */
  lemma RepeatedQuestionFallsBehind(k: Clerk, turns: seq<Turn>, f: FlowState, said: Said)
    requires InSync(turns, f) && f.stage != Done && said.reply.Some?
    ensures var asked := Turn(false, Submitted(k, f, said).flow.stage, said.reply.value);
            var b := Rebuilt(k, TurnsAfter(k, turns, f, said), []);
            if asked in turns then b.stage == f.stage != Submitted(k, f, said).flow.stage
            else b.stage == Submitted(k, f, said).flow.stage
  {
    MovesOn(k, f, said);
    ExchangeIs(turns, f.stage, said.answer, Submitted(k, f, said).reply.value);
  }

  // ---------------------------------------------------------------- dying between answer and question

  /** A process that dies after persisting an answer and before its question leaves a log
      from which the flow is rebuilt where it stood before the answer. */
  lemma CrashKeepsTheStage(k: Clerk, turns: seq<Turn>, f: FlowState, answer: string)
    requires InSync(turns, f)
    ensures var heard := Persisted(turns, Turn(true, f.stage, answer));
            var b := Rebuilt(k, heard, []);
            b.stage == f.stage && (b.current.Some? <==> f.current.Some?)
            && (f.current.Some? ==> b.current.value.initial == f.current.value.initial)
  {
    StatementAfter(turns, Turn(true, f.stage, answer));
  }

  /** When that answer was a statement and the resident then states something else, the
      live concern and the one a later restart rebuilds are about different statements. */
  lemma AbandonedStatementReturns(k: Clerk, turns: seq<Turn>, f: FlowState, abandoned: string, said: Said)
    requires InSync(turns, f) && f.stage == Opening && said.reply.Some?
    requires Turn(true, Opening, abandoned) !in turns && Turn(false, Clarifying, said.reply.value) !in turns
    ensures var heard := Persisted(turns, Turn(true, Opening, abandoned));
            var live := Submitted(k, Rebuilt(k, heard, []), said).flow;
            var later := Rebuilt(k, TurnsAfter(k, heard, Rebuilt(k, heard, []), said), []);
            live.current.Some? && live.current.value.initial == said.answer
            && later.current.Some? && later.current.value.initial == abandoned
  {
    var resident, asked := Turn(true, Opening, abandoned), Turn(false, Clarifying, said.reply.value);
    var heard := Persisted(turns, resident);
    StatementAfter(turns, resident);
    MovesOn(k, Rebuilt(k, heard, []), said);
    ExchangeIs(heard, Opening, said.answer, asked);
  }
}
