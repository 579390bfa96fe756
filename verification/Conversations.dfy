/** Interviews in which what the laws warn of happens. */
module Conversations {
  import opened Wrappers
  import opened CaseStores
  import opened Interviews
  import opened Rehydration
  import opened RehydrationLaws
  import opened RebuiltConcerns
  import opened Texts
  import I = InterviewLaws

  // ---------------------------------------------------------------- clerk, filing and case

  /** A clerk that redacts nothing and knows one word for yes and one for no. On every word
      it is asked about below it answers as `src/setback/interview/flow.py:144-156` and
      `src/setback/clerk.py:207-250` do: "Yes" affirms, "None" declines, no other word does either,
      and no statement has a keyword in it. */
  function PlainClerk(): Clerk {
    Clerk(t => t, t => ConcernType.Other, t => t == "Yes", t => t == "None", c => c == ' ' || c == '\n')
  }

  function PlainFiling(): Filing { Filing((kind, text) => "g" + text, kind => "environmental_and_social_impacts") }

  datatype Setting = Setting(k: Clerk, p: Filing, c: CaseId)

  function NewConsole(w: Setting): (s: Console)
    ensures Indexed(s.data)
  {
    Console(NewCase(w.c, false, false), None)
  }

  // ---------------------------------------------------------------- one request at a time

  function VisitsOf(requests: seq<I.Request>): seq<Visit> {
    if requests == [] then [View(Some("Any worries?"))]
    else
      VisitsOf(requests[..|requests| - 1]) +
      match requests[|requests| - 1]
      case Answer(said) => [Answer(said)]
      case Attach(document, message) => [Attach(document, message)]
  }

  /** The console of a case whose interview went like this. */
  function ConsoleAfter(w: Setting, requests: seq<I.Request>): (s: Console)
    ensures Indexed(s.data)
  {
    AfterVisits(w.k, w.p, NewConsole(w), VisitsOf(requests))
  }

  function FlowAfter(w: Setting, requests: seq<I.Request>): FlowState { I.Interviewed(w.k, I.Begun("Any worries?"), requests) }

  lemma OneMoreVisit(w: Setting, visits: seq<Visit>, v: Visit)
    ensures AfterVisits(w.k, w.p, NewConsole(w), visits + [v])
            == Visited(w.k, w.p, AfterVisits(w.k, w.p, NewConsole(w), visits), v).console
  {
    assert (visits + [v])[..|visits|] == visits;
  }

  lemma OneMoreAnswer(w: Setting, requests: seq<I.Request>, said: Said)
    ensures FlowAfter(w, requests + [I.Answer(said)]) == Submitted(w.k, FlowAfter(w, requests), said).flow
    ensures ConsoleAfter(w, requests + [I.Answer(said)]) == Answered(w.k, w.p, ConsoleAfter(w, requests), said).console
  {
    assert (requests + [I.Answer(said)])[..|requests|] == requests;
    OneMoreVisit(w, VisitsOf(requests), Answer(said));
  }

  /** The log holds these turns, and the process this flow. */
  ghost predicate Holds(s: Console, turns: seq<Turn>, f: FlowState) {
    s.flow == Some(f) && TurnsKept(s.data.events) && Turns(s.data.events) == turns
  }

  /** Everything said begins with a letter up to this one. */
  predicate Begins(turns: seq<Turn>, letter: char) {
    forall t :: t in turns ==> t.text != "" && t.text[0] <= letter
  }

  lemma NewByLetter(turns: seq<Turn>, letter: char, t: Turn)
    requires Begins(turns, letter) && t.text != "" && letter < t.text[0]
    ensures t !in turns
  {}

  /** A conversation so far, by a console and by the flow alone: everything said is in the
      log and begins with a letter up to this one. */
  ghost predicate Conversation(w: Setting, requests: seq<I.Request>, turns: seq<Turn>, f: FlowState, letter: char) {
    && f == FlowAfter(w, requests) && Holds(ConsoleAfter(w, requests), turns, f)
    && InSync(turns, f) && turns == f.transcript && Begins(turns, letter)
  }

  /** Said, and asked in turn, in words that begin with later and later letters. */
  predicate Fresh(said: Said, letter: char) {
    && said.reply.Some? && said.answer != "" && said.reply.value != ""
    && letter < said.answer[0] < said.reply.value[0]
  }

  function AddedBy(k: Clerk, f: FlowState, said: Said): seq<Turn>
    requires said.reply.Some?
  {
    [Turn(true, f.stage, said.answer), Turn(false, Submitted(k, f, said).flow.stage, said.reply.value)]
  }

  lemma FreshTurns(k: Clerk, turns: seq<Turn>, f: FlowState, letter: char, said: Said)
    requires InSync(turns, f) && turns == f.transcript && Begins(turns, letter) && f.stage != Done && Fresh(said, letter)
    ensures var g := Submitted(k, f, said).flow;
            g.transcript == turns + AddedBy(k, f, said) == TurnsAfter(k, turns, f, said)
            && InSync(turns + AddedBy(k, f, said), g)
  {
    var added := AddedBy(k, f, said);
    NewByLetter(turns, letter, added[0]);
    NewByLetter(turns, letter, added[1]);
    AnswerAgreesIff(k, turns, f, said);
    MovesOn(k, f, said);
    assert turns + [added[0]] + [added[1]] == turns + added;
  }

  lemma AddedBegin(k: Clerk, turns: seq<Turn>, f: FlowState, letter: char, said: Said)
    requires Begins(turns, letter) && Fresh(said, letter)
    ensures Begins(turns + AddedBy(k, f, said), said.reply.value[0])
  {}

  /** One more answer of a conversation, at the console. */
  lemma ToldHolds(w: Setting, s: Console, turns: seq<Turn>, f: FlowState, letter: char, said: Said)
    requires Holds(s, turns, f) && Indexed(s.data)
    requires InSync(turns, f) && turns == f.transcript && Begins(turns, letter) && f.stage != Done && Fresh(said, letter)
    ensures Holds(Answered(w.k, w.p, s, said).console, turns + AddedBy(w.k, f, said), Submitted(w.k, f, said).flow)
  {
    FreshTurns(w.k, turns, f, letter, said);
    AnsweredTurns(w.k, w.p, s, said);
  }

  /** One more answer of a conversation. */
  lemma Tell(w: Setting, requests: seq<I.Request>, turns: seq<Turn>, f: FlowState, letter: char, said: Said)
    returns (requests': seq<I.Request>, f': FlowState)
    requires Conversation(w, requests, turns, f, letter) && f.stage != Done && Fresh(said, letter)
    ensures requests' == requests + [I.Answer(said)] && f' == Submitted(w.k, f, said).flow
    ensures Conversation(w, requests', turns + AddedBy(w.k, f, said), f', said.reply.value[0])
  {
    requests', f' := requests + [I.Answer(said)], Submitted(w.k, f, said).flow;
    FreshTurns(w.k, turns, f, letter, said);
    AddedBegin(w.k, turns, f, letter, said);
    OneMoreAnswer(w, requests, said);
    ToldHolds(w, ConsoleAfter(w, requests), turns, f, letter, said);
  }

  /** No ground, and none tagged. */
  predicate NoGrounds(d: CaseData) {
    d.grounds == map[] && forall i :: 0 <= i < |d.events| ==> !(d.events[i].id.CallerId? && d.events[i].id.key.GroundCategoryKey?)
  }

  lemma NothingFiled(w: Setting, requests: seq<I.Request>, turns: seq<Turn>, f: FlowState, said: Said)
    requires Holds(ConsoleAfter(w, requests), turns, f) && NoGrounds(ConsoleAfter(w, requests).data)
    requires Submitted(w.k, f, said).flow.stage != AskMore && f.stage != AskMore
    ensures NoGrounds(ConsoleAfter(w, requests + [I.Answer(said)]).data)
  {
    OneMoreAnswer(w, requests, said);
    NotFiledYet(w, ConsoleAfter(w, requests), f, said);
  }

  lemma PersistedFilesNothing(d: CaseData, t: Turn)
    requires NoGrounds(d)
    ensures NoGrounds(PersistedIn(d, t))
  {}

  lemma NotFiledYet(w: Setting, s: Console, f: FlowState, said: Said)
    requires s.flow == Some(f) && NoGrounds(s.data) && Submitted(w.k, f, said).flow.stage != AskMore && f.stage != AskMore
    ensures NoGrounds(Answered(w.k, w.p, s, said).console.data)
  {
    var heard := PersistedIn(s.data, Turn(true, f.stage, said.answer));
    var stepped := Submitted(w.k, f, said);
    PersistedFilesNothing(s.data, Turn(true, f.stage, said.answer));
    if stepped.reply.Ok? {
      assert stepped.reply.value.stage == stepped.flow.stage;
      PersistedFilesNothing(heard, stepped.reply.value);
    }
  }

  // ---------------------------------------------------------------- one concern, step by step

  function StageAfter(s: Stage): Stage {
    match s
    case Opening => Clarifying
    case Clarifying => RequestingEvidence
    case RequestingEvidence => Confirming
    case _ => Clarifying
  }

  /** Where an answer that affirms nothing takes the flow. */
  lemma TellFlow(k: Clerk, f: FlowState, said: Said)
    requires f.stage != AskMore && f.stage != Done && (f.current.Some? <==> InProgress(f.stage))
    requires !k.affirms(said.answer) && said.reply.Some?
    ensures var g := Submitted(k, f, said).flow;
            g.stage == StageAfter(f.stage) && g.current.Some?
            && (if f.stage == Opening then g.current.value == Opened(k, said)
                else g.current.value.base == f.current.value.base && g.current.value.initial == f.current.value.initial)
            && (f.stage == Confirming ==> g.current.value.disputed != [])
  {}

  lemma AddedClarifications(k: Clerk, turns: seq<Turn>, f: FlowState, said: Said)
    requires said.reply.Some? && Submitted(k, f, said).flow.stage != AskMore
    ensures Clarifications(Block(turns + AddedBy(k, f, said)))
            == Clarifications(Block(turns)) + (if Clarifies(Turn(true, f.stage, said.answer)) then [said.answer] else [])
  {
    var added := AddedBy(k, f, said);
    ClarificationsGrow(turns, added[0]);
    ClarificationsGrow(turns + [added[0]], added[1]);
    assert turns + [added[0]] + [added[1]] == turns + added;
  }

  /** One more answer about a concern, that affirms nothing. */
  lemma TellMore(w: Setting, requests: seq<I.Request>, turns: seq<Turn>, f: FlowState, letter: char, said: Said)
    returns (requests': seq<I.Request>, turns': seq<Turn>, f': FlowState)
    requires Conversation(w, requests, turns, f, letter) && NoGrounds(ConsoleAfter(w, requests).data)
    requires f.stage != AskMore && f.stage != Done && Fresh(said, letter) && !w.k.affirms(said.answer)
    ensures requests' == requests + [I.Answer(said)] && f' == Submitted(w.k, f, said).flow
    ensures Conversation(w, requests', turns', f', said.reply.value[0])
    ensures NoGrounds(ConsoleAfter(w, requests').data)
    ensures f'.stage == StageAfter(f.stage)
    ensures turns' == turns + [Turn(true, f.stage, said.answer), Turn(false, f'.stage, said.reply.value)]
    ensures Clarifications(Block(turns')) ==
            Clarifications(Block(turns)) + (if Clarifies(Turn(true, f.stage, said.answer)) then [said.answer] else [])
  {
    TellFlow(w.k, f, said);
    turns' := turns + AddedBy(w.k, f, said);
    requests', f' := Tell(w, requests, turns, f, letter, said);
    NothingFiled(w, requests, turns, f, said);
    AddedClarifications(w.k, turns, f, said);
  }

  function Plain(): Setting { Setting(PlainClerk(), PlainFiling(), CaseId("DA/2024/1", "a")) }

  function Greeting(): Turn { Turn(false, Opening, "Any worries?") }

  lemma StillNoGrounds(d: CaseData, id: EventId, body: Body)
    requires NoGrounds(d) && !id.CallerId?
    ensures NoGrounds(Appended(d, id, body))
  {}

  lemma NewCaseIs(w: Setting)
    ensures NoGrounds(NewConsole(w).data) && TurnsKept(NewConsole(w).data.events) && Turns(NewConsole(w).data.events) == []
  {
    var empty := CaseData(w.c, [], map[], [], map[], None);
    StillNoGrounds(empty, CreatedId, CaseCreated(false, false));
    OtherEventsKeepTurns(empty, CreatedId, CaseCreated(false, false));
  }

  lemma FirstView(k: Clerk, s: Console, text: string)
    requires s.flow.None? && Turns(s.data.events) == [] && Indexed(s.data)
    ensures Viewed(k, s, Some(text)).console ==
            Console(PersistedIn(s.data, Turn(false, Opening, text)), Some(FlowState(Opening, [Turn(false, Opening, text)], [], None)))
  {
    assert [] + [Turn(false, Opening, text)] == [Turn(false, Opening, text)];
  }

  lemma FirstVisit(w: Setting, visits: seq<Visit>, v: Visit)
    requires visits == [v]
    ensures AfterVisits(w.k, w.p, NewConsole(w), visits) == Visited(w.k, w.p, NewConsole(w), v).console
  {
    OneMoreVisit(w, visits[..0], v);
    assert visits[..0] + [v] == visits;
  }

  lemma GreetedConsole(w: Setting)
    ensures ConsoleAfter(w, []) == Console(PersistedIn(NewConsole(w).data, Greeting()), Some(I.Begun("Any worries?")))
  {
    NewCaseIs(w);
    FirstVisit(w, VisitsOf([]), View(Some("Any worries?")));
    FirstView(w.k, NewConsole(w), "Any worries?");
  }

  lemma FirstTurn(d: CaseData, t: Turn)
    requires NoGrounds(d) && TurnsKept(d.events) && Turns(d.events) == []
    ensures var after := PersistedIn(d, t); NoGrounds(after) && TurnsKept(after.events) && Turns(after.events) == [t]
  {
    PersistedFilesNothing(d, t);
    PersistedTurns(d, t);
    assert [] + [t] == [t];
  }

  lemma GreetedHolds(w: Setting)
    ensures Holds(ConsoleAfter(w, []), [Greeting()], I.Begun("Any worries?")) && NoGrounds(ConsoleAfter(w, []).data)
  {
    NewCaseIs(w);
    FirstTurn(NewConsole(w).data, Greeting());
    GreetedConsole(w);
  }

  lemma NothingSaidYet(turns: seq<Turn>)
    requires turns == [Greeting()]
    ensures Clarifications(Block(turns)) == []
  {
    ClarificationsGrow([], Greeting());
    assert [] + [Greeting()] == turns;
  }

  lemma Greeted(w: Setting) returns (turns: seq<Turn>)
    ensures turns == [Greeting()] && Clarifications(Block(turns)) == []
    ensures Conversation(w, [], turns, I.Begun("Any worries?"), 'A') && NoGrounds(ConsoleAfter(w, []).data)
  {
    turns := [Greeting()];
    GreetedHolds(w);
    GreetingInSync(Greeting());
    NothingSaidYet(turns);
  }

  lemma PlainTrim()
    ensures Trim(PlainClerk(), "Bins") == "Bins"
  {
    assert TrimStart(PlainClerk(), "Bins") == "Bins" && TrimEnd(PlainClerk(), "Bins") == "Bins";
  }

  predicate AllWorded(requests: seq<I.Request>) { forall i :: 0 <= i < |requests| ==> I.Worded(requests[i]) }

  lemma OneMoreWorded(requests: seq<I.Request>, r: I.Request)
    requires AllWorded(requests) && I.Worded(r)
    ensures AllWorded(requests + [r])
  {}

  /** A conversation about "Bins" that has filed nothing yet. */
  ghost predicate AboutBins(requests: seq<I.Request>, turns: seq<Turn>, f: FlowState, letter: char) {
    && Conversation(Plain(), requests, turns, f, letter) && NoGrounds(ConsoleAfter(Plain(), requests).data)
    && AllWorded(requests)
    && InProgress(f.stage) && f.current.Some? && f.current.value.base == f.current.value.initial == "Bins"
    && Turn(true, Opening, "Bins") in turns && Turn(false, Clarifying, "Can you say more?") in turns
  }

  lemma TellOfBins(requests: seq<I.Request>, turns: seq<Turn>, f: FlowState, letter: char, said: Said)
    returns (requests': seq<I.Request>, turns': seq<Turn>, f': FlowState)
    requires AboutBins(requests, turns, f, letter) && Fresh(said, letter) && !PlainClerk().affirms(said.answer)
    ensures f' == Submitted(PlainClerk(), f, said).flow && f'.stage == StageAfter(f.stage)
    ensures AboutBins(requests', turns', f', said.reply.value[0])
    ensures Clarifications(Block(turns')) ==
            Clarifications(Block(turns)) + (if Clarifies(Turn(true, f.stage, said.answer)) then [said.answer] else [])
  {
    TellFlow(PlainClerk(), f, said);
    OneMoreWorded(requests, I.Answer(said));
    requests', turns', f' := TellMore(Plain(), requests, turns, f, letter, said);
  }

  lemma FirstStatementOf(before: seq<Turn>, f: FlowState, none: seq<I.Request>, said: Said)
    returns (requests: seq<I.Request>, turns: seq<Turn>, g: FlowState)
    requires Conversation(Plain(), none, before, f, 'A') && NoGrounds(ConsoleAfter(Plain(), none).data) && AllWorded(none)
    requires f.stage == Opening && Clarifications(Block(before)) == []
    requires said == Said("Bins", [Normalised(ConcernType.Other, "Bins")], Some("Can you say more?"))
    ensures AboutBins(requests, turns, g, 'C') && g.stage == Clarifying && Clarifications(Block(turns)) == []
  {
    PlainTrim();
    TellFlow(PlainClerk(), f, said);
    OneMoreWorded(none, I.Answer(said));
    requests, turns, g := TellMore(Plain(), none, before, f, 'A', said);
  }

  lemma ToClarification() returns (requests: seq<I.Request>, turns: seq<Turn>, f: FlowState)
    ensures AboutBins(requests, turns, f, 'C') && f.stage == Clarifying && Clarifications(Block(turns)) == []
  {
    var said := Said("Bins", [Normalised(ConcernType.Other, "Bins")], Some("Can you say more?"));
    var before := Greeted(Plain());
    requests, turns, f := FirstStatementOf(before, I.Begun("Any worries?"), [], said);
  }

  lemma ToEvidence() returns (requests: seq<I.Request>, turns: seq<Turn>, f: FlowState)
    ensures AboutBins(requests, turns, f, 'E') && f.stage == RequestingEvidence
    ensures Clarifications(Block(turns)) == ["Dusty"]
  {
    requests, turns, f := ToClarification();
    requests, turns, f := TellOfBins(requests, turns, f, 'C', Said("Dusty", [], Some("Evidence?")));
  }

  /** Up to a confirmation. */
  lemma ToConfirmation() returns (requests: seq<I.Request>, turns: seq<Turn>, f: FlowState)
    ensures AboutBins(requests, turns, f, 'R') && f.stage == Confirming
    ensures Clarifications(Block(turns)) == ["Dusty", "None"]
  {
    requests, turns, f := ToEvidence();
    requests, turns, f := TellOfBins(requests, turns, f, 'E', Said("None", [], Some("Right?")));
  }

  lemma ToDispute() returns (requests: seq<I.Request>, turns: seq<Turn>, f: FlowState)
    ensures AboutBins(requests, turns, f, 'W') && f.stage == Clarifying
    ensures f.current.value.disputed != [] && Clarifications(Block(turns)) == ["Dusty", "None"]
  {
    var said := Said("Untrue", [], Some("Which part?"));
    var asked, before, g := ToConfirmation();
    TellFlow(PlainClerk(), g, said);
    requests, turns, f := TellOfBins(asked, before, g, 'R', said);
  }

  // ---------------------------------------------------------------- what restarts change in a text

  /** An interview of this clerk, in step with its log. */
  ghost predicate Reached(requests: seq<I.Request>, turns: seq<Turn>, f: FlowState) {
    f == I.Interviewed(PlainClerk(), I.Begun("Any worries?"), requests) && InSync(turns, f) && turns == f.transcript
  }

  /** A restart loses the statement: disputed and clarified again, the live text still says
      "Bins", the rebuilt one does not. */
  lemma StatementLost() returns (requests: seq<I.Request>, turns: seq<Turn>, f: FlowState, dispute: Said, clarified: Said)
    ensures Reached(requests, turns, f) && f.stage == Confirming
    ensures !PlainClerk().affirms(dispute.answer) && dispute.reply.Some? && clarified.reply.Some?
    ensures var k := PlainClerk();
            TextAfter(k, Submitted(k, f, dispute).flow, clarified)
            != TextAfter(k, Submitted(k, Rebuilt(k, turns, []), dispute).flow, clarified)
  {
    requests, turns, f := ToConfirmation();
    dispute, clarified := Said("Untrue", [], Some("Which part?")), Said("east", [], Some("more?"));
    RebuiltDisputeLosesTheStatement(PlainClerk(), turns, f, dispute, clarified);
    assert !PlainClerk().space("Bins"[0]);
  }

  /** Disputed before the restart: the rebuilt text brings "Dusty" back, which the live one
      dropped. */
  lemma WordingKept() returns (requests: seq<I.Request>, turns: seq<Turn>, f: FlowState, clarified: Said)
    ensures Reached(requests, turns, f) && f.stage == Clarifying && clarified.reply.Some?
    ensures TextAfter(PlainClerk(), f, clarified) != TextAfter(PlainClerk(), Rebuilt(PlainClerk(), turns, []), clarified)
  {
    requests, turns, f := ToDispute();
    clarified := Said("east", [], Some("more?"));
    PlainTrim();
    DustShows(turns);
    RebuiltDisputeKeepsTheWording(PlainClerk(), turns, f, clarified);
  }

  lemma DustShows(turns: seq<Turn>)
    requires Clarifications(Block(turns)) == ["Dusty", "None"]
    ensures !Blank(PlainClerk(), KeptWording(PlainClerk(), turns)) && Lines(Clarifications(Block(turns))) != ""
  {
    TwoLines("Dusty", "None");
    assert !PlainClerk().space(KeptWording(PlainClerk(), turns)[0]);
  }

  // ---------------------------------------------------------------- where a flow is stranded

  /** A confirmation affirmed while the composer is down: the flow can never be answered
      again, whatever is asked of it. */
  lemma OneFailureStrands() returns (requests: seq<I.Request>, said: Said)
    ensures PlainClerk().affirms(said.answer) && said.reply.None?
    ensures I.Stuck(I.Interviewed(PlainClerk(), I.Begun("Any worries?"), requests + [I.Answer(said)]))
  {
    var turns, f;
    requests, turns, f := ToConfirmation();
    said := Said("Yes", [], None);
    OneMoreAnswer(Plain(), requests, said);
    I.StuckIff(PlainClerk(), f, I.Answer(said));
  }

  /** "Can you say more?" asked again after a dispute: the live flow waits for a clarification, the
      rebuilt one for a confirmation. */
  lemma QuestionRepeated() returns (requests: seq<I.Request>, turns: seq<Turn>, f: FlowState, said: Said)
    ensures Reached(requests, turns, f) && said.reply.Some? && !PlainClerk().affirms(said.answer)
    ensures Submitted(PlainClerk(), f, said).flow.stage == Clarifying
            && Rebuilt(PlainClerk(), TurnsAfter(PlainClerk(), turns, f, said), []).stage == Confirming
  {
    requests, turns, f := ToConfirmation();
    said := Said("Untrue", [], Some("Can you say more?"));
    TellFlow(PlainClerk(), f, said);
    RepeatedQuestionFallsBehind(PlainClerk(), turns, f, said);
  }

  lemma ToAskMore() returns (requests: seq<I.Request>, turns: seq<Turn>, f: FlowState)
    ensures Conversation(Plain(), requests, turns, f, 'a') && f.stage == AskMore && Turn(true, Opening, "Bins") in turns
  {
    var affirmed := Said("Yes", [], Some("anything else?"));
    var asked, before, g := ToConfirmation();
    requests, f := Tell(Plain(), asked, before, g, 'R', affirmed);
    turns := before + AddedBy(PlainClerk(), g, affirmed);
  }

  /** One concern confirmed, and the resident about to state another. */
  lemma ToNextConcern() returns (requests: seq<I.Request>, turns: seq<Turn>, f: FlowState)
    ensures Conversation(Plain(), requests, turns, f, 'n') && f.stage == Opening && Turn(true, Opening, "Bins") in turns
  {
    var more := Said("indeed", [], Some("next?"));
    var asked, before, g := ToAskMore();
    requests, f := Tell(Plain(), asked, before, g, 'a', more);
    turns := before + AddedBy(PlainClerk(), g, more);
  }

  /** "Bins" stated again as the next concern: the live flow goes on, the rebuilt one fails
      on every answer. */
  lemma StatementRepeated() returns (requests: seq<I.Request>, turns: seq<Turn>, f: FlowState, said: Said)
    ensures Reached(requests, turns, f) && said.reply.Some?
    ensures !I.Stuck(Submitted(PlainClerk(), f, said).flow)
            && I.Stuck(Rebuilt(PlainClerk(), TurnsAfter(PlainClerk(), turns, f, said), []))
  {
    requests, turns, f := ToNextConcern();
    said := Said("Bins", [], Some("tell us"));
    NewByLetter(turns, 'n', Turn(false, Clarifying, "tell us"));
    RepeatedStatementStrands(PlainClerk(), turns, f, said);
  }

  /** "Bins" persisted by a process that then dies, "Dusty" stated to the next: the live
      concern is about dust, and the one a later restart rebuilds about bins. */
  lemma StatementReturns() returns (turns: seq<Turn>, f: FlowState, said: Said)
    ensures Reached([], turns, f) && said.reply.Some? && said.answer == "Dusty"
    ensures var heard := Persisted(turns, Turn(true, Opening, "Bins"));
            var b := Rebuilt(PlainClerk(), heard, []);
            var live, later := Submitted(PlainClerk(), b, said).flow, Rebuilt(PlainClerk(), TurnsAfter(PlainClerk(), heard, b, said), []);
            live.current.Some? && live.current.value.initial == "Dusty"
            && later.current.Some? && later.current.value.initial == "Bins"
  {
    turns := Greeted(Plain());
    f := I.Begun("Any worries?");
    said := Said("Dusty", [], Some("Can you say more?"));
    AbandonedStatementReturns(PlainClerk(), turns, f, "Bins", said);
  }

  // ---------------------------------------------------------------- what restarts change in a case

  lemma StillUnfiled(d: CaseData, r: RaisedConcern)
    requires NoGrounds(d)
    ensures Fileable(PlainFiling(), d, r)
  {}

  /** What was dusty, and that nothing more can be said of it, show in the rebuilt text only. */
  lemma DustSurvivesNot(earlier: seq<string>, a: string, later: seq<string>)
    requires earlier + [a] + later == ["Dusty", "None"] && |later| <= 1
    ensures !Survives(PlainClerk(), "Bins", earlier, a, later)
  {
    var k := PlainClerk();
    assert !k.space("Bins"[0]) && !k.space("None"[0]) && !k.space("Dusty"[0]);
    var all := earlier + [a] + later;
    if later == [] {
      assert a == all[1] == "None" && earlier == all[..1] == ["Dusty"];
    } else {
      assert later[0] == all[1] == "None" && a == all[0] && earlier == [];
    }
  }

  lemma OtherwiseFiled(requests: seq<I.Request>, turns: seq<Turn>, f: FlowState, said: Said)
    requires AboutBins(requests, turns, f, 'R') && f.stage == Confirming && Clarifications(Block(turns)) == ["Dusty", "None"]
    requires PlainClerk().affirms(said.answer) && said.reply.Some?
    ensures var k := PlainClerk();
            var s := ConsoleAfter(Plain(), requests);
            Answered(k, PlainFiling(), s, said).console.data !=
            Answered(k, PlainFiling(), Console(s.data, Some(Rebuilt(k, turns, ConfirmedConcerns(k, s.data)))), said).console.data
  {
    var k, d := PlainClerk(), ConsoleAfter(Plain(), requests).data;
    StillUnfiled(d, f.current.value);
    if InProgressConcern(k, turns).Some? {
      StillUnfiled(d, InProgressConcern(k, turns).value);
    }
    DustShows(turns);
    assert !k.space("Bins"[0]);
    var earlier, a, later := InterviewFiledAsLiveIff(k, PlainFiling(), d, "Any worries?", requests, ConfirmedConcerns(k, d), said);
    DustSurvivesNot(earlier, a, later);
  }

  lemma RestartedIs(w: Setting, requests: seq<I.Request>, turns: seq<Turn>, f: FlowState)
    requires Holds(ConsoleAfter(w, requests), turns, f) && turns != []
    ensures var s := ConsoleAfter(w, requests);
            AfterVisits(w.k, w.p, NewConsole(w), VisitsOf(requests) + [Restart] + [View(None)])
            == Console(s.data, Some(Rebuilt(w.k, turns, ConfirmedConcerns(w.k, s.data))))
  {
    OneMoreVisit(w, VisitsOf(requests), Restart);
    OneMoreVisit(w, VisitsOf(requests) + [Restart], View(None));
  }

  function CaseAfter(w: Setting, visits: seq<Visit>): CaseData { AfterVisits(w.k, w.p, NewConsole(w), visits).data }

  lemma AnsweredLive(w: Setting, requests: seq<I.Request>, said: Said)
    ensures CaseAfter(w, VisitsOf(requests) + [Answer(said)]) == Answered(w.k, w.p, ConsoleAfter(w, requests), said).console.data
  {
    OneMoreVisit(w, VisitsOf(requests), Answer(said));
  }

  lemma AnsweredRestarted(w: Setting, requests: seq<I.Request>, turns: seq<Turn>, f: FlowState, said: Said)
    requires Holds(ConsoleAfter(w, requests), turns, f) && turns != []
    ensures var s := ConsoleAfter(w, requests);
            CaseAfter(w, VisitsOf(requests) + [Restart, View(None), Answer(said)]) ==
            Answered(w.k, w.p, Console(s.data, Some(Rebuilt(w.k, turns, ConfirmedConcerns(w.k, s.data)))), said).console.data
  {
    var visits := VisitsOf(requests);
    RestartedIs(w, requests, turns, f);
    OneMoreVisit(w, visits + [Restart] + [View(None)], Answer(said));
    assert visits + [Restart, View(None), Answer(said)] == visits + [Restart] + [View(None)] + [Answer(said)];
  }

  /** A run of the console on a new case: confirmed by the process that heard it, the concern
      is filed otherwise than when the process restarts just before. */
  lemma FiledOtherwise() returns (visits: seq<Visit>, said: Said)
    ensures PlainClerk().affirms(said.answer) && said.reply.Some?
    ensures CaseAfter(Plain(), visits + [Answer(said)]) != CaseAfter(Plain(), visits + [Restart, View(None), Answer(said)])
  {
    var requests, turns, f := ToConfirmation();
    said, visits := Said("Yes", [], Some("anything else?")), VisitsOf(requests);
    OtherwiseFiled(requests, turns, f, said);
    AnsweredLive(Plain(), requests, said);
    AnsweredRestarted(Plain(), requests, turns, f, said);
  }
}
