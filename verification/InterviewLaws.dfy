/** What holds of every interview run from its first question. */
module InterviewLaws {
  import opened Wrappers
  import opened CaseStores
  import opened Interviews

  /** What a caller may ask of a flow. */
  datatype Request = Answer(said: Said) | Attach(document: string, message: Option<string>)

  function Handled(k: Clerk, f: FlowState, r: Request): Stepped {
    match r
    case Answer(said) => Submitted(k, f, said)
    case Attach(document, message) => Uploaded(f, document, message)
  }

  /** The flow after any requests, errors and all. */
  function Interviewed(k: Clerk, f: FlowState, requests: seq<Request>): FlowState {
    if requests == [] then f
    else Handled(k, Interviewed(k, f, requests[..|requests| - 1]), requests[|requests| - 1]).flow
  }

  predicate Worded(r: Request) {
    match r
    case Answer(said) => said.reply.Some?
    case Attach(_, message) => message.Some?
  }

  function Begun(greeting: string): FlowState {
    FlowState(Opening, [Turn(false, Opening, greeting)], [], None)
  }

  // ---------------------------------------------------------------- reading the transcript

  function TimesAskedMore(transcript: seq<Turn>): nat {
    if transcript == [] then 0
    else
      var last := transcript[|transcript| - 1];
      TimesAskedMore(transcript[..|transcript| - 1]) + (if !last.resident && last.stage == AskMore then 1 else 0)
  }

  /** What the resident last said when asked what worries them. */
  function LastStatement(transcript: seq<Turn>): Option<string> {
    if transcript == [] then None
    else
      var last := transcript[|transcript| - 1];
      if last.resident && last.stage == Opening then Some(last.text) else LastStatement(transcript[..|transcript| - 1])
  }

  /** The latest clarification, and what was said about evidence since, if anything. */
  datatype Round = Round(clarification: Option<string>, evidence: Option<string>)

  function LastRound(k: Clerk, transcript: seq<Turn>): Round {
    if transcript == [] then Round(None, None)
    else
      var before := LastRound(k, transcript[..|transcript| - 1]);
      var last := transcript[|transcript| - 1];
      if last.resident && last.stage == Clarifying then Round(Some(last.text), None)
      else if last.resident && last.stage == RequestingEvidence && !Declines(k, last.text)
      then before.(evidence := Some(last.text))
      else before
  }

  /** What the resident said when a confirmation was not affirmed, since the last statement. */
  function Disputes(k: Clerk, transcript: seq<Turn>): seq<string> {
    if transcript == [] then []
    else
      var before, last := Disputes(k, transcript[..|transcript| - 1]), transcript[|transcript| - 1];
      if last.resident && last.stage == Opening then []
      else if last.resident && last.stage == Confirming && !k.affirms(last.text) then before + [last.text]
      else before
  }

  lemma OneMoreTurn(k: Clerk, transcript: seq<Turn>, t: Turn)
    ensures TimesAskedMore(transcript + [t]) == TimesAskedMore(transcript) + (if !t.resident && t.stage == AskMore then 1 else 0)
    ensures LastStatement(transcript + [t]) == if t.resident && t.stage == Opening then Some(t.text) else LastStatement(transcript)
    ensures LastRound(k, transcript + [t]) ==
            if t.resident && t.stage == Clarifying then Round(Some(t.text), None)
            else if t.resident && t.stage == RequestingEvidence && !Declines(k, t.text)
            then LastRound(k, transcript).(evidence := Some(t.text))
            else LastRound(k, transcript)
    ensures Disputes(k, transcript + [t]) ==
            if t.resident && t.stage == Opening then []
            else if t.resident && t.stage == Confirming && !k.affirms(t.text) then Disputes(k, transcript) + [t.text]
            else Disputes(k, transcript)
  {
    assert (transcript + [t])[..|transcript|] == transcript;
  }

  // ---------------------------------------------------------------- the invariant

  /** The base, the latest clarification, and at most one elaboration, each redacted. */
  function RoundText(k: Clerk, base: string, round: Round): string {
    if round.clarification.None? then base
    else
      var clarified := Trim(k, base + " " + k.redact(round.clarification.value));
      if round.evidence.None? then clarified else Trim(k, clarified + "\n" + k.redact(round.evidence.value))
  }

  /** The round in the resident's own words. */
  function RoundWords(k: Clerk, round: Round): Option<string> {
    if round.clarification.None? || round.evidence.None? then round.clarification
    else Some(Trim(k, round.clarification.value + "\n" + round.evidence.value))
  }

  /** What the stage says about the concern under discussion. */
  ghost predicate Discussing(k: Clerk, f: FlowState, r: RaisedConcern) {
    var round := LastRound(k, f.transcript);
    && LastStatement(f.transcript) == Some(r.initial) && !r.confirmed && r.disputed == Disputes(k, f.transcript)
    && (f.stage == RequestingEvidence || f.stage == Confirming ==> r.clarification == RoundWords(k, round))
    && (f.stage == Clarifying && r.disputed == [] ==> r.redacted == r.base)
    && (f.stage == RequestingEvidence ==>
          round.clarification.Some? && round.evidence.None? && r.redacted == RoundText(k, r.base, round))
    && (f.stage == Confirming ==> round.clarification.Some? && r.redacted == RoundText(k, r.base, round))
  }

  ghost predicate Sound(k: Clerk, f: FlowState) {
    && f.transcript != []
    && (f.current.Some? <==> InProgress(f.stage))
    && TimesAskedMore(f.transcript) == |f.concerns|
    && (forall i :: 0 <= i < |f.concerns| ==> f.concerns[i].confirmed)
    && (f.current.Some? ==> Discussing(k, f, f.current.value))
  }

  lemma AskTurns(k: Clerk, f: FlowState, answer: string, stage: Stage, message: string)
    ensures var heard := Heard(f, answer);
            var after := Ask(heard, stage, Some(message)).flow.transcript;
            after == heard.transcript + [Turn(false, stage, message)]
            && TimesAskedMore(after) == TimesAskedMore(f.transcript) + (if stage == AskMore then 1 else 0)
            && LastStatement(after) == (if f.stage == Opening then Some(answer) else LastStatement(f.transcript))
            && LastRound(k, after) ==
               if f.stage == Clarifying then Round(Some(answer), None)
               else if f.stage == RequestingEvidence && !Declines(k, answer)
               then LastRound(k, f.transcript).(evidence := Some(answer))
               else LastRound(k, f.transcript)
    ensures var heard := Heard(f, answer);
            Disputes(k, Ask(heard, stage, Some(message)).flow.transcript) ==
            if f.stage == Opening then []
            else if f.stage == Confirming && !k.affirms(answer) then Disputes(k, f.transcript) + [answer]
            else Disputes(k, f.transcript)
  {
    OneMoreTurn(k, f.transcript, Turn(true, f.stage, answer));
    OneMoreTurn(k, Heard(f, answer).transcript, Turn(false, stage, message));
  }

  lemma SoundAnswer(k: Clerk, f: FlowState, s: Said)
    requires Sound(k, f) && s.reply.Some?
    ensures Sound(k, Submitted(k, f, s).flow)
  {
    var after := Submitted(k, f, s).flow;
    AskTurns(k, f, s.answer, after.stage, s.reply.value);
    OneMoreTurn(k, f.transcript, Turn(true, f.stage, s.answer));
  }

  lemma SoundAttach(k: Clerk, f: FlowState, document: string, message: Option<string>)
    requires Sound(k, f) && message.Some?
    ensures Sound(k, Uploaded(f, document, message).flow)
  {
    OneMoreTurn(k, f.transcript, Turn(false, Confirming, message.value));
  }

  /** Whatever is answered or attached after the first question, in any order: a concern is
      under discussion exactly from clarifying to confirming; the resident was asked for
      more once per confirmed concern; the disputes kept are those since its statement; and
      when asked to confirm, the text is the base, the redacted latest clarification and at
      most one redacted elaboration, so nothing said in an earlier, disputed round is left in
      it, and the clarification is the same in the resident's own words. */
  lemma {:induction false} InterviewIsSound(k: Clerk, greeting: string, requests: seq<Request>)
    requires forall i :: 0 <= i < |requests| ==> Worded(requests[i])
    ensures Sound(k, Interviewed(k, Begun(greeting), requests))
  {
    if requests == [] {
      var f := Begun(greeting);
      assert f.transcript == [] + [Turn(false, Opening, greeting)];
      OneMoreTurn(k, [], Turn(false, Opening, greeting));
    } else {
      var init, last := requests[..|requests| - 1], requests[|requests| - 1];
      assert forall i :: 0 <= i < |init| ==> init[i] == requests[i];
      InterviewIsSound(k, greeting, init);
      var f := Interviewed(k, Begun(greeting), init);
      assert Worded(last);
      match last {
        case Answer(said) => SoundAnswer(k, f, said);
        case Attach(document, message) => SoundAttach(k, f, document, message);
      }
    }
  }

  /** The assertion that a concern is under discussion never fails on such a run, and only
      a finished interview refuses an answer. */
  lemma {:induction false} NoAssertionFails(k: Clerk, greeting: string, requests: seq<Request>, s: Said)
    requires forall i :: 0 <= i < |requests| ==> Worded(requests[i])
    requires s.reply.Some?
    ensures var f := Interviewed(k, Begun(greeting), requests);
            var reply := Submitted(k, f, s).reply;
            reply != Err(NoConcern)
            && (reply.Err? <==> f.stage == Done) && (f.stage == Done ==> reply == Err(AlreadyDone))
  {
    InterviewIsSound(k, greeting, requests);
  }

  /** From its statement to its confirmation a concern keeps its statement, type and base. */
  lemma BaseStays(k: Clerk, f: FlowState, r: Request)
    requires f.current.Some? && f.stage != Opening
    ensures var g := Handled(k, f, r).flow;
            (g.current.Some? ==>
               g.current.value.initial == f.current.value.initial && g.current.value.kind == f.current.value.kind
               && g.current.value.base == f.current.value.base && f.current.value.evidence <= g.current.value.evidence)
            && (g.current.None? ==>
                  f.stage == Confirming && g.concerns == f.concerns + [f.current.value.(confirmed := true)])
  {}

  // ---------------------------------------------------------------- how it ends

  predicate SaidNoMore(k: Clerk, t: Turn) { t.resident && t.stage == AskMore && Declines(k, t.text) }

  predicate Affirmed(k: Clerk, t: Turn) { t.resident && t.stage == Confirming && k.affirms(t.text) }

  function TimesAffirmed(k: Clerk, transcript: seq<Turn>): nat {
    if transcript == [] then 0
    else TimesAffirmed(k, transcript[..|transcript| - 1]) + (if Affirmed(k, transcript[|transcript| - 1]) then 1 else 0)
  }

  /** The interview is over exactly if the resident, asked for more, had none; and there is
      one concern for every confirmation affirmed. */
  ghost predicate Tallied(k: Clerk, f: FlowState) {
    && (f.stage == Done <==> exists t :: t in f.transcript && SaidNoMore(k, t))
    && TimesAffirmed(k, f.transcript) == |f.concerns|
  }

  lemma OneMoreTallied(k: Clerk, transcript: seq<Turn>, t: Turn)
    ensures TimesAffirmed(k, transcript + [t]) == TimesAffirmed(k, transcript) + (if Affirmed(k, t) then 1 else 0)
    ensures (exists u :: u in transcript + [t] && SaidNoMore(k, u)) <==> (exists u :: u in transcript && SaidNoMore(k, u)) || SaidNoMore(k, t)
  {
    assert (transcript + [t])[..|transcript|] == transcript;
    if u :| u in transcript && SaidNoMore(k, u) {
      assert u in transcript + [t];
    }
    if SaidNoMore(k, t) {
      assert t in transcript + [t];
    }
  }

  lemma AnswerTallied(k: Clerk, f: FlowState, s: Said)
    requires Tallied(k, f) && s.reply.Some? && (f.current.Some? <==> InProgress(f.stage))
    ensures Tallied(k, Submitted(k, f, s).flow)
  {
    var resident := Turn(true, f.stage, s.answer);
    OneMoreTallied(k, f.transcript, resident);
    OneMoreTallied(k, f.transcript + [resident], Turn(false, Submitted(k, f, s).flow.stage, s.reply.value));
  }

  /** Over any worded interview from its first question. */
  lemma {:induction false} InterviewIsTallied(k: Clerk, greeting: string, requests: seq<Request>)
    requires forall i :: 0 <= i < |requests| ==> Worded(requests[i])
    ensures Tallied(k, Interviewed(k, Begun(greeting), requests))
  {
    if requests == [] {
      var asked := Turn(false, Opening, greeting);
      OneMoreTallied(k, [], asked);
      assert [] + [asked] == Begun(greeting).transcript;
    } else {
      var init, last := requests[..|requests| - 1], requests[|requests| - 1];
      assert forall i :: 0 <= i < |init| ==> init[i] == requests[i];
      InterviewIsTallied(k, greeting, init);
      InterviewIsSound(k, greeting, init);
      assert Worded(last);
      var f := Interviewed(k, Begun(greeting), init);
      match last {
        case Answer(said) => AnswerTallied(k, f, said);
        case Attach(document, message) => OneMoreTallied(k, f.transcript, Turn(false, Confirming, message.value));
      }
    }
  }

  // ---------------------------------------------------------------- one concern, through its life

  /** The concern a statement opened: its words, the type and text the normaliser made of
      them, or the keyword type and redacted words if it made nothing. */
  ghost predicate OpenedBy(k: Clerk, s: Said, r: RaisedConcern) {
    && r.initial == s.answer
    && (if s.heard == [] then r.kind == k.classify(s.answer) && r.base == k.redact(s.answer)
        else r.kind == s.heard[0].category && r.base == Trim(k, Joined(s.heard)))
  }

  /** The documents attached, in order. */
  function Documents(requests: seq<Request>): seq<string> {
    if requests == [] then []
    else
      Documents(requests[..|requests| - 1]) + (if requests[|requests| - 1].Attach? then [requests[|requests| - 1].document] else [])
  }

  /** Where the `n`-th concern stands: under discussion with every document attached so far,
      or filed with those attached until then. */
  ghost predicate Followed(k: Clerk, s: Said, n: nat, documents: seq<string>, g: FlowState) {
    if |g.concerns| == n then
      InProgress(g.stage) && g.current.Some? && OpenedBy(k, s, g.current.value) && g.current.value.evidence == documents
    else
      |g.concerns| > n && g.concerns[n].confirmed && OpenedBy(k, s, g.concerns[n]) && g.concerns[n].evidence <= documents
  }

  lemma FollowedStep(k: Clerk, s: Said, n: nat, documents: seq<string>, g: FlowState, r: Request)
    requires Followed(k, s, n, documents, g)
    ensures Followed(k, s, n, documents + (if r.Attach? then [r.document] else []), Handled(k, g, r).flow)
  {
    assert documents + [] == documents;
  }

  /** From its statement on, whatever is asked, with calls that fail or not: a concern keeps
      what opened it, gains exactly the documents attached while it is discussed, and is
      filed as that. */
  lemma {:induction false} ConcernIsFollowed(k: Clerk, f: FlowState, s: Said, requests: seq<Request>)
    requires f.stage == Opening && s.reply.Some?
    ensures Followed(k, s, |f.concerns|, Documents(requests), Interviewed(k, Submitted(k, f, s).flow, requests))
  {
    if requests != [] {
      var init, last := requests[..|requests| - 1], requests[|requests| - 1];
      ConcernIsFollowed(k, f, s, init);
      FollowedStep(k, s, |f.concerns|, Documents(init), Interviewed(k, Submitted(k, f, s).flow, init), last);
    }
  }

  /** The normaliser's parts are all in the text, in order, a space between any two. */
  lemma {:induction false} JoinedParts(a: seq<Normalised>, b: seq<Normalised>)
    requires a != [] && b != []
    ensures Joined(a + b) == Joined(a) + " " + Joined(b)
  {
    var init, last := b[..|b| - 1], b[|b| - 1];
    assert (a + b)[..|a + b| - 1] == a + init;
    if init == [] {
      assert a + init == a;
    } else {
      JoinedParts(a, init);
      assert Joined(a) + " " + Joined(init) + " " + last.redacted == Joined(a) + " " + (Joined(init) + " " + last.redacted);
    }
  }

  // ---------------------------------------------------------------- a call that fails

  /** Every answer trips the assertion. */
  predicate Stuck(f: FlowState) { InProgress(f.stage) && f.current.None? }

  /** A flow gets stuck in exactly one way: a confirmation is affirmed and the wording of
      the next question then fails, after the concern was closed and before the stage was. */
  lemma StuckIff(k: Clerk, f: FlowState, r: Request)
    requires !Stuck(f)
    ensures Stuck(Handled(k, f, r).flow) <==>
            f.stage == Confirming && r.Answer? && k.affirms(r.said.answer) && r.said.reply.None?
  {}

  /** Once stuck, no request ever helps: nothing but the transcript changes. */
  lemma {:induction false} StuckForever(k: Clerk, f: FlowState, requests: seq<Request>)
    requires Stuck(f) && f.transcript != []
    ensures var g := Interviewed(k, f, requests);
            Stuck(g) && g.stage == f.stage && g.concerns == f.concerns && f.transcript <= g.transcript
            && forall s :: Submitted(k, g, s).reply == Err(NoConcern)
  {
    if requests != [] {
      StuckForever(k, f, requests[..|requests| - 1]);
    }
  }

  /** A clarification whose next question failed is kept beside the one given on the retry,
      unless the concern was disputed before. */
  lemma RetriedClarification(k: Clerk, f: FlowState, first: Said, second: Said)
    requires f.stage == Clarifying && f.current.Some? && first.reply.None?
    ensures var r := f.current.value;
            var g := Submitted(k, Submitted(k, f, first).flow, second).flow;
            g.current.Some?
            && g.current.value.redacted ==
               (if r.disputed != [] then Trim(k, r.base + " " + k.redact(second.answer))
                else Trim(k, Trim(k, r.redacted + " " + k.redact(first.answer)) + " " + k.redact(second.answer)))
  {}
}
