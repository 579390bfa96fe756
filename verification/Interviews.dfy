/** The interview: a state machine over stages, one concern at a time. */
module Interviews {
  import opened Wrappers
  import opened CaseStores

  /** The text services the machine calls: redaction, keyword triage, and the two readings
      of a short answer. `space` says which characters trimming removes. */
  datatype Clerk = Clerk(
    redact: string -> string, classify: string -> ConcernType, affirms: string -> bool, saysNo: string -> bool,
    space: char -> bool)

  /** An answer that affirms anything declines nothing. */
  predicate Declines(k: Clerk, text: string) { !k.affirms(text) && k.saysNo(text) }

  function TrimStart(k: Clerk, s: string): string {
    if s != [] && k.space(s[0]) then TrimStart(k, s[1..]) else s
  }

  function TrimEnd(k: Clerk, s: string): string {
    if s != [] && k.space(s[|s| - 1]) then TrimEnd(k, s[..|s| - 1]) else s
  }

  function Trim(k: Clerk, s: string): string { TrimEnd(k, TrimStart(k, s)) }

  datatype RaisedConcern = RaisedConcern(
    kind: ConcernType,
    initial: string,
    clarification: Option<string>,
    evidence: seq<string>,
    disputed: seq<string>,
    confirmed: bool,
    redacted: string,
    base: string)

  datatype Normalised = Normalised(category: ConcernType, redacted: string)

  function Joined(parts: seq<Normalised>): string {
    if parts == [] then ""
    else if |parts| == 1 then parts[0].redacted
    else Joined(parts[..|parts| - 1]) + " " + parts[|parts| - 1].redacted
  }

  /** An answer, what the normaliser makes of it, and the wording the composer finds for
      the reply; no wording is a call that fails. */
  datatype Said = Said(answer: string, heard: seq<Normalised>, reply: Option<string>)

  /** The composer's exception, the end of the interview, a failed assertion that a concern
      is being discussed, and an empty transcript. */
  datatype FlowError = ComposeFailed | AlreadyDone | NoConcern | NothingSaid

  datatype FlowState = FlowState(
    stage: Stage, transcript: seq<Turn>, concerns: seq<RaisedConcern>, current: Option<RaisedConcern>)

  datatype Stepped = Stepped(flow: FlowState, reply: Result<Turn, FlowError>)

  // ---------------------------------------------------------------- what each step does

  function Ask(f: FlowState, stage: Stage, message: Option<string>): Stepped {
    if message.None? then Stepped(f, Err(ComposeFailed))
    else
      var turn := Turn(false, stage, message.value);
      Stepped(f.(stage := stage, transcript := f.transcript + [turn]), Ok(turn))
  }

  function Opened(k: Clerk, s: Said): RaisedConcern {
    var redacted := if s.heard != [] then Trim(k, Joined(s.heard)) else k.redact(s.answer);
    var kind := if s.heard != [] then s.heard[0].category else k.classify(s.answer);
    RaisedConcern(kind, s.answer, None, [], [], false, redacted, redacted)
  }

  /** After a dispute the text starts over from the base. */
  function Clarified(k: Clerk, r: RaisedConcern, answer: string): RaisedConcern {
    var from := if r.disputed != [] then r.base else r.redacted;
    r.(clarification := Some(answer), redacted := Trim(k, from + " " + k.redact(answer)))
  }

  function Shown(text: Option<string>): string { if text.None? then "None" else text.value }

  function Elaborated(k: Clerk, r: RaisedConcern, answer: string): RaisedConcern {
    if Declines(k, answer) then r
    else r.(clarification := Some(Trim(k, Shown(r.clarification) + "\n" + answer)),
            redacted := Trim(k, r.redacted + "\n" + k.redact(answer)))
  }

  predicate InProgress(s: Stage) { s == Clarifying || s == RequestingEvidence || s == Confirming }

  function Heard(f: FlowState, answer: string): FlowState {
    f.(transcript := f.transcript + [Turn(true, f.stage, answer)])
  }

  function Submitted(k: Clerk, before: FlowState, s: Said): Stepped {
    var f := Heard(before, s.answer);
    if f.stage == Done then Stepped(f, Err(AlreadyDone))
    else if InProgress(f.stage) && f.current.None? then Stepped(f, Err(NoConcern))
    else
      match f.stage
      case Opening => Ask(f.(current := Some(Opened(k, s))), Clarifying, s.reply)
      case Clarifying => Ask(f.(current := Some(Clarified(k, f.current.value, s.answer))), RequestingEvidence, s.reply)
      case RequestingEvidence => Ask(f.(current := Some(Elaborated(k, f.current.value, s.answer))), Confirming, s.reply)
      case Confirming =>
        if k.affirms(s.answer) then
          Ask(f.(concerns := f.concerns + [f.current.value.(confirmed := true)], current := None), AskMore, s.reply)
        else
          var r := f.current.value;
          Ask(f.(current := Some(r.(disputed := r.disputed + [s.answer]))), Clarifying, s.reply)
      case _ => Ask(f, if Declines(k, s.answer) then Done else Opening, s.reply)
  }

  /** A document attached to the concern under discussion, if there is one. */
  function Uploaded(f: FlowState, document: string, message: Option<string>): Stepped {
    if f.current.None? && f.transcript == [] then Ask(f, Opening, message)
    else
      var r := if f.current.None? then f
               else f.(current := Some(f.current.value.(evidence := f.current.value.evidence + [document])));
      if f.current.Some? && f.stage == RequestingEvidence then Ask(r, Confirming, message)
      else if f.transcript == [] then Stepped(r, Err(NothingSaid))
      else Stepped(r, Ok(f.transcript[|f.transcript| - 1]))
  }

  // ---------------------------------------------------------------- the machine itself

  class InterviewFlow {
    const clerk: Clerk
    var stage: Stage
    var transcript: seq<Turn>
    var concerns: seq<RaisedConcern>
    var current: Option<RaisedConcern>

    function View(): FlowState
      reads this
    {
      FlowState(stage, transcript, concerns, current)
    }

    constructor (clerk: Clerk)
      ensures this.clerk == clerk && View() == FlowState(Opening, [], [], None)
    {
      this.clerk := clerk;
      stage, transcript, concerns, current := Opening, [], [], None;
    }

    /** A flow set up from what was persisted; nothing is asked. */
    constructor Resume(clerk: Clerk, transcript: seq<Turn>, concerns: seq<RaisedConcern>, current: Option<RaisedConcern>)
      ensures this.clerk == clerk
      ensures View() == FlowState(if transcript == [] then Opening else transcript[|transcript| - 1].stage,
                                  transcript, concerns, current)
    {
      this.clerk := clerk;
      this.transcript := transcript;
      stage := if transcript == [] then Opening else transcript[|transcript| - 1].stage;
      this.concerns, this.current := concerns, current;
    }

    method AskNext(next: Stage, message: Option<string>) returns (reply: Result<Turn, FlowError>)
      modifies this
      ensures Stepped(View(), reply) == Ask(old(View()), next, message)
    {
      if message.None? {
        return Err(ComposeFailed);
      }
      var turn := Turn(false, next, message.value);
      stage := next;
      transcript := transcript + [turn];
      return Ok(turn);
    }

    method Start(message: Option<string>) returns (reply: Result<Turn, FlowError>)
      modifies this
      ensures Stepped(View(), reply) == Ask(old(View()), Opening, message)
    {
      reply := AskNext(Opening, message);
    }

    method Submit(s: Said) returns (reply: Result<Turn, FlowError>)
      modifies this
      ensures Stepped(View(), reply) == Submitted(clerk, old(View()), s)
    {
      transcript := transcript + [Turn(true, stage, s.answer)];
      match stage {
        case Opening => reply := HandleOpening(s);
        case Clarifying => reply := HandleClarifying(s);
        case RequestingEvidence => reply := HandleRequestingEvidence(s);
        case Confirming => reply := HandleConfirming(s);
        case AskMore => reply := HandleAskMore(s);
        case Done => reply := Err(AlreadyDone);
      }
    }

    method HandleOpening(s: Said) returns (reply: Result<Turn, FlowError>)
      modifies this
      ensures Stepped(View(), reply) == Ask(old(View()).(current := Some(Opened(clerk, s))), Clarifying, s.reply)
    {
      var kind, redacted;
      if s.heard != [] {
        kind, redacted := s.heard[0].category, Trim(clerk, Joined(s.heard));
      } else {
        kind, redacted := clerk.classify(s.answer), clerk.redact(s.answer);
      }
      current := Some(RaisedConcern(kind, s.answer, None, [], [], false, redacted, redacted));
      reply := AskNext(Clarifying, s.reply);
    }

    method HandleClarifying(s: Said) returns (reply: Result<Turn, FlowError>)
      modifies this
      ensures old(current).None? ==> reply == Err(NoConcern) && View() == old(View())
      ensures old(current).Some? ==>
                Stepped(View(), reply) ==
                Ask(old(View()).(current := Some(Clarified(clerk, old(current).value, s.answer))), RequestingEvidence, s.reply)
    {
      if current.None? {
        return Err(NoConcern);
      }
      var r := current.value.(clarification := Some(s.answer));
      if r.disputed != [] {
        r := r.(redacted := Trim(clerk, r.base + " " + clerk.redact(s.answer)));
      } else {
        r := r.(redacted := Trim(clerk, r.redacted + " " + clerk.redact(s.answer)));
      }
      current := Some(r);
      reply := AskNext(RequestingEvidence, s.reply);
    }

    method HandleRequestingEvidence(s: Said) returns (reply: Result<Turn, FlowError>)
      modifies this
      ensures old(current).None? ==> reply == Err(NoConcern) && View() == old(View())
      ensures old(current).Some? ==>
                Stepped(View(), reply) ==
                Ask(old(View()).(current := Some(Elaborated(clerk, old(current).value, s.answer))), Confirming, s.reply)
    {
      if current.None? {
        return Err(NoConcern);
      }
      if !Declines(clerk, s.answer) {
        var r := current.value;
        r := r.(clarification := Some(Trim(clerk, Shown(r.clarification) + "\n" + s.answer)));
        r := r.(redacted := Trim(clerk, r.redacted + "\n" + clerk.redact(s.answer)));
        current := Some(r);
      }
      reply := AskNext(Confirming, s.reply);
    }

    method HandleConfirming(s: Said) returns (reply: Result<Turn, FlowError>)
      modifies this
      ensures old(current).None? ==> reply == Err(NoConcern) && View() == old(View())
      ensures old(current).Some? && clerk.affirms(s.answer) ==>
                Stepped(View(), reply) ==
                Ask(old(View()).(concerns := old(concerns) + [old(current).value.(confirmed := true)], current := None),
                    AskMore, s.reply)
      ensures old(current).Some? && !clerk.affirms(s.answer) ==>
                Stepped(View(), reply) ==
                Ask(old(View()).(current := Some(old(current).value.(disputed := old(current).value.disputed + [s.answer]))),
                    Clarifying, s.reply)
    {
      if current.None? {
        return Err(NoConcern);
      }
      if clerk.affirms(s.answer) {
        concerns := concerns + [current.value.(confirmed := true)];
        current := None;
        reply := AskNext(AskMore, s.reply);
        return;
      }
      current := Some(current.value.(disputed := current.value.disputed + [s.answer]));
      reply := AskNext(Clarifying, s.reply);
    }

    method HandleAskMore(s: Said) returns (reply: Result<Turn, FlowError>)
      modifies this
      ensures Stepped(View(), reply) == Ask(old(View()), if Declines(clerk, s.answer) then Done else Opening, s.reply)
    {
      if Declines(clerk, s.answer) {
        reply := AskNext(Done, s.reply);
      } else {
        reply := Start(s.reply);
      }
    }

    method RecordEvidenceUpload(document: string, message: Option<string>) returns (reply: Result<Turn, FlowError>)
      modifies this
      ensures Stepped(View(), reply) == Uploaded(old(View()), document, message)
    {
      if current.None? {
        if transcript == [] {
          reply := Start(message);
        } else {
          reply := Ok(transcript[|transcript| - 1]);
        }
        return;
      }
      current := Some(current.value.(evidence := current.value.evidence + [document]));
      if stage == RequestingEvidence {
        reply := AskNext(Confirming, message);
      } else if transcript == [] {
        reply := Err(NothingSaid);
      } else {
        reply := Ok(transcript[|transcript| - 1]);
      }
    }
  }
}
