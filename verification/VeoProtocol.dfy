/** Live video generation under a global cap and a per-case claim, as job executions
    interleave. Each claim and each cap check is an atomic increment followed by a
    separate read, so another execution may act between the two. */
module VeoProtocol {
  import opened Wrappers

  /** Where one attempt stands. Every arrow to the next value is one atomic store
      operation, one local check, or the call itself. */
  datatype Pc = Gating | ClaimCounted | ClaimWon | CapCounted | Admitted | Announced | Done

  datatype Attempt = Attempt(caseId: string, pc: Pc)

  /** The two kinds of counter document, the attempts, and what has happened so far:
      which attempts added to their claim, won it, added to the cap, were admitted,
      and, in order, which called the model. */
  datatype State = State(
    claims: map<string, nat>,
    cap: nat,
    attempts: seq<Attempt>,
    claimers: set<nat>,
    winners: set<nat>,
    counted: set<nat>,
    admitted: set<nat>,
    calls: seq<nat>)

  const START := State(map[], 0, [], {}, {}, {}, {}, [])

  /** One scheduling choice: a job reaches the video step for a case, an attempt takes
      its next step (`go` is the outcome of a check on data outside this model), or an
      attempt stops for good: crash, timeout or error. */
  datatype Action = Spawn(caseId: string) | Step(i: nat, go: bool) | Stop(i: nat)

  function Claims(s: State, c: string): nat { if c in s.claims then s.claims[c] else 0 }

  function Goto(s: State, i: nat, pc: Pc): State
    requires i < |s.attempts|
  {
    s.(attempts := s.attempts[i := s.attempts[i].(pc := pc)])
  }

  function Advance(limit: int, s: State, i: nat, go: bool): State
    requires i < |s.attempts|
  {
    var c := s.attempts[i].caseId;
    match s.attempts[i].pc
    case Gating =>
      if !go then Goto(s, i, Done)
      else Goto(s, i, ClaimCounted).(claims := s.claims[c := Claims(s, c) + 1], claimers := s.claimers + {i})
    case ClaimCounted =>
      if Claims(s, c) <= 1 then Goto(s, i, ClaimWon).(winners := s.winners + {i}) else Goto(s, i, Done)
    case ClaimWon =>
      if !go then Goto(s, i, Done)
      else Goto(s, i, CapCounted).(cap := s.cap + 1, counted := s.counted + {i})
    case CapCounted =>
      if s.cap <= limit then Goto(s, i, Admitted).(admitted := s.admitted + {i}) else Goto(s, i, Done)
    case Admitted => Goto(s, i, Announced)
    case Announced => Goto(s, i, Done).(calls := s.calls + [i])
    case Done => s
  }

  function Next(limit: int, s: State, a: Action): State {
    match a
    case Spawn(c) => s.(attempts := s.attempts + [Attempt(c, Gating)])
    case Step(i, go) => if i < |s.attempts| then Advance(limit, s, i, go) else s
    case Stop(i) => if i < |s.attempts| then Goto(s, i, Done) else s
  }

  function Run(limit: int, s: State, trace: seq<Action>): State
    decreases |trace|
  {
    if trace == [] then s else Run(limit, Next(limit, s, trace[0]), trace[1..])
  }

  // ---------------------------------------------------------------- the invariant

  function Of(s: State, who: set<nat>, c: string): set<nat> {
    set i | i in who && i < |s.attempts| && s.attempts[i].caseId == c
  }

  /** What an attempt's position says about the record of what happened. */
  ghost predicate Placed(s: State, i: nat)
    requires i < |s.attempts|
  {
    match s.attempts[i].pc
    case Gating => i !in s.claimers && i !in s.winners && i !in s.counted && i !in s.admitted && i !in s.calls
    case ClaimCounted => i in s.claimers && i !in s.winners && i !in s.counted && i !in s.admitted && i !in s.calls
    case ClaimWon => i in s.winners && i !in s.counted && i !in s.admitted && i !in s.calls
    case CapCounted => i in s.winners && i in s.counted && i !in s.admitted && i !in s.calls
    case Admitted => i in s.winners && i in s.admitted && i !in s.calls
    case Announced => i in s.winners && i in s.admitted && i !in s.calls
    case Done => true
  }

  ghost predicate Nested(s: State) {
    && (forall i :: i in s.claimers ==> i < |s.attempts|)
    && s.winners <= s.claimers && s.admitted <= s.counted <= s.claimers
    && (forall k :: 0 <= k < |s.calls| ==> s.calls[k] in s.winners && s.calls[k] in s.admitted)
    && (forall j, k :: 0 <= j < k < |s.calls| ==> s.calls[j] != s.calls[k])
  }

  ghost predicate AllPlaced(s: State) {
    forall i: nat :: i < |s.attempts| ==> Placed(s, i)
  }

  /** A claim document counts the attempts on its case that added to it; of those, at
      most one has won. */
  ghost predicate ClaimsCount(s: State) {
    forall c :: |Of(s, s.claimers, c)| == Claims(s, c) && |Of(s, s.winners, c)| <= 1
  }

  ghost predicate CapCounts(limit: int, s: State) {
    |s.counted| == s.cap && |s.admitted| <= Max(0, limit)
  }

  ghost predicate Inv(limit: int, s: State) {
    Nested(s) && AllPlaced(s) && ClaimsCount(s) && CapCounts(limit, s)
  }

  lemma SubsetSize<T>(a: set<T>, b: set<T>)
    requires a <= b
    ensures |a| <= |b|
  {
    if a != {} {
      var x :| x in a;
      SubsetSize(a - {x}, b - {x});
    }
  }

  /** Sets of attempts are read off case by case; a step that moves one attempt and
      adds it to `who` changes only its own case. */
  lemma OfAfter(s: State, who: set<nat>, i: nat, pc: Pc, c: string)
    requires i < |s.attempts| && forall j :: j in who ==> j < |s.attempts|
    ensures Of(Goto(s, i, pc), who, c) == Of(s, who, c)
    ensures Of(Goto(s, i, pc), who + {i}, c)
            == if c == s.attempts[i].caseId then Of(s, who, c) + {i} else Of(s, who, c)
  {}

  lemma AdvanceKeepsPlaces(limit: int, s: State, i: nat, go: bool)
    requires Nested(s) && AllPlaced(s) && i < |s.attempts|
    ensures Nested(Advance(limit, s, i, go)) && AllPlaced(Advance(limit, s, i, go))
  {
    var t := Advance(limit, s, i, go);
    assert Placed(s, i);
    forall j: nat | j < |t.attempts| ensures Placed(t, j) {
      assert Placed(s, j);
    }
  }

  lemma OfSame(s: State, t: State, who: set<nat>, c: string)
    requires s.attempts == t.attempts
    ensures Of(s, who, c) == Of(t, who, c)
  {}

  lemma ClaimKept(limit: int, s: State, i: nat, go: bool, d: string)
    requires Nested(s) && i < |s.attempts| && Placed(s, i)
    requires |Of(s, s.claimers, d)| == Claims(s, d) && |Of(s, s.winners, d)| <= 1
    ensures var t := Advance(limit, s, i, go); |Of(t, t.claimers, d)| == Claims(t, d) && |Of(t, t.winners, d)| <= 1
  {
    var t := Advance(limit, s, i, go);
    var pc := t.attempts[i].pc;
    OfAfter(s, s.claimers, i, pc, d);
    OfAfter(s, s.winners, i, pc, d);
    OfSame(t, Goto(s, i, pc), t.winners, d);
    OfSame(t, Goto(s, i, pc), t.claimers, d);
    if s.attempts[i].pc == ClaimCounted && t.winners != s.winners && d == s.attempts[i].caseId {
      // everyone who ever won this claim had counted itself before this read
      SubsetSize(Of(s, s.winners, d) + {i}, Of(s, s.claimers, d));
    }
  }

  lemma AdvanceKeepsClaims(limit: int, s: State, i: nat, go: bool)
    requires Nested(s) && AllPlaced(s) && ClaimsCount(s) && i < |s.attempts|
    ensures ClaimsCount(Advance(limit, s, i, go))
  {
    var t := Advance(limit, s, i, go);
    assert Placed(s, i);
    forall d ensures |Of(t, t.claimers, d)| == Claims(t, d) && |Of(t, t.winners, d)| <= 1 {
      ClaimKept(limit, s, i, go, d);
    }
  }

  lemma AdvanceKeepsCap(limit: int, s: State, i: nat, go: bool)
    requires Nested(s) && AllPlaced(s) && CapCounts(limit, s) && i < |s.attempts|
    ensures CapCounts(limit, Advance(limit, s, i, go))
  {
    assert Placed(s, i);
    match s.attempts[i].pc
    case ClaimWon => assert |s.counted + {i}| == |s.counted| + 1;
    case CapCounted =>
      if s.cap <= limit {
        // everyone ever admitted had counted itself before this read
        SubsetSize(s.admitted + {i}, s.counted);
      }
    case _ =>
  }

  lemma NextKeepsInv(limit: int, s: State, a: Action)
    requires Inv(limit, s)
    ensures Inv(limit, Next(limit, s, a))
  {
    match a {
      case Spawn(c) =>
        var t := Next(limit, s, a);
        forall d ensures Of(t, t.claimers, d) == Of(s, s.claimers, d) && Of(t, t.winners, d) == Of(s, s.winners, d) {}
        forall j: nat | j < |t.attempts| ensures Placed(t, j) {
          if j < |s.attempts| {
            assert Placed(s, j);
          }
        }
      case Step(i, go) =>
        if i < |s.attempts| {
          AdvanceKeepsPlaces(limit, s, i, go);
          AdvanceKeepsClaims(limit, s, i, go);
          AdvanceKeepsCap(limit, s, i, go);
        }
      case Stop(i) =>
        if i < |s.attempts| {
          var t := Next(limit, s, a);
          forall d ensures |Of(t, t.claimers, d)| == Claims(t, d) && |Of(t, t.winners, d)| <= 1 {
            OfAfter(s, s.claimers, i, Done, d);
            OfAfter(s, s.winners, i, Done, d);
          }
          forall j: nat | j < |t.attempts| ensures Placed(t, j) {
            assert Placed(s, j);
          }
        }
    }
  }

  lemma {:induction false} RunKeepsInv(limit: int, s: State, trace: seq<Action>)
    requires Inv(limit, s)
    ensures Inv(limit, Run(limit, s, trace))
    decreases |trace|
  {
    if trace != [] {
      NextKeepsInv(limit, s, trace[0]);
      RunKeepsInv(limit, Next(limit, s, trace[0]), trace[1..]);
    }
  }

  lemma StartInv(limit: int)
    ensures Inv(limit, START)
  {
    forall c ensures Of(START, {}, c) == {} {}
  }

  /** Over every interleaving of any number of executions on any mix of cases, each free
      to stop anywhere: at most `limit` calls in all, and at most one per case. */
  lemma CapAndClaimHold(limit: int, trace: seq<Action>)
    ensures var s := Run(limit, START, trace);
            |s.calls| <= Max(0, limit)
            && (forall k :: 0 <= k < |s.calls| ==> s.calls[k] < |s.attempts|)
            && (forall j, k :: 0 <= j < k < |s.calls| ==>
                  s.attempts[s.calls[j]].caseId != s.attempts[s.calls[k]].caseId)
  {
    var s := Run(limit, START, trace);
    StartInv(limit);
    RunKeepsInv(limit, START, trace);
    CallersFit(s.calls, s.admitted);
    forall j, k | 0 <= j < k < |s.calls|
      ensures s.attempts[s.calls[j]].caseId != s.attempts[s.calls[k]].caseId
    {
      var c := s.attempts[s.calls[k]].caseId;
      if s.attempts[s.calls[j]].caseId == c {
        SubsetSize({s.calls[j], s.calls[k]}, Of(s, s.winners, c));
      }
    }
  }

  lemma {:induction false} CallersFit(calls: seq<nat>, who: set<nat>)
    requires forall k :: 0 <= k < |calls| ==> calls[k] in who
    requires forall j, k :: 0 <= j < k < |calls| ==> calls[j] != calls[k]
    ensures |calls| <= |who|
  {
    if calls != [] {
      CallersFit(calls[..|calls| - 1], who - {calls[|calls| - 1]});
    }
  }

  // ---------------------------------------------------------------- what the protocol gives up

  function Steps(i: nat, n: nat): seq<Action> {
    if n == 0 then [] else [Step(i, true)] + Steps(i, n - 1)
  }

  /** An attempt that runs alone, from the first check to the call. */
  function Solo(c: string, i: nat): seq<Action> { [Spawn(c)] + Steps(i, 6) }

  lemma OneStep(limit: int, s: State, i: nat, n: nat)
    requires n > 0
    ensures Run(limit, s, Steps(i, n)) == Run(limit, Next(limit, s, Step(i, true)), Steps(i, n - 1))
  {
    assert Steps(i, n)[1..] == Steps(i, n - 1);
  }

  /** Alone, an attempt whose checks pass calls the model exactly when nobody has claimed
      the case and the cap has room. */
  lemma SoloCallsIffFree(limit: int, s: State, c: string)
    ensures Run(limit, s, Solo(c, |s.attempts|)).calls ==
            if Claims(s, c) == 0 && s.cap < limit then s.calls + [|s.attempts|] else s.calls
  {
    var i := |s.attempts|;
    var s1 := Next(limit, s, Spawn(c));
    assert Solo(c, i)[1..] == Steps(i, 6);
    var s2 := Next(limit, s1, Step(i, true));
    OneStep(limit, s1, i, 6);
    var s3 := Next(limit, s2, Step(i, true));
    OneStep(limit, s2, i, 5);
    if Claims(s, c) == 0 {
      assert s3.attempts[i] == Attempt(c, ClaimWon);
      var s4 := Next(limit, s3, Step(i, true));
      OneStep(limit, s3, i, 4);
      var s5 := Next(limit, s4, Step(i, true));
      OneStep(limit, s4, i, 3);
      if s.cap < limit {
        assert s5.attempts[i] == Attempt(c, Admitted);
        OneStep(limit, s5, i, 2);
        OneStep(limit, Next(limit, s5, Step(i, true)), i, 1);
      } else {
        DoneStays(limit, s5, i, 2);
      }
    } else {
      DoneStays(limit, s3, i, 4);
    }
  }

  lemma {:induction false} DoneStays(limit: int, s: State, i: nat, n: nat)
    requires i < |s.attempts| && s.attempts[i].pc == Done
    ensures Run(limit, s, Steps(i, n)) == s
  {
    if n > 0 {
      OneStep(limit, s, i, n);
      DoneStays(limit, s, i, n - 1);
    }
  }

  /** Interleaved, the same two attempts can both lose the claim, so that nobody calls:
      the price of never calling twice. */
  lemma BothMayLose(limit: int)
    ensures var trace := [Spawn("a"), Spawn("a"), Step(0, true), Step(1, true), Step(0, true), Step(1, true)];
            Run(limit, START, trace).attempts == [Attempt("a", Done), Attempt("a", Done)]
            && Run(limit, START, trace).calls == []
  {
    var t := [Spawn("a"), Spawn("a"), Step(0, true), Step(1, true), Step(0, true), Step(1, true)];
    var s2 := Next(limit, Next(limit, START, t[0]), t[1]);
    assert t[1..][1..] == t[2..] && t[2..][1..] == t[3..] && t[3..][1..] == t[4..] && t[4..][1..] == t[5..];
    assert Run(limit, START, t) == Run(limit, s2, t[2..]);
    var s4 := Next(limit, Next(limit, s2, t[2]), t[3]);
    assert Run(limit, s2, t[2..]) == Run(limit, s4, t[4..]);
    assert s4.claims["a"] == 2;
    var s6 := Next(limit, Next(limit, s4, t[4]), t[5]);
    assert t[5..][1..] == [];
    assert Run(limit, Next(limit, s4, t[4]), t[5..]) == s6;
    assert Run(limit, s4, t[4..]) == s6;
  }
}
