/** Counters shared by the whole deployment: the Firestore ones, which count every
    attempt by an atomic increment and then compare, and their in-memory twins. */
module GuardStores {
  import opened Wrappers

  /** A document of counts: one field per key, absent fields read as zero. */
  class FirestoreCounter {
    var counts: map<string, nat>

    constructor ()
      ensures counts == map[]
    {
      counts := map[];
    }

    /** The server-side field transform: no caller ever sees a value it does not add to. */
    method Increment(key: string)
      modifies this
      ensures counts == old(counts)[key := CountIn(old(counts), key) + 1]
    {
      counts := counts[key := CountIn(counts, key) + 1];
    }

    /** Increment, then read back and compare: `try_increment_daily`, `try_increment`
        and, with a limit of one, `try_claim_case`. */
    method TryIncrement(key: string, limit: int) returns (allowed: bool)
      modifies this
      ensures counts == old(counts)[key := CountIn(old(counts), key) + 1]
      ensures allowed <==> CountIn(old(counts), key) + 1 <= limit
    {
      Increment(key);
      var current := CountIn(counts, key);
      return current <= limit;
    }
  }

  /** The test double of the daily counter, which does not count a refused attempt. */
  class InMemoryCounter {
    var counts: map<string, nat>

    constructor ()
      ensures counts == map[]
    {
      counts := map[];
    }

    method TryIncrement(key: string, limit: int) returns (allowed: bool)
      modifies this
      ensures allowed <==> CountIn(old(counts), key) < limit
      ensures counts == if allowed then old(counts)[key := CountIn(old(counts), key) + 1] else old(counts)
    {
      var current := CountIn(counts, key);
      if current >= limit {
        return false;
      }
      counts := counts[key := current + 1];
      return true;
    }
  }

  /** The test double of the per-case claim. */
  class InMemoryClaims {
    var claimed: set<string>

    constructor ()
      ensures claimed == {}
    {
      claimed := {};
    }

    method TryClaim(key: string) returns (won: bool)
      modifies this
      ensures won <==> key !in old(claimed)
      ensures claimed == old(claimed) + {key}
    {
      if key in claimed {
        return false;
      }
      claimed := claimed + {key};
      return true;
    }
  }

  function CountIn(counts: map<string, nat>, key: string): nat {
    if key in counts then counts[key] else 0
  }

  // ---------------------------------------------------------------- do the twins agree?

  /** The answers the deployed counter gives to a run of attempts on one key, each with
      its own limit. */
  function FirestoreAnswers(limits: seq<int>): seq<bool> {
    if limits == [] then []
    else FirestoreAnswers(limits[..|limits| - 1]) + [|limits| <= limits[|limits| - 1]]
  }

  function Grants(answers: seq<bool>): nat {
    if answers == [] then 0
    else Grants(answers[..|answers| - 1]) + (if answers[|answers| - 1] then 1 else 0)
  }

  /** The answers the test double gives. */
  function InMemoryAnswers(limits: seq<int>): seq<bool> {
    if limits == [] then []
    else
      var before := InMemoryAnswers(limits[..|limits| - 1]);
      before + [Grants(before) < limits[|limits| - 1]]
  }

  /** What the deployed counter answers when asked once per limit, on a key never seen. */
  method AskFirestore(key: string, limits: seq<int>) returns (answers: seq<bool>)
    ensures answers == FirestoreAnswers(limits)
  {
    var counter := new FirestoreCounter();
    answers := [];
    var i := 0;
    while i < |limits|
      invariant 0 <= i <= |limits| && fresh(counter)
      invariant answers == FirestoreAnswers(limits[..i]) && CountIn(counter.counts, key) == i
    {
      OneMore(limits[..i], limits[i]);
      assert limits[..i + 1] == limits[..i] + [limits[i]];
      var allowed := counter.TryIncrement(key, limits[i]);
      answers := answers + [allowed];
      i := i + 1;
    }
    assert limits[..i] == limits;
  }

  /** What the test double answers. */
  method AskInMemory(key: string, limits: seq<int>) returns (answers: seq<bool>)
    ensures answers == InMemoryAnswers(limits)
  {
    var counter := new InMemoryCounter();
    answers := [];
    var i := 0;
    while i < |limits|
      invariant 0 <= i <= |limits| && fresh(counter)
      invariant answers == InMemoryAnswers(limits[..i]) && CountIn(counter.counts, key) == Grants(answers)
    {
      OneMore(limits[..i], limits[i]);
      assert limits[..i + 1] == limits[..i] + [limits[i]];
      var allowed := counter.TryIncrement(key, limits[i]);
      GrantsOneMore(answers, allowed);
      answers := answers + [allowed];
      i := i + 1;
    }
    assert limits[..i] == limits;
  }

  /** Some attempt has a limit above the number already granted but below its own
      place in line, where only the deployed counter counts the refused ones. */
  predicate LimitInTheGap(limits: seq<int>) {
    exists i :: 0 <= i < |limits| && Grants(InMemoryAnswers(limits[..i])) < limits[i] <= i
  }

  lemma {:induction false} AnswerAt(limits: seq<int>, i: nat)
    requires i < |limits|
    ensures |FirestoreAnswers(limits)| == |InMemoryAnswers(limits)| == |limits|
    ensures FirestoreAnswers(limits)[i] <==> i < limits[i]
    ensures InMemoryAnswers(limits)[i] <==> Grants(InMemoryAnswers(limits[..i])) < limits[i]
  {
    var n := |limits| - 1;
    assert limits == limits[..n] + [limits[n]];
    OneMore(limits[..n], limits[n]);
    if n > 0 {
      AnswerAt(limits[..n], if i < n then i else 0);
    }
    assert i < n ==> limits[..n][..i] == limits[..i];
  }

  lemma {:induction false} GrantsAtMost(limits: seq<int>)
    ensures Grants(InMemoryAnswers(limits)) <= |limits|
  {
    if limits != [] {
      GrantsAtMost(limits[..|limits| - 1]);
      var before := InMemoryAnswers(limits[..|limits| - 1]);
      assert InMemoryAnswers(limits)[..|before|] == before;
      AnswerAt(limits, |limits| - 1);
      if |limits| > 1 {
        AnswerAt(limits[..|limits| - 1], 0);
      }
    }
  }

  /** The two counters answer alike exactly when no limit falls in that gap. */
  lemma TwinsAgree(limits: seq<int>)
    ensures FirestoreAnswers(limits) == InMemoryAnswers(limits) <==> !LimitInTheGap(limits)
  {
    forall i | 0 <= i < |limits|
      ensures |FirestoreAnswers(limits)| == |InMemoryAnswers(limits)| == |limits|
      ensures FirestoreAnswers(limits)[i] != InMemoryAnswers(limits)[i]
              <==> Grants(InMemoryAnswers(limits[..i])) < limits[i] <= i
    {
      AnswerAt(limits, i);
      GrantsAtMost(limits[..i]);
    }
  }

  /** With one fixed limit, as the deployment passes, there is no gap: of any number
      of attempts made one at a time, the first `limit` are allowed. */
  lemma {:induction false} FixedLimitAgrees(limits: seq<int>, limit: int)
    requires forall i :: 0 <= i < |limits| ==> limits[i] == limit
    ensures FirestoreAnswers(limits) == InMemoryAnswers(limits)
    ensures Grants(InMemoryAnswers(limits)) == Max(0, if |limits| < limit then |limits| else limit)
  {
    if limits != [] {
      var init := limits[..|limits| - 1];
      FixedLimitAgrees(init, limit);
      var before := InMemoryAnswers(init);
      assert InMemoryAnswers(limits)[..|before|] == before;
      AnswerAt(limits, |limits| - 1);
      if init != [] {
        AnswerAt(init, 0);
      }
    }
  }

  /** A limit raised after a refusal tells them apart: the documented "a refused attempt
      is not itself counted" holds of the test double alone. */
  lemma RaisedLimitDisagrees()
    ensures FirestoreAnswers([1, 1, 2]) == [true, false, false]
    ensures InMemoryAnswers([1, 1, 2]) == [true, false, true]
  {
    var one: seq<int>, two: seq<int> := [] + [1], [1] + [1];
    assert [1, 1, 2] == two + [2];
    OneMore([], 1);
    OneMore(one, 1);
    OneMore(two, 2);
    GrantsOneMore([], true);
    GrantsOneMore([true], false);
  }

  lemma OneMore(limits: seq<int>, limit: int)
    ensures FirestoreAnswers(limits + [limit]) == FirestoreAnswers(limits) + [|limits| < limit]
    ensures InMemoryAnswers(limits + [limit])
            == InMemoryAnswers(limits) + [Grants(InMemoryAnswers(limits)) < limit]
  {
    assert (limits + [limit])[..|limits|] == limits;
  }

  lemma GrantsOneMore(answers: seq<bool>, a: bool)
    ensures Grants(answers + [a]) == Grants(answers) + (if a then 1 else 0)
  {
    assert (answers + [a])[..|answers|] == answers;
  }
}
