/** When two texts trimmed after the same addition are the same. */
module Texts {
  import opened Wrappers
  import opened Interviews

  /** Nothing trimming would keep. */
  predicate Blank(k: Clerk, s: string) { forall i :: 0 <= i < |s| ==> k.space(s[i]) }

  lemma BlankConcat(k: Clerk, a: string, b: string)
    ensures Blank(k, a + b) <==> Blank(k, a) && Blank(k, b)
  {
    if Blank(k, a + b) {
      forall i | 0 <= i < |a| ensures k.space(a[i]) {
        assert (a + b)[i] == a[i];
      }
      forall i | 0 <= i < |b| ensures k.space(b[i]) {
        assert (a + b)[|a| + i] == b[i];
      }
    }
  }

  // ---------------------------------------------------------------- one end at a time

  /** Trimming the front removes a blank prefix and nothing else. */
  lemma {:induction false} FrontIs(k: Clerk, s: string) returns (cut: string)
    ensures s == cut + TrimStart(k, s) && Blank(k, cut)
    ensures TrimStart(k, s) == "" <==> Blank(k, s)
    ensures TrimStart(k, s) != "" ==> !k.space(TrimStart(k, s)[0])
  {
    if s != [] && k.space(s[0]) {
      var rest := FrontIs(k, s[1..]);
      cut := [s[0]] + rest;
      assert s == [s[0]] + s[1..];
      BlankConcat(k, [s[0]], s[1..]);
    } else {
      cut := "";
    }
  }

  lemma {:induction false} FrontOfConcat(k: Clerk, a: string, b: string)
    ensures TrimStart(k, a + b) == if Blank(k, a) then TrimStart(k, b) else TrimStart(k, a) + b
  {
    if a == [] {
      assert a + b == b;
    } else {
      assert (a + b)[1..] == a[1..] + b;
      assert a == [a[0]] + a[1..];
      BlankConcat(k, [a[0]], a[1..]);
      FrontOfConcat(k, a[1..], b);
    }
  }

  lemma {:induction false} BackIs(k: Clerk, s: string)
    ensures TrimEnd(k, s) <= s
    ensures TrimEnd(k, s) == "" <==> Blank(k, s)
  {
    if s != [] && k.space(s[|s| - 1]) {
      var init := s[..|s| - 1];
      BackIs(k, init);
      assert s == init + [s[|s| - 1]];
      BlankConcat(k, init, [s[|s| - 1]]);
    }
  }

  lemma {:induction false} BackOfConcat(k: Clerk, a: string, b: string)
    ensures TrimEnd(k, a + b) == if Blank(k, b) then TrimEnd(k, a) else a + TrimEnd(k, b)
  {
    if b == [] {
      assert a + b == a;
    } else {
      var init := b[..|b| - 1];
      assert (a + b)[..|a + b| - 1] == a + init;
      assert b == init + [b[|b| - 1]];
      BlankConcat(k, init, [b[|b| - 1]]);
      BackOfConcat(k, a, init);
    }
  }

  // ---------------------------------------------------------------- both ends

  lemma TrimmedIs(k: Clerk, s: string)
    ensures Trim(k, s) == "" <==> Blank(k, s)
    ensures |Trim(k, s)| <= |TrimStart(k, s)| && |Trim(k, s)| <= |TrimEnd(k, s)|
  {
    var cut := FrontIs(k, s);
    var t := TrimStart(k, s);
    BackIs(k, t);
    BackIs(k, s);
    BackOfConcat(k, cut, t);
    var none := FrontIs(k, t);
    if t != "" {
      assert !k.space(t[0]);
    }
  }

  /** Trimmed text has nothing left to trim. */
  lemma TrimmedStays(k: Clerk, s: string)
    ensures TrimStart(k, Trim(k, s)) == Trim(k, s) && Trim(k, Trim(k, s)) == Trim(k, s)
  {
    var cut := FrontIs(k, s);
    var t := TrimStart(k, s);
    BackIs(k, t);
    BackStays(k, t);
    if t != "" && TrimEnd(k, t) != "" {
      assert TrimEnd(k, t)[0] == t[0];
    }
  }

  lemma {:induction false} BackStays(k: Clerk, s: string)
    ensures TrimEnd(k, TrimEnd(k, s)) == TrimEnd(k, s)
  {
    if s != [] && k.space(s[|s| - 1]) {
      BackStays(k, s[..|s| - 1]);
    }
  }

  /** What becomes of a text with something added, white in front. */
  lemma ExtendedIs(k: Clerk, text: string, tail: string)
    ensures Trim(k, text + tail) ==
            if Blank(k, tail) then Trim(k, text)
            else if Blank(k, text) then Trim(k, tail)
            else TrimStart(k, text) + TrimEnd(k, tail)
  {
    FrontOfConcat(k, text, tail);
    BackOfConcat(k, TrimStart(k, text), tail);
    if Blank(k, text) {
      TrimmedIs(k, text);
      TrimmedIs(k, tail);
    }
  }

  lemma Assoc(a: string, b: string, c: string)
    ensures a + b + c == a + (b + c)
  {}

  lemma SpacedIs(k: Clerk, sep: char, added: string)
    requires k.space(sep)
    ensures Blank(k, [sep] + added) <==> Blank(k, added)
    ensures Trim(k, [sep] + added) == Trim(k, added)
    ensures !Blank(k, added) ==> TrimEnd(k, [sep] + added) == [sep] + TrimEnd(k, added)
  {
    BlankConcat(k, [sep], added);
    FrontOfConcat(k, [sep], added);
    BackOfConcat(k, [sep], added);
  }

  /** What becomes of a text with something added after a white character. */
  lemma AddedAfter(k: Clerk, text: string, sep: char, added: string)
    requires k.space(sep)
    ensures Trim(k, text + [sep] + added) ==
            if Blank(k, added) then Trim(k, text)
            else if Blank(k, text) then Trim(k, added)
            else TrimStart(k, text) + [sep] + TrimEnd(k, added)
  {
    ExtendedIs(k, text, [sep] + added);
    SpacedIs(k, sep, added);
    Assoc(text, [sep], added);
    Assoc(TrimStart(k, text), [sep], TrimEnd(k, added));
  }

  /** What becomes of a text with something added after a space. */
  lemma AddedIs(k: Clerk, text: string, added: string)
    requires k.space(' ')
    ensures Trim(k, text + " " + added) ==
            if Blank(k, added) then Trim(k, text)
            else if Blank(k, text) then Trim(k, added)
            else TrimStart(k, text) + " " + TrimEnd(k, added)
  {
    AddedAfter(k, text, ' ', added);
  }

  lemma SameFront(a: string, b: string, c: string)
    ensures a + " " + c == b + " " + c <==> a == b
  {
    if a + " " + c == b + " " + c {
      assert |a| == |b|;
      assert a == (a + " " + c)[..|a|] == (b + " " + c)[..|b|] == b;
    }
  }

  /** Two texts read alike after the same addition exactly when they agree but for white
      space: in front, or on both sides if the addition is blank. */
  lemma AlikeIff(k: Clerk, a: string, b: string, added: string)
    requires k.space(' ')
    ensures Trim(k, a + " " + added) == Trim(k, b + " " + added) <==>
            if Blank(k, added) then Trim(k, a) == Trim(k, b) else TrimStart(k, a) == TrimStart(k, b)
  {
    AddedIs(k, a, added);
    AddedIs(k, b, added);
    if !Blank(k, added) {
      var cutA := FrontIs(k, a);
      var cutB := FrontIs(k, b);
      TrimmedIs(k, added);
      SameFront(TrimStart(k, a), TrimStart(k, b), TrimEnd(k, added));
    }
  }

  /** A text reads like nothing exactly when it is blank. */
  lemma LikeNothingIff(k: Clerk, text: string, added: string)
    requires k.space(' ')
    ensures Trim(k, text + " " + added) == Trim(k, " " + added) <==> Blank(k, text)
  {
    AlikeIff(k, text, "", added);
    assert "" + " " + added == " " + added;
    TrimmedIs(k, text);
    var cut := FrontIs(k, text);
  }

  /** A text reads as it would with more kept in it exactly when what is kept is blank. */
  lemma LikeKeptIff(k: Clerk, text: string, kept: string, added: string)
    requires k.space(' ')
    ensures Trim(k, Trim(k, text) + " " + added) == Trim(k, Trim(k, text + " " + kept) + " " + added) <==> Blank(k, kept)
  {
    AlikeIff(k, Trim(k, text), Trim(k, text + " " + kept), added);
    TrimmedStays(k, text);
    TrimmedStays(k, text + " " + kept);
    AddedIs(k, text, kept);
    TrimmedIs(k, text);
    TrimmedIs(k, kept);
  }

  /** What is added at the end shows exactly when it is not blank. */
  lemma MoreShowsIff(k: Clerk, text: string, more: string)
    ensures Trim(k, text + more) == Trim(k, text) <==> Blank(k, more)
  {
    FrontOfConcat(k, text, more);
    BackOfConcat(k, TrimStart(k, text), more);
    TrimmedIs(k, text);
    TrimmedIs(k, more);
    BackIs(k, more);
  }

  // ---------------------------------------------------------------- lines kept in between

  /** What was kept before, if anything, on lines of its own. */
  function Above(earlier: Option<string>, text: string): string {
    if earlier.None? then text else earlier.value + ['\n'] + text
  }

  lemma LongerWithMore(k: Clerk, text: string, more: string)
    ensures |TrimEnd(k, text)| <= |TrimEnd(k, text + more)|
  {
    BackOfConcat(k, text, more);
    BackIs(k, text);
  }

  /** Something kept above a visible text shows, unless all of it and what precedes is blank. */
  lemma AboveVisible(k: Clerk, text: string, kept: string, added: string, tail: string)
    requires k.space(' ') && k.space('\n') && !Blank(k, added)
    ensures Trim(k, text + " " + added) == Trim(k, text + " " + (kept + ['\n'] + (added + tail))) <==>
            Blank(k, text) && Blank(k, kept) && Blank(k, tail)
  {
    var last := added + tail;
    var below := kept + ['\n'] + last;
    BlankConcat(k, added, tail);
    BlankConcat(k, kept + ['\n'], last);
    AddedIs(k, text, added);
    AddedIs(k, text, below);
    LongerWithMore(k, added, tail);
    TrimmedIs(k, added);
    if Blank(k, text) {
      AddedAfter(k, kept, '\n', last);
      MoreShowsIff(k, added, tail);
    } else {
      Assoc(kept, ['\n'], last);
      SpacedIs(k, '\n', last);
      BackOfConcat(k, kept, ['\n'] + last);
    }
  }

  /** A text with `added` after it reads like the same text with `added`, something above
      it and something below, exactly when nothing of that shows. */
  lemma SurroundedIff(k: Clerk, text: string, earlier: Option<string>, added: string, tail: string)
    requires k.space(' ') && k.space('\n')
    ensures Trim(k, text + " " + added) == Trim(k, text + " " + Above(earlier, added + tail)) <==>
            Blank(k, tail)
            && (earlier.None? || (Blank(k, earlier.value) && (Blank(k, text) || Blank(k, added))))
  {
    if earlier.None? {
      Assoc(text + " ", added, tail);
      MoreShowsIff(k, text + " " + added, tail);
    } else if Blank(k, added) {
      var below := earlier.value + ['\n'] + (added + tail);
      AddedIs(k, text, added);
      Assoc(text, " ", below);
      MoreShowsIff(k, text, " " + below);
      BlankConcat(k, " ", below);
      BlankConcat(k, earlier.value + ['\n'], added + tail);
      BlankConcat(k, earlier.value, ['\n']);
      BlankConcat(k, added, tail);
    } else {
      AboveVisible(k, text, earlier.value, added, tail);
    }
  }

  /** Its last character shows. */
  predicate EndsVisibly(k: Clerk, s: string) { s != "" && !k.space(s[|s| - 1]) }

  lemma EndIs(k: Clerk, s: string)
    requires !Blank(k, s)
    ensures Trim(k, s) == TrimStart(k, s) <==> EndsVisibly(k, s)
  {
    var cut := FrontIs(k, s);
    var t := TrimStart(k, s);
    assert s[|s| - 1] == t[|t| - 1];
    if k.space(t[|t| - 1]) {
      BackIs(k, t[..|t| - 1]);
    }
  }

  /** Trimmed before a visible line is added, or not trimmed. */
  lemma LineAddedIff(k: Clerk, a: string, b: string, line: string)
    requires k.space('\n') && !Blank(k, line)
    ensures Trim(k, Trim(k, a) + ['\n'] + line) == Trim(k, b + ['\n'] + line) <==>
            (Blank(k, a) && Blank(k, b)) || (!Blank(k, a) && !Blank(k, b) && Trim(k, a) == TrimStart(k, b))
  {
    AddedAfter(k, Trim(k, a), '\n', line);
    AddedAfter(k, b, '\n', line);
    TrimmedIs(k, a);
    TrimmedIs(k, Trim(k, a));
    TrimmedStays(k, a);
    TrimmedIs(k, line);
    var cut := FrontIs(k, b);
    var x, y, end := Trim(k, a), TrimStart(k, b), TrimEnd(k, line);
    if x + ['\n'] + end == y + ['\n'] + end {
      assert |x| == |y|;
      assert x == (x + ['\n'] + end)[..|x|] == (y + ['\n'] + end)[..|y|] == y;
    }
  }

  /** Two texts alike but for white space in front read alike after any addition. */
  lemma AlikeInFront(k: Clerk, a: string, b: string, added: string)
    requires k.space(' ') && TrimStart(k, a) == TrimStart(k, b)
    ensures Trim(k, a + " " + added) == Trim(k, b + " " + added)
  {
    AlikeIff(k, a, b, added);
  }

  lemma EndOfConcat(k: Clerk, a: string, sep: char, b: string)
    requires k.space(sep)
    ensures EndsVisibly(k, a + [sep] + b) <==> EndsVisibly(k, b)
  {
    var s := a + [sep] + b;
    assert b != "" ==> s[|s| - 1] == b[|b| - 1];
    assert b == "" ==> s[|s| - 1] == sep;
  }

  lemma BlankEnds(k: Clerk, s: string)
    requires EndsVisibly(k, s)
    ensures !Blank(k, s)
  {
    assert !k.space(s[|s| - 1]);
  }

  lemma BlankAfter(k: Clerk, a: string, sep: char, b: string)
    requires k.space(sep)
    ensures Blank(k, a + [sep] + b) <==> Blank(k, a) && Blank(k, b)
  {
    BlankConcat(k, a, [sep]);
    BlankConcat(k, a + [sep], b);
  }

  /** Trimmed and then followed by a visible line, a text with `added` after it reads as it
      does untrimmed exactly when it ends visibly, or nothing of it does. */
  lemma LineBelowIff(k: Clerk, text: string, added: string, line: string)
    requires k.space(' ') && k.space('\n') && !Blank(k, line)
    ensures Trim(k, Trim(k, text + " " + added) + ['\n'] + line) == Trim(k, text + " " + added + ['\n'] + line) <==>
            EndsVisibly(k, added) || (Blank(k, text) && Blank(k, added))
  {
    var whole := text + " " + added;
    LineAddedIff(k, whole, whole, line);
    BlankAfter(k, text, ' ', added);
    EndOfConcat(k, text, ' ', added);
    if !Blank(k, whole) {
      EndIs(k, whole);
    } else if EndsVisibly(k, added) {
      BlankEnds(k, added);
    }
  }

  /** The same with something kept above: then nothing but the addition may be visible. */
  lemma LineBothSidesIff(k: Clerk, text: string, kept: string, added: string, line: string)
    requires k.space(' ') && k.space('\n') && !Blank(k, line)
    ensures Trim(k, Trim(k, text + " " + added) + ['\n'] + line)
            == Trim(k, text + " " + (kept + ['\n'] + added) + ['\n'] + line) <==>
            Blank(k, text) && Blank(k, kept) && (Blank(k, added) || EndsVisibly(k, added))
  {
    var low, high := text + " " + added, text + " " + (kept + ['\n'] + added);
    LineAddedIff(k, low, high, line);
    BlankAfter(k, text, ' ', added);
    BlankAfter(k, text, ' ', kept + ['\n'] + added);
    BlankAfter(k, kept, '\n', added);
    if !Blank(k, low) {
      HighIs(k, text, kept, added);
    }
  }

  lemma HighIs(k: Clerk, text: string, kept: string, added: string)
    requires k.space(' ') && k.space('\n') && !(Blank(k, text) && Blank(k, added))
    ensures Trim(k, text + " " + added) == TrimStart(k, text + " " + (kept + ['\n'] + added)) <==>
            Blank(k, text) && Blank(k, kept) && EndsVisibly(k, added)
  {
    var below := kept + ['\n'] + added;
    Assoc(text, " ", below);
    FrontOfConcat(k, text, " " + below);
    FrontOfConcat(k, " ", below);
    AddedIs(k, text, added);
    if Blank(k, text) {
      TrimmedIs(k, added);
      FrontOfConcat(k, kept + ['\n'], added);
      BlankConcat(k, kept, ['\n']);
      FrontOfConcat(k, kept, ['\n']);
      EndIs(k, added);
      var cut := FrontIs(k, added);
    } else {
      TrimmedIs(k, text);
      TrimmedIs(k, added);
      BackIs(k, added);
    }
  }
}
