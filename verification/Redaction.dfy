/** sanitize_output of scripts/run-deck.py: hide PEM blocks, then replace every known secret,
    longest first. The regular expression of the first step is a parameter, any function on texts. */
module Redaction {

  const MARK := "[REDACTED]"

  /** The letters between the brackets of MARK. */
  const WORD := "REDACTED"

  predicate OccursAt(part: string, text: string, at: int) {
    0 <= at <= |text| - |part| && text[at..at + |part|] == part
  }

  /** Python's `part in text`. */
  predicate Occurs(part: string, text: string) {
    exists at | 0 <= at <= |text| :: OccursAt(part, text, at)
  }

  /** A value long enough to be hidden; shorter ones are ignored by the source. */
  type Value = s: string | |s| >= 4 witness "word"

  /** str.replace(secret, MARK): leftmost occurrences, without overlap. */
  function Replace(text: string, secret: Value): string {
    if |text| < |secret| then text
    else if text[..|secret|] == secret then MARK + Replace(text[|secret|..], secret)
    else [text[0]] + Replace(text[1..], secret)
  }

  predicate BracketFree(s: string) { '[' !in s && ']' !in s }

  function Hidden(secrets: seq<string>): set<Value> {
    set s: Value | s in secrets && |s| >= 4
  }

  /** An order Python's sorted(key=len, reverse=True) may give the set: ties are arbitrary. */
  ghost predicate LongestFirst(order: seq<Value>, secrets: seq<string>) {
    && (forall s :: s in order <==> s in Hidden(secrets))
    && (forall i, j :: 0 <= i < j < |order| ==> |order[i]| >= |order[j]| && order[i] != order[j])
  }

  function ReplaceAll(text: string, order: seq<Value>): string
    decreases |order|
  {
    if order == [] then text else ReplaceAll(Replace(text, order[0]), order[1..])
  }

  /** No value of the list is left in the text. */
  predicate Clean(text: string, order: seq<Value>) {
    forall i :: 0 <= i < |order| ==> !Occurs(order[i], text)
  }

  /* ---------------- one replacement ---------------- */

  /** A non-empty end of the text starts a mark. */
  predicate EndStartsMark(s: string) {
    exists k | 1 <= k <= |s| && k <= |MARK| :: s[|s| - k..] == MARK[..k]
  }

  /** A non-empty start of the text ends a mark. */
  predicate StartEndsMark(s: string) {
    exists k | 1 <= k <= |s| && k <= |MARK| :: s[..k] == MARK[|MARK| - k..]
  }

  /** The text and a mark do not overlap in any way. */
  predicate Apart(s: string) {
    !EndStartsMark(s) && !StartEndsMark(s) && !Occurs(s, MARK) && !Occurs(MARK, s)
  }

  /** Whatever the output starts with the input starts with too, unless a mark begins in it. */
  lemma {:induction false} PrefixIsKept(text: string, secret: Value, p: string)
    requires |p| <= |Replace(text, secret)| && p == Replace(text, secret)[..|p|]
    ensures (|p| <= |text| && p == text[..|p|]) || EndStartsMark(p) || Occurs(MARK, p)
  {
    if |text| < |secret| || p == "" {
    } else if text[..|secret|] == secret {
      hide EndStartsMark, Occurs;
      StartOfMark(p, Replace(text[|secret|..], secret));
    } else {
      hide EndStartsMark, Occurs;
      var q := p[1..];
      PrefixIsKept(text[1..], secret, q);
      assert p == [p[0]] + q;
      EndsAlike(p[0], q);
      StillThere(MARK, p, 1);
    }
  }

  lemma {:induction false} StartOfMark(p: string, rest: string)
    requires p != "" && |p| <= |MARK + rest| && p == (MARK + rest)[..|p|]
    ensures EndStartsMark(p) || Occurs(MARK, p)
  {
    if |p| <= |MARK| {
      assert p[0..] == p == MARK[..|p|];
    } else {
      assert p[0..|MARK|] == MARK;
      assert OccursAt(MARK, p, 0);
    }
  }

  lemma {:induction false} EndsAlike(c: char, q: string)
    ensures EndStartsMark(q) ==> EndStartsMark([c] + q)
  {
    if EndStartsMark(q) {
      var p := [c] + q;
      var k :| 1 <= k <= |q| && k <= |MARK| && q[|q| - k..] == MARK[..k];
      assert p[|p| - k..] == q[|q| - k..];
    }
  }

  lemma {:induction false} AcrossTheEnd(u: string, rest: string, at: int)
    requires OccursAt(u, MARK + rest, at)
    ensures at + |u| <= |MARK| || at >= |MARK| || StartEndsMark(u)
  {
    if at < |MARK| < at + |u| {
      var k := |MARK| - at;
      assert u[..k] == (MARK + rest)[at..|MARK|] == MARK[at..];
    }
  }

  /** A text apart from the mark that shows in the output was in the input already, and then it
      is not the value just replaced. */
  lemma {:induction false} NothingAppears(text: string, secret: Value, u: string)
    requires u != "" && Apart(u)
    ensures Occurs(u, Replace(text, secret)) ==> Occurs(u, text) && u != secret
    decreases |text|
  {
    if Occurs(u, Replace(text, secret)) {
      var at :| 0 <= at <= |Replace(text, secret)| && OccursAt(u, Replace(text, secret), at);
      if |text| < |secret| {
        assert OccursAt(u, text, at);
      } else if text[..|secret|] == secret {
        MarkInFront(text, secret, u, at);
      } else {
        CharInFront(text, secret, u, at);
      }
    }
  }

  lemma {:induction false} MarkInFront(text: string, secret: Value, u: string, at: int)
    requires u != "" && Apart(u) && |secret| <= |text| && text[..|secret|] == secret
    requires OccursAt(u, Replace(text, secret), at)
    ensures Occurs(u, text) && u != secret
    decreases |text|, 0
  {
    var rest := Replace(text[|secret|..], secret);
    AcrossTheEnd(u, rest, at);
    InsideMark(u, rest, at);
    hide Apart, EndStartsMark, StartEndsMark;
    assert (MARK + rest)[at..at + |u|] == rest[at - |MARK|..at - |MARK| + |u|];
    assert OccursAt(u, rest, at - |MARK|);
    NothingAppears(text[|secret|..], secret, u);
    StillThere(u, text, |secret|);
  }

  lemma {:induction false} InsideMark(u: string, rest: string, at: int)
    requires OccursAt(u, MARK + rest, at)
    ensures at + |u| <= |MARK| ==> Occurs(u, MARK)
  {
    if at + |u| <= |MARK| {
      assert (MARK + rest)[at..at + |u|] == MARK[at..at + |u|];
      assert OccursAt(u, MARK, at);
    }
  }

  lemma {:induction false} CharInFront(text: string, secret: Value, u: string, at: int)
    requires u != "" && Apart(u) && |secret| <= |text| && text[..|secret|] != secret
    requires OccursAt(u, Replace(text, secret), at)
    ensures Occurs(u, text) && u != secret
    decreases |text|, 0
  {
    var rest := Replace(text[1..], secret);
    var out := [text[0]] + rest;
    if at == 0 {
      OverlapOfTail(u);
      assert u[1..] == rest[..|u| - 1];
      PrefixIsKept(text[1..], secret, u[1..]);
      assert u == [u[0]] + u[1..] && u == text[..|u|];
      assert OccursAt(u, text, 0);
    } else {
      assert out[at..at + |u|] == rest[at - 1..at - 1 + |u|];
      assert OccursAt(u, rest, at - 1);
      NothingAppears(text[1..], secret, u);
      StillThere(u, text, 1);
    }
  }

  lemma {:induction false} OverlapOfTail(u: string)
    requires u != ""
    ensures EndStartsMark(u[1..]) ==> EndStartsMark(u)
    ensures Occurs(MARK, u[1..]) ==> Occurs(MARK, u)
  {
    var q := u[1..];
    if EndStartsMark(q) {
      var k :| 1 <= k <= |q| && k <= |MARK| && q[|q| - k..] == MARK[..k];
      EndOfTail(u, k);
      assert u[|u| - k..] == MARK[..k];
    }
    StillThere(MARK, u, 1);
  }

  lemma {:induction false} EndOfTail(u: string, k: nat)
    requires 1 <= k < |u|
    ensures u[1..][|u| - 1 - k..] == u[|u| - k..]
  {
  }

  lemma {:induction false} StillThere(u: string, text: string, from: nat)
    requires from <= |text|
    ensures Occurs(u, text[from..]) ==> Occurs(u, text)
  {
    if Occurs(u, text[from..]) {
      var at :| 0 <= at <= |text[from..]| && OccursAt(u, text[from..], at);
      assert text[from + at..from + at + |u|] == text[from..][at..at + |u|];
      assert OccursAt(u, text, from + at);
    }
  }

  lemma {:induction false} InsideBrackets(u: string, word: string)
    requires u != "" && BracketFree(u)
    ensures Occurs(u, "[" + word + "]") <==> Occurs(u, word)
  {
    var mark := "[" + word + "]";
    hide Occurs, OccursAt, BracketFree;
    forall at: int ensures OccursAt(u, mark, at) <==> OccursAt(u, word, at - 1) {
      ShiftedByBracket(u, word, at);
    }
    OccursShifted(u, mark, word);
  }

  lemma {:induction false} ShiftedByBracket(u: string, word: string, at: int)
    requires u != "" && BracketFree(u)
    ensures OccursAt(u, "[" + word + "]", at) <==> OccursAt(u, word, at - 1)
  {
    var mark := "[" + word + "]";
    assert mark[0] == '[' && mark[|mark| - 1] == ']' && mark[1..|mark| - 1] == word;
    assert u[0] in u && u[|u| - 1] in u;
    if OccursAt(u, mark, at) {
      assert u[0] == mark[at] && u[|u| - 1] == mark[at + |u| - 1];
      assert word[at - 1..at - 1 + |u|] == mark[at..at + |u|];
    }
    if OccursAt(u, word, at - 1) {
      assert mark[at..at + |u|] == word[at - 1..at - 1 + |u|];
    }
  }

  lemma {:induction false} OccursShifted(u: string, mark: string, word: string)
    requires forall at: int :: OccursAt(u, mark, at) <==> OccursAt(u, word, at - 1)
    ensures Occurs(u, mark) <==> Occurs(u, word)
  {
    if Occurs(u, mark) {
      var at :| 0 <= at <= |mark| && OccursAt(u, mark, at);
      assert OccursAt(u, word, at - 1);
    }
    if Occurs(u, word) {
      var at :| 0 <= at <= |word| && OccursAt(u, word, at);
      assert OccursAt(u, mark, at + 1) <==> OccursAt(u, word, at + 1 - 1);
    }
  }

  /** Without brackets, being inside MARK is being inside its word. */
  lemma {:induction false} InsideTheWord(u: string)
    requires u != "" && BracketFree(u)
    ensures Occurs(u, MARK) <==> Occurs(u, WORD)
  {
    assert MARK == "[" + WORD + "]";
    hide Occurs;
    InsideBrackets(u, WORD);
  }

  /** A value without brackets is apart from the mark exactly when it is not inside its word. */
  lemma {:induction false} ApartWithoutBrackets(u: string)
    requires u != "" && BracketFree(u)
    ensures Apart(u) <==> !Occurs(u, WORD)
  {
    InsideTheWord(u);
    forall k | 1 <= k <= |u| && k <= |MARK| ensures u[|u| - k..] != MARK[..k] && u[..k] != MARK[|MARK| - k..] {
      assert u[|u| - k..][0] in u && MARK[..k][0] == '[';
      assert u[..k][k - 1] in u && MARK[|MARK| - k..][k - 1] == ']';
    }
    CharsOccur(MARK, u);
    assert MARK[0] == '[';
  }

  /* ---------------- the loop ---------------- */

  /** No value of the order overlaps a mark. */
  predicate AllApart(order: seq<Value>) {
    forall i :: 0 <= i < |order| ==> Apart(order[i])
  }

  /** One turn of the loop: the value replaced is gone and no value hidden before comes back. */
  lemma {:induction false} TurnKeepsClean(text: string, done: seq<Value>, secret: Value)
    requires Clean(text, done) && AllApart(done + [secret])
    ensures Clean(Replace(text, secret), done + [secret])
  {
    var all := done + [secret];
    forall i | 0 <= i < |all| ensures !Occurs(all[i], Replace(text, secret)) {
      assert all[i] == if i < |done| then done[i] else secret;
      NothingAppears(text, secret, all[i]);
    }
  }

  /** The function as written: the first step, then the loop. */
  method SanitizeOutput(text: string, secrets: seq<string>, order: seq<Value>, hidePem: string -> string)
    returns (clean: string)
    requires LongestFirst(order, secrets)
    ensures clean == ReplaceAll(hidePem(text), order)
    ensures AllApart(order) ==> forall s :: s in secrets && |s| >= 4 ==> !Occurs(s, clean)
  {
    hide Apart, Replace, Occurs;
    clean := hidePem(text);
    assert order[0..] == order;
    for i := 0 to |order|
      invariant ReplaceAll(hidePem(text), order) == ReplaceAll(clean, order[i..])
      invariant AllApart(order) ==> Clean(clean, order[..i])
    {
      assert order[i..][0] == order[i] && order[i..][1..] == order[i + 1..];
      assert order[..i + 1] == order[..i] + [order[i]];
      if AllApart(order) {
        TurnKeepsClean(clean, order[..i], order[i]);
      }
      clean := Replace(clean, order[i]);
    }
    assert order[..|order|] == order;
    assert AllApart(order) ==> forall s :: s in order ==> !Occurs(s, clean);
  }

  lemma {:induction false} ReplaceAllCleans(text: string, done: seq<Value>, order: seq<Value>)
    requires Clean(text, done) && AllApart(done + order)
    ensures Clean(ReplaceAll(text, order), done + order)
    decreases |order|
  {
    if order == [] {
      assert done + order == done;
    } else {
      var next := done + [order[0]];
      assert next + order[1..] == done + order;
      assert forall i :: 0 <= i < |next| ==> next[i] == (done + order)[i];
      TurnKeepsClean(text, done, order[0]);
      ReplaceAllCleans(Replace(text, order[0]), next, order[1..]);
    }
  }

  /* ---------------- when the loop is not enough ---------------- */

  /** A replacement that changes nothing found nothing; one that found something leaves a mark. */
  lemma {:induction false} ReplacedLeavesMark(text: string, secret: Value)
    ensures Occurs(secret, text) ==> Occurs(MARK, Replace(text, secret))
    ensures !Occurs(secret, text) ==> Replace(text, secret) == text
  {
    if |text| < |secret| {
    } else if text[..|secret|] == secret {
      assert OccursAt(secret, text, 0);
      assert OccursAt(MARK, Replace(text, secret), 0);
    } else {
      var rest := Replace(text[1..], secret);
      ReplacedLeavesMark(text[1..], secret);
      StillThere(secret, text, 1);
      if Occurs(secret, text) {
        var at :| 0 <= at <= |text| && OccursAt(secret, text, at);
        assert at > 0 && text[1..][at - 1..at - 1 + |secret|] == text[at..at + |secret|];
        assert OccursAt(secret, text[1..], at - 1);
        assert Replace(text, secret)[1..] == rest;
        StillThere(MARK, Replace(text, secret), 1);
      } else {
        assert [text[0]] + text[1..] == text;
      }
    }
  }

  /** Once a mark is there, one is there at the end. */
  lemma {:induction false} MarkStays(text: string, order: seq<Value>)
    requires Occurs(MARK, text)
    ensures Occurs(MARK, ReplaceAll(text, order))
    decreases |order|
  {
    if order != [] {
      ReplacedLeavesMark(text, order[0]);
      MarkStays(Replace(text, order[0]), order[1..]);
    }
  }

  /** Whatever is replaced at some turn, the output carries a mark. */
  lemma {:induction false} FoundLeavesMark(text: string, order: seq<Value>, k: nat)
    requires k < |order| && Occurs(order[k], text)
    ensures Occurs(MARK, ReplaceAll(text, order))
    decreases |order|
  {
    ReplacedLeavesMark(text, order[0]);
    if Occurs(order[0], text) {
      MarkStays(Replace(text, order[0]), order[1..]);
    } else {
      assert order[1..][k - 1] == order[k];
      FoundLeavesMark(text, order[1..], k - 1);
    }
  }

  lemma {:induction false} SliceOfSlice(text: string, b: int, e: int, i: int, j: int)
    requires 0 <= b <= e <= |text| && 0 <= i <= j <= e - b
    ensures text[b..e][i..j] == text[b + i..b + j]
  {
    forall k | 0 <= k < j - i ensures text[b..e][i..j][k] == text[b + i..b + j][k] {
      assert text[b..e][i + k] == text[b + i + k];
    }
  }

  lemma {:induction false} InsideOf(u: string, mid: string, text: string)
    requires Occurs(u, mid) && Occurs(mid, text)
    ensures Occurs(u, text)
  {
    var a :| 0 <= a <= |mid| && OccursAt(u, mid, a);
    var b :| 0 <= b <= |text| && OccursAt(mid, text, b);
    SliceOfSlice(text, b, b + |mid|, a, a + |u|);
    assert OccursAt(u, text, a + b);
  }

  /** A value inside the mark is put back by its own replacement. */
  lemma {:induction false} PutBack(order: seq<Value>, k: nat)
    requires k < |order| && Occurs(order[k], MARK)
    ensures !Clean(ReplaceAll(order[k], order), order)
  {
    var s := order[k];
    assert OccursAt(s, s, 0);
    FoundLeavesMark(s, order, k);
    InsideOf(s, MARK, ReplaceAll(s, order));
  }

  lemma {:induction false} NothingHidden(text: string)
    ensures Clean(text, [])
  {
  }

  /** No text leaves any of the values in the output. */
  ghost predicate IsComplete(order: seq<Value>) {
    forall text :: Clean(ReplaceAll(text, order), order)
  }

  /** Redaction is complete for every text if no value overlaps the mark, whatever brackets the
      values hold; it is not complete if some value lies inside the mark. For values without
      brackets the two coincide: complete exactly when none lies inside the word of the mark. */
  lemma {:induction false} RedactionIsComplete(secrets: seq<string>, order: seq<Value>)
    requires LongestFirst(order, secrets)
    ensures (forall s :: s in Hidden(secrets) ==> Apart(s)) ==> IsComplete(order)
    ensures IsComplete(order) ==> forall s :: s in Hidden(secrets) ==> !Occurs(s, MARK)
    ensures (forall s :: s in Hidden(secrets) ==> BracketFree(s)) ==>
      (IsComplete(order) <==> forall s :: s in Hidden(secrets) ==> !Occurs(s, WORD))
  {
    hide Clean, Occurs, Apart;
    if forall s :: s in Hidden(secrets) ==> Apart(s) {
      assert forall i :: 0 <= i < |order| ==> order[i] in order;
      ApartIsComplete(order);
    }
    if IsComplete(order) {
      CompleteIsOutside(secrets, order);
    }
    if forall s :: s in Hidden(secrets) ==> BracketFree(s) {
      forall s | s in Hidden(secrets)
        ensures (Apart(s) <==> !Occurs(s, WORD)) && (Occurs(s, MARK) <==> Occurs(s, WORD))
      {
        ApartWithoutBrackets(s);
        InsideTheWord(s);
      }
    }
  }

  lemma {:induction false} ApartIsComplete(order: seq<Value>)
    requires AllApart(order)
    ensures IsComplete(order)
  {
    hide Clean, Apart;
    assert [] + order == order;
    forall text ensures Clean(ReplaceAll(text, order), order) {
      NothingHidden(text);
      ReplaceAllCleans(text, [], order);
    }
  }

  lemma {:induction false} CompleteIsOutside(secrets: seq<string>, order: seq<Value>)
    requires LongestFirst(order, secrets) && IsComplete(order)
    ensures forall s :: s in Hidden(secrets) ==> !Occurs(s, MARK)
  {
    hide Clean, Occurs;
    forall s | s in Hidden(secrets) ensures !Occurs(s, MARK) {
      assert s in order;
      var k :| 0 <= k < |order| && order[k] == s;
      if Occurs(s, MARK) {
        PutBack(order, k);
      }
    }
  }

  lemma {:induction false} CharsOccur(u: string, text: string)
    ensures Occurs(u, text) ==> forall c :: c in u ==> c in text
  {
    if Occurs(u, text) {
      var at :| 0 <= at <= |text| && OccursAt(u, text, at);
      forall i | 0 <= i < |u| ensures u[i] in text {
        assert u[i] == text[at + i];
      }
    }
  }

  lemma {:induction false} LongerCannotOccur(u: string, text: string)
    requires |u| >= |text|
    ensures Occurs(u, text) ==> u == text
  {
    if Occurs(u, text) {
      var at :| 0 <= at <= |text| && OccursAt(u, text, at);
      assert at == 0 && text[0..|u|] == text;
    }
  }

  /** With a bracket in a value completeness is lost: this one is rebuilt by its own mark. */
  lemma {:induction false} BracketValueSurvives()
    ensures LongestFirst(["x[RE"], ["x[RE"]) && !Occurs("x[RE", WORD)
    ensures ReplaceAll("xx[RE", ["x[RE"]) == "x[REDACTED]" && Occurs("x[RE", "x[REDACTED]")
  {
    var s, text := "x[RE", "xx[RE";
    assert text[1..] == s && text[..4] != s by {
      assert text[..4][1] == 'x' && s[1] == '[';
    }
    assert Replace(s[4..], s) == "" && Replace(s, s) == MARK + "";
    assert Replace(text, s) == "x" + MARK;
    assert ReplaceAll(text, [s]) == ReplaceAll(Replace(text, s), []);
    assert OccursAt(s, "x[REDACTED]", 0);
    CharsOccur(s, WORD);
    assert s[0] == 'x' && 'x' !in WORD;
  }

  /* ---------------- one value: exactly when ---------------- */

  /** Laid over each other from the same place, the two texts agree as far as both go. */
  predicate Agree(u: string, v: string) { u <= v || v <= u }

  /** The value does not occur at any of the first n places. */
  predicate FreeUpTo(s: string, text: string, n: nat) {
    forall j :: 0 <= j < n ==> !OccursAt(s, text, j)
  }

  /** Behind its own first `at` characters the value does not start any earlier. */
  predicate FirstAt(s: string, at: nat)
    requires at <= |s|
  {
    FreeUpTo(s, s[..at] + s, at)
  }

  /** The value agrees with the mark from some place in the mark on. */
  predicate StartsInMark(s: string) { exists b | 0 <= b < |MARK| :: Agree(MARK[b..], s) }

  /** From some place on the value agrees with the mark, and a replacement can put the mark there. */
  predicate RunsIntoMark(s: string) { exists a | 0 < a < |s| :: Agree(s[a..], MARK) && FirstAt(s, a) }

  /** A single value is left in some output exactly when it starts in the mark or runs into it:
      both can be read off the value. */
  lemma {:induction false} SingleValueExactly(s: Value)
    ensures IsComplete([s]) <==> !StartsInMark(s) && !RunsIntoMark(s)
  {
    if StartsInMark(s) {
      var b :| 0 <= b < |MARK| && Agree(MARK[b..], s);
      StartLeaks(s, b);
    }
    if RunsIntoMark(s) {
      var a :| 0 < a < |s| && Agree(s[a..], MARK) && FirstAt(s, a);
      RunLeaks(s, a);
    }
    hide StartsInMark, RunsIntoMark, Occurs;
    if !StartsInMark(s) && !RunsIntoMark(s) {
      forall text ensures Clean(ReplaceAll(text, [s]), [s]) {
        OneTurn(text, s);
        forall at ensures !OccursAt(s, Replace(text, s), at) {
          MeetsIfFound(text, s, at);
        }
        NowhereIn(s, Replace(text, s));
      }
    }
  }

  lemma {:induction false} OneTurn(text: string, s: Value)
    ensures ReplaceAll(text, [s]) == Replace(text, s)
  {
    assert ReplaceAll(text, [s]) == ReplaceAll(Replace(text, s), []);
  }

  lemma {:induction false} LeftIn(text: string, s: Value, at: nat)
    requires OccursAt(s, Replace(text, s), at)
    ensures !IsComplete([s])
  {
    OneTurn(text, s);
    assert !Clean(ReplaceAll(text, [s]), [s]);
  }

  lemma {:induction false} ReplacedInFront(s: Value, rest: string)
    ensures Replace(s + rest, s) == MARK + Replace(rest, s)
  {
    assert (s + rest)[..|s|] == s && (s + rest)[|s|..] == rest;
  }

  lemma {:induction false} MeetsIfFound(text: string, s: Value, at: int)
    ensures OccursAt(s, Replace(text, s), at) ==> StartsInMark(s) || RunsIntoMark(s)
  {
    if OccursAt(s, Replace(text, s), at) {
      FoundMeets(text, s, at);
    }
  }

  lemma {:induction false} NowhereIn(s: string, text: string)
    requires forall at :: !OccursAt(s, text, at)
    ensures !Occurs(s, text)
  {
  }

  /** The value, followed by what of it stands out of the mark, is put back. */
  lemma {:induction false} StartLeaks(s: Value, b: nat)
    requires b < |MARK| && Agree(MARK[b..], s)
    ensures !IsComplete([s])
  {
    var k := if |s| <= |MARK| - b then |s| else |MARK| - b;
    var rest := s[k..];
    ReplacedInFront(s, rest);
    var out := MARK + rest;
    assert out[b..b + |s|] == s by {
      assert s[..k] == MARK[b..b + k];
      assert out[b..b + |s|] == MARK[b..b + k] + rest == s[..k] + s[k..];
    }
    LeftIn(s + rest, s, b);
  }

  lemma {:induction false} FreeTail(s: string, c: char, text: string, n: nat)
    requires FreeUpTo(s, [c] + text, n + 1)
    ensures FreeUpTo(s, text, n)
  {
    forall j | 0 <= j < n ensures !OccursAt(s, text, j) {
      assert !OccursAt(s, [c] + text, j + 1);
      assert j + |s| <= |text| ==> text[j..j + |s|] == ([c] + text)[j + 1..j + 1 + |s|];
    }
  }

  /** A text is kept up to where the value starts first. */
  lemma {:induction false} KeptUpTo(x: string, s: Value, rest: string)
    requires FreeUpTo(s, x + (s + rest), |x|)
    ensures Replace(x + (s + rest), s) == x + (MARK + Replace(rest, s))
  {
    if x == "" {
      assert x + (s + rest) == s + rest;
      ReplacedInFront(s, rest);
    } else {
      var c, y := x[0], x[1..];
      assert x == [c] + y && x + (s + rest) == [c] + (y + (s + rest));
      FreeTail(s, c, y + (s + rest), |y|);
      KeptUpTo(y, s, rest);
      NotInFront(x, s + rest, s);
      OneKept(x + (s + rest), s);
      hide Replace, FreeUpTo, OccursAt;
      assert [c] + (y + (MARK + Replace(rest, s))) == x + (MARK + Replace(rest, s));
    }
  }

  lemma {:induction false} FreeBefore(s: string, x: string, rest: string)
    requires FreeUpTo(s, x + s, |x|)
    ensures FreeUpTo(s, x + (s + rest), |x|)
  {
    forall j | 0 <= j < |x| ensures !OccursAt(s, x + (s + rest), j) {
      assert !OccursAt(s, x + s, j);
      assert (x + (s + rest))[j..j + |s|] == (x + s)[j..j + |s|];
    }
  }

  /** What of the value stands out behind a mark laid over it from that place on. */
  function Behind(s: string, a: nat): string
    requires a <= |s|
  {
    if |s| - a <= |MARK| then "" else s[a + |MARK|..]
  }

  lemma {:induction false} LaidOver(s: string, a: nat, out: string)
    requires a < |s| && Agree(s[a..], MARK) && out == s[..a] + (MARK + Behind(s, a))
    ensures OccursAt(s, out, 0)
  {
    if |s| - a <= |MARK| {
      assert s[a..] == MARK[..|s| - a];
      assert out[0..|s|] == s[..a] + MARK[..|s| - a] == s[..a] + s[a..];
    } else {
      assert s[a..][..|MARK|] == MARK;
      assert s == s[..a] + s[a..a + |MARK|] + s[a + |MARK|..] == out;
    }
  }

  lemma {:induction false} RunLeaks(s: Value, a: nat)
    requires 0 < a < |s| && Agree(s[a..], MARK) && FirstAt(s, a)
    ensures !IsComplete([s])
  {
    var x, rest := s[..a], Behind(s, a);
    assert Replace(rest, s) == rest;
    FreeBefore(s, x, rest);
    KeptUpTo(x, s, rest);
    LaidOver(s, a, x + (MARK + rest));
    hide Replace, FreeUpTo, OccursAt, IsComplete, Behind;
    LeftIn(x + (s + rest), s, 0);
  }

  /** A value in the output starts in the mark or runs into it. */
  lemma {:induction false} FoundMeets(text: string, s: Value, at: int)
    requires OccursAt(s, Replace(text, s), at)
    ensures StartsInMark(s) || RunsIntoMark(s)
    decreases |text|
  {
    hide StartsInMark, RunsIntoMark;
    var out := Replace(text, s);
    if at == 0 {
      FirstMark("", text, s);
    } else if |text| < |s| {
      LongerCannotOccur(s, out);
    } else if text[..|s|] == s {
      var rest := Replace(text[|s|..], s);
      if at < |MARK| {
        AgreesFrom(s, rest, at);
      } else {
        FoundBehind(s, MARK, rest, at);
        FoundMeets(text[|s|..], s, at - |MARK|);
      }
    } else {
      var rest := Replace(text[1..], s);
      FoundBehind(s, [text[0]], rest, at);
      FoundMeets(text[1..], s, at - 1);
    }
  }

  lemma {:induction false} FoundBehind(s: string, before: string, rest: string, at: int)
    requires OccursAt(s, before + rest, at) && at >= |before|
    ensures OccursAt(s, rest, at - |before|)
  {
    assert (before + rest)[at..at + |s|] == rest[at - |before|..at - |before| + |s|];
  }

  lemma {:induction false} AgreesFrom(s: string, rest: string, at: nat)
    requires at < |MARK| && OccursAt(s, MARK + rest, at)
    ensures StartsInMark(s)
  {
    var k := if |s| <= |MARK| - at then |s| else |MARK| - at;
    assert s[..k] == (MARK + rest)[at..at + k] == MARK[at..at + k];
    assert Agree(MARK[at..], s);
  }

  lemma {:induction false} StartOfBoth(x: string, y: string, n: nat)
    ensures n <= |x| ==> (x + y)[..n] == x[..n]
    ensures n <= |x + y| ==> (x + y)[0..0 + n] == (x + y)[..n]
  {
  }

  /** Where the value was not found at any place in x, x alone does not start with it. */
  lemma {:induction false} NotInFront(x: string, text: string, s: Value)
    requires FreeUpTo(s, x + text, |x|)
    ensures x != "" ==> !(s <= x + text)
    ensures |x| >= |s| ==> x[..|s|] != s
  {
    StartOfBoth(x, text, |s|);
    assert x != "" ==> !OccursAt(s, x + text, 0);
  }

  /** x was scanned and kept; if the output starts with the value, the first mark decides. */
  lemma {:induction false} FirstMark(x: string, text: string, s: Value)
    requires s <= x + Replace(text, s)
    requires FreeUpTo(s, x + text, |x|)
    ensures StartsInMark(s) || RunsIntoMark(s)
    decreases |text|
  {
    hide StartsInMark, RunsIntoMark;
    NotInFront(x, text, s);
    if |text| >= |s| && text[..|s|] == s {
      assert x + text == x + (s + text[|s|..]);
      StartOfBoth(x, Replace(text, s), |s|);
      MarkDecides(x, text[|s|..], s);
    } else if |text| >= |s| {
      KeptOn(x, text, s);
      FreeOn(x, text, s);
      FirstMark(x + [text[0]], text[1..], s);
    }
  }

  lemma {:induction false} KeptOn(x: string, text: string, s: Value)
    requires |text| >= |s| && text[..|s|] != s
    ensures (x + [text[0]]) + Replace(text[1..], s) == x + Replace(text, s)
  {
    OneKept(text, s);
    hide Replace;
    assert x + ([text[0]] + Replace(text[1..], s)) == (x + [text[0]]) + Replace(text[1..], s);
  }

  lemma {:induction false} FreeOn(x: string, text: string, s: Value)
    requires |text| >= |s| && text[..|s|] != s && FreeUpTo(s, x + text, |x|)
    ensures FreeUpTo(s, (x + [text[0]]) + text[1..], |x + [text[0]]|)
  {
    NotHere(x, text, s);
    OneFurther(s, x + text, |x|);
    hide OccursAt, FreeUpTo;
    assert (x + [text[0]]) + text[1..] == x + text;
  }

  lemma {:induction false} OneFurther(s: string, text: string, n: nat)
    requires FreeUpTo(s, text, n) && !OccursAt(s, text, n)
    ensures FreeUpTo(s, text, n + 1)
  {
    hide OccursAt;
  }

  lemma {:induction false} OneKept(text: string, s: Value)
    requires |text| >= |s| && text[..|s|] != s
    ensures Replace(text, s) == [text[0]] + Replace(text[1..], s)
  {
  }

  lemma {:induction false} NotHere(x: string, text: string, s: Value)
    requires |text| >= |s| && text[..|s|] != s
    ensures !OccursAt(s, x + text, |x|)
  {
    assert (x + text)[|x|..|x| + |s|] == text[..|s|];
  }

  lemma {:induction false} MarkDecides(x: string, rest: string, s: Value)
    requires |x| < |s| && s <= x + (MARK + Replace(rest, s))
    requires FreeUpTo(s, x + (s + rest), |x|)
    ensures StartsInMark(s) || RunsIntoMark(s)
  {
    var a, out := |x|, x + (MARK + Replace(rest, s));
    var k := if |s| - a <= |MARK| then |s| - a else |MARK|;
    assert s[..a] == x;
    assert s[a..][..k] == out[a..a + k] == MARK[..k];
    assert Agree(s[a..], MARK);
    if a == 0 {
      assert s[a..] == s && MARK[0..] == MARK && Agree(MARK[0..], s);
    } else {
      forall j | 0 <= j < a ensures !OccursAt(s, s[..a] + s, j) {
        assert !OccursAt(s, x + (s + rest), j);
        assert (x + s)[j..j + |s|] == (x + (s + rest))[j..j + |s|];
      }
      assert FirstAt(s, a);
    }
  }

  /** Overlap alone is not what breaks it: this one's end starts a mark, but a replacement never
      puts a mark there, so no output holds the value. */
  lemma {:induction false} OverlapMayBeHarmless()
    ensures LongestFirst(["[RE["], ["[RE["]) && EndStartsMark("[RE[") && IsComplete(["[RE["])
  {
    var s := "[RE[";
    assert s[|s| - 1..] == MARK[..1];
    forall b | 0 <= b < |MARK| ensures !Agree(MARK[b..], s) {
      assert b == 0 ==> MARK[b..][3] == 'D' && s[3] == '[';
      assert b > 0 ==> MARK[b..][0] == MARK[b] != '[' && s[0] == '[';
    }
    forall a | 0 < a < |s| && Agree(s[a..], MARK) ensures !FirstAt(s, a) {
      assert s[a..][0] == s[a] && MARK[0] == '[';
      assert (s[..3] + s)[0..4] == s && OccursAt(s, s[..3] + s, 0);
    }
    hide IsComplete;
    SingleValueExactly(s);
  }

  /* ---------------- why longest first ---------------- */

  /** A value that is the whole text is hidden whole, although shorter values may lie inside it. */
  lemma {:induction false} WholeValueIsHidden(secrets: seq<string>, order: seq<Value>, k: nat)
    requires LongestFirst(order, secrets) && AllApart(order) && k < |order|
    ensures ReplaceAll(order[k], order) == MARK
  {
    BeforeItsTurn(order, order, k, k);
  }

  lemma {:induction false} BeforeItsTurn(order: seq<Value>, left: seq<Value>, k: nat, m: nat)
    requires AllApart(order) && k < |order| && m <= k && left == order[k - m..]
    requires forall i, j :: 0 <= i < j < |order| ==> |order[i]| >= |order[j]| && order[i] != order[j]
    ensures ReplaceAll(order[k], left) == MARK
    decreases m
  {
    var s := order[k];
    if m == 0 {
      assert left[0] == s && s[|s|..] == "" && Replace(s, s) == MARK + Replace("", s) == MARK;
      MarkUntouched(left[1..]);
    } else {
      var t := left[0];
      assert t == order[k - m] && left[1..] == order[k - (m - 1)..];
      LongerCannotOccur(t, s);
      ReplacedLeavesMark(s, t);
      BeforeItsTurn(order, left[1..], k, m - 1);
    }
  }

  lemma {:induction false} MarkUntouched(order: seq<Value>)
    requires AllApart(order)
    ensures ReplaceAll(MARK, order) == MARK
  {
    if order != [] {
      ReplacedLeavesMark(MARK, order[0]);
      MarkUntouched(order[1..]);
    }
  }

  /** The other way round a shorter value uncovers the tail of a longer one. */
  lemma {:induction false} ShortestFirstLeaks()
    ensures ReplaceAll("abcdefgh", ["abcd", "abcdefgh"]) == "[REDACTED]efgh"
  {
    var text, short := "abcdefgh", "abcd";
    var once := Replace(text, short);
    assert text[..4] == short && text[4..] == "efgh";
    assert Replace("efgh", short) == "efgh" by {
      assert "efgh"[..4][0] == 'e' && Replace("fgh", short) == "fgh" && "efgh"[1..] == "fgh";
    }
    assert once == MARK + "efgh";
    CharsOccur(text, once);
    assert text[0] == 'a' && 'a' !in once;
    ReplacedLeavesMark(once, text);
    assert ReplaceAll(once, ["abcdefgh"]) == ReplaceAll(Replace(once, text), []);
    assert ["abcd", "abcdefgh"][1..] == ["abcdefgh"];
  }
}
