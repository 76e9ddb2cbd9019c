/**
 Cutting a token stream into at most three sentences.

 `Speech` is the reference on the whole text. The gate cuts as soon as one character follows a terminator,
 taking along whatever white space has arrived, so its sentences are those of the reference up to the
 surrounding white space that is stripped before anything is spoken.
 The tables of white space and of digits are parameters.
 */
module SentenceGates {
  import opened Text
  import opened Wrappers

  const TERMINATORS := {'\U{3002}', '\U{FF01}', '\U{FF1F}', '!', '?', '\U{2026}'}
  const CLOSERS := {'"', '\'', '\U{201D}', '\U{2019}', '\U{300D}', '\U{300F}', '\U{3011}', '\U{FF09}', ')', ']',
                   '\U{FF5D}', '}'}

  datatype CharTable = CharTable(isSpace: char -> bool, isDigit: char -> bool)

  /** The classes of characters the gate tells apart do not overlap. */
  ghost predicate Disjoint(ct: CharTable) {
    forall c: char :: ct.isSpace(c) ==> !ct.isDigit(c) && c !in TERMINATORS && c !in CLOSERS && c != '.'
  }

  // ---------------------------------------------------------------------------------------------
  // Boundaries

  predicate IsDecimalPoint(ct: CharTable, text: string, index: nat)
    requires index < |text|
  {
    0 < index && index + 1 < |text| && ct.isDigit(text[index - 1]) && ct.isDigit(text[index + 1])
  }

  predicate IsTerminal(ct: CharTable, text: string, index: nat)
    requires index < |text|
  {
    text[index] in TERMINATORS || (text[index] == '.' && !IsDecimalPoint(ct, text, index))
  }

  function InRun(c: char): bool {
    c in TERMINATORS || c == '.'
  }

  function IsCloser(c: char): bool {
    c in CLOSERS
  }

  /** The first index from `start` on whose character is not of the given class. */
  function Skip(text: string, start: nat, ofClass: char -> bool): (end: nat)
    requires start <= |text|
    ensures start <= end <= |text|
    ensures forall i | start <= i < end :: ofClass(text[i])
    ensures end < |text| ==> !ofClass(text[end])
    decreases |text| - start
  {
    if start < |text| && ofClass(text[start]) then Skip(text, start + 1, ofClass) else start
  }

  /** The first terminal character from `start` on, or the length of the text. */
  function FirstTerminal(ct: CharTable, text: string, start: nat): (at: nat)
    requires start <= |text|
    ensures start <= at <= |text|
    ensures forall i | start <= i < at :: !IsTerminal(ct, text, i)
    ensures at < |text| ==> IsTerminal(ct, text, at)
    decreases |text| - start
  {
    if start == |text| || IsTerminal(ct, text, start) then start else FirstTerminal(ct, text, start + 1)
  }

  /** Where the terminators and closers that begin at a terminal character end. */
  function UnitEnd(text: string, at: nat): (end: nat)
    requires at < |text|
    ensures at < end <= |text|
  {
    Skip(text, Skip(text, at + 1, InRun), IsCloser)
  }

  function NextBoundary(ct: CharTable, text: string, final: bool): (boundary: Option<nat>)
    ensures boundary.Some? ==> 0 < boundary.value <= |text|
  {
    var at := FirstTerminal(ct, text, 0);
    if at == |text| then None
    else
      var end := UnitEnd(text, at);
      if end == |text| && !final then None else Some(Skip(text, end, ct.isSpace))
  }

  /** `_next_boundary`: three scans in a row. */
  method ScanBoundary(ct: CharTable, text: string, final: bool) returns (boundary: Option<nat>)
    ensures boundary == NextBoundary(ct, text, final)
  {
    hide UnitEnd;
    var index := 0;
    while index < |text|
      invariant index <= |text|
      invariant FirstTerminal(ct, text, 0) == FirstTerminal(ct, text, index)
    {
      var terminal := text[index] in TERMINATORS || text[index] == '.';
      if !terminal {
        index := index + 1;
        continue;
      }
      if text[index] == '.' && IsDecimalPoint(ct, text, index) {
        index := index + 1;
        continue;
      }
      var end := ScanUnitEnd(text, index);
      if end == |text| && !final {
        return None;
      }
      while end < |text| && ct.isSpace(text[end])
        invariant UnitEnd(text, index) <= end <= |text|
        invariant Skip(text, UnitEnd(text, index), ct.isSpace) == Skip(text, end, ct.isSpace)
      {
        end := end + 1;
      }
      return Some(end);
    }
    return None;
  }

  /** The first two of these scans: further terminators, then closers. */
  method ScanUnitEnd(text: string, index: nat) returns (end: nat)
    requires index < |text|
    ensures end == UnitEnd(text, index)
  {
    end := index + 1;
    while end < |text| && (text[end] in TERMINATORS || text[end] == '.')
      invariant index < end <= |text|
      invariant Skip(text, index + 1, InRun) == Skip(text, end, InRun)
    {
      end := end + 1;
    }
    while end < |text| && text[end] in CLOSERS
      invariant index < end <= |text|
      invariant UnitEnd(text, index) == Skip(text, end, IsCloser)
    {
      end := end + 1;
    }
  }

  // ---------------------------------------------------------------------------------------------
  // Stripping

  function StripLeft(ct: CharTable, text: string): string {
    if text != "" && ct.isSpace(text[0]) then StripLeft(ct, text[1..]) else text
  }

  function StripRight(ct: CharTable, text: string): string {
    if text != "" && ct.isSpace(text[|text| - 1]) then StripRight(ct, text[..|text| - 1]) else text
  }

  function Strip(ct: CharTable, text: string): string {
    StripRight(ct, StripLeft(ct, text))
  }

  predicate Blank(ct: CharTable, text: string) {
    forall i | 0 <= i < |text| :: ct.isSpace(text[i])
  }

  /** A sentence is spoken stripped, and not at all when nothing is left. */
  function Spoken(ct: CharTable, sentence: string): seq<string> {
    var stripped := Strip(ct, sentence);
    if stripped == "" then [] else [stripped]
  }

  function AllSpoken(ct: CharTable, sentences: seq<string>): seq<string> {
    if sentences == [] then []
    else AllSpoken(ct, sentences[..|sentences| - 1]) + Spoken(ct, sentences[|sentences| - 1])
  }

  lemma {:induction false} StripLeftBlank(ct: CharTable, space: string, text: string)
    requires Blank(ct, space)
    ensures StripLeft(ct, space + text) == StripLeft(ct, text)
  {
    if space == "" {
      assert space + text == text;
    } else {
      assert (space + text)[1..] == space[1..] + text;
      StripLeftBlank(ct, space[1..], text);
    }
  }

  lemma {:induction false} StripRightBlank(ct: CharTable, text: string, space: string)
    requires Blank(ct, space)
    ensures StripRight(ct, text + space) == StripRight(ct, text)
  {
    if space == "" {
      assert text + space == text;
    } else {
      var n := |space| - 1;
      assert (text + space)[..|text| + n] == text + space[..n];
      StripRightBlank(ct, text, space[..n]);
    }
  }

  lemma {:induction false} StripLeftThenBlank(ct: CharTable, text: string, space: string)
    requires Blank(ct, space)
    ensures StripLeft(ct, text) != "" ==> StripLeft(ct, text + space) == StripLeft(ct, text) + space
    ensures StripLeft(ct, text) == "" ==> StripLeft(ct, text + space) == ""
  {
    if text == "" {
      assert text + space == space + "";
      StripLeftBlank(ct, space, "");
    } else {
      assert (text + space)[1..] == text[1..] + space;
      StripLeftThenBlank(ct, text[1..], space);
    }
  }

  /** White space around a text does not matter once it is stripped. */
  lemma StripBlank(ct: CharTable, before: string, text: string, after: string)
    requires Blank(ct, before) && Blank(ct, after)
    ensures Strip(ct, before + text + after) == Strip(ct, text)
  {
    assert before + text + after == before + (text + after);
    StripLeftBlank(ct, before, text + after);
    StripLeftThenBlank(ct, text, after);
    StripRightBlank(ct, StripLeft(ct, text), after);
  }

  lemma {:induction false} StripRightEnds(ct: CharTable, text: string)
    ensures var r := StripRight(ct, text); r <= text && (r != "" ==> !ct.isSpace(r[|r| - 1]))
  {
    if text != "" && ct.isSpace(text[|text| - 1]) {
      StripRightEnds(ct, text[..|text| - 1]);
    }
  }

  lemma {:induction false} StripLeftEnds(ct: CharTable, text: string)
    ensures var r := StripLeft(ct, text); r != "" ==> !ct.isSpace(r[0])
  {
    if text != "" && ct.isSpace(text[0]) {
      StripLeftEnds(ct, text[1..]);
    }
  }

  /** What is stripped has no white space left to strip. */
  lemma StripTwice(ct: CharTable, text: string)
    ensures Strip(ct, Strip(ct, text)) == Strip(ct, text)
  {
    StripLeftEnds(ct, text);
    StripRightEnds(ct, StripLeft(ct, text));
    var r := Strip(ct, text);
    if r != "" {
      assert r[0] == StripLeft(ct, text)[0];
    }
  }

  // ---------------------------------------------------------------------------------------------
  // The reference

  /** The end of the first unit of which it is certain, since a character follows, that it is complete. */
  function Unit(ct: CharTable, text: string): (end: Option<nat>)
    ensures end.Some? ==> 0 < end.value < |text|
  {
    var at := FirstTerminal(ct, text, 0);
    if at == |text| || UnitEnd(text, at) == |text| then None else Some(UnitEnd(text, at))
  }

  /** What a listener hears of a finished text, at most `limit` sentences of it. */
  function Speech(ct: CharTable, text: string, limit: nat): seq<string> {
    if limit == 0 then []
    else
      match Unit(ct, text)
      case None => Spoken(ct, text)
      case Some(end) => Spoken(ct, text[..end]) + Speech(ct, text[end..], limit - 1)
  }

  /** The text contains `limit` units that are certain to be complete. */
  predicate Limited(ct: CharTable, text: string, limit: nat) {
    limit == 0
    || match Unit(ct, text)
       case None => false
       case Some(end) => Limited(ct, text[end..], limit - 1)
  }

  // ---------------------------------------------------------------------------------------------
  // The gate, as a function on its fields

  datatype Gate = Gate(buffer: string, released: nat, limited: bool)

  const START := Gate("", 0, false)

  datatype Fed = Fed(gate: Gate, sentences: seq<string>)

  function After(sentences: seq<string>, fed: Fed): Fed {
    fed.(sentences := sentences + fed.sentences)
  }

  lemma AfterTwice(a: seq<string>, b: seq<string>, fed: Fed)
    ensures After(a, After(b, fed)) == After(a + b, fed)
    ensures After([], fed) == fed
  {
    assert a + (b + fed.sentences) == (a + b) + fed.sentences;
    assert [] + fed.sentences == fed.sentences;
  }

  function Drain(ct: CharTable, g: Gate, max: nat): Fed
    decreases |g.buffer|
  {
    if g.released >= max then Fed(g, [])
    else
      match NextBoundary(ct, g.buffer, false)
      case None => Fed(g, [])
      case Some(end) =>
        var sentence, released := g.buffer[..end], g.released + 1;
        if released == max then Fed(Gate("", released, true), [sentence])
        else
          After([sentence], Drain(ct, g.(buffer := g.buffer[end..], released := released), max))
  }

  function FeedChunk(ct: CharTable, g: Gate, text: string, max: nat): Fed {
    if g.limited then Fed(g, []) else Drain(ct, g.(buffer := g.buffer + text), max)
  }

  function Flush(ct: CharTable, g: Gate, max: nat): Fed
    decreases |g.buffer|
  {
    if g.limited || g.buffer == "" || g.released >= max then Fed(g.(buffer := ""), [])
    else
      var boundary := NextBoundary(ct, g.buffer, true);
      var end := if boundary.None? then |g.buffer| else boundary.value;
      After([g.buffer[..end]], Flush(ct, g.(buffer := g.buffer[end..], released := g.released + 1), max))
  }

  function Run(ct: CharTable, chunks: seq<string>, max: nat): Fed {
    if chunks == [] then Fed(START, [])
    else
      var before := Run(ct, chunks[..|chunks| - 1], max);
      After(before.sentences, FeedChunk(ct, before.gate, chunks[|chunks| - 1], max))
  }

  lemma {:induction false} RunOneMore(ct: CharTable, chunks: seq<string>, last: string, max: nat)
    ensures Run(ct, chunks + [last], max)
            == After(Run(ct, chunks, max).sentences, FeedChunk(ct, Run(ct, chunks, max).gate, last, max))
  {
    hide FeedChunk;
    assert (chunks + [last])[..|chunks|] == chunks;
  }

  /** All sentences of a finished stream. */
  function Released(ct: CharTable, chunks: seq<string>, max: nat): seq<string> {
    var fed := Run(ct, chunks, max);
    fed.sentences + Flush(ct, fed.gate, max).sentences
  }

  // ---------------------------------------------------------------------------------------------
  // Units do not depend on what comes later, nor on white space in front

  lemma {:induction false} SkipStable(text: string, more: string, start: nat, ofClass: char -> bool)
    requires start <= |text| && Skip(text, start, ofClass) < |text|
    ensures Skip(text + more, start, ofClass) == Skip(text, start, ofClass)
    decreases |text| - start
  {
    assert (text + more)[start] == text[start];
    if ofClass(text[start]) {
      SkipStable(text, more, start + 1, ofClass);
    }
  }

  lemma {:induction false} SkipWithin(text: string, start: nat, ofClass: char -> bool, end: nat)
    requires start <= end <= |text| && (forall i | start <= i < end :: ofClass(text[i]))
             && (end < |text| ==> !ofClass(text[end]))
    ensures Skip(text, start, ofClass) == end
  {
  }

  lemma {:induction false} FirstTerminalIs(ct: CharTable, text: string, at: nat)
    requires at < |text| && IsTerminal(ct, text, at) && forall i | 0 <= i < at :: !IsTerminal(ct, text, i)
    ensures FirstTerminal(ct, text, 0) == at
  {
  }

  lemma UnitEndStable(text: string, more: string, at: nat)
    requires at < |text| && UnitEnd(text, at) < |text|
    ensures UnitEnd(text + more, at) == UnitEnd(text, at)
  {
    SkipStable(text, more, at + 1, InRun);
    SkipStable(text, more, Skip(text, at + 1, InRun), IsCloser);
  }

  /** A complete unit stays what it is. */
  lemma UnitStable(ct: CharTable, text: string, more: string)
    requires Unit(ct, text).Some?
    ensures Unit(ct, text + more) == Unit(ct, text)
  {
    var whole, at := text + more, FirstTerminal(ct, text, 0);
    UnitEndStable(text, more, at);
    forall i | 0 <= i <= at
      ensures IsTerminal(ct, whole, i) == IsTerminal(ct, text, i)
    {
      assert whole[i] == text[i] && whole[i + 1] == text[i + 1];
      assert i > 0 ==> whole[i - 1] == text[i - 1];
    }
    FirstTerminalIs(ct, whole, at);
  }

  /** White space in front shifts the first unit and nothing else. */
  lemma UnitAfterBlank(ct: CharTable, space: string, text: string)
    requires Disjoint(ct) && Blank(ct, space)
    ensures Unit(ct, space + text) == if Unit(ct, text).None? then None else Some(|space| + Unit(ct, text).value)
  {
    var whole, n, at := space + text, |space|, FirstTerminal(ct, text, 0);
    forall i | 0 <= i < |text|
      ensures IsTerminal(ct, whole, n + i) == IsTerminal(ct, text, i)
    {
      assert whole[n + i] == text[i];
      assert i + 1 < |text| ==> whole[n + i + 1] == text[i + 1];
      if i > 0 { assert whole[n + i - 1] == text[i - 1]; }
      if i == 0 && n > 0 { assert whole[n - 1] == space[n - 1]; }
    }
    forall i | 0 <= i < n + at
      ensures !IsTerminal(ct, whole, i)
    {
      if i < n {
        assert whole[i] == space[i];
      } else {
        assert IsTerminal(ct, whole, n + (i - n)) == IsTerminal(ct, text, i - n);
      }
    }
    if at < |text| {
      assert IsTerminal(ct, whole, n + at) == IsTerminal(ct, text, at);
      FirstTerminalIs(ct, whole, n + at);
      UnitEndShift(space, text, at);
    }
  }

  lemma SkipShift(before: string, text: string, start: nat, ofClass: char -> bool)
    requires start <= |text|
    ensures Skip(before + text, |before| + start, ofClass) == |before| + Skip(text, start, ofClass)
  {
    var end := Skip(text, start, ofClass);
    forall i | |before| + start <= i < |before| + end
      ensures ofClass((before + text)[i])
    {
      assert (before + text)[i] == text[i - |before|];
    }
    SkipWithin(before + text, |before| + start, ofClass, |before| + end);
  }

  lemma UnitEndShift(before: string, text: string, at: nat)
    requires at < |text|
    ensures UnitEnd(before + text, |before| + at) == |before| + UnitEnd(text, at)
  {
    SkipShift(before, text, at + 1, InRun);
    SkipShift(before, text, Skip(text, at + 1, InRun), IsCloser);
  }

  /** White space in front is not heard. */
  lemma {:induction false} SpeechAfterBlank(ct: CharTable, space: string, text: string, limit: nat)
    requires Disjoint(ct) && Blank(ct, space)
    ensures Speech(ct, space + text, limit) == Speech(ct, text, limit)
    ensures Limited(ct, space + text, limit) == Limited(ct, text, limit)
  {
    hide Unit, Strip;
    UnitAfterBlank(ct, space, text);
    match Unit(ct, text)
    case None =>
      assert space + text + "" == space + text;
      StripBlank(ct, space, text, "");
    case Some(end) =>
      assert (space + text)[..|space| + end] == space + text[..end] + "";
      assert (space + text)[|space| + end..] == text[end..];
      StripBlank(ct, space, text[..end], "");
  }

  lemma {:induction false} AllSpokenAppend(ct: CharTable, a: seq<string>, b: seq<string>)
    ensures AllSpoken(ct, a + b) == AllSpoken(ct, a) + AllSpoken(ct, b)
  {
    if b == [] {
      assert a + b == a;
    } else {
      var init, last := b[..|b| - 1], b[|b| - 1];
      assert a + b == (a + init) + [last];
      assert ((a + init) + [last])[..|a + init|] == a + init;
      AllSpokenAppend(ct, a, init);
    }
  }

  // ---------------------------------------------------------------------------------------------
  // The gate keeps up with the reference

  function Left(released: nat, max: nat): nat {
    if released < max then max - released else 0
  }

  /** With `more` still to come: what has been released, then what will be heard of the buffer. */
  function Heard(ct: CharTable, fed: Fed, more: string, max: nat): seq<string> {
    AllSpoken(ct, fed.sentences) + Speech(ct, fed.gate.buffer + more, Left(fed.gate.released, max))
  }

  function LimitAhead(ct: CharTable, g: Gate, more: string, max: nat): bool {
    Limited(ct, g.buffer + more, Left(g.released, max))
  }

  lemma {:induction false} HeardAfter(ct: CharTable, sentences: seq<string>, fed: Fed, more: string, max: nat)
    ensures Heard(ct, After(sentences, fed), more, max) == AllSpoken(ct, sentences) + Heard(ct, fed, more, max)
  {
    hide Speech, Spoken, AllSpoken;
    AllSpokenAppend(ct, sentences, fed.sentences);
    var ahead := Speech(ct, fed.gate.buffer + more, Left(fed.gate.released, max));
    assert AllSpoken(ct, sentences) + (AllSpoken(ct, fed.sentences) + ahead)
           == (AllSpoken(ct, sentences) + AllSpoken(ct, fed.sentences)) + ahead;
  }

  lemma {:induction false} AllSpokenOne(ct: CharTable, sentence: string)
    ensures AllSpoken(ct, [sentence]) == Spoken(ct, sentence)
  {
    hide Spoken;
    assert [sentence][..0] == [];
    assert AllSpoken(ct, []) + Spoken(ct, sentence) == Spoken(ct, sentence);
  }

  /** Between feeds no complete unit is left in the buffer. */
  ghost predicate Waiting(ct: CharTable, g: Gate, max: nat) {
    && g.limited == (g.released == max)
    && g.released <= max
    && (if g.limited then g.buffer == "" else Unit(ct, g.buffer).None?)
  }

  lemma SpeechOfUnit(ct: CharTable, text: string, limit: nat)
    requires limit > 0 && Unit(ct, text).Some?
    ensures var end := Unit(ct, text).value;
            && Speech(ct, text, limit) == Spoken(ct, text[..end]) + Speech(ct, text[end..], limit - 1)
            && Limited(ct, text, limit) == Limited(ct, text[end..], limit - 1)
  {
    hide Unit, Spoken;
  }

  /** The gate cuts where the unit ends or in the white space behind it. */
  lemma BoundaryIsUnit(ct: CharTable, text: string)
    requires NextBoundary(ct, text, false).Some?
    ensures Unit(ct, text).Some?
    ensures var unit, end := Unit(ct, text).value, NextBoundary(ct, text, false).value;
            unit <= end && Blank(ct, text[unit..end])
  {
  }

  lemma CutHeard(ct: CharTable, text: string, more: string, limit: nat)
    requires Disjoint(ct) && limit > 0 && NextBoundary(ct, text, false).Some?
    ensures var end := NextBoundary(ct, text, false).value;
            && Speech(ct, text + more, limit) == Spoken(ct, text[..end]) + Speech(ct, text[end..] + more, limit - 1)
            && Limited(ct, text + more, limit) == Limited(ct, text[end..] + more, limit - 1)
  {
    hide Unit, NextBoundary, Strip, Disjoint, Speech, Limited, Blank;
    BoundaryIsUnit(ct, text);
    UnitStable(ct, text, more);
    var end, unit := NextBoundary(ct, text, false).value, Unit(ct, text).value;
    var whole, space := text + more, text[unit..end];
    SpeechOfUnit(ct, whole, limit);
    assert whole[..unit] == text[..unit];
    assert whole[unit..] == space + (text[end..] + more);
    SpeechAfterBlank(ct, space, text[end..] + more, limit - 1);
    assert text[..end] == "" + text[..unit] + space;
    BlankEmpty(ct);
    StripBlank(ct, "", text[..unit], space);
  }

  lemma BlankEmpty(ct: CharTable)
    ensures Blank(ct, "")
  {
  }

  /** One step of draining: nothing to cut, the last sentence, or a sentence and what comes after it. */
  lemma DrainStep(ct: CharTable, g: Gate, max: nat)
    requires g.released < max
    ensures var rest := g.(buffer := g.buffer[Cut(ct, g)..], released := g.released + 1);
            Drain(ct, g, max)
            == if Cut(ct, g) == 0 then Fed(g, [])
               else if rest.released == max then Fed(Gate("", max, true), [g.buffer[..Cut(ct, g)]])
               else After([g.buffer[..Cut(ct, g)]], Drain(ct, rest, max))
  {
    hide NextBoundary;
  }

  /** How much of the buffer is cut off next; 0 when it has to wait. */
  function Cut(ct: CharTable, g: Gate): (end: nat)
    ensures end <= |g.buffer|
  {
    var boundary := NextBoundary(ct, g.buffer, false);
    if boundary.None? then 0 else boundary.value
  }

  /**
   Draining has released what the reference releases of the buffer and whatever comes after it, and waits for
   more.
   */
  ghost predicate Drained(ct: CharTable, g: Gate, fed: Fed, more: string, max: nat) {
    && g.released <= max
    && Heard(ct, fed, more, max) == Speech(ct, g.buffer + more, max - g.released)
    && LimitAhead(ct, fed.gate, more, max) == Limited(ct, g.buffer + more, max - g.released)
    && Waiting(ct, fed.gate, max)
  }

  lemma NothingToCut(ct: CharTable, g: Gate, more: string, max: nat)
    requires Cut(ct, g) == 0 && !g.limited && g.released < max
    ensures Drained(ct, g, Fed(g, []), more, max)
  {
    hide Speech;
    assert [] + Speech(ct, g.buffer + more, max - g.released) == Speech(ct, g.buffer + more, max - g.released);
  }

  lemma {:induction false} CutIsHeard(ct: CharTable, g: Gate, more: string, limit: nat)
    requires Disjoint(ct) && limit > 0 && Cut(ct, g) > 0
    ensures var end := Cut(ct, g);
            && Speech(ct, g.buffer + more, limit)
               == Spoken(ct, g.buffer[..end]) + Speech(ct, g.buffer[end..] + more, limit - 1)
            && Limited(ct, g.buffer + more, limit) == Limited(ct, g.buffer[end..] + more, limit - 1)
  {
    hide Unit, Speech, Limited, Disjoint, Spoken, NextBoundary;
    CutHeard(ct, g.buffer, more, limit);
  }

  lemma CutGoesOn(ct: CharTable, g: Gate, rest: Gate, fed: Fed, more: string, max: nat)
    requires Disjoint(ct) && g.released < max && Cut(ct, g) > 0
    requires rest == g.(buffer := g.buffer[Cut(ct, g)..], released := g.released + 1)
    requires Drained(ct, rest, fed, more, max)
    ensures Drained(ct, g, After([g.buffer[..Cut(ct, g)]], fed), more, max)
  {
    hide Cut, Speech, Limited, Disjoint, Spoken, AllSpoken, Heard, Waiting, LimitAhead;
    var sentence := g.buffer[..Cut(ct, g)];
    CutIsHeard(ct, g, more, max - g.released);
    AllSpokenOne(ct, sentence);
    HeardAfter(ct, [sentence], fed, more, max);
    SameGate(ct, [sentence], fed, more, max);
  }

  lemma SameGate(ct: CharTable, sentences: seq<string>, fed: Fed, more: string, max: nat)
    ensures LimitAhead(ct, After(sentences, fed).gate, more, max) == LimitAhead(ct, fed.gate, more, max)
    ensures Waiting(ct, After(sentences, fed).gate, max) == Waiting(ct, fed.gate, max)
  {
    hide Limited, Unit;
  }

  lemma CutAtLimit(ct: CharTable, g: Gate, more: string, max: nat)
    requires Disjoint(ct) && g.released + 1 == max && Cut(ct, g) > 0
    ensures Drained(ct, g, Fed(Gate("", max, true), [g.buffer[..Cut(ct, g)]]), more, max)
  {
    hide Cut, Unit, Speech, Limited, Disjoint, Spoken, AllSpoken, Heard;
    var sentence, rest := g.buffer[..Cut(ct, g)], g.buffer[Cut(ct, g)..];
    CutIsHeard(ct, g, more, 1);
    NothingMore(ct, rest + more, "" + more);
    HeardAtLimit(ct, sentence, more, max);
  }

  lemma {:induction false} DrainRefinesSpeech(ct: CharTable, g: Gate, more: string, max: nat)
    requires Disjoint(ct) && !g.limited && g.released < max
    ensures Drained(ct, g, Drain(ct, g, max), more, max)
    decreases |g.buffer|
  {
    DrainStep(ct, g, max);
    hide Unit, Speech, Limited, Disjoint, Spoken, AllSpoken, Heard, Drain, NextBoundary, After, Waiting, LimitAhead;
    if Cut(ct, g) == 0 {
      NothingToCut(ct, g, more, max);
    } else if g.released + 1 < max {
      hide Drained;
      var rest := g.(buffer := g.buffer[Cut(ct, g)..], released := g.released + 1);
      DrainRefinesSpeech(ct, rest, more, max);
      CutGoesOn(ct, g, rest, Drain(ct, rest, max), more, max);
    } else {
      hide Drained;
      CutAtLimit(ct, g, more, max);
    }
  }

  lemma {:induction false} AfterGate(sentences: seq<string>, fed: Fed)
    ensures After(sentences, fed).gate == fed.gate
    ensures Join(After(sentences, fed).sentences) == Join(sentences) + Join(fed.sentences)
    ensures |After(sentences, fed).sentences| == |sentences| + |fed.sentences|
  {
    JoinAppend(sentences, fed.sentences);
  }

  lemma HeardAtLimit(ct: CharTable, sentence: string, more: string, max: nat)
    ensures Heard(ct, Fed(Gate("", max, true), [sentence]), more, max) == Spoken(ct, sentence) + []
  {
    hide Spoken;
    AllSpokenOne(ct, sentence);
  }

  lemma {:induction false} NothingMore(ct: CharTable, a: string, b: string)
    ensures Speech(ct, a, 0) == Speech(ct, b, 0) == [] && Limited(ct, a, 0) && Limited(ct, b, 0)
  {
  }

  lemma FeedRefinesSpeech(ct: CharTable, before: Fed, last: string, more: string, max: nat)
    requires Disjoint(ct) && Waiting(ct, before.gate, max)
    ensures var fed := After(before.sentences, FeedChunk(ct, before.gate, last, max));
            && Heard(ct, fed, more, max) == Heard(ct, before, last + more, max)
            && LimitAhead(ct, fed.gate, more, max) == LimitAhead(ct, before.gate, last + more, max)
            && Waiting(ct, fed.gate, max)
  {
    hide Speech, Limited, Disjoint, Drain, AllSpoken, Unit;
    var g := before.gate;
    assert g.buffer + (last + more) == (g.buffer + last) + more;
    HeardAfter(ct, before.sentences, FeedChunk(ct, g, last, max), more, max);
    if g.limited {
      NothingMore(ct, g.buffer + (last + more), g.buffer + more);
      AfterTwice(before.sentences, [], Fed(g, []));
      assert before.sentences + [] == before.sentences;
    } else {
      DrainRefinesSpeech(ct, g.(buffer := g.buffer + last), more, max);
    }
  }

  lemma {:induction false} RunRefinesSpeech(ct: CharTable, chunks: seq<string>, more: string, max: nat)
    requires Disjoint(ct) && max > 0
    ensures var fed := Run(ct, chunks, max);
            && Heard(ct, fed, more, max) == Speech(ct, Join(chunks) + more, max)
            && LimitAhead(ct, fed.gate, more, max) == Limited(ct, Join(chunks) + more, max)
            && Waiting(ct, fed.gate, max)
  {
    if chunks == [] {
      assert Unit(ct, "").None?;
    } else {
      hide Speech, Limited, Disjoint, FeedChunk, Waiting, Heard, LimitAhead;
      var init, last := chunks[..|chunks| - 1], chunks[|chunks| - 1];
      RunRefinesSpeech(ct, init, last + more, max);
      assert Join(chunks) + more == Join(init) + (last + more);
      FeedRefinesSpeech(ct, Run(ct, init, max), last, more, max);
    }
  }

  /** At the end of the stream the rest of the buffer is one last sentence. */
  lemma {:induction false} FlushIsSpeech(ct: CharTable, g: Gate, max: nat)
    requires Waiting(ct, g, max)
    ensures AllSpoken(ct, Flush(ct, g, max).sentences) == Speech(ct, g.buffer, max - g.released)
    ensures Flush(ct, g, max).sentences == if g.buffer == "" then [] else [g.buffer]
  {
    hide Strip;
    if !g.limited && g.buffer != "" {
      assert g.buffer[..|g.buffer|] == g.buffer && g.buffer[|g.buffer|..] == "";
      assert Flush(ct, g, max).sentences == [g.buffer];
      assert [g.buffer][..0] == [];
    } else if !g.limited {
      SpokenOfEmpty(ct);
    }
  }

  lemma SpokenOfEmpty(ct: CharTable)
    ensures Spoken(ct, "") == []
  {
  }

  // ---------------------------------------------------------------------------------------------
  // Main results

  /** The sentences heard, and whether the limit was reached, depend only on the text and not on how it was cut. */
  lemma {:induction false} SentencesChunkInvariant(ct: CharTable, chunks: seq<string>, max: nat)
    requires Disjoint(ct) && max > 0
    ensures AllSpoken(ct, Released(ct, chunks, max)) == Speech(ct, Join(chunks), max)
    ensures Run(ct, chunks, max).gate.limited == Limited(ct, Join(chunks), max)
  {
    hide Disjoint, Run, Flush, Strip;
    RunRefinesSpeech(ct, chunks, "", max);
    var fed := Run(ct, chunks, max);
    assert Join(chunks) + "" == Join(chunks) && fed.gate.buffer + "" == fed.gate.buffer;
    FlushIsSpeech(ct, fed.gate, max);
    AllSpokenAppend(ct, fed.sentences, Flush(ct, fed.gate, max).sentences);
  }

  /** The sentences and the buffer make up the text; once the limit is reached the rest of it is dropped. */
  ghost predicate KeepsText(fed: Fed, text: string, max: nat) {
    && fed.gate.released <= max
    && (if fed.gate.limited then Join(fed.sentences) <= text else Join(fed.sentences) + fed.gate.buffer == text)
  }

  lemma JoinOne(sentence: string)
    ensures Join([sentence]) == sentence && Join<char>([]) == ""
  {
    assert [sentence][..0] == [];
  }

  lemma KeepsTextAfter(sentence: string, fed: Fed, text: string, max: nat)
    requires KeepsText(fed, text, max)
    ensures KeepsText(After([sentence], fed), sentence + text, max)
  {
    hide Join;
    JoinOne(sentence);
    AfterGate([sentence], fed);
    assert (sentence + Join(fed.sentences)) + fed.gate.buffer == sentence + (Join(fed.sentences) + fed.gate.buffer);
    if fed.gate.limited {
      assert sentence + text == (sentence + Join(fed.sentences)) + text[|Join(fed.sentences)|..];
    }
  }

  lemma {:induction false} DrainKeepsText(ct: CharTable, g: Gate, max: nat)
    requires !g.limited && g.released <= max
    ensures var fed := Drain(ct, g, max);
            KeepsText(fed, g.buffer, max) && |fed.sentences| == fed.gate.released - g.released
    decreases |g.buffer|
  {
    hide Join, Drain, After, Cut;
    if g.released < max {
      DrainStep(ct, g, max);
      var sentence, rest := g.buffer[..Cut(ct, g)], g.(buffer := g.buffer[Cut(ct, g)..], released := g.released + 1);
      JoinOne(sentence);
      if Cut(ct, g) > 0 && rest.released < max {
        hide KeepsText;
        DrainKeepsText(ct, rest, max);
        AfterGate([sentence], Drain(ct, rest, max));
        assert sentence + rest.buffer == g.buffer;
        KeepsTextAfter(sentence, Drain(ct, rest, max), rest.buffer, max);
      }
    } else {
      DrainAtLimit(ct, g, max);
      JoinOne("");
    }
  }

  lemma FeedKeepsText(ct: CharTable, before: Fed, text: string, last: string, max: nat)
    requires KeepsText(before, text, max) && |before.sentences| == before.gate.released
    ensures var fed := After(before.sentences, FeedChunk(ct, before.gate, last, max));
            KeepsText(fed, text + last, max) && |fed.sentences| == fed.gate.released
  {
    hide Drain, Join, After;
    var g := before.gate;
    AfterGate(before.sentences, FeedChunk(ct, g, last, max));
    if g.limited {
      JoinOne("");
    } else {
      DrainKeepsText(ct, g.(buffer := g.buffer + last), max);
      assert text + last == Join(before.sentences) + (g.buffer + last);
    }
  }

  /** What is released is a prefix of what came in, in at most `max` sentences; nothing is invented or reordered. */
  lemma {:induction false} ReleasedIsPrefix(ct: CharTable, chunks: seq<string>, max: nat)
    requires max > 0
    ensures var fed := Run(ct, chunks, max);
            KeepsText(fed, Join(chunks), max) && |fed.sentences| == fed.gate.released
  {
    if chunks != [] {
      hide FeedChunk, KeepsText, After;
      var init, last := chunks[..|chunks| - 1], chunks[|chunks| - 1];
      ReleasedIsPrefix(ct, init, max);
      FeedKeepsText(ct, Run(ct, init, max), Join(init), last, max);
    }
  }

  // ---------------------------------------------------------------------------------------------
  // The class

  datatype TextFrame = TextFrame(text: string, generation: nat, attempt: nat)

  function Frames(sentences: seq<string>, generation: nat, attempt: nat): seq<TextFrame> {
    if sentences == [] then []
    else Frames(sentences[..|sentences| - 1], generation, attempt)
         + [TextFrame(sentences[|sentences| - 1], generation, attempt)]
  }

  lemma {:induction false} FramesAre(sentences: seq<string>, generation: nat, attempt: nat)
    ensures var frames := Frames(sentences, generation, attempt);
            |frames| == |sentences|
            && forall i | 0 <= i < |frames| :: frames[i] == TextFrame(sentences[i], generation, attempt)
  {
    if sentences != [] {
      FramesAre(sentences[..|sentences| - 1], generation, attempt);
    }
  }

  /** The counter counts the sentences, and the limit is reached exactly when it says so. */
  lemma {:induction false} DrainCounts(ct: CharTable, g: Gate, max: nat)
    requires !g.limited && g.released < max
    ensures var fed := Drain(ct, g, max);
            && |fed.sentences| == fed.gate.released - g.released
            && fed.gate.released <= max && (fed.gate.limited <==> fed.gate.released == max)
    decreases |g.buffer|
  {
    DrainStep(ct, g, max);
    hide Drain, NextBoundary;
    var rest := g.(buffer := g.buffer[Cut(ct, g)..], released := g.released + 1);
    if Cut(ct, g) > 0 && rest.released < max {
      DrainCounts(ct, rest, max);
    }
  }

  lemma FeedCounts(ct: CharTable, g: Gate, text: string, max: nat)
    requires !g.limited && g.released < max
    ensures var fed := FeedChunk(ct, g, text, max);
            && |fed.sentences| == fed.gate.released - g.released
            && fed.gate.released <= max && (fed.gate.limited <==> fed.gate.released == max)
  {
    DrainCounts(ct, g.(buffer := g.buffer + text), max);
    hide Drain;
  }

  lemma {:induction false} FlushCounts(ct: CharTable, g: Gate, max: nat)
    requires g.released <= max
    ensures var fed := Flush(ct, g, max);
            |fed.sentences| == fed.gate.released - g.released && fed.gate.released <= max
    decreases |g.buffer|
  {
    if !g.limited && g.buffer != "" && g.released < max {
      FlushStep(ct, g, max);
      hide Flush, NextBoundary;
      var boundary := NextBoundary(ct, g.buffer, true);
      var end := if boundary.None? then |g.buffer| else boundary.value;
      FlushCounts(ct, g.(buffer := g.buffer[end..], released := g.released + 1), max);
    }
  }

  lemma {:induction false} FramesOneMore(sentences: seq<string>, last: string, generation: nat, attempt: nat)
    ensures Frames(sentences + [last], generation, attempt)
            == Frames(sentences, generation, attempt) + [TextFrame(last, generation, attempt)]
  {
    assert (sentences + [last])[..|sentences|] == sentences;
  }

  lemma FlushStep(ct: CharTable, g: Gate, max: nat)
    requires !g.limited && g.buffer != "" && g.released < max
    ensures var boundary := NextBoundary(ct, g.buffer, true);
            var end := if boundary.None? then |g.buffer| else boundary.value;
            Flush(ct, g, max)
            == After([g.buffer[..end]], Flush(ct, g.(buffer := g.buffer[end..], released := g.released + 1), max))
  {
    hide NextBoundary;
  }

  lemma {:induction false} NoFrames(generation: nat, attempt: nat)
    ensures Frames([], generation, attempt) == []
  {
  }

  lemma DrainedIs(sentences: seq<string>, g: Gate, max: nat)
    ensures After(sentences, Fed(g, [])) == Fed(g, sentences)
  {
    assert sentences + [] == sentences;
  }

  lemma LimitReached(sentences: seq<string>, last: string, g: Gate)
    ensures After(sentences, Fed(g, [last])) == Fed(g, sentences + [last])
  {
  }

  lemma {:induction false} DrainAtLimit(ct: CharTable, g: Gate, max: nat)
    requires g.released >= max
    ensures Drain(ct, g, max) == Fed(g, [])
  {
  }

  lemma {:induction false} FlushedIs(ct: CharTable, sentences: seq<string>, g: Gate, max: nat)
    requires g.limited || g.buffer == "" || g.released >= max
    ensures After(sentences, Flush(ct, g, max)) == Fed(g.(buffer := ""), sentences)
  {
    assert sentences + [] == sentences;
  }

  datatype GateResult = GateResult(frames: seq<TextFrame>, reachedLimit: bool)

  class SentenceGate {
    const ct: CharTable
    const maxSentences: nat
    var buffer: string
    var released: nat
    var limited: bool
    var correlation: Option<(nat, nat)>

    function View(): Gate
      reads this
    {
      Gate(buffer, released, limited)
    }

    /** Text is only ever buffered for a known generation and attempt. */
    ghost predicate Valid()
      reads this
    {
      1 <= maxSentences <= 3 && (buffer != "" ==> correlation.Some?)
    }

    constructor (ct: CharTable, maxSentences: nat)
      requires 1 <= maxSentences <= 3
      ensures Valid() && View() == START && correlation == None
      ensures this.ct == ct && this.maxSentences == maxSentences
    {
      this.ct, this.maxSentences := ct, maxSentences;
      buffer, released, limited, correlation := "", 0, false, None;
    }

    /** `None` is the refusal to mix generations or attempts; it changes nothing. */
    method Feed(frame: TextFrame) returns (result: Option<GateResult>)
      requires Valid()
      modifies this
      ensures Valid()
      ensures result.None? <==>
                !old(limited) && old(correlation).Some?
                && old(correlation).value != (frame.generation, frame.attempt)
      ensures result.None? ==> View() == old(View()) && correlation == old(correlation)
      ensures result.Some? ==>
                var fed := FeedChunk(ct, old(View()), frame.text, maxSentences);
                && View() == fed.gate
                && result.value == GateResult(Frames(fed.sentences, frame.generation, frame.attempt), limited)
                && correlation == if old(limited) then old(correlation) else Some((frame.generation, frame.attempt))
    {
      if limited {
        return Some(GateResult([], true));
      }
      if correlation.None? {
        correlation := Some((frame.generation, frame.attempt));
      } else if correlation.value != (frame.generation, frame.attempt) {
        return None;
      }
      buffer := buffer + frame.text;
      var frames := ReleaseComplete(frame.generation, frame.attempt);
      result := Some(GateResult(frames, limited));
    }

    /** The loop of `feed`: release complete units until none is left or the limit is reached. */
    method ReleaseComplete(generation: nat, attempt: nat) returns (frames: seq<TextFrame>)
      requires Valid() && !limited && correlation == Some((generation, attempt))
      modifies this`buffer, this`released, this`limited
      ensures Valid()
      ensures var fed := Drain(ct, old(View()), maxSentences);
              View() == fed.gate && frames == Frames(fed.sentences, generation, attempt)
    {
      hide Drain, NextBoundary, After, Frames;
      ghost var start := View();
      ghost var sentences: seq<string> := [];
      frames := [];
      AfterTwice([], [], Drain(ct, start, maxSentences));
      NoFrames(generation, attempt);
      while released < maxSentences
        invariant Valid() && !limited
        invariant frames == Frames(sentences, generation, attempt)
        invariant Drain(ct, start, maxSentences) == After(sentences, Drain(ct, View(), maxSentences))
        decreases |buffer|
      {
        DrainStep(ct, View(), maxSentences);
        var boundary := ScanBoundary(ct, buffer, false);
        if boundary.None? {
          DrainedIs(sentences, View(), maxSentences);
          return;
        }
        ghost var so := sentences;
        var sentence := buffer[..boundary.value];
        buffer := buffer[boundary.value..];
        FramesOneMore(so, sentence, generation, attempt);
        frames := frames + [TextFrame(sentence, generation, attempt)];
        sentences := sentences + [sentence];
        released := released + 1;
        if released == maxSentences {
          limited := true;
          buffer := "";
          LimitReached(so, sentence, View());
          return;
        }
        AfterTwice(so, [sentence], Drain(ct, View(), maxSentences));
      }
      DrainAtLimit(ct, View(), maxSentences);
      DrainedIs(sentences, View(), maxSentences);
    }

    /** Flush the remainder of a finished stream; nothing is left of it then. */
    method Finish() returns (result: GateResult)
      requires Valid()
      modifies this
      ensures Valid() && buffer == "" && correlation == old(correlation)
      ensures var fed := Flush(ct, old(View()), maxSentences);
              && View() == fed.gate
              && (fed.sentences == [] ==> result == GateResult([], limited))
              && (fed.sentences != [] ==>
                    correlation.Some?
                    && result == GateResult(Frames(fed.sentences, correlation.value.0, correlation.value.1), limited))
    {
      if limited || buffer == "" {
        buffer := "";
        return GateResult([], limited);
      }
      var frames := ReleaseRemainder(correlation.value.0, correlation.value.1);
      NoFrames(correlation.value.0, correlation.value.1);
      result := GateResult(frames, limited);
    }

    /** The loop of `finish`. */
    method ReleaseRemainder(generation: nat, attempt: nat) returns (frames: seq<TextFrame>)
      requires Valid() && !limited
      modifies this`buffer, this`released
      ensures Valid() && buffer == ""
      ensures var fed := Flush(ct, old(View()), maxSentences);
              View() == fed.gate && frames == Frames(fed.sentences, generation, attempt)
    {
      hide Flush, NextBoundary, After, Frames;
      ghost var start := View();
      ghost var sentences: seq<string> := [];
      frames := [];
      AfterTwice([], [], Flush(ct, start, maxSentences));
      NoFrames(generation, attempt);
      while buffer != "" && released < maxSentences
        invariant Valid()
        invariant frames == Frames(sentences, generation, attempt)
        invariant Flush(ct, start, maxSentences) == After(sentences, Flush(ct, View(), maxSentences))
        decreases |buffer|
      {
        FlushStep(ct, View(), maxSentences);
        var boundary := ScanBoundary(ct, buffer, true);
        var end := if boundary.None? then |buffer| else boundary.value;
        ghost var so := sentences;
        var sentence := buffer[..end];
        buffer := buffer[end..];
        FramesOneMore(so, sentence, generation, attempt);
        frames := frames + [TextFrame(sentence, generation, attempt)];
        sentences := sentences + [sentence];
        released := released + 1;
        AfterTwice(so, [sentence], Flush(ct, View(), maxSentences));
      }
      FlushedIs(ct, sentences, View(), maxSentences);
      buffer := "";
    }

    method Discard()
      requires Valid()
      modifies this`buffer
      ensures Valid() && buffer == ""
    {
      buffer := "";
    }
  }
}
