/**
 What a response says, written out without any scanning.

 A response is visible text, reasoning between tags, close tags on their own, and perhaps a reasoning block that
 never closes. Every text is such a response (`EveryResponse`), and what the filter makes of it can be read off it
 (`StripMeans`): the visible text, and each violation once, in the order in which it is first met. The same is said
 of tool blocks (`EveryTranscript`, `LiftMeans`). The tags are spelled out here.
 */
module Responses {
  import opened TagScan
  import Thinking
  import Tools

  /** The text goes on with the tag from position `i`. */
  predicate GoesOn(text: string, tag: string, i: int) {
    0 <= i <= |text| && tag <= text[i..]
  }

  /** The tag is nowhere in the text. */
  ghost predicate Free(text: string, tag: string) {
    forall i :: !GoesOn(text, tag, i)
  }

  /** Like a tag: it begins with the one '<' it has. */
  predicate IsTag(tag: string) {
    tag != "" && tag[0] == '<' && forall k | 0 < k < |tag| :: tag[k] != '<'
  }

  lemma GoesOnIs(text: string, tag: string, i: int)
    ensures GoesOn(text, tag, i) <==> OccursAt(text, tag, i)
  {
    if 0 <= i && i + |tag| <= |text| {
      assert text[i..][..|tag|] == text[i..i + |tag|];
    }
  }

  lemma FreeIs(text: string, tag: string)
    ensures Free(text, tag) <==> Find(text, tag) < 0
  {
    forall i
      ensures GoesOn(text, tag, i) <==> OccursAt(text, tag, i)
    {
      GoesOnIs(text, tag, i);
    }
    assert Find(text, tag) >= 0 ==> GoesOn(text, tag, Find(text, tag));
  }

  lemma CharOf(text: string, tag: string, j: int, p: int)
    requires OccursAt(text, tag, j) && j <= p < j + |tag|
    ensures text[p] == tag[p - j]
  {
    assert text[p] == text[j..j + |tag|][p - j];
  }

  /** An occurrence that ends within the beginning of a text is one in that beginning. */
  lemma Within(before: string, rest: string, tag: string, j: int)
    requires j + |tag| <= |before|
    ensures OccursAt(before + rest, tag, j) ==> GoesOn(before, tag, j)
  {
    if 0 <= j {
      assert (before + rest)[j..j + |tag|] == before[j..j + |tag|];
    }
    GoesOnIs(before, tag, j);
  }

  /** Text in front of a tag and the tag make up no other tag between them. */
  lemma NotAcross(before: string, tag: string, rest: string, other: string)
    requires IsTag(tag) && IsTag(other) && Free(before, other)
    ensures forall j :: OccursAt(before + tag + rest, other, j) ==> j >= |before|
  {
    var text := before + tag + rest;
    assert text == before + (tag + rest);
    assert text[|before|] == '<';
    forall j, p | OccursAt(text, other, j) && j <= p < j + |other|
      ensures text[p] == other[p - j]
    {
      CharOf(text, other, j, p);
    }
    forall j | j + |other| <= |before|
      ensures OccursAt(text, other, j) ==> GoesOn(before, other, j)
    {
      Within(before, tag + rest, other, j);
    }
  }

  /** The first tag of a text is where it was put. */
  lemma FirstTag(before: string, tag: string, rest: string)
    requires IsTag(tag) && Free(before, tag)
    ensures Find(before + tag + rest, tag) == |before|
    ensures (before + tag + rest)[..|before|] == before && (before + tag + rest)[|before| + |tag|..] == rest
  {
    NotAcross(before, tag, rest, tag);
    var text := before + tag + rest;
    assert text[|before|..|before| + |tag|] == tag;
    assert OccursAt(text, tag, |before|);
  }

  /** A tag that is not in the text in front of another one comes after it, if at all. */
  lemma OtherTag(before: string, tag: string, rest: string, other: string)
    requires IsTag(tag) && IsTag(other) && Free(before, other) && |tag| >= 2 && |other| >= 2 && tag[1] != other[1]
    ensures var at := Find(before + tag + rest, other); at < 0 || at > |before|
  {
    NotAcross(before, tag, rest, other);
    var text := before + tag + rest;
    assert text[|before| + 1] == tag[1];
    forall j | OccursAt(text, other, j)
      ensures text[j + 1] == other[1]
    {
      CharOf(text, other, j, j + 1);
    }
  }

  // ---------------------------------------------------------------------------------------------
  // Reasoning

  datatype Section =
    | Reasoned(before: string, reasoning: string)
    | Stray(before: string)

  datatype Ending =
    | Spoken(text: string)
    | Unterminated(before: string, reasoning: string)

  ghost predicate ValidSection(s: Section) {
    && Free(s.before, "<think>") && Free(s.before, "</think>")
    && (s.Reasoned? ==> Free(s.reasoning, "</think>"))
  }

  ghost predicate ValidEnding(e: Ending) {
    match e
    case Spoken(text) => Free(text, "<think>") && Free(text, "</think>")
    case Unterminated(before, reasoning) =>
      Free(before, "<think>") && Free(before, "</think>") && Free(reasoning, "</think>")
  }

  ghost predicate Valid(sections: seq<Section>, ending: Ending) {
    (forall s | s in sections :: ValidSection(s)) && ValidEnding(ending)
  }

  /** The response as the model wrote it. */
  function Written(sections: seq<Section>, ending: Ending): string {
    if sections == [] then
      match ending
      case Spoken(text) => text
      case Unterminated(before, reasoning) => before + "<think>" + reasoning
    else
      match sections[0]
      case Reasoned(before, reasoning) =>
        before + "<think>" + (reasoning + "</think>" + Written(sections[1..], ending))
      case Stray(before) => before + "</think>" + Written(sections[1..], ending)
  }

  /** What is not reasoning. */
  function Visible(sections: seq<Section>, ending: Ending): string {
    if sections == [] then (if ending.Spoken? then ending.text else ending.before)
    else sections[0].before + Visible(sections[1..], ending)
  }

  /** What is wrong with it, in order, when `chars` characters of reasoning came before. */
  function Faults(sections: seq<Section>, ending: Ending, chars: nat): seq<Thinking.Violation> {
    if sections == [] then
      match ending
      case Spoken(_) => []
      case Unterminated(_, reasoning) =>
        [Thinking.ReasoningEmitted] + Overflows(chars + |reasoning| - Unsure(reasoning))
        + [Thinking.UnterminatedReasoning]
    else
      match sections[0]
      case Reasoned(_, reasoning) =>
        [Thinking.ReasoningEmitted] + Overflows(chars + |reasoning|)
        + Faults(sections[1..], ending, chars + |reasoning|)
      case Stray(_) => [Thinking.UnopenedReasoningClose] + Faults(sections[1..], ending, chars)
  }

  function Overflows(chars: int): seq<Thinking.Violation> {
    if chars > 32_768 then [Thinking.ReasoningOverflow] else []
  }

  /** How much of an unfinished block could still be the beginning of a tag. */
  function Unsure(reasoning: string): (n: nat)
    ensures n <= |reasoning|
  {
    Held(reasoning, ["<think>", "</think>"])
  }

  /** Each fault once, where it is first met. */
  function FirstMet(faults: seq<Thinking.Violation>): (once: seq<Thinking.Violation>)
    ensures forall v :: v in once <==> v in faults
    ensures forall i, j | 0 <= i < j < |once| :: once[i] != once[j]
  {
    if faults == [] then []
    else
      var init, last := faults[..|faults| - 1], faults[|faults| - 1];
      FirstMet(init) + if last in init then [] else [last]
  }

  lemma {:induction false} OneMoreFault(faults: seq<Thinking.Violation>, fault: Thinking.Violation)
    ensures Thinking.Record(FirstMet(faults), fault) == FirstMet(faults + [fault])
  {
    assert (faults + [fault])[..|faults|] == faults;
  }

  lemma {:induction false} OverflowFaults(m: Thinking.Mode, faults: seq<Thinking.Violation>, size: nat)
    requires m.violations == FirstMet(faults)
    ensures Thinking.Counted(m, size).violations == FirstMet(faults + Overflows(m.chars + size))
  {
    OneMoreFault(faults, Thinking.ReasoningOverflow);
    assert faults + [] == faults;
  }

  /** Where reading the response ends. */
  ghost predicate Reads(r: Thinking.Reading, sections: seq<Section>, ending: Ending, faults: seq<Thinking.Violation>) {
    && r.mode.inside == ending.Unterminated?
    && (ending.Spoken? ==> r.text + r.tail == Visible(sections, ending) && r.mode.violations == FirstMet(faults))
    && (ending.Unterminated? ==>
          && r.text == Visible(sections, ending) && r.tail == ending.reasoning
          && Thinking.Record(Thinking.Counted(r.mode, Released(r.tail, Thinking.TAGS)).violations,
                             Thinking.UnterminatedReasoning) == FirstMet(faults))
  }

  lemma {:induction false} SpokenReads(text: string, m: Thinking.Mode, faults: seq<Thinking.Violation>)
    requires ValidEnding(Spoken(text)) && !m.inside && m.violations == FirstMet(faults)
    ensures Reads(Thinking.Read(text, m), [], Spoken(text), faults + Faults([], Spoken(text), m.chars))
  {
    hide FirstMet, Free;
    FreeIs(text, "<think>");
    FreeIs(text, "</think>");
    assert faults + [] == faults && "" + text == text;
  }

  lemma {:induction false} UnterminatedReads(before: string, reasoning: string, m: Thinking.Mode,
                                             faults: seq<Thinking.Violation>)
    requires ValidEnding(Unterminated(before, reasoning)) && !m.inside && m.violations == FirstMet(faults)
    ensures Reads(Thinking.Read(before + "<think>" + reasoning, m), [], Unterminated(before, reasoning),
                  faults + Faults([], Unterminated(before, reasoning), m.chars))
  {
    OpenReads(before, reasoning, m);
    UnclosedReads(reasoning, Thinking.Mode(true, m.chars, Thinking.Record(m.violations, Thinking.ReasoningEmitted)));
    UnclosedFaults(before, reasoning, m, faults);
    hide Thinking.Read, FirstMet, Held, Released, Thinking.Record, Thinking.Counted, Faults, Free;
    assert before + "" == before;
  }

  lemma {:induction false} EndReads(ending: Ending, m: Thinking.Mode, faults: seq<Thinking.Violation>)
    requires ValidEnding(ending) && !m.inside && m.violations == FirstMet(faults)
    ensures Reads(Thinking.Read(Written([], ending), m), [], ending, faults + Faults([], ending, m.chars))
  {
    hide ValidEnding, Thinking.Read, FirstMet, Reads, Faults;
    match ending
    case Spoken(text) => SpokenReads(text, m, faults);
    case Unterminated(before, reasoning) => UnterminatedReads(before, reasoning, m, faults);
  }

  lemma {:induction false} UnclosedReads(reasoning: string, m: Thinking.Mode)
    requires Free(reasoning, "</think>") && m.inside
    ensures Thinking.Read(reasoning, m) == Thinking.Reading("", m, reasoning)
  {
    FreeIs(reasoning, "</think>");
  }

  lemma {:induction false} UnclosedFaults(before: string, reasoning: string, m: Thinking.Mode,
                                          faults: seq<Thinking.Violation>)
    requires m.violations == FirstMet(faults)
    ensures var open := Thinking.Mode(true, m.chars, Thinking.Record(m.violations, Thinking.ReasoningEmitted));
            Thinking.Record(Thinking.Counted(open, Released(reasoning, Thinking.TAGS)).violations,
                            Thinking.UnterminatedReasoning)
            == FirstMet(faults + Faults([], Unterminated(before, reasoning), m.chars))
  {
    hide FirstMet, Held, Thinking.Record;
    var open := Thinking.Mode(true, m.chars, Thinking.Record(m.violations, Thinking.ReasoningEmitted));
    var size := |reasoning| - Unsure(reasoning);
    OneMoreFault(faults, Thinking.ReasoningEmitted);
    OverflowFaults(open, faults + [Thinking.ReasoningEmitted], size);
    var all := faults + [Thinking.ReasoningEmitted] + Overflows(m.chars + size);
    OneMoreFault(all, Thinking.UnterminatedReasoning);
    assert all + [Thinking.UnterminatedReasoning] == faults + Faults([], Unterminated(before, reasoning), m.chars);
  }

  /** Reading up to an open tag. */
  lemma {:induction false} OpenReads(before: string, rest: string, m: Thinking.Mode)
    requires Free(before, "<think>") && Free(before, "</think>") && !m.inside
    ensures Thinking.Read(before + "<think>" + rest, m)
            == Thinking.Prepend(before, Thinking.Read(rest, Thinking.Mode(true, m.chars,
                                                        Thinking.Record(m.violations, Thinking.ReasoningEmitted))))
  {
    FirstTag(before, "<think>", rest);
    OtherTag(before, "<think>", rest, "</think>");
  }

  /** Reading up to a close tag. */
  lemma {:induction false} CloseReads(before: string, rest: string, m: Thinking.Mode)
    requires Free(before, "</think>") && (!m.inside ==> Free(before, "<think>"))
    ensures Thinking.Read(before + "</think>" + rest, m)
            == if m.inside then
                 Thinking.Prepend("", Thinking.Read(rest, Thinking.Counted(m, |before|).(inside := false)))
               else
                 Thinking.Prepend(before, Thinking.Read(rest, m.(violations :=
                                                                   Thinking.Record(m.violations,
                                                                                   Thinking.UnopenedReasoningClose))))
  {
    FirstTag(before, "</think>", rest);
    if !m.inside {
      OtherTag(before, "</think>", rest, "<think>");
    }
  }

  /** Text in front of what has been read. */
  lemma ReadsAfter(before: string, r: Thinking.Reading, sections: seq<Section>, ending: Ending, head: Section,
                   faults: seq<Thinking.Violation>)
    requires Reads(r, sections, ending, faults) && head.before == before
    ensures Reads(Thinking.Prepend(before, r), [head] + sections, ending, faults)
  {
    hide FirstMet;
    assert ([head] + sections)[1..] == sections;
    assert ending.Spoken? ==> before + (r.text + r.tail) == (before + r.text) + r.tail;
  }

  lemma SectionReads(head: Section, rest: string, m: Thinking.Mode, faults: seq<Thinking.Violation>)
    requires ValidSection(head) && !m.inside && m.violations == FirstMet(faults)
    ensures match head
            case Reasoned(before, reasoning) =>
              var all := faults + [Thinking.ReasoningEmitted] + Overflows(m.chars + |reasoning|);
              Thinking.Read(before + "<think>" + (reasoning + "</think>" + rest), m)
              == Thinking.Prepend(before,
                                  Thinking.Read(rest, Thinking.Mode(false, m.chars + |reasoning|, FirstMet(all))))
            case Stray(before) =>
              Thinking.Read(before + "</think>" + rest, m)
              == Thinking.Prepend(before, Thinking.Read(rest, Thinking.Mode(false, m.chars,
                                                          FirstMet(faults + [Thinking.UnopenedReasoningClose]))))
  {
    hide FirstMet, Thinking.Read, Thinking.Record;
    match head
    case Reasoned(before, reasoning) =>
      var open := Thinking.Mode(true, m.chars, Thinking.Record(m.violations, Thinking.ReasoningEmitted));
      OneMoreFault(faults, Thinking.ReasoningEmitted);
      OverflowFaults(open, faults + [Thinking.ReasoningEmitted], |reasoning|);
      OpenReads(before, reasoning + "</think>" + rest, m);
      CloseReads(reasoning, rest, open);
      PrependNothing(Thinking.Read(rest, Thinking.Counted(open, |reasoning|).(inside := false)));
    case Stray(before) =>
      OneMoreFault(faults, Thinking.UnopenedReasoningClose);
      CloseReads(before, rest, m);
  }

  lemma PrependNothing(r: Thinking.Reading)
    ensures Thinking.Prepend("", r) == r
  {
    assert "" + r.text == r.text;
  }

  /** The faults of the first section. */
  function FirstFaults(head: Section, chars: nat): seq<Thinking.Violation> {
    match head
    case Reasoned(_, reasoning) => [Thinking.ReasoningEmitted] + Overflows(chars + |reasoning|)
    case Stray(_) => [Thinking.UnopenedReasoningClose]
  }

  function CharsAfter(head: Section, chars: nat): nat {
    chars + if head.Reasoned? then |head.reasoning| else 0
  }

  lemma {:induction false} FaultsOn(head: Section, rest: seq<Section>, ending: Ending, chars: nat,
                                    faults: seq<Thinking.Violation>)
    ensures (faults + FirstFaults(head, chars)) + Faults(rest, ending, CharsAfter(head, chars))
            == faults + Faults([head] + rest, ending, chars)
  {
    assert ([head] + rest)[1..] == rest;
  }

  lemma {:induction false} FirstRead(head: Section, rest: seq<Section>, ending: Ending, m: Thinking.Mode,
                                     faults: seq<Thinking.Violation>)
    requires ValidSection(head) && !m.inside && m.violations == FirstMet(faults)
    ensures Thinking.Read(Written([head] + rest, ending), m)
            == Thinking.Prepend(head.before,
                                Thinking.Read(Written(rest, ending),
                                              Thinking.Mode(false, CharsAfter(head, m.chars),
                                                            FirstMet(faults + FirstFaults(head, m.chars)))))
  {
    hide FirstMet, Thinking.Read, ValidSection;
    SectionReads(head, Written(rest, ending), m, faults);
    assert ([head] + rest)[1..] == rest;
    if head.Reasoned? {
      assert faults + [Thinking.ReasoningEmitted] + Overflows(m.chars + |head.reasoning|)
             == faults + FirstFaults(head, m.chars);
    }
  }

  /** Reading a response leaves what it says behind. */
  lemma {:induction false} WrittenReads(sections: seq<Section>, ending: Ending, m: Thinking.Mode,
                                        faults: seq<Thinking.Violation>)
    requires Valid(sections, ending) && !m.inside && m.violations == FirstMet(faults)
    ensures Reads(Thinking.Read(Written(sections, ending), m), sections, ending,
                  faults + Faults(sections, ending, m.chars))
  {
    if sections == [] {
      EndReads(ending, m, faults);
    } else {
      hide FirstMet, Thinking.Read, Reads, ValidSection, ValidEnding, Written, Faults, FirstFaults, CharsAfter;
      var head, rest := sections[0], sections[1..];
      assert ValidSection(head) && sections == [head] + rest;
      var all := faults + FirstFaults(head, m.chars);
      var next := Thinking.Mode(false, CharsAfter(head, m.chars), FirstMet(all));
      FirstRead(head, rest, ending, m, faults);
      WrittenReads(rest, ending, next, all);
      FaultsOn(head, rest, ending, m.chars, faults);
      ReadsAfter(head.before, Thinking.Read(Written(rest, ending), next), rest, ending, head,
                 all + Faults(rest, ending, next.chars));
    }
  }

  /** The filter's reader gets the visible text of the response and each of its faults once. */
  lemma {:induction false} StripMeans(sections: seq<Section>, ending: Ending)
    requires Valid(sections, ending)
    ensures Thinking.Strip(Written(sections, ending))
            == Thinking.Stripped(Visible(sections, ending), FirstMet(Faults(sections, ending, 0)))
  {
    WrittenReads(sections, ending, Thinking.OUTSET, []);
    assert [] + Faults(sections, ending, 0) == Faults(sections, ending, 0);
  }

  /** Free text has free parts. */
  lemma PartFree(text: string, tag: string, n: nat)
    requires n <= |text| && (Find(text, tag) < 0 || Find(text, tag) >= n) && tag != ""
    ensures Free(text[..n], tag)
  {
    FreeIs(text[..n], tag);
    assert text == text[..n] + text[n..];
    OccursInLonger(text[..n], text[n..], tag, Find(text[..n], tag));
  }

  lemma SplitAt(text: string, tag: string, at: nat)
    requires OccursAt(text, tag, at)
    ensures text == text[..at] + tag + text[at + |tag|..]
  {
    assert text[at..at + |tag|] == tag;
  }

  /** Every text is a response. */
  lemma {:induction false} EveryResponse(text: string) returns (sections: seq<Section>, ending: Ending)
    ensures Valid(sections, ending) && Written(sections, ending) == text
    decreases |text|
  {
    var open, close := Find(text, "<think>"), Find(text, "</think>");
    if open < 0 && close < 0 {
      FreeIs(text, "<think>");
      FreeIs(text, "</think>");
      return [], Spoken(text);
    }
    if open >= 0 && (close < 0 || open < close) {
      PartFree(text, "<think>", open);
      PartFree(text, "</think>", open);
      SplitAt(text, "<think>", open);
      var before, inner := text[..open], text[open + 7..];
      var end := Find(inner, "</think>");
      if end < 0 {
        FreeIs(inner, "</think>");
        return [], Unterminated(before, inner);
      }
      PartFree(inner, "</think>", end);
      SplitAt(inner, "</think>", end);
      var rest;
      rest, ending := EveryResponse(inner[end + 8..]);
      sections := [Reasoned(before, inner[..end])] + rest;
      assert sections[1..] == rest;
    } else {
      PartFree(text, "<think>", close);
      PartFree(text, "</think>", close);
      SplitAt(text, "</think>", close);
      var rest;
      rest, ending := EveryResponse(text[close + 8..]);
      sections := [Stray(text[..close])] + rest;
      assert sections[1..] == rest;
    }
  }

  /** One block of reasoning is removed. */
  lemma ReasoningIsRemoved(a: string, reasoning: string, b: string)
    requires Free(a, "<think>") && Free(a, "</think>") && Free(b, "<think>") && Free(b, "</think>")
    requires Free(reasoning, "</think>") && |reasoning| <= 32_768
    ensures Thinking.Strip(a + "<think>" + (reasoning + "</think>" + b))
            == Thinking.Stripped(a + b, [Thinking.ReasoningEmitted])
  {
    var sections := [Reasoned(a, reasoning)];
    assert sections[1..] == [];
    assert forall s | s in sections :: ValidSection(s);
    StripMeans(sections, Spoken(b));
    assert Faults(sections, Spoken(b), 0) == [Thinking.ReasoningEmitted];
    OneMoreFault([], Thinking.ReasoningEmitted);
    assert [] + [Thinking.ReasoningEmitted] == [Thinking.ReasoningEmitted];
  }

  // ---------------------------------------------------------------------------------------------
  // Tool blocks

  datatype Block = Block(before: string, body: string)

  datatype Rest =
    | Said(text: string)
    | Unclosed(before: string, body: string)

  ghost predicate ValidTranscript(blocks: seq<Block>, rest: Rest) {
    && (forall b | b in blocks :: Free(b.before, "<tool_call>") && Free(b.body, "</tool_call>"))
    && (match rest
        case Said(text) => Free(text, "<tool_call>")
        case Unclosed(before, body) => Free(before, "<tool_call>") && Free(body, "</tool_call>"))
  }

  function Transcript(blocks: seq<Block>, rest: Rest): string {
    if blocks == [] then
      match rest
      case Said(text) => text
      case Unclosed(before, body) => before + "<tool_call>" + body
    else
      blocks[0].before + "<tool_call>" + (blocks[0].body + "</tool_call>" + Transcript(blocks[1..], rest))
  }

  /** What is not in a block. */
  function Speech(blocks: seq<Block>, rest: Rest): string {
    if blocks == [] then (if rest.Said? then rest.text else rest.before)
    else blocks[0].before + Speech(blocks[1..], rest)
  }

  /** One call a block, and a malformed one for a block that never closes. */
  function Calls(blocks: seq<Block>, rest: Rest, parse: Tools.Parser): seq<Tools.ToolCall> {
    if blocks == [] then (if rest.Said? then [] else [Tools.ToolCall("", "", true)])
    else [parse(blocks[0].body)] + Calls(blocks[1..], rest, parse)
  }

  lemma {:induction false} OpenLifts(before: string, rest: string, parse: Tools.Parser)
    requires Free(before, "<tool_call>")
    ensures Tools.Lift(before + "<tool_call>" + rest, false, parse)
            == Tools.Then(Tools.Lifted(before, []), Tools.Lift(rest, true, parse))
  {
    FirstTag(before, "<tool_call>", rest);
  }

  lemma {:induction false} CloseLifts(body: string, rest: string, parse: Tools.Parser)
    requires Free(body, "</tool_call>")
    ensures Tools.Lift(body + "</tool_call>" + rest, true, parse)
            == Tools.Then(Tools.Lifted("", [parse(body)]), Tools.Lift(rest, false, parse))
  {
    FirstTag(body, "</tool_call>", rest);
  }

  lemma {:induction false} UnclosedLifts(body: string, parse: Tools.Parser)
    requires Free(body, "</tool_call>")
    ensures Tools.Lift(body, true, parse) == Tools.Lifted("", [Tools.ToolCall("", "", true)])
  {
    FreeIs(body, "</tool_call>");
  }

  lemma {:induction false} SaidLifts(text: string, parse: Tools.Parser)
    requires Free(text, "<tool_call>")
    ensures Tools.Lift(text, false, parse) == Tools.Lifted(text, [])
  {
    FreeIs(text, "<tool_call>");
  }

  /** The listener hears what is not in a block, and every block is parsed, in order. */
  lemma {:induction false} LiftMeans(blocks: seq<Block>, rest: Rest, parse: Tools.Parser)
    requires ValidTranscript(blocks, rest)
    ensures Tools.Lift(Transcript(blocks, rest), false, parse)
            == Tools.Lifted(Speech(blocks, rest), Calls(blocks, rest, parse))
  {
    hide Tools.Lift, Free;
    if blocks == [] {
      match rest
      case Said(text) => SaidLifts(text, parse);
      case Unclosed(before, body) =>
        OpenLifts(before, body, parse);
        UnclosedLifts(body, parse);
        assert before + "" == before;
    } else {
      var head, more := blocks[0], blocks[1..];
      LiftMeans(more, rest, parse);
      OpenLifts(head.before, head.body + "</tool_call>" + Transcript(more, rest), parse);
      CloseLifts(head.body, Transcript(more, rest), parse);
      assert head.before + ("" + Speech(more, rest)) == Speech(blocks, rest);
      assert [] + ([parse(head.body)] + Calls(more, rest, parse)) == Calls(blocks, rest, parse);
    }
  }

  /** Every text is a transcript. */
  lemma {:induction false} EveryTranscript(text: string) returns (blocks: seq<Block>, rest: Rest)
    ensures ValidTranscript(blocks, rest) && Transcript(blocks, rest) == text
    decreases |text|
  {
    var open := Find(text, "<tool_call>");
    if open < 0 {
      FreeIs(text, "<tool_call>");
      return [], Said(text);
    }
    PartFree(text, "<tool_call>", open);
    SplitAt(text, "<tool_call>", open);
    var before, inner := text[..open], text[open + 11..];
    var close := Find(inner, "</tool_call>");
    if close < 0 {
      FreeIs(inner, "</tool_call>");
      return [], Unclosed(before, inner);
    }
    PartFree(inner, "</tool_call>", close);
    SplitAt(inner, "</tool_call>", close);
    var more;
    more, rest := EveryTranscript(inner[close + 12..]);
    blocks := [Block(before, inner[..close])] + more;
    assert blocks[1..] == more;
  }
}
