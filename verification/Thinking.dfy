/**
 Fail-closed removal of reasoning from a response stream.

 `Read` is the reference: it reads the whole response at once and never holds anything back.
 `ThinkingFilter` sees the response in chunks. `FilterRefinesRead` says that after any chunks its entire
 state, and everything it has released, is a function of the concatenated text alone.
 */
module Thinking {
  import opened Text
  import opened TagScan
  import opened Wrappers

  const THINK_OPEN := "<think>"
  const THINK_CLOSE := "</think>"
  const TAGS := [THINK_OPEN, THINK_CLOSE]
  const MAX_REASONING_CHARS: nat := 32 * 1024

  datatype Violation = ReasoningEmitted | UnopenedReasoningClose | UnterminatedReasoning | ReasoningOverflow

  /** Every violation is listed once, in the order in which it was first seen. */
  function Record(violations: seq<Violation>, violation: Violation): (r: seq<Violation>)
    ensures violation in r
    ensures forall v :: v in r <==> v in violations || v == violation
  {
    if violation in violations then violations else violations + [violation]
  }

  function CheckOverflow(violations: seq<Violation>, chars: nat): seq<Violation> {
    if chars > MAX_REASONING_CHARS then Record(violations, ReasoningOverflow) else violations
  }

  // ---------------------------------------------------------------------------------------------
  // The reference

  /** Inside a reasoning block or not, the reasoning characters counted, the violations recorded. */
  datatype Mode = Mode(inside: bool, chars: nat, violations: seq<Violation>)

  const OUTSET := Mode(false, 0, [])

  function Counted(m: Mode, size: nat): Mode {
    m.(chars := m.chars + size, violations := CheckOverflow(m.violations, m.chars + size))
  }

  /** The next tag that means something in this mode: where it starts, where reading resumes, and how. */
  datatype Cut = NoCut | Cut(at: nat, resume: nat, mode: Mode)

  function NextCut(text: string, m: Mode): (c: Cut)
    ensures c.Cut? ==> c.at < c.resume <= |text|
  {
    var open, close := Find(text, THINK_OPEN), Find(text, THINK_CLOSE);
    if m.inside then
      if close >= 0 then Cut(close, close + |THINK_CLOSE|, Counted(m, close).(inside := false)) else NoCut
    else if open >= 0 && (close < 0 || open < close) then
      Cut(open, open + |THINK_OPEN|, Mode(true, m.chars, Record(m.violations, ReasoningEmitted)))
    else if close >= 0 then
      Cut(close, close + |THINK_CLOSE|, m.(violations := Record(m.violations, UnopenedReasoningClose)))
    else
      NoCut
  }

  /** What the text in front of a cut contributes to the output. */
  function Shown(text: string, m: Mode): string {
    if m.inside then "" else text
  }

  /** A response read as a whole: the visible text up to the last tag, the mode after it, and the text after it. */
  datatype Reading = Reading(text: string, mode: Mode, tail: string)

  function Prepend(before: string, r: Reading): Reading {
    r.(text := before + r.text)
  }

  function Read(text: string, m: Mode): Reading
    decreases |text|
  {
    match NextCut(text, m)
    case NoCut => Reading("", m, text)
    case Cut(at, resume, mode) => Prepend(Shown(text[..at], m), Read(text[resume..], mode))
  }

  /** What the reader of a complete response gets: no reasoning, and every violation. */
  datatype Stripped = Stripped(text: string, violations: seq<Violation>)

  function Strip(text: string): Stripped {
    var r := Read(text, OUTSET);
    if r.mode.inside then
      Stripped(r.text, Record(Counted(r.mode, Released(r.tail, TAGS)).violations, UnterminatedReasoning))
    else
      Stripped(r.text + r.tail, r.mode.violations)
  }

  // ---------------------------------------------------------------------------------------------
  // The incremental filter, as a function on its fields

  datatype Filter = Filter(pending: string, inside: bool, reasoningChars: nat, violations: seq<Violation>)

  const START := Filter("", false, 0, [])

  function CountReasoning(f: Filter, size: nat): Filter {
    f.(reasoningChars := f.reasoningChars + size, violations := CheckOverflow(f.violations, f.reasoningChars + size))
  }

  datatype Pass = Pass(filter: Filter, visible: string, again: bool)

  function PassVisible(f: Filter): (p: Pass)
    ensures p.again ==> |p.filter.pending| < |f.pending|
  {
    var open, close := Find(f.pending, THINK_OPEN), Find(f.pending, THINK_CLOSE);
    if open >= 0 && (close < 0 || open < close) then
      Pass(Filter(f.pending[open + |THINK_OPEN|..], true, f.reasoningChars, Record(f.violations, ReasoningEmitted)),
           f.pending[..open], true)
    else if close >= 0 then
      Pass(f.(pending := f.pending[close + |THINK_CLOSE|..],
              violations := Record(f.violations, UnopenedReasoningClose)),
           f.pending[..close], true)
    else
      Pass(f.(pending := HeldPart(f.pending, TAGS)), f.pending[..Released(f.pending, TAGS)], false)
  }

  function PassReasoning(f: Filter): (p: Pass)
    ensures p.again ==> |p.filter.pending| < |f.pending|
  {
    var close := Find(f.pending, THINK_CLOSE);
    if close >= 0 then
      Pass(CountReasoning(f, close).(pending := f.pending[close + |THINK_CLOSE|..], inside := false), "", true)
    else
      Pass(CountReasoning(f, Released(f.pending, TAGS)).(pending := HeldPart(f.pending, TAGS)), "", false)
  }

  function OnePass(f: Filter): (p: Pass)
    ensures p.again ==> |p.filter.pending| < |f.pending|
  {
    if f.inside then PassReasoning(f) else PassVisible(f)
  }

  datatype Fed = Fed(filter: Filter, text: string)

  function Drain(f: Filter): Fed
    decreases |f.pending|
  {
    var p := OnePass(f);
    if p.again then
      var rest := Drain(p.filter);
      Fed(rest.filter, p.visible + rest.text)
    else
      Fed(p.filter, p.visible)
  }

  lemma {:induction false} DrainOnce(f: Filter)
    ensures var p := OnePass(f);
            Drain(f) == if p.again then Fed(Drain(p.filter).filter, p.visible + Drain(p.filter).text)
                        else Fed(p.filter, p.visible)
  {
    hide OnePass;
  }

  function FeedChunk(f: Filter, text: string): Fed {
    Drain(f.(pending := f.pending + text))
  }

  /** Flush a held-back partial tag; discard an unterminated reasoning block. */
  function Flush(f: Filter): Stripped {
    if f.inside then Stripped("", Record(f.violations, UnterminatedReasoning)) else Stripped(f.pending, f.violations)
  }

  /** The chunks fed one after the other to a new filter: its last state and everything it let through. */
  function Run(chunks: seq<string>): Fed {
    if chunks == [] then Fed(START, "")
    else
      var before := Run(chunks[..|chunks| - 1]);
      var last := FeedChunk(before.filter, chunks[|chunks| - 1]);
      Fed(last.filter, before.text + last.text)
  }

  // ---------------------------------------------------------------------------------------------
  // What holding back means, in terms of the reference

  function With(m: Mode, pending: string): Filter {
    Filter(pending, m.inside, m.chars, m.violations)
  }

  /** Reasoning that is not held back has been counted. */
  function HeldMode(m: Mode, tail: string): (held: Mode)
    ensures held.inside == m.inside
  {
    if m.inside then Counted(m, Released(tail, TAGS)) else m
  }

  /** The state of a filter that has read `r`: of the text after the last tag it keeps only the held suffix. */
  function StateOf(r: Reading): Filter {
    With(HeldMode(r.mode, r.tail), HeldPart(r.tail, TAGS))
  }

  /** Everything visible has been let through except the held suffix. */
  function LetThrough(r: Reading): string {
    r.text + Shown(r.tail[..Released(r.tail, TAGS)], r.mode)
  }

  lemma {:induction false} ReadLeavesNoTag(text: string, m: Mode)
    ensures var r := Read(text, m); NextCut(r.tail, r.mode).NoCut?
    decreases |text|
  {
    hide NextCut;
    match NextCut(text, m)
    case NoCut =>
    case Cut(_, resume, mode) => ReadLeavesNoTag(text[resume..], mode);
  }

  /** A cut that has been found is not moved by more text: no other tag can slip in front of it. */
  lemma CutStable(text: string, more: string, m: Mode)
    requires NextCut(text, m).Cut?
    ensures NextCut(text + more, m) == NextCut(text, m)
  {
    hide Find;
    var open, close := Find(text, THINK_OPEN), Find(text, THINK_CLOSE);
    var open', close' := Find(text + more, THINK_OPEN), Find(text + more, THINK_CLOSE);
    if open >= 0 {
      FindStable(text, more, THINK_OPEN);
      assert text[open + 1] == THINK_OPEN[1];
    }
    if close >= 0 {
      FindStable(text, more, THINK_CLOSE);
      assert text[close + 1] == THINK_CLOSE[1];
    }
    if close' >= 0 && close' + |THINK_CLOSE| <= |text| {
      assert (text + more)[close'..close' + |THINK_CLOSE|] == text[close'..close' + |THINK_CLOSE|];
      assert OccursAt(text, THINK_CLOSE, close');
    }
    if open' >= 0 && open' + |THINK_OPEN| <= |text| {
      assert (text + more)[open'..open' + |THINK_OPEN|] == text[open'..open' + |THINK_OPEN|];
      assert OccursAt(text, THINK_OPEN, open');
    }
    if open' >= 0 { assert (text + more)[open' + 1] == THINK_OPEN[1]; }
    if close' >= 0 { assert (text + more)[close' + 1] == THINK_CLOSE[1]; }
  }

  lemma PrependTwice(a: string, b: string, r: Reading)
    ensures Prepend(a, Prepend(b, r)) == Prepend(a + b, r)
  {
    assert a + (b + r.text) == (a + b) + r.text;
  }

  /** Reading on is reading the text after the last tag together with what follows. */
  lemma {:induction false} ReadOn(text: string, more: string, m: Mode)
    ensures var r := Read(text, m);
            Read(text + more, m) == Prepend(r.text, Read(r.tail + more, r.mode))
    decreases |text|
  {
    hide NextCut;
    match NextCut(text, m)
    case NoCut =>
    case Cut(at, resume, mode) =>
      CutStable(text, more, m);
      var rest := text[resume..];
      assert (text + more)[resume..] == rest + more;
      assert (text + more)[..at] == text[..at];
      ReadOn(rest, more, mode);
      var r := Read(rest, mode);
      PrependTwice(Shown(text[..at], m), r.text, Read(r.tail + more, r.mode));
  }

  /** The cut found by a filter that kept only the held suffix is the cut of the whole text, shifted. */
  lemma CutAcross(tail: string, more: string, m: Mode)
    requires NextCut(tail, m).NoCut?
    ensures var dropped := Released(tail, TAGS);
            var c, d := NextCut(tail + more, m), NextCut(HeldPart(tail, TAGS) + more, HeldMode(m, tail));
            match c
            case NoCut => d.NoCut?
            case Cut(at, resume, mode) => at >= dropped && d == Cut(at - dropped, resume - dropped, mode)
  {
    hide Find, Held, HeldPart, Released, OccursAt;
    FindAcross(tail, more, THINK_CLOSE, TAGS);
    if !m.inside {
      FindAcross(tail, more, THINK_OPEN, TAGS);
    }
  }

  /** One pass of the filter, in terms of the cut it finds. */
  lemma OnePassIsCut(f: Filter, m: Mode)
    requires f == With(m, f.pending)
    ensures var p := OnePass(f);
            match NextCut(f.pending, m)
            case NoCut => p == Pass(StateOf(Reading("", m, f.pending)), LetThrough(Reading("", m, f.pending)), false)
            case Cut(at, resume, mode) => p == Pass(With(mode, f.pending[resume..]), Shown(f.pending[..at], m), true)
  {
    hide Find, Held, HeldPart, Released, OccursAt;
  }

  lemma CountedTwice(m: Mode, a: nat, b: nat)
    ensures Counted(Counted(m, a), b) == Counted(m, a + b)
  {
  }

  /** Draining a filter is reading its pending text. */
  lemma {:induction false} DrainIsRead(f: Filter, m: Mode)
    requires f == With(m, f.pending)
    ensures var r := Read(f.pending, m);
            Drain(f) == Fed(StateOf(r), LetThrough(r))
    decreases |f.pending|
  {
    hide NextCut, OnePass, StateOf, LetThrough;
    OnePassIsCut(f, m);
    match NextCut(f.pending, m)
    case NoCut =>
    case Cut(at, resume, mode) =>
      DrainIsRead(With(mode, f.pending[resume..]), mode);
      PrependRead(Shown(f.pending[..at], m), Read(f.pending[resume..], mode));
  }

  lemma PrependRead(before: string, r: Reading)
    ensures StateOf(Prepend(before, r)) == StateOf(r)
    ensures LetThrough(Prepend(before, r)) == before + LetThrough(r)
  {
  }

  /** What was let through before a cut and what is shown in front of it make up the text in front of it. */
  lemma ShownInTwo(tail: string, more: string, m: Mode, at: nat)
    requires Released(tail, TAGS) <= at <= |tail + more|
    ensures var dropped := Released(tail, TAGS);
            var part := HeldPart(tail, TAGS) + more;
            Shown(tail[..dropped], m) + Shown(part[..at - dropped], HeldMode(m, tail)) == Shown((tail + more)[..at], m)
  {
    hide Held, HeldPart, Released, HeldMode;
    var dropped, part := Released(tail, TAGS), HeldPart(tail, TAGS) + more;
    assert tail[..dropped] + part[..at - dropped] == (tail + more)[..at];
  }

  /** Holding back twice is holding back once. */
  lemma HeldTwice(tail: string, more: string, m: Mode)
    ensures var part := HeldPart(tail, TAGS) + more;
            StateOf(Reading("", HeldMode(m, tail), part)) == StateOf(Reading("", m, tail + more))
  {
    hide Held, HeldPart, Released, Counted;
    HeldOfRetained(tail, more, TAGS);
    CountedTwice(m, Released(tail, TAGS), Released(HeldPart(tail, TAGS) + more, TAGS));
  }

  /** The filter, which kept only the held suffix of the tail, has kept up with the reference, which kept all of it. */
  ghost predicate FedInStep(tail: string, more: string, m: Mode) {
    var r, next, fed := Reading("", m, tail), Read(tail + more, m), FeedChunk(StateOf(Reading("", m, tail)), more);
    fed.filter == StateOf(next) && LetThrough(r) + fed.text == LetThrough(next)
  }

  lemma FeedWithoutCut(tail: string, more: string, m: Mode)
    requires NextCut(tail, m).NoCut? && NextCut(tail + more, m).NoCut?
    ensures FedInStep(tail, more, m)
  {
    hide NextCut, Counted, Shown, HeldPart, Held, HeldMode, Released, Drain;
    var held, part := HeldMode(m, tail), HeldPart(tail, TAGS) + more;
    DrainIsRead(With(held, part), held);
    CutAcross(tail, more, m);
    HeldTwice(tail, more, m);
    HeldOfRetained(tail, more, TAGS);
    ShownInTwo(tail, more, m, Released(tail + more, TAGS));
  }

  lemma FeedPastCut(tail: string, more: string, m: Mode)
    requires NextCut(tail, m).NoCut? && NextCut(tail + more, m).Cut?
    ensures FedInStep(tail, more, m)
  {
    hide NextCut, Counted, Shown, HeldPart, Held, HeldMode, Released, Drain, StateOf, LetThrough, Prepend;
    var dropped, held := Released(tail, TAGS), HeldMode(m, tail);
    var whole, part := tail + more, HeldPart(tail, TAGS) + more;
    var Cut(at, resume, mode) := NextCut(whole, m);
    StateBetween(tail, m);
    DrainIsRead(With(held, part), held);
    CutAcross(tail, more, m);
    assert part[resume - dropped..] == whole[resume..];
    ShownInTwo(tail, more, m, at);
    var rest := Read(whole[resume..], mode);
    PrependRead(Shown(whole[..at], m), rest);
    PrependRead(Shown(part[..at - dropped], held), rest);
  }

  lemma StateBetween(tail: string, m: Mode)
    ensures StateOf(Reading("", m, tail)) == With(HeldMode(m, tail), HeldPart(tail, TAGS))
    ensures LetThrough(Reading("", m, tail)) == Shown(tail[..Released(tail, TAGS)], m)
  {
    hide Held, HeldPart, HeldMode, Released;
  }

  // ---------------------------------------------------------------------------------------------
  // Main results

  /** A filter that has kept up with the reference keeps up for one more chunk. */
  lemma {:induction false} FeedRefinesRead(text: string, more: string, m: Mode)
    ensures var r, next := Read(text, m), Read(text + more, m);
            var fed := FeedChunk(StateOf(r), more);
            fed.filter == StateOf(next) && LetThrough(r) + fed.text == LetThrough(next)
  {
    hide NextCut, StateOf, LetThrough, FeedChunk, Read;
    var r := Read(text, m);
    ReadLeavesNoTag(text, m);
    ReadOn(text, more, m);
    var after, next := Reading("", r.mode, r.tail), Read(r.tail + more, r.mode);
    if NextCut(r.tail + more, r.mode).NoCut? {
      FeedWithoutCut(r.tail, more, r.mode);
    } else {
      FeedPastCut(r.tail, more, r.mode);
    }
    assert r == Prepend(r.text, after);
    PrependRead(r.text, after);
    PrependRead(r.text, next);
    var fed := FeedChunk(StateOf(after), more);
    assert (r.text + LetThrough(after)) + fed.text == r.text + (LetThrough(after) + fed.text);
  }

  /** However the response was cut, the filter's state and output are those of the reference on the whole text. */
  lemma {:induction false} FilterRefinesRead(chunks: seq<string>)
    ensures var r := Read(Join(chunks), OUTSET);
            Run(chunks) == Fed(StateOf(r), LetThrough(r))
  {
    if chunks == [] {
      assert NextCut("", OUTSET).NoCut?;
    } else {
      hide NextCut, StateOf, LetThrough, FeedChunk, Read;
      var init, last := chunks[..|chunks| - 1], chunks[|chunks| - 1];
      FilterRefinesRead(init);
      FeedRefinesRead(Join(init), last, OUTSET);
    }
  }

  /** After every feed at most seven characters are held back; everything else has been released or counted. */
  lemma {:induction false} PendingIsShort(chunks: seq<string>)
    ensures var f := Run(chunks).filter;
            |f.pending| <= 7 && f.pending == HeldPart(Read(Join(chunks), OUTSET).tail, TAGS)
  {
    FilterRefinesRead(chunks);
    HeldIsShort(Read(Join(chunks), OUTSET).tail, TAGS);
    LongestTag();
    hide Run, Read, Held, MaxLength;
  }

  lemma {:induction false} DrainShort(f: Filter)
    ensures |Drain(f).text| <= |f.pending|
    decreases |f.pending|
  {
    PassShort(f);
    hide OnePass;
    if OnePass(f).again {
      DrainShort(OnePass(f).filter);
    }
  }

  lemma PassShort(f: Filter)
    ensures |OnePass(f).visible| + (if OnePass(f).again then |OnePass(f).filter.pending| else 0) <= |f.pending|
  {
    hide Held;
  }

  /** More text shows at most itself and the seven characters held back before. */
  lemma {:induction false} ShowsSlowly(text: string, more: string)
    ensures var before, after := LetThrough(Read(text, OUTSET)), LetThrough(Read(text + more, OUTSET));
            before <= after && |after| <= |before| + 7 + |more|
  {
    var f := StateOf(Read(text, OUTSET));
    FeedRefinesRead(text, more, OUTSET);
    PendingIsShort([text]);
    FilterRefinesRead([text]);
    DrainShort(f.(pending := f.pending + more));
    JoinSnoc([], text);
    assert [] + [text] == [text] && "" + text == text;
    hide Run, Read, LetThrough, Drain, StateOf;
  }

  /** At the end at most seven characters are still to be shown. */
  lemma {:induction false} EndsShort(text: string)
    ensures var shown := LetThrough(Read(text, OUTSET));
            shown <= Strip(text).text && |Strip(text).text| <= |shown| + 7
  {
    PendingIsShort([text]);
    FilterRefinesRead([text]);
    ThinkingChunkInvariant([text]);
    JoinSnoc([], text);
    assert [] + [text] == [text] && "" + text == text;
    hide Run, Read, LetThrough, Strip, HeldPart;
  }

  lemma LongestTag()
    ensures MaxLength(TAGS) == 8
  {
    var rest := TAGS[1..];
    assert rest == [THINK_CLOSE] && rest[1..] == [];
    assert MaxLength(rest[1..]) == 0;
    assert MaxLength(rest) == 8;
  }

  /** A finished response depends only on its text: reasoning is gone and every violation is recorded. */
  lemma {:induction false} ThinkingChunkInvariant(chunks: seq<string>)
    ensures var fed := Run(chunks);
            var end := Flush(fed.filter);
            Stripped(fed.text + end.text, end.violations) == Strip(Join(chunks))
  {
    hide Run, Read, Held, HeldPart, Released, CheckOverflow, Record, Join;
    FilterRefinesRead(chunks);
    var r := Read(Join(chunks), OUTSET);
    assert r.tail == r.tail[..Released(r.tail, TAGS)] + HeldPart(r.tail, TAGS);
  }

  // ---------------------------------------------------------------------------------------------
  // The class

  class ThinkingFilter {
    var pending: string
    var inside: bool
    var reasoningChars: nat
    var violations: seq<Violation>
    var closed: bool

    function View(): Filter
      reads this
    {
      Filter(pending, inside, reasoningChars, violations)
    }

    constructor ()
      ensures View() == START && !closed
    {
      pending, inside, reasoningChars, violations, closed := "", false, 0, [], false;
    }

    /** The visible part of the text and all violations so far; `None` when the filter is closed. */
    method Feed(text: string) returns (result: Option<Stripped>)
      modifies this
      ensures closed == old(closed)
      ensures closed ==> result == None && View() == old(View())
      ensures !closed ==> var fed := FeedChunk(old(View()), text);
                          View() == fed.filter && result == Some(Stripped(fed.text, fed.filter.violations))
    {
      hide OnePass, Drain;
      if closed {
        return None;
      }
      pending := pending + text;
      ghost var start := View();
      var visible, again := "", true;
      while again
        invariant closed == old(closed)
        invariant again ==> Drain(start) == Fed(Drain(View()).filter, visible + Drain(View()).text)
        invariant !again ==> Drain(start) == Fed(View(), visible)
        decreases again, |pending|
      {
        ghost var before, shown := View(), visible;
        DrainOnce(before);
        if inside {
          again := ConsumeReasoning();
          assert shown + "" == shown;
        } else {
          var piece;
          again, piece := ConsumeVisible();
          visible := visible + piece;
        }
        assert again ==> (shown + OnePass(before).visible) + Drain(View()).text
                         == shown + (OnePass(before).visible + Drain(View()).text);
      }
      result := Some(Stripped(visible, violations));
    }

    method Finish() returns (result: Stripped)
      modifies this
      ensures closed
      ensures result == Flush(old(View()))
      ensures View() == old(View()).(pending := "", violations := result.violations)
    {
      closed := true;
      if inside {
        AddViolation(UnterminatedReasoning);
        pending := "";
        return Stripped("", violations);
      }
      var tail := pending;
      pending := "";
      result := Stripped(tail, violations);
    }

    method Reset()
      modifies this
      ensures View() == START && !closed
    {
      pending, inside, reasoningChars, violations, closed := "", false, 0, [], false;
    }

    method ConsumeVisible() returns (again: bool, visible: string)
      requires !inside
      modifies this
      ensures closed == old(closed)
      ensures Pass(View(), visible, again) == OnePass(old(View()))
    {
      hide Find, Held, HeldPart, OccursAt;
      var openAt, closeAt := Find(pending, THINK_OPEN), Find(pending, THINK_CLOSE);
      if openAt >= 0 && (closeAt < 0 || openAt < closeAt) {
        visible := pending[..openAt];
        pending := pending[openAt + |THINK_OPEN|..];
        inside := true;
        AddViolation(ReasoningEmitted);
        return true, visible;
      }
      if closeAt >= 0 {
        visible := pending[..closeAt];
        pending := pending[closeAt + |THINK_CLOSE|..];
        AddViolation(UnopenedReasoningClose);
        return true, visible;
      }
      var held := HeldSuffix(pending, TAGS);
      var split := |pending| - held;
      visible := pending[..split];
      pending := pending[split..];
      again := false;
    }

    method ConsumeReasoning() returns (again: bool)
      requires inside
      modifies this
      ensures closed == old(closed)
      ensures Pass(View(), "", again) == OnePass(old(View()))
    {
      hide Find, Held, HeldPart, OccursAt;
      var closeAt := Find(pending, THINK_CLOSE);
      if closeAt >= 0 {
        CountReasoningChars(closeAt);
        pending := pending[closeAt + |THINK_CLOSE|..];
        inside := false;
        return true;
      }
      var held := HeldSuffix(pending, TAGS);
      var split := |pending| - held;
      CountReasoningChars(split);
      pending := pending[split..];
      again := false;
    }

    method CountReasoningChars(size: nat)
      modifies this
      ensures closed == old(closed)
      ensures View() == CountReasoning(old(View()), size)
    {
      reasoningChars := reasoningChars + size;
      if reasoningChars > MAX_REASONING_CHARS {
        AddViolation(ReasoningOverflow);
      }
    }

    method AddViolation(violation: Violation)
      modifies this`violations
      ensures violations == Record(old(violations), violation)
    {
      if violation !in violations {
        violations := violations + [violation];
      }
    }
  }
}
