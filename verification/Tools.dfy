/**
 Lifting tool-call blocks out of a text stream.

 `Lift` is the reference: it knows the whole text, never holds anything back and has no size bound.
 The extractor bounds a block, but tests the bound only while no close tag is pending; `ToolCuts` says
 exactly when the two agree. The parser of a block body is a parameter.
 */
module Tools {
  import opened Text
  import opened TagScan
  import opened Wrappers

  const TOOL_CALL_OPEN := "<tool_call>"
  const TOOL_CALL_CLOSE := "</tool_call>"
  const TAGS := [TOOL_CALL_OPEN, TOOL_CALL_CLOSE]
  const MAX_TOOL_BLOCK_CHARS: nat := 8 * 1024

  datatype ToolCall = ToolCall(name: string, arguments: string, malformed: bool)

  const MALFORMED := ToolCall("", "", true)

  type Parser = string -> ToolCall

  /** Text for the listener and the calls lifted out of it. */
  datatype Lifted = Lifted(text: string, calls: seq<ToolCall>)

  const NOTHING := Lifted("", [])

  function Then(a: Lifted, b: Lifted): Lifted {
    Lifted(a.text + b.text, a.calls + b.calls)
  }

  lemma ThenAssociates(a: Lifted, b: Lifted, c: Lifted)
    ensures Then(a, Then(b, c)) == Then(Then(a, b), c)
  {
    assert a.text + (b.text + c.text) == (a.text + b.text) + c.text;
    assert a.calls + (b.calls + c.calls) == (a.calls + b.calls) + c.calls;
  }

  lemma ThenNothing(a: Lifted)
    ensures Then(NOTHING, a) == a == Then(a, NOTHING)
  {
    assert "" + a.text == a.text == a.text + "";
    assert [] + a.calls == a.calls == a.calls + [];
  }

  // ---------------------------------------------------------------------------------------------
  // The reference

  /** The next tag that means something: where it starts and where the text goes on. */
  datatype Cut = NoCut | Cut(at: nat, resume: nat)

  function NextCut(text: string, inside: bool): (c: Cut)
    ensures c.Cut? ==> c.at < c.resume <= |text|
  {
    var tag := if inside then TOOL_CALL_CLOSE else TOOL_CALL_OPEN;
    var at := Find(text, tag);
    if at < 0 then NoCut else Cut(at, at + |tag|)
  }

  /** What the text up to a tag amounts to: outside a block it is spoken, inside it is parsed. */
  function Piece(text: string, inside: bool, parse: Parser): Lifted {
    if inside then Lifted("", [parse(text)]) else Lifted(text, [])
  }

  /** What the text after the last tag amounts to: a block that never closes is dropped and reported. */
  function LastPiece(text: string, inside: bool): Lifted {
    if inside then Lifted("", [MALFORMED]) else Lifted(text, [])
  }

  function Lift(text: string, inside: bool, parse: Parser): Lifted
    decreases |text|
  {
    match NextCut(text, inside)
    case NoCut => LastPiece(text, inside)
    case Cut(at, resume) => Then(Piece(text[..at], inside, parse), Lift(text[resume..], !inside, parse))
  }

  // ---------------------------------------------------------------------------------------------
  // The extractor, as a function on its fields

  datatype Extractor = Extractor(pending: string, block: string, inside: bool)

  const START := Extractor("", "", false)

  datatype Pass = Pass(extractor: Extractor, lifted: Lifted, again: bool)

  function PassVisible(x: Extractor): (p: Pass)
    ensures p.again ==> |p.extractor.pending| < |x.pending|
  {
    var open := Find(x.pending, TOOL_CALL_OPEN);
    if open >= 0 then
      Pass(Extractor(x.pending[open + |TOOL_CALL_OPEN|..], "", true), Lifted(x.pending[..open], []), true)
    else
      Pass(x.(pending := HeldPart(x.pending, TAGS)), Lifted(x.pending[..Released(x.pending, TAGS)], []), false)
  }

  function PassBlock(x: Extractor, parse: Parser): (p: Pass)
    ensures p.again ==>
              |p.extractor.pending| < |x.pending| || (|p.extractor.pending| <= |x.pending| && !p.extractor.inside)
  {
    var close := Find(x.pending, TOOL_CALL_CLOSE);
    if close >= 0 then
      Pass(Extractor(x.pending[close + |TOOL_CALL_CLOSE|..], "", false),
           Lifted("", [parse(x.block + x.pending[..close])]), true)
    else
      var block := x.block + x.pending[..Released(x.pending, TAGS)];
      var kept := HeldPart(x.pending, TAGS);
      if |block| > MAX_TOOL_BLOCK_CHARS then Pass(Extractor(kept, "", false), Lifted("", [MALFORMED]), true)
      else Pass(Extractor(kept, block, true), NOTHING, false)
  }

  function OnePass(x: Extractor, parse: Parser): (p: Pass)
    ensures p.again ==> |p.extractor.pending| < |x.pending|
                        || (|p.extractor.pending| <= |x.pending| && x.inside && !p.extractor.inside)
  {
    if x.inside then PassBlock(x, parse) else PassVisible(x)
  }

  datatype Fed = Fed(extractor: Extractor, lifted: Lifted)

  function Drain(x: Extractor, parse: Parser): Fed
    decreases |x.pending|, x.inside
  {
    var p := OnePass(x, parse);
    if p.again then
      var rest := Drain(p.extractor, parse);
      Fed(rest.extractor, Then(p.lifted, rest.lifted))
    else
      Fed(p.extractor, p.lifted)
  }

  function FeedChunk(x: Extractor, text: string, parse: Parser): Fed {
    Drain(x.(pending := x.pending + text), parse)
  }

  function Flush(x: Extractor): Lifted {
    LastPiece(x.pending, x.inside)
  }

  function Run(chunks: seq<string>, parse: Parser): Fed {
    if chunks == [] then Fed(START, NOTHING)
    else
      var before := Run(chunks[..|chunks| - 1], parse);
      var last := FeedChunk(before.extractor, chunks[|chunks| - 1], parse);
      Fed(last.extractor, Then(before.lifted, last.lifted))
  }

  /** The chunks, then the end of the stream. */
  function Extract(chunks: seq<string>, parse: Parser): Lifted {
    var fed := Run(chunks, parse);
    Then(fed.lifted, Flush(fed.extractor))
  }

  // ---------------------------------------------------------------------------------------------
  // What an extractor keeps

  /** Everything seen since the last tag that has not been let through. */
  function Seen(x: Extractor): string {
    if x.inside then x.block + x.pending else x.pending
  }

  function Fresh(text: string, inside: bool): Extractor {
    Extractor(text, "", inside)
  }

  /** Between feeds exactly the held suffix of what was seen is pending, and no relevant tag is in it. */
  ghost predicate Stable(x: Extractor) {
    && NextCut(Seen(x), x.inside).NoCut?
    && x.pending == HeldPart(Seen(x), TAGS)
    && (if x.inside then |x.block| <= MAX_TOOL_BLOCK_CHARS else x.block == "")
  }

  lemma CutStable(text: string, more: string, inside: bool)
    requires NextCut(text, inside).Cut?
    ensures NextCut(text + more, inside) == NextCut(text, inside)
  {
    hide Find;
    FindStable(text, more, if inside then TOOL_CALL_CLOSE else TOOL_CALL_OPEN);
  }

  lemma CutAcross(seen: string, more: string, inside: bool)
    requires NextCut(seen, inside).NoCut?
    ensures var dropped := Released(seen, TAGS);
            match NextCut(seen + more, inside)
            case NoCut => NextCut(HeldPart(seen, TAGS) + more, inside).NoCut?
            case Cut(at, resume) =>
              at >= dropped && NextCut(HeldPart(seen, TAGS) + more, inside) == Cut(at - dropped, resume - dropped)
  {
    hide Find, Held, HeldPart, Released, OccursAt;
    FindAcross(seen, more, if inside then TOOL_CALL_CLOSE else TOOL_CALL_OPEN, TAGS);
  }

  /** One pass over a freshly opened or closed block. */
  lemma PassFresh(text: string, inside: bool, parse: Parser)
    ensures var p := OnePass(Fresh(text, inside), parse);
            match NextCut(text, inside)
            case Cut(at, resume) => p == Pass(Fresh(text[resume..], !inside), Piece(text[..at], inside, parse), true)
            case NoCut =>
              var kept, size := HeldPart(text, TAGS), Released(text, TAGS);
              if !inside then p == Pass(Fresh(kept, false), Lifted(text[..size], []), false)
              else if size > MAX_TOOL_BLOCK_CHARS then p == Pass(Fresh(kept, false), Lifted("", [MALFORMED]), true)
              else p == Pass(Extractor(kept, text[..size], true), NOTHING, false)
  {
    hide Find, Held, HeldPart, Released, OccursAt;
    if inside && NextCut(text, inside).Cut? {
      assert "" + text[..NextCut(text, inside).at] == text[..NextCut(text, inside).at];
    }
    assert "" + text[..Released(text, TAGS)] == text[..Released(text, TAGS)];
  }

  /** What was put into the block and what is still pending are read as one. */
  lemma PassSeen(x: Extractor, more: string, parse: Parser)
    requires Stable(x) && x.inside
    ensures OnePass(x.(pending := x.pending + more), parse) == OnePass(Fresh(Seen(x) + more, true), parse)
  {
    hide Find, Held, HeldPart, Released, OccursAt;
    var seen, part := Seen(x), x.pending + more;
    var dropped, whole := Released(seen, TAGS), Seen(x) + more;
    assert x.block == seen[..dropped] by { assert seen == seen[..dropped] + x.pending; }
    CutAcross(seen, more, true);
    HeldOfRetained(seen, more, TAGS);
    assert whole == x.block + part;
    match NextCut(whole, true)
    case Cut(at, resume) =>
      assert "" + whole[..at] == x.block + part[..at - dropped];
      assert whole[resume..] == part[resume - dropped..];
    case NoCut =>
      assert "" + whole[..Released(whole, TAGS)] == x.block + part[..Released(part, TAGS)];
  }

  /** Feeding a stable extractor is draining a fresh one that holds everything seen. */
  lemma FeedIsFresh(x: Extractor, more: string, parse: Parser)
    requires Stable(x)
    ensures FeedChunk(x, more, parse) == Drain(Fresh(Seen(x) + more, x.inside), parse)
  {
    hide OnePass, NextCut, HeldPart;
    if x.inside {
      PassSeen(x, more, parse);
    }
  }

  /** The extractor always stops in a stable state, however large the blocks are. */
  lemma {:induction false} DrainStops(text: string, inside: bool, parse: Parser)
    ensures Stable(Drain(Fresh(text, inside), parse).extractor)
    decreases |text|, inside
  {
    hide NextCut, OnePass, Held, HeldPart, Released;
    PassFresh(text, inside, parse);
    match NextCut(text, inside)
    case Cut(_, resume) => DrainStops(text[resume..], !inside, parse);
    case NoCut =>
      var kept, size := HeldPart(text, TAGS), Released(text, TAGS);
      if !inside {
        HeldIsStable(text);
      } else if size > MAX_TOOL_BLOCK_CHARS {
        DrainStops(kept, false, parse);
      } else {
        assert text[..size] + kept == text;
      }
  }

  lemma HeldIsStable(text: string)
    requires NextCut(text, false).NoCut?
    ensures Stable(Fresh(HeldPart(text, TAGS), false))
  {
    hide Find, Held, HeldPart, Released, OccursAt;
    CutAcross(text, "", false);
    HeldOfRetained(text, "", TAGS);
    assert text + "" == text && HeldPart(text, TAGS) + "" == HeldPart(text, TAGS);
  }

  /** At most eleven characters are ever held back between feeds. */
  lemma {:induction false} PendingIsShort(chunks: seq<string>, parse: Parser)
    ensures |Run(chunks, parse).extractor.pending| <= 11
  {
    RunStops(chunks, parse);
    LongestTag();
    hide Run, Held, MaxLength, NextCut;
    HeldIsShort(Seen(Run(chunks, parse).extractor), TAGS);
  }

  lemma LongestTag()
    ensures MaxLength(TAGS) == 12
  {
    var rest := TAGS[1..];
    assert rest == [TOOL_CALL_CLOSE] && rest[1..] == [];
    assert MaxLength(rest[1..]) == 0;
    assert MaxLength(rest) == 12;
  }

  /** After any chunks the pending text is exactly the longest tag prefix at the end of the unconsumed text. */
  lemma {:induction false} RunStops(chunks: seq<string>, parse: Parser)
    ensures Stable(Run(chunks, parse).extractor)
  {
    if chunks == [] {
      assert NextCut("", false).NoCut?;
    } else {
      hide Stable, Drain;
      var init, last := chunks[..|chunks| - 1], chunks[|chunks| - 1];
      RunStops(init, parse);
      var x := Run(init, parse).extractor;
      FeedIsFresh(x, last, parse);
      DrainStops(Seen(x) + last, x.inside, parse);
    }
  }

  // ---------------------------------------------------------------------------------------------
  // The class

  class ToolCallExtractor {
    const parse: Parser
    var pending: string
    var block: string
    var inside: bool
    var closed: bool

    function View(): Extractor
      reads this
    {
      Extractor(pending, block, inside)
    }

    constructor (parse: Parser)
      ensures this.parse == parse && View() == START && !closed
    {
      this.parse := parse;
      pending, block, inside, closed := "", "", false, false;
    }

    /** Visible text and lifted calls; `None` when the extractor is closed. */
    method Feed(text: string) returns (result: Option<Lifted>)
      modifies this
      ensures closed == old(closed)
      ensures closed ==> result == None && View() == old(View())
      ensures !closed ==> var fed := FeedChunk(old(View()), text, parse);
                          View() == fed.extractor && result == Some(fed.lifted)
    {
      hide OnePass;
      if closed {
        return None;
      }
      pending := pending + text;
      ghost var start := View();
      var lifted, again := NOTHING, true;
      ThenNothing(Drain(start, parse).lifted);
      while again
        invariant closed == old(closed)
        invariant again ==>
                    Drain(start, parse)
                    == Fed(Drain(View(), parse).extractor, Then(lifted, Drain(View(), parse).lifted))
        invariant !again ==> Drain(start, parse) == Fed(View(), lifted)
        decreases again, |pending|, inside
      {
        ghost var before, so := View(), lifted;
        if inside {
          var calls;
          again, calls := ConsumeBlock();
          lifted := Then(lifted, Lifted("", calls));
        } else {
          var piece;
          again, piece := ConsumeVisible();
          lifted := Then(lifted, Lifted(piece, []));
        }
        if again {
          ThenAssociates(so, OnePass(before, parse).lifted, Drain(View(), parse).lifted);
        }
      }
      result := Some(lifted);
    }

    method Finish() returns (result: Lifted)
      modifies this
      ensures closed
      ensures result == Flush(old(View()))
      ensures View() == if old(inside) then Extractor(old(pending), "", false) else Extractor("", old(block), false)
    {
      closed := true;
      if inside {
        block := "";
        inside := false;
        return Lifted("", [MALFORMED]);
      }
      var tail := pending;
      pending := "";
      result := Lifted(tail, []);
    }

    method ConsumeVisible() returns (again: bool, visible: string)
      requires !inside
      modifies this
      ensures closed == old(closed)
      ensures Pass(View(), Lifted(visible, []), again) == OnePass(old(View()), parse)
    {
      hide Find, Held, HeldPart, OccursAt;
      var openAt := Find(pending, TOOL_CALL_OPEN);
      if openAt >= 0 {
        visible := pending[..openAt];
        pending := pending[openAt + |TOOL_CALL_OPEN|..];
        inside := true;
        block := "";
        return true, visible;
      }
      var held := HeldSuffix(pending, TAGS);
      var split := |pending| - held;
      visible := pending[..split];
      pending := pending[split..];
      again := false;
    }

    method ConsumeBlock() returns (again: bool, calls: seq<ToolCall>)
      requires inside
      modifies this
      ensures closed == old(closed)
      ensures Pass(View(), Lifted("", calls), again) == OnePass(old(View()), parse)
    {
      hide Find, Held, HeldPart, OccursAt;
      var closeAt := Find(pending, TOOL_CALL_CLOSE);
      if closeAt >= 0 {
        block := block + pending[..closeAt];
        pending := pending[closeAt + |TOOL_CALL_CLOSE|..];
        inside := false;
        calls := [parse(block)];
        block := "";
        return true, calls;
      }
      var held := HeldSuffix(pending, TAGS);
      var split := |pending| - held;
      block := block + pending[..split];
      pending := pending[split..];
      if |block| > MAX_TOOL_BLOCK_CHARS {
        block := "";
        inside := false;
        return true, [MALFORMED];
      }
      return false, [];
    }
  }
}
