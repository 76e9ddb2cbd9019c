/**
 When the tool extractor gives what the reference gives.

 A cut spills when at that point an open block has overflowed and something of it is still to come.
 `ManyExact` is the heart: over any chunks the extractor agrees with the reference if and only if no cut
 between them spills. `ExtractorExact` follows: it agrees however a text is cut exactly when the blocks fit.
 */
module ToolCuts {
  import opened Text
  import opened TagScan
  import opened Tools

  /**
   The bound on a block that never closes. Whatever is certain before its last character must fit, and
   with the last character it must fit too, unless then nothing is held back that could be spoken.
   */
  predicate TailFits(body: string) {
    body == ""
    || (&& Released(body[..|body| - 1], TAGS) <= MAX_TOOL_BLOCK_CHARS
        && (Released(body, TAGS) <= MAX_TOOL_BLOCK_CHARS || Held(body, TAGS) == 0))
  }

  /** Every closed block is at most `MAX_TOOL_BLOCK_CHARS` long and an unclosed one fits as well. */
  predicate Fits(text: string, inside: bool)
    decreases |text|
  {
    match NextCut(text, inside)
    case NoCut => inside ==> TailFits(text)
    case Cut(at, resume) => (inside ==> at <= MAX_TOOL_BLOCK_CHARS) && Fits(text[resume..], !inside)
  }

  /** After `first` a block has overflowed, and what was held back of it or follows will be taken for speech. */
  predicate Spills(first: string, second: string, inside: bool)
    decreases |first|
  {
    match NextCut(first, inside)
    case Cut(_, resume) => Spills(first[resume..], second, !inside)
    case NoCut => inside && Released(first, TAGS) > MAX_TOOL_BLOCK_CHARS && HeldPart(first, TAGS) + second != ""
  }

  // ---------------------------------------------------------------------------------------------
  // A cut that does not spill is harmless

  /** Outside a block, text that is let through early is text that would have been spoken anyway. */
  lemma {:induction false} LetThroughEarly(text: string, more: string, parse: Parser)
    requires NextCut(text, false).NoCut?
    ensures var kept := HeldPart(text, TAGS);
            Lift(text + more, false, parse)
            == Then(Lifted(text[..Released(text, TAGS)], []), Lift(kept + more, false, parse))
  {
    hide NextCut, Held, HeldPart, Released;
    var kept, size := HeldPart(text, TAGS), Released(text, TAGS);
    var whole, part := text + more, kept + more;
    CutAcross(text, more, false);
    assert whole == text[..size] + part;
    match NextCut(whole, false)
    case NoCut =>
    case Cut(at, resume) =>
      assert whole[resume..] == part[resume - size..];
      assert whole[..at] == text[..size] + part[..at - size];
      ThenAssociates(Lifted(text[..size], []), Piece(part[..at - size], false, parse),
                     Lift(whole[resume..], true, parse));
  }

  /** What was let through and what is still to be seen make up what the reference gives. */
  ghost predicate KeepsUp(text: string, more: string, inside: bool, parse: Parser) {
    var fed := Drain(Fresh(text, inside), parse);
    var x := fed.extractor;
    Lift(text + more, inside, parse) == Then(fed.lifted, Lift(Seen(x) + more, x.inside, parse))
  }

  lemma KeepsUpAtCut(text: string, more: string, inside: bool, parse: Parser)
    requires NextCut(text, inside).Cut? && KeepsUp(text[NextCut(text, inside).resume..], more, !inside, parse)
    ensures KeepsUp(text, more, inside, parse)
  {
    hide NextCut, OnePass, Seen;
    var Cut(at, resume) := NextCut(text, inside);
    PassFresh(text, inside, parse);
    CutStable(text, more, inside);
    assert (text + more)[resume..] == text[resume..] + more;
    assert (text + more)[..at] == text[..at];
    var fed := Drain(Fresh(text[resume..], !inside), parse);
    var x := fed.extractor;
    ThenAssociates(Piece(text[..at], inside, parse), fed.lifted, Lift(Seen(x) + more, x.inside, parse));
  }

  lemma {:induction false} DrainKeepsUp(text: string, more: string, inside: bool, parse: Parser)
    requires !Spills(text, more, inside)
    ensures KeepsUp(text, more, inside, parse)
    decreases |text|
  {
    hide NextCut, OnePass, Held, HeldPart, Released;
    match NextCut(text, inside)
    case Cut(at, resume) =>
      DrainKeepsUp(text[resume..], more, !inside, parse);
      KeepsUpAtCut(text, more, inside, parse);
    case NoCut =>
      PassFresh(text, inside, parse);
      if !inside {
        LetThroughEarly(text, more, parse);
      } else if Released(text, TAGS) > MAX_TOOL_BLOCK_CHARS {
        OverflowAtEnd(text, parse);
        assert more == "" && text + more == text;
      } else {
        assert text[..Released(text, TAGS)] + HeldPart(text, TAGS) == text;
        ThenNothing(Lift(text + more, true, parse));
      }
  }

  lemma OverflowAtEnd(text: string, parse: Parser)
    requires NextCut(text, true).NoCut? && HeldPart(text, TAGS) == "" && Released(text, TAGS) > MAX_TOOL_BLOCK_CHARS
    ensures KeepsUp(text, "", true, parse)
  {
    hide NextCut, Held, HeldPart, Released, OnePass, Lift;
    PassFresh(text, true, parse);
    DrainNothing(parse);
    LiftUnclosed(text, parse);
    LiftNothing(parse);
    assert text + "" == text && "" + "" == "";
  }

  lemma DrainNothing(parse: Parser)
    ensures Drain(START, parse) == Fed(START, NOTHING)
  {
    hide Held, Find;
    PassFresh("", false, parse);
    assert NextCut("", false).NoCut?;
  }

  lemma {:induction false} LiftUnclosed(text: string, parse: Parser)
    requires NextCut(text, true).NoCut?
    ensures Lift(text, true, parse) == Lifted("", [MALFORMED])
  {
    hide NextCut;
  }

  lemma LiftNothing(parse: Parser)
    ensures Lift("", false, parse) == NOTHING
  {
    assert NextCut("", false).NoCut?;
  }

  /** Later cuts look the same from what is kept as from the whole text. */
  lemma {:induction false} SpillsAcross(text: string, more: string, last: string, inside: bool, parse: Parser)
    requires !Spills(text, more + last, inside)
    ensures var x := Drain(Fresh(text, inside), parse).extractor;
            Spills(Seen(x) + more, last, x.inside) == Spills(text + more, last, inside)
    decreases |text|
  {
    hide NextCut, OnePass, Held, HeldPart, Released;
    PassFresh(text, inside, parse);
    match NextCut(text, inside)
    case Cut(at, resume) =>
      CutStable(text, more, inside);
      assert (text + more)[resume..] == text[resume..] + more;
      SpillsAcross(text[resume..], more, last, !inside, parse);
    case NoCut =>
      var kept, size := HeldPart(text, TAGS), Released(text, TAGS);
      if !inside {
        CutAcross(text, more, false);
        assert text + more == text[..size] + (kept + more);
        if NextCut(text + more, false).Cut? {
          var resume := NextCut(text + more, false).resume;
          assert (text + more)[resume..] == (kept + more)[resume - size..];
        }
      } else if size > MAX_TOOL_BLOCK_CHARS {
        NothingSpills(parse);
        assert kept == "" && more == "" && last == "" && text + more == text;
      } else {
        assert text[..size] + kept == text;
      }
  }

  lemma NothingSpills(parse: Parser)
    ensures !Spills("", "", false) && Drain(Fresh("", false), parse) == Fed(START, NOTHING)
  {
    PassFresh("", false, parse);
    assert NextCut("", false).NoCut?;
  }

  // ---------------------------------------------------------------------------------------------
  // A cut that spills always shows: there is more speech and calls than there should be

  function Weight(l: Lifted): nat {
    |l.text| + |l.calls|
  }

  lemma {:induction false} InsideCalls(text: string, parse: Parser)
    ensures Lift(text, true, parse).calls != []
  {
    hide NextCut;
  }

  lemma {:induction false} LiftShows(text: string, parse: Parser)
    requires text != ""
    ensures Weight(Lift(text, false, parse)) > 0
  {
    hide Find;
    match NextCut(text, false)
    case NoCut =>
    case Cut(_, resume) => InsideCalls(text[resume..], parse);
  }

  /** Only the first character of a tag is an angle bracket. */
  lemma TagBrackets()
    ensures MaxLength(TAGS) >= 2 && IsTagPrefix("<", TAGS)
    ensures forall t, i :: t in TAGS && 0 <= i < |t| && t[i] == '<' ==> i == 0
  {
    assert TOOL_CALL_OPEN == TAGS[0];
    assert |TOOL_CALL_OPEN| <= MaxLength(TAGS);
    assert "<" <= TOOL_CALL_OPEN;
    assert forall t | t in TAGS :: t == TOOL_CALL_OPEN || t == TOOL_CALL_CLOSE;
  }

  /** Two tags in a text do not overlap. */
  lemma TagsApart(text: string, open: int, close: int)
    requires OccursAt(text, TOOL_CALL_OPEN, open) && OccursAt(text, TOOL_CALL_CLOSE, close)
    ensures open + |TOOL_CALL_OPEN| <= close || close + |TOOL_CALL_CLOSE| <= open
  {
    var o, c := text[open..open + |TOOL_CALL_OPEN|], text[close..close + |TOOL_CALL_CLOSE|];
    assert text[open] == o[0] == '<' && text[open + 1] == o[1] == 't';
    assert text[close] == c[0] == '<' && text[close + 1] == c[1] == '/';
    assert forall i | 0 < i < |TOOL_CALL_OPEN| :: text[open + i] == o[i] != '<';
    assert forall i | 0 < i < |TOOL_CALL_CLOSE| :: text[close + i] == c[i] != '<';
    hide OccursAt;
    assert text[open + (close - open)] == '<' && text[close + (open - close)] == '<';
  }

  lemma WeightAtCut(text: string, inside: bool, parse: Parser)
    ensures match NextCut(text, inside)
            case Cut(at, resume) =>
              Weight(Lift(text, inside, parse))
              == (if inside then 1 else at) + Weight(Lift(text[resume..], !inside, parse))
            case NoCut => Weight(Lift(text, inside, parse)) == if inside then 1 else |text|
  {
    hide NextCut;
  }

  /** Without its beginning a text has its first close tag in the same place. */
  lemma ClosesLater(text: string, from: nat)
    requires NextCut(text, true).Cut? && from <= NextCut(text, true).at
    ensures NextCut(text[from..], true) == Cut(NextCut(text, true).at - from, NextCut(text, true).resume - from)
  {
    hide Find;
    var before, part := text[..from], text[from..];
    assert text == before + part;
    OccursShifted(before, part, TOOL_CALL_CLOSE, NextCut(text, true).at);
    if Find(part, TOOL_CALL_CLOSE) >= 0 {
      OccursShifted(before, part, TOOL_CALL_CLOSE, Find(part, TOOL_CALL_CLOSE) + from);
    }
  }

  /** An open tag in front of the first close tag: that tag closes it. */
  lemma OpenThenClose(text: string)
    requires NextCut(text, true).Cut? && NextCut(text, false).Cut? && NextCut(text, false).at < NextCut(text, true).at
    ensures var Cut(at, resume) := NextCut(text, true);
            var next := NextCut(text, false).resume;
            && next <= at && NextCut(text[next..], true) == Cut(at - next, resume - next)
            && text[next..][resume - next..] == text[resume..]
  {
    hide Find, OccursAt;
    TagsApart(text, Find(text, TOOL_CALL_OPEN), Find(text, TOOL_CALL_CLOSE));
    ClosesLater(text, NextCut(text, false).resume);
  }

  /** What follows the first close tag has the open tags that do not come before it. */
  lemma OpensAfter(text: string)
    requires NextCut(text, true).Cut?
             && (NextCut(text, false).Cut? ==> NextCut(text, false).at >= NextCut(text, true).at)
    ensures var resume := NextCut(text, true).resume;
            match NextCut(text, false)
            case NoCut => NextCut(text[resume..], false).NoCut?
            case Cut(o, next) => o >= resume && NextCut(text[resume..], false) == Cut(o - resume, next - resume)
  {
    hide Find, OccursAt;
    var resume := NextCut(text, true).resume;
    var before, rest := text[..resume], text[resume..];
    assert text == before + rest;
    var o, r := Find(text, TOOL_CALL_OPEN), Find(rest, TOOL_CALL_OPEN);
    if r >= 0 { OccursShifted(before, rest, TOOL_CALL_OPEN, r + resume); }
    if o >= 0 {
      TagsApart(text, o, Find(text, TOOL_CALL_CLOSE));
      OccursShifted(before, rest, TOOL_CALL_OPEN, o);
    }
  }

  /** Read from outside, a text with a close tag weighs more than what follows that tag. */
  lemma {:induction false} CloseGains(text: string, parse: Parser)
    requires NextCut(text, true).Cut?
    ensures Weight(Lift(text, false, parse)) > Weight(Lift(text[NextCut(text, true).resume..], false, parse))
  {
    hide NextCut, Lift, Weight;
    var Cut(at, resume) := NextCut(text, true);
    var rest := text[resume..];
    WeightAtCut(text, false, parse);
    if NextCut(text, false).Cut? && NextCut(text, false).at < at {
      OpenThenClose(text);
      WeightAtCut(text[NextCut(text, false).resume..], true, parse);
    } else {
      OpensAfter(text);
      WeightAtCut(rest, false, parse);
      if NextCut(text, false).Cut? {
        var next := NextCut(text, false).resume;
        assert rest[next - resume..] == text[next..];
      }
    }
  }

  /** Reporting a block and reading on what is left of it as speech weighs more than the block does. */
  lemma {:induction false} OverflowGains(text: string, more: string, parse: Parser)
    requires NextCut(text, true).NoCut? && HeldPart(text, TAGS) + more != ""
    ensures 1 + Weight(Lift(HeldPart(text, TAGS) + more, false, parse)) > Weight(Lift(text + more, true, parse))
  {
    hide NextCut, Held, HeldPart, Released, Lift, Weight;
    var kept, size := HeldPart(text, TAGS), Released(text, TAGS);
    CutAcross(text, more, true);
    WeightAtCut(text + more, true, parse);
    match NextCut(text + more, true)
    case NoCut => LiftShows(kept + more, parse);
    case Cut(at, resume) =>
      CloseGains(kept + more, parse);
      assert text + more == text[..size] + (kept + more);
      assert (kept + more)[resume - size..] == (text + more)[resume..];
  }

  lemma {:induction false} SpillGains(text: string, more: string, inside: bool, parse: Parser)
    requires Spills(text, more, inside)
    ensures var fed := Drain(Fresh(text, inside), parse);
            var x := fed.extractor;
            Weight(fed.lifted) + Weight(Lift(Seen(x) + more, x.inside, parse))
            > Weight(Lift(text + more, inside, parse))
    decreases |text|
  {
    hide NextCut, OnePass, Held, HeldPart, Released, Seen;
    PassFresh(text, inside, parse);
    match NextCut(text, inside)
    case Cut(at, resume) =>
      CutStable(text, more, inside);
      assert (text + more)[resume..] == text[resume..] + more && (text + more)[..at] == text[..at];
      SpillGains(text[resume..], more, !inside, parse);
    case NoCut =>
      OverflowGains(text, more, parse);
      KeptDoesNotSpill(text, more);
      DrainKeepsUp(HeldPart(text, TAGS), more, false, parse);
  }

  lemma {:induction false} KeptDoesNotSpill(text: string, more: string)
    requires NextCut(text, true).NoCut?
    ensures !Spills(HeldPart(text, TAGS), more, false)
  {
    HeldIsShort(text, TAGS);
    LongestTag();
    hide Held, MaxLength, Find;
  }

  // ---------------------------------------------------------------------------------------------
  // Any number of chunks

  function Glue(chunks: seq<string>): string {
    if chunks == [] then "" else chunks[0] + Glue(chunks[1..])
  }

  lemma {:induction false} GlueIsJoin(chunks: seq<string>)
    ensures Glue(chunks) == Join(chunks)
  {
    if chunks != [] {
      GlueIsJoin(chunks[1..]);
      JoinAppend([chunks[0]], chunks[1..]);
      JoinSnoc([], chunks[0]);
      assert [chunks[0]] + chunks[1..] == chunks && [] + [chunks[0]] == [chunks[0]];
    }
  }

  /** The extractor, from the first chunk on. */
  function Many(first: string, rest: seq<string>, inside: bool, parse: Parser): Lifted
    decreases |rest|
  {
    var fed := Drain(Fresh(first, inside), parse);
    var x := fed.extractor;
    Then(fed.lifted, if rest == [] then Flush(x) else Many(Seen(x) + rest[0], rest[1..], x.inside, parse))
  }

  predicate SomeCutSpills(first: string, rest: seq<string>, inside: bool)
    decreases |rest|
  {
    Spills(first, Glue(rest), inside) || (rest != [] && SomeCutSpills(first + rest[0], rest[1..], inside))
  }

  lemma {:induction false} SameCuts(first: string, more: string, rest: seq<string>, inside: bool, parse: Parser)
    requires !Spills(first, more + Glue(rest), inside)
    ensures var x := Drain(Fresh(first, inside), parse).extractor;
            SomeCutSpills(Seen(x) + more, rest, x.inside) == SomeCutSpills(first + more, rest, inside)
    decreases |rest|
  {
    hide Drain, Spills, Seen, Fresh;
    var x := Drain(Fresh(first, inside), parse).extractor;
    SpillsAcross(first, more, Glue(rest), inside, parse);
    if rest != [] {
      assert more + Glue(rest) == (more + rest[0]) + Glue(rest[1..]);
      SameCuts(first, more + rest[0], rest[1..], inside, parse);
      assert (Seen(x) + more) + rest[0] == Seen(x) + (more + rest[0]);
      assert (first + more) + rest[0] == first + (more + rest[0]);
    }
  }

  lemma FlushIsLift(x: Extractor, parse: Parser)
    requires Stable(x)
    ensures Flush(x) == Lift(Seen(x), x.inside, parse)
  {
    hide NextCut, HeldPart;
  }

  lemma WeightThen(a: Lifted, b: Lifted)
    ensures Weight(Then(a, b)) == Weight(a) + Weight(b)
  {
  }

  /** The extractor gives what the reference gives if no cut spills, and something heavier if one does. */
  lemma {:induction false} ManyExact(first: string, rest: seq<string>, inside: bool, parse: Parser)
    ensures var many, lift := Many(first, rest, inside, parse), Lift(first + Glue(rest), inside, parse);
            if SomeCutSpills(first, rest, inside) then Weight(many) > Weight(lift) else many == lift
    decreases |rest|
  {
    hide Drain, Spills, Seen, Fresh, Lift, Weight, Then, Flush, Stable;
    var fed := Drain(Fresh(first, inside), parse);
    var x, whole := fed.extractor, Lift(first + Glue(rest), inside, parse);
    var later := Lift(Seen(x) + Glue(rest), x.inside, parse);
    if rest == [] {
      DrainStops(first, inside, parse);
      FlushIsLift(x, parse);
      assert Seen(x) + Glue(rest) == Seen(x);
    } else {
      ManyExact(Seen(x) + rest[0], rest[1..], x.inside, parse);
      assert (Seen(x) + rest[0]) + Glue(rest[1..]) == Seen(x) + Glue(rest);
    }
    var tail := if rest == [] then Flush(x) else Many(Seen(x) + rest[0], rest[1..], x.inside, parse);
    assert Weight(tail) >= Weight(later);
    WeightThen(fed.lifted, tail);
    WeightThen(fed.lifted, later);
    if Spills(first, Glue(rest), inside) {
      SpillGains(first, Glue(rest), inside, parse);
    } else {
      DrainKeepsUp(first, Glue(rest), inside, parse);
      if rest != [] { SameCuts(first, rest[0], rest[1..], inside, parse); }
    }
  }

  // ---------------------------------------------------------------------------------------------
  // The extractor over chunks

  /** From any point on, the extractor over chunks is the extractor from the next chunk on. */
  lemma {:induction false} ExtractFrom(chunks: seq<string>, i: nat, parse: Parser)
    requires i < |chunks|
    ensures var fed := Run(chunks[..i], parse);
            var x := fed.extractor;
            Extract(chunks, parse) == Then(fed.lifted, Many(Seen(x) + chunks[i], chunks[i + 1..], x.inside, parse))
    decreases |chunks| - i
  {
    hide Drain, Seen, Fresh, Then, Flush, Stable, FeedChunk;
    var fed, next := Run(chunks[..i], parse), Run(chunks[..i + 1], parse);
    var x := fed.extractor;
    RunStops(chunks[..i], parse);
    FeedIsFresh(x, chunks[i], parse);
    assert chunks[..i + 1][..i] == chunks[..i];
    var step := Drain(Fresh(Seen(x) + chunks[i], x.inside), parse);
    assert next == Fed(step.extractor, Then(fed.lifted, step.lifted));
    if i + 1 == |chunks| {
      assert chunks[..i + 1] == chunks;
      ThenAssociates(fed.lifted, step.lifted, Flush(step.extractor));
    } else {
      ExtractFrom(chunks, i + 1, parse);
      assert chunks[i + 1..][1..] == chunks[i + 2..];
      ThenAssociates(fed.lifted, step.lifted,
                     Many(Seen(step.extractor) + chunks[i + 1], chunks[i + 2..], step.extractor.inside, parse));
    }
  }

  lemma ExtractIsMany(chunks: seq<string>, parse: Parser)
    requires chunks != []
    ensures Extract(chunks, parse) == Many(chunks[0], chunks[1..], false, parse)
  {
    hide Many, Drain;
    ExtractFrom(chunks, 0, parse);
    assert chunks[..0] == [] && "" + chunks[0] == chunks[0];
    ThenNothing(Many(chunks[0], chunks[1..], false, parse));
  }

  /** At the `i`-th cut between the chunks, or at the end, a block has spilled. */
  predicate SpillsAt(chunks: seq<string>, i: nat)
    requires i <= |chunks|
  {
    Spills(Join(chunks[..i]), Join(chunks[i..]), false)
  }

  lemma {:induction false} CutsAre(chunks: seq<string>, i: nat)
    requires i < |chunks|
    ensures SomeCutSpills(Join(chunks[..i + 1]), chunks[i + 1..], false)
            <==> exists j :: i < j <= |chunks| && SpillsAt(chunks, j)
    decreases |chunks| - i
  {
    hide Spills, Join;
    GlueIsJoin(chunks[i + 1..]);
    if i + 1 < |chunks| {
      CutsAre(chunks, i + 1);
      assert chunks[..i + 2] == chunks[..i + 1] + [chunks[i + 1]] && chunks[i + 1..][1..] == chunks[i + 2..];
      JoinSnoc(chunks[..i + 1], chunks[i + 1]);
    }
    assert SpillsAt(chunks, i + 1) == Spills(Join(chunks[..i + 1]), Join(chunks[i + 1..]), false);
  }

  lemma {:induction false} NothingSeen(second: string)
    ensures !Spills("", second, false)
  {
    assert NextCut("", false).NoCut?;
  }

  lemma FirstIsNoCut(chunks: seq<string>)
    ensures !SpillsAt(chunks, 0)
  {
    hide Spills;
    assert chunks[..0] == [];
    NothingSeen(Join(chunks[0..]));
  }

  lemma {:induction false} GlueAll(chunks: seq<string>)
    requires chunks != []
    ensures Join(chunks[..1]) == chunks[0]
    ensures chunks[0] + Glue(chunks[1..]) == Join(chunks)
  {
    hide Join;
    GlueIsJoin([]);
    GlueIsJoin(chunks[1..]);
    assert chunks[..1] == [] + [chunks[0]] && chunks == chunks[..1] + chunks[1..];
    assert "" + chunks[0] == chunks[0];
    JoinSnoc([], chunks[0]);
    JoinAppend(chunks[..1], chunks[1..]);
  }

  lemma {:induction false} FirstCuts(chunks: seq<string>)
    requires chunks != []
    ensures SomeCutSpills(chunks[0], chunks[1..], false) <==> exists i: nat :: i <= |chunks| && SpillsAt(chunks, i)
    ensures chunks[0] + Glue(chunks[1..]) == Join(chunks)
  {
    hide SpillsAt, SomeCutSpills, Join, Glue;
    FirstIsNoCut(chunks);
    GlueAll(chunks);
    CutsAre(chunks, 0);
  }

  /** Over any chunks, the extractor gives what the reference gives if and only if at no cut a block has spilled. */
  lemma {:induction false} CutsExact(chunks: seq<string>, parse: Parser)
    ensures Extract(chunks, parse) == Lift(Join(chunks), false, parse)
            <==> forall i: nat | i <= |chunks| :: !SpillsAt(chunks, i)
  {
    hide SpillsAt, Extract, Lift, Many, SomeCutSpills, Join;
    if chunks == [] {
      NothingExtracted(parse);
      NoChunks();
    } else {
      ExtractIsMany(chunks, parse);
      ManyExact(chunks[0], chunks[1..], false, parse);
      FirstCuts(chunks);
    }
  }

  lemma NoChunks()
    ensures !SpillsAt([], 0)
  {
    NothingSeen("");
  }

  lemma NothingExtracted(parse: Parser)
    ensures Extract([], parse) == Lift(Join([]), false, parse)
  {
    assert NextCut("", false).NoCut?;
  }

  // ---------------------------------------------------------------------------------------------
  // Every way of cutting a text

  lemma ReleasedGrows(seen: string, more: string)
    ensures Released(seen, TAGS) <= Released(seen + more, TAGS)
  {
    hide Held;
    HeldGrowsSlowly(seen, more, TAGS);
  }

  /** Text whose blocks fit never spills, wherever it is cut. */
  lemma {:induction false} FittingNeverSpills(text: string, k: nat, inside: bool)
    requires Fits(text, inside) && k <= |text|
    ensures !Spills(text[..k], text[k..], inside)
    decreases |text|
  {
    hide NextCut, Held, HeldPart, Released;
    var first, second := text[..k], text[k..];
    assert first + second == text;
    match NextCut(first, inside)
    case Cut(at, resume) =>
      CutStable(first, second, inside);
      assert first[resume..] == text[resume..][..k - resume] && second == text[resume..][k - resume..];
      FittingNeverSpills(text[resume..], k - resume, !inside);
    case NoCut =>
      if inside && HeldPart(first, TAGS) + second != "" { OpenBlockFits(first, second); }
  }

  lemma {:induction false} OpenBlockFits(first: string, second: string)
    requires NextCut(first, true).NoCut? && Fits(first + second, true) && HeldPart(first, TAGS) + second != ""
    ensures Released(first, TAGS) <= MAX_TOOL_BLOCK_CHARS
  {
    hide NextCut, Held;
    var text := first + second;
    CutAcross(first, second, true);
    if NextCut(text, true).NoCut? {
      if second == "" {
        assert text == first;
      } else {
        var n := |second| - 1;
        assert text[..|text| - 1] == first + second[..n];
        ReleasedGrows(first, second[..n]);
      }
    }
  }

  /** Just inside its close tag, a block is held back to its last angle bracket. */
  lemma HeldAtBracket(before: string)
    ensures Held(before + "<", TAGS) == 1 && HeldPart(before + "<", TAGS) == "<"
  {
    hide Held, MaxLength;
    var text := before + "<";
    assert text[|text| - 1] == '<';
    TagBrackets();
    assert Last(text, 1) == "<";
    assert Holdable(text, TAGS, 1);
    HeldIsLongest(text, TAGS);
    var h := Held(text, TAGS);
    var t :| t in TAGS && Last(text, h) <= t;
    assert t[h - 1] == Last(text, h)[h - 1] == '<';
  }

  lemma ClosedTooLarge(text: string)
    requires NextCut(text, true).Cut? && NextCut(text, true).at > MAX_TOOL_BLOCK_CHARS
    ensures var k := NextCut(text, true).at + 1; k <= |text| && Spills(text[..k], text[k..], true)
  {
    hide Find, Held;
    var at := NextCut(text, true).at;
    var first, second := text[..at + 1], text[at + 1..];
    assert text[at] == text[at..at + |TOOL_CALL_CLOSE|][0];
    assert first + second == text && first == text[..at] + "<";
    HeldAtBracket(text[..at]);
    OccursInLonger(first, second, TOOL_CALL_CLOSE, Find(first, TOOL_CALL_CLOSE));
  }

  lemma UnclosedTooLarge(text: string) returns (k: nat)
    requires NextCut(text, true).NoCut? && !TailFits(text)
    ensures k <= |text| && Spills(text[..k], text[k..], true)
  {
    hide Held;
    k := if Released(text[..|text| - 1], TAGS) > MAX_TOOL_BLOCK_CHARS then |text| - 1 else |text|;
    var first, second := text[..k], text[k..];
    assert first + second == text && text[..|text|] == text;
    OccursInLonger(first, second, TOOL_CALL_CLOSE, Find(first, TOOL_CALL_CLOSE));
  }

  /** A block that does not fit spills at some cut. */
  lemma {:induction false} SpillingCut(text: string, inside: bool) returns (k: nat)
    requires !Fits(text, inside)
    ensures k <= |text| && Spills(text[..k], text[k..], inside)
    decreases |text|
  {
    hide NextCut, TailFits, Held, HeldPart, Released;
    match NextCut(text, inside)
    case NoCut =>
      k := UnclosedTooLarge(text);
    case Cut(at, resume) =>
      if inside && at > MAX_TOOL_BLOCK_CHARS {
        ClosedTooLarge(text);
        k := at + 1;
      } else {
        var j := SpillingCut(text[resume..], !inside);
        k := resume + j;
        CutBefore(text, inside, k);
        assert text[..k][resume..] == text[resume..][..j] && text[k..] == text[resume..][j..];
      }
  }

  lemma CutBefore(text: string, inside: bool, k: nat)
    requires NextCut(text, inside).Cut? && NextCut(text, inside).resume <= k <= |text|
    ensures NextCut(text[..k], inside) == NextCut(text, inside)
  {
    hide Find;
    var tag := if inside then TOOL_CALL_CLOSE else TOOL_CALL_OPEN;
    var at := NextCut(text, inside).at;
    assert OccursAt(text, tag, at);
    assert text[..k][at..at + |tag|] == text[at..at + |tag|];
    assert OccursAt(text[..k], tag, at);
    FindStable(text[..k], text[k..], tag);
    assert text[..k] + text[k..] == text;
  }

  // ---------------------------------------------------------------------------------------------
  // Closed blocks

  /** Every closed block is at most `MAX_TOOL_BLOCK_CHARS` long. */
  predicate ClosedFit(text: string, inside: bool)
    decreases |text|
  {
    match NextCut(text, inside)
    case NoCut => true
    case Cut(at, resume) => (inside ==> at <= MAX_TOOL_BLOCK_CHARS) && ClosedFit(text[resume..], !inside)
  }

  /** The text ends within a block. */
  predicate EndsOpen(text: string, inside: bool)
    decreases |text|
  {
    match NextCut(text, inside)
    case NoCut => inside
    case Cut(_, resume) => EndsOpen(text[resume..], !inside)
  }

  lemma {:induction false} FitsIsClosedFit(text: string, inside: bool)
    ensures Fits(text, inside) ==> ClosedFit(text, inside)
    ensures !EndsOpen(text, inside) ==> Fits(text, inside) == ClosedFit(text, inside)
    decreases |text|
  {
    hide NextCut, TailFits;
    if NextCut(text, inside).Cut? {
      FitsIsClosedFit(text[NextCut(text, inside).resume..], !inside);
    }
  }

  /** Of a close tag that is not complete, exactly what has come of it is held back. */
  lemma HeldOfClose(before: string, j: nat)
    requires 0 < j < |TOOL_CALL_CLOSE|
    ensures Held(before + TOOL_CALL_CLOSE[..j], TAGS) == j
  {
    hide Held, MaxLength;
    var text := before + TOOL_CALL_CLOSE[..j];
    TagBrackets();
    LongestTag();
    assert TOOL_CALL_CLOSE == TAGS[1];
    assert Last(text, j) == TOOL_CALL_CLOSE[..j] <= TOOL_CALL_CLOSE;
    assert IsTagPrefix(Last(text, j), TAGS) && j <= Limit(text, TAGS);
    assert Holdable(text, TAGS, j);
    HeldIsLongest(text, TAGS);
    var h := Held(text, TAGS);
    var t :| t in TAGS && Last(text, h) <= t;
    assert h >= j && Last(text, h)[h - j] == text[|before|] == TOOL_CALL_CLOSE[..j][0] == '<';
    assert t[h - j] == Last(text, h)[h - j];
  }

  /** A closed block that is too large spills wherever its close tag is cut. */
  lemma OversizedSpills(text: string, k: nat)
    requires NextCut(text, true).Cut? && NextCut(text, true).at > MAX_TOOL_BLOCK_CHARS
    requires NextCut(text, true).at < k < NextCut(text, true).resume
    ensures Spills(text[..k], text[k..], true)
  {
    hide Find, Held;
    var at := NextCut(text, true).at;
    var first, second := text[..k], text[k..];
    var close := text[at..at + |TOOL_CALL_CLOSE|];
    assert close == TOOL_CALL_CLOSE && close[..k - at] == text[at..k];
    assert first + second == text && first == text[..at] + TOOL_CALL_CLOSE[..k - at];
    HeldOfClose(text[..at], k - at);
    OccursInLonger(first, second, TOOL_CALL_CLOSE, Find(first, TOOL_CALL_CLOSE));
  }

  /** If a closed block is too large there are eleven places in a row at which a cut spills. */
  lemma {:induction false} SpillingPlaces(text: string, inside: bool) returns (from: nat)
    requires !ClosedFit(text, inside)
    ensures from + |TOOL_CALL_CLOSE| <= |text|
    ensures forall k | from < k < from + |TOOL_CALL_CLOSE| :: Spills(text[..k], text[k..], inside)
    decreases |text|
  {
    hide NextCut, Spills, Held;
    var Cut(at, resume) := NextCut(text, inside);
    if inside && at > MAX_TOOL_BLOCK_CHARS {
      from := at;
      CloseLength(text);
      forall k | from < k < from + |TOOL_CALL_CLOSE|
        ensures Spills(text[..k], text[k..], inside)
      {
        OversizedSpills(text, k);
      }
    } else {
      var later := SpillingPlaces(text[resume..], !inside);
      from := resume + later;
      forall k | from < k < from + |TOOL_CALL_CLOSE|
        ensures Spills(text[..k], text[k..], inside)
      {
        SpillsLater(text, inside, k);
      }
    }
  }

  lemma CloseLength(text: string)
    requires NextCut(text, true).Cut?
    ensures NextCut(text, true).resume == NextCut(text, true).at + |TOOL_CALL_CLOSE|
  {
  }

  lemma {:induction false} SpillsLater(text: string, inside: bool, k: nat)
    requires NextCut(text, inside).Cut? && NextCut(text, inside).resume <= k <= |text|
    ensures var resume := NextCut(text, inside).resume;
            Spills(text[..k], text[k..], inside)
            == Spills(text[resume..][..k - resume], text[resume..][k - resume..], !inside)
  {
    hide NextCut, Held;
    var resume := NextCut(text, inside).resume;
    CutBefore(text, inside, k);
    assert text[..k][resume..] == text[resume..][..k - resume] && text[k..] == text[resume..][k - resume..];
  }

  lemma {:induction false} JoinOf(chunks: seq<string>, i: nat)
    requires i <= |chunks|
    ensures |Join(chunks[..i])| <= |Join(chunks)|
    ensures Join(chunks[..i]) == Join(chunks)[..|Join(chunks[..i])|]
            && Join(chunks[i..]) == Join(chunks)[|Join(chunks[..i])|..]
  {
    JoinAppend(chunks[..i], chunks[i..]);
    assert chunks[..i] + chunks[i..] == chunks;
  }

  /** Blocks that fit are lifted in the same way however the text is cut. */
  lemma {:induction false} FittingExtracts(chunks: seq<string>, parse: Parser)
    requires Fits(Join(chunks), false)
    ensures Extract(chunks, parse) == Lift(Join(chunks), false, parse)
  {
    hide Fits, Spills, Join, Extract, Lift;
    CutsExact(chunks, parse);
    forall i: nat | i <= |chunks|
      ensures !SpillsAt(chunks, i)
    {
      JoinOf(chunks, i);
      FittingNeverSpills(Join(chunks), |Join(chunks[..i])|, false);
    }
  }

  /** Every way of cutting a text gives what the reference gives, if and only if its blocks fit. */
  lemma {:induction false} ExtractorExact(text: string, parse: Parser)
    ensures (forall chunks | Join(chunks) == text :: Extract(chunks, parse) == Lift(text, false, parse))
            <==> Fits(text, false)
  {
    hide Fits, Spills, Extract, Lift;
    if Fits(text, false) {
      forall chunks | Join(chunks) == text
        ensures Extract(chunks, parse) == Lift(text, false, parse)
      {
        FittingExtracts(chunks, parse);
      }
    } else {
      var k := SpillingCut(text, false);
      var chunks := [text[..k], text[k..]];
      JoinTwo(text[..k], text[k..]);
      assert chunks[..1] == [text[..k]] && chunks[1..] == [text[k..]];
      assert SpillsAt(chunks, 1);
      CutsExact(chunks, parse);
    }
  }

  lemma JoinTwo(a: string, b: string)
    ensures Join([a]) == a && Join([b]) == b && Join([a, b]) == a + b
  {
    JoinSnoc([], a);
    JoinSnoc([], b);
    JoinSnoc([a], b);
    assert [] + [a] == [a] && [] + [b] == [b] && [a] + [b] == [a, b];
  }
}
