/**
 Collecting one generation from the worker: reasoning is removed, then tool calls are lifted out.

 `Collect` is the loop, `Piped` what the two filters make of the tokens one after the other, `Understood` the
 same on the whole text at once. `PipelineExact` says for which texts the two agree however the tokens are cut.
 */
module Worker {
  import opened Text
  import opened Wrappers
  import Thinking
  import Tools
  import ToolCuts

  datatype Frame = Token(text: string) | Usage | Done(cancelled: bool) | Error

  /** A frame, the generation it names, if any, and the host's generation at the moment it is received. */
  datatype Received = Received(frame: Frame, generation: Option<int>, current: int)

  datatype Status = Completed | Cancelled | Failed

  datatype Outcome = Outcome(status: Status, text: string, toolCalls: seq<Tools.ToolCall>,
                             violations: seq<Thinking.Violation>, eventsAfterCancel: nat)

  predicate Stale(r: Received) {
    r.generation.Some? && r.generation.value != r.current
  }

  predicate Ends(r: Received) {
    !Stale(r) && (r.frame.Done? || r.frame.Error?)
  }

  /** The tokens of the frames, stale ones excepted. */
  function Tokens(frames: seq<Received>): seq<string> {
    if frames == [] then []
    else
      var last := frames[|frames| - 1];
      Tokens(frames[..|frames| - 1]) + if !Stale(last) && last.frame.Token? then [last.frame.text] else []
  }

  /** How many frames there are up to the one that ends the generation. */
  function Length(frames: seq<Received>): (n: nat)
    ensures n <= |frames|
    ensures n < |frames| ==> Ends(frames[n])
    ensures forall i | 0 <= i < n :: !Ends(frames[i])
  {
    if frames == [] || Ends(frames[0]) then 0 else 1 + Length(frames[1..])
  }

  function StatusOf(end: Received): Status {
    if end.frame.Done? then (if end.frame.cancelled then Cancelled else Completed) else Failed
  }

  /** The frame is not from another generation than the host's: it names that one, or none. */
  predicate Counts(r: Received) {
    match r.generation case None => true case Some(generation) => generation == r.current
  }

  /** The generation ends at the first frame that counts and is `done` or `error`, and at nothing else. */
  lemma {:induction false} EndsFirst(frames: seq<Received>, n: nat)
    requires n < |frames|
    ensures n == Length(frames)
            <==> && Counts(frames[n]) && (frames[n].frame.Done? || frames[n].frame.Error?)
                 && forall i | 0 <= i < n :: Counts(frames[i]) ==> frames[i].frame.Token? || frames[i].frame.Usage?
  {
  }

  /** The tokens heard are those of the frames that count, all of them and in order; `at` says where they were. */
  lemma {:induction false} TokensAre(frames: seq<Received>) returns (at: seq<nat>)
    ensures |at| == |Tokens(frames)|
    ensures forall k | 0 <= k < |at| ::
              at[k] < |frames| && Counts(frames[at[k]]) && frames[at[k]].frame == Token(Tokens(frames)[k])
    ensures forall j, k | 0 <= j < k < |at| :: at[j] < at[k]
    ensures forall i: nat | i < |frames| && Counts(frames[i]) && frames[i].frame.Token? :: i in at
  {
    at := [];
    if frames != [] {
      var n := |frames| - 1;
      at := TokensAre(frames[..n]);
      if Counts(frames[n]) && frames[n].frame.Token? {
        at := at + [n];
      }
    }
  }

  // ---------------------------------------------------------------------------------------------
  // The two filters in a row

  /** What each token adds to the visible text. */
  function Deltas(tokens: seq<string>): (chunks: seq<string>)
    ensures |chunks| == |tokens|
  {
    if tokens == [] then []
    else
      var init := tokens[..|tokens| - 1];
      Deltas(init) + [Thinking.FeedChunk(Thinking.Run(init).filter, tokens[|tokens| - 1]).text]
  }

  /** All that the thinking filter passes on, chunk by chunk, and at the end what it had held back. */
  function Chunks(tokens: seq<string>): (chunks: seq<string>)
    ensures |chunks| == |tokens| + 1
  {
    Deltas(tokens) + [Thinking.Flush(Thinking.Run(tokens).filter).text]
  }

  function Piped(tokens: seq<string>, parse: Tools.Parser): Tools.Lifted {
    Tools.Extract(Chunks(tokens), parse)
  }

  /**
   What the two filters together make of a stream, as one definition on its whole text: reasoning is
   removed, tool blocks are lifted out of the rest.
   */
  function Understood(text: string, parse: Tools.Parser): Tools.Lifted {
    Tools.Lift(Thinking.Strip(text).text, false, parse)
  }

  /** The visible part of a text as far as it is certain. */
  function Through(text: string): string {
    Thinking.LetThrough(Thinking.Read(text, Thinking.OUTSET))
  }

  /** After the first `p` characters of the text a block has overflowed, and something of it is still to come. */
  predicate SpillsIn(text: string, p: nat)
    requires p <= |text|
  {
    var shown, visible := Through(text[..p]), Thinking.Strip(text).text;
    shown <= visible && ToolCuts.Spills(shown, visible[|shown|..], false)
  }

  /** No block overflows on the way, and none at the end while something of it is held back. */
  ghost predicate FitsInTransit(text: string) {
    && (forall p: nat | p <= |text| :: !SpillsIn(text, p))
    && !ToolCuts.Spills(Thinking.Strip(text).text, "", false)
  }

  lemma {:induction false} DeltasJoin(tokens: seq<string>)
    ensures Join(Deltas(tokens)) == Thinking.Run(tokens).text
  {
    if tokens != [] {
      var init := tokens[..|tokens| - 1];
      hide Thinking.FeedChunk;
      DeltasJoin(init);
      JoinSnoc(Deltas(init), Thinking.FeedChunk(Thinking.Run(init).filter, tokens[|tokens| - 1]).text);
    }
  }

  lemma {:induction false} DeltasPrefix(tokens: seq<string>, i: nat)
    requires i <= |tokens|
    ensures Deltas(tokens)[..i] == Deltas(tokens[..i])
    decreases |tokens|
  {
    if i == |tokens| {
      assert tokens[..i] == tokens;
    } else {
      hide Thinking.FeedChunk, Thinking.Run;
      var init := tokens[..|tokens| - 1];
      DeltasPrefix(init, i);
      assert init[..i] == tokens[..i];
      assert Deltas(tokens)[..i] == Deltas(init)[..i];
    }
  }

  /** The cuts between the chunks are where the tokens are cut, and one more in front of nothing. */
  lemma {:induction false} ChunkCuts(tokens: seq<string>, i: nat)
    requires i <= |tokens| + 1
    ensures var chunks, visible := Chunks(tokens), Thinking.Strip(Join(tokens)).text;
            var shown := Join(chunks[..i]);
            && Join(chunks) == visible && shown <= visible && Join(chunks[i..]) == visible[|shown|..]
            && shown == if i <= |tokens| then Through(Join(tokens[..i])) else visible
  {
    hide Thinking.Flush, Thinking.Strip, Thinking.Run, Thinking.Read, Thinking.LetThrough, Join;
    var chunks := Chunks(tokens);
    DeltasJoin(tokens);
    JoinSnoc(Deltas(tokens), Thinking.Flush(Thinking.Run(tokens).filter).text);
    Thinking.ThinkingChunkInvariant(tokens);
    ToolCuts.JoinOf(chunks, i);
    if i <= |tokens| {
      DeltasPrefix(tokens, i);
      assert chunks[..i] == Deltas(tokens)[..i];
      DeltasJoin(tokens[..i]);
      Thinking.FilterRefinesRead(tokens[..i]);
    } else {
      assert chunks[..i] == chunks;
    }
  }

  lemma {:induction false} PrefixOf(tokens: seq<string>, i: nat)
    requires i <= |tokens|
    ensures |Join(tokens[..i])| <= |Join(tokens)| && Join(tokens)[..|Join(tokens[..i])|] == Join(tokens[..i])
  {
    JoinAppend(tokens[..i], tokens[i..]);
    assert tokens[..i] + tokens[i..] == tokens;
  }

  /** At the cuts between the tokens, and at the end, the chunks spill where the text does. */
  lemma {:induction false} SpillsAlike(tokens: seq<string>, i: nat)
    requires i <= |tokens| + 1
    ensures |Join(tokens)| >= if i <= |tokens| then |Join(tokens[..i])| else 0
    ensures ToolCuts.SpillsAt(Chunks(tokens), i)
            <==> if i <= |tokens| then SpillsIn(Join(tokens), |Join(tokens[..i])|)
                 else ToolCuts.Spills(Thinking.Strip(Join(tokens)).text, "", false)
  {
    hide Thinking.Strip, Join, Through, ToolCuts.Spills, Chunks;
    ChunkCuts(tokens, i);
    if i <= |tokens| { PrefixOf(tokens, i); }
  }

  lemma {:induction false} PipedIsUnderstood(tokens: seq<string>, parse: Tools.Parser)
    ensures Piped(tokens, parse) == Understood(Join(tokens), parse)
            <==> forall i: nat | i <= |tokens| + 1 :: !ToolCuts.SpillsAt(Chunks(tokens), i)
  {
    hide Thinking.Strip, Join, Tools.Extract, Tools.Lift, ToolCuts.SpillsAt, Chunks, Through;
    ChunkCuts(tokens, 0);
    ToolCuts.CutsExact(Chunks(tokens), parse);
  }

  lemma {:induction false} HarmlessAt(tokens: seq<string>, i: nat)
    requires FitsInTransit(Join(tokens)) && i <= |tokens| + 1
    ensures !ToolCuts.SpillsAt(Chunks(tokens), i)
  {
    hide Thinking.Strip, Join, SpillsIn, ToolCuts.Spills, ToolCuts.SpillsAt, Chunks;
    SpillsAlike(tokens, i);
  }

  lemma {:induction false} FittingIsUnderstood(tokens: seq<string>, parse: Tools.Parser)
    requires FitsInTransit(Join(tokens))
    ensures Piped(tokens, parse) == Understood(Join(tokens), parse)
  {
    hide Piped, Understood, FitsInTransit, ToolCuts.SpillsAt, Chunks, Join;
    PipedIsUnderstood(tokens, parse);
    forall i: nat | i <= |tokens| + 1
      ensures !ToolCuts.SpillsAt(Chunks(tokens), i)
    {
      HarmlessAt(tokens, i);
    }
  }

  /**
   However the tokens are cut, the two filters make of them what the reference makes of the text, if and only
   if its blocks fit on the way.
   */
  lemma PipelineExact(text: string, parse: Tools.Parser)
    ensures (forall tokens | Join(tokens) == text :: Piped(tokens, parse) == Understood(text, parse))
            <==> FitsInTransit(text)
  {
    hide Piped, Understood, Join, SpillsIn, ToolCuts.Spills, Thinking.Strip, ToolCuts.SpillsAt;
    if FitsInTransit(text) {
      forall tokens | Join(tokens) == text
        ensures Piped(tokens, parse) == Understood(text, parse)
      {
        FittingIsUnderstood(tokens, parse);
      }
    } else if ToolCuts.Spills(Thinking.Strip(text).text, "", false) {
      ToolCuts.JoinTwo(text, "");
      SpillsAlike([text], 2);
      PipedIsUnderstood([text], parse);
    } else {
      var p: nat :| p <= |text| && SpillsIn(text, p);
      var tokens := [text[..p], text[p..]];
      ToolCuts.JoinTwo(text[..p], text[p..]);
      assert tokens[..1] == [text[..p]] && text[..p] + text[p..] == text;
      SpillsAlike(tokens, 1);
      PipedIsUnderstood(tokens, parse);
    }
  }

  /** In particular a visible text whose blocks fit is understood however it is cut. */
  lemma FittingTravels(text: string)
    requires ToolCuts.Fits(Thinking.Strip(text).text, false)
    ensures FitsInTransit(text)
  {
    hide Thinking.Strip, ToolCuts.Fits, ToolCuts.Spills, Through;
    var visible := Thinking.Strip(text).text;
    ToolCuts.FittingNeverSpills(visible, |visible|, false);
    assert visible[..|visible|] == visible && visible[|visible|..] == "";
    forall p: nat | p <= |text|
      ensures !SpillsIn(text, p)
    {
      var shown := Through(text[..p]);
      if shown <= visible {
        assert visible[..|shown|] == shown;
        ToolCuts.FittingNeverSpills(visible, |shown|, false);
      }
    }
  }

  lemma ShownFirst(text: string, p: nat)
    requires p <= |text|
    ensures Through(text[..p]) <= Thinking.Strip(text).text
  {
    hide Thinking.Strip, Through, Chunks;
    ToolCuts.JoinTwo(text[..p], text[p..]);
    var tokens := [text[..p], text[p..]];
    assert tokens[..1] == [text[..p]] && text[..p] + text[p..] == text;
    ChunkCuts(tokens, 1);
  }

  /** What is shown grows by steps shorter than a close tag, so some step ends within every close tag. */
  lemma StepsInto(text: string, from: nat) returns (p: nat)
    requires from + |Tools.TOOL_CALL_CLOSE| <= |Thinking.Strip(text).text|
    ensures p <= |text| && from < |Through(text[..p])| < from + |Tools.TOOL_CALL_CLOSE|
  {
    hide Thinking.Strip, Thinking.Read, Thinking.LetThrough;
    NothingShown();
    assert text[..0] == "";
    p := |text|;
    assert text[..p] == text;
    Thinking.EndsShort(text);
    while |Through(text[..p])| >= from + |Tools.TOOL_CALL_CLOSE|
      invariant p <= |text| && |Through(text[..p])| > from
      decreases p
    {
      Thinking.ShowsSlowly(text[..p - 1], [text[p - 1]]);
      assert text[..p - 1] + [text[p - 1]] == text[..p];
      p := p - 1;
    }
  }

  lemma NothingShown()
    ensures Through("") == ""
  {
    Thinking.FilterRefinesRead([]);
  }

  /** A closed block that is too large overflows in transit. */
  lemma OversizedInTransit(text: string)
    requires !ToolCuts.ClosedFit(Thinking.Strip(text).text, false)
    ensures !FitsInTransit(text)
  {
    hide Thinking.Strip, ToolCuts.Spills, ToolCuts.ClosedFit, Through;
    var visible := Thinking.Strip(text).text;
    var from := ToolCuts.SpillingPlaces(visible, false);
    var p := StepsInto(text, from);
    ShownFirst(text, p);
    assert visible[..|Through(text[..p])|] == Through(text[..p]);
    assert SpillsIn(text, p);
  }

  /**
   For a text that does not end within a block: however its tokens are cut they are understood as a whole if and
   only if every closed block of its visible part has at most `MAX_TOOL_BLOCK_CHARS` characters.
   */
  lemma PipelineClosedForm(text: string, parse: Tools.Parser)
    requires !ToolCuts.EndsOpen(Thinking.Strip(text).text, false)
    ensures (forall tokens | Join(tokens) == text :: Piped(tokens, parse) == Understood(text, parse))
            <==> ToolCuts.ClosedFit(Thinking.Strip(text).text, false)
  {
    hide Piped, Understood, Thinking.Strip, ToolCuts.ClosedFit, ToolCuts.EndsOpen, ToolCuts.Fits, FitsInTransit;
    PipelineExact(text, parse);
    ToolCuts.FitsIsClosedFit(Thinking.Strip(text).text, false);
    if ToolCuts.ClosedFit(Thinking.Strip(text).text, false) {
      FittingTravels(text);
    } else {
      OversizedInTransit(text);
    }
  }

  // ---------------------------------------------------------------------------------------------
  // The loop

  /** The thinking filter has turned the tokens into the chunks. */
  ghost predicate Filtering(f: Thinking.Filter, tokens: seq<string>, chunks: seq<string>) {
    Thinking.Run(tokens).filter == f && chunks == Deltas(tokens)
  }

  /** The extractor has turned the chunks into visible pieces and calls. */
  ghost predicate Extracting(x: Tools.Extractor, chunks: seq<string>, visible: seq<string>, calls: seq<Tools.ToolCall>,
                             parse: Tools.Parser)
  {
    Tools.Run(chunks, parse) == Tools.Fed(x, Tools.Lifted(Join(visible), calls))
  }

  lemma FilterOneMore(f: Thinking.Filter, tokens: seq<string>, chunks: seq<string>, text: string)
    requires Filtering(f, tokens, chunks)
    ensures var fed := Thinking.FeedChunk(f, text); Filtering(fed.filter, tokens + [text], chunks + [fed.text])
  {
    hide Thinking.FeedChunk;
    assert (tokens + [text])[..|tokens|] == tokens;
  }

  lemma ExtractOneMore(x: Tools.Extractor, chunks: seq<string>, visible: seq<string>, calls: seq<Tools.ToolCall>,
                       text: string, parse: Tools.Parser)
    requires Extracting(x, chunks, visible, calls, parse)
    ensures var fed := Tools.FeedChunk(x, text, parse);
            Extracting(fed.extractor, chunks + [text], visible + [fed.lifted.text], calls + fed.lifted.calls, parse)
  {
    hide Tools.FeedChunk;
    JoinSnoc(visible, Tools.FeedChunk(x, text, parse).lifted.text);
    assert (chunks + [text])[..|chunks|] == chunks;
  }

  lemma {:induction false} Finished(f: Thinking.Filter, tokens: seq<string>, chunks: seq<string>)
    requires Filtering(f, tokens, chunks)
    ensures var end := Thinking.Flush(f);
            end.violations == Thinking.Strip(Join(tokens)).violations && chunks + [end.text] == Chunks(tokens)
  {
    hide Thinking.Flush, Thinking.Strip, Thinking.Run;
    Thinking.ThinkingChunkInvariant(tokens);
  }

  lemma {:induction false} Closed(x: Tools.Extractor, chunks: seq<string>, visible: seq<string>,
                                  calls: seq<Tools.ToolCall>,
                                  parse: Tools.Parser)
    requires Extracting(x, chunks, visible, calls, parse)
    ensures var end := Tools.Flush(x);
            Tools.Lifted(Join(visible + [end.text]), calls + end.calls) == Tools.Extract(chunks, parse)
  {
    hide Tools.Flush, Tools.Run;
    JoinSnoc(visible, Tools.Flush(x).text);
  }

  lemma {:induction false} LengthIs(frames: seq<Received>, n: nat)
    requires n <= |frames| && (n < |frames| ==> Ends(frames[n])) && forall i | 0 <= i < n :: !Ends(frames[i])
    ensures Length(frames) == n
  {
  }

  /** The visible pieces, given to `on_text` unless empty. */
  ghost predicate Speaks(spoken: seq<string>, visible: seq<string>) {
    Join(spoken) == Join(visible) && "" !in spoken
  }

  method Emit(spoken: seq<string>, ghost visible: seq<string>, text: string) returns (after: seq<string>)
    requires Speaks(spoken, visible)
    ensures Speaks(after, visible + [text])
  {
    JoinSnoc(spoken, text);
    JoinSnoc(visible, text);
    after := if text != "" then spoken + [text] else spoken;
  }

  /**
   `_collect`. The frames are what `_receive` delivers; when they run out before a frame ends the
   generation the worker is gone and the call raises (`None`). `spoken` is what `on_text` was given.
   */
  method Collect(frames: seq<Received>, cancelAfterFirstToken: bool, parse: Tools.Parser)
    returns (outcome: Option<Outcome>, spoken: seq<string>)
    ensures outcome.Some? <==> Length(frames) < |frames|
    ensures outcome.Some? ==>
              var tokens := Tokens(frames[..Length(frames)]);
              var collected := Tools.Lifted(outcome.value.text, outcome.value.toolCalls);
              && outcome.value.status == (match frames[Length(frames)].frame
                                          case Done(cancelled) => if cancelled then Cancelled else Completed
                                          case _ => Failed)
              && outcome.value.violations == Thinking.Strip(Join(tokens)).violations
              && Join(spoken) == outcome.value.text && "" !in spoken
              && collected == Piped(tokens, parse)
              && (FitsInTransit(Join(tokens)) ==> collected == Understood(Join(tokens), parse))
              && outcome.value.eventsAfterCancel == if cancelAfterFirstToken && tokens != [] then |tokens| - 1 else 0
  {
    hide Thinking.FeedChunk, Tools.FeedChunk, Thinking.Strip, Thinking.Flush, Tools.Flush, Tools.Lift, Tools.Extract,
         Filtering, Extracting, Speaks, Understood, Piped, FitsInTransit, Chunks, Join;
    var thinking := new Thinking.ThinkingFilter();
    var extractor := new Tools.ToolCallExtractor(parse);
    var visible: seq<string>, toolCalls: seq<Tools.ToolCall> := [], [];
    spoken := [];
    var eventsAfterCancel, cancelSent := 0, false;
    ghost var tokens: seq<string>, chunks: seq<string> := [], [];
    var i := 0;
    StartsEmpty(parse);
    while i < |frames|
      invariant 0 <= i <= |frames|
      invariant forall j | 0 <= j < i :: !Ends(frames[j])
      invariant !thinking.closed && !extractor.closed && extractor.parse == parse
      invariant tokens == Tokens(frames[..i])
      invariant Filtering(thinking.View(), tokens, chunks)
      invariant Extracting(extractor.View(), chunks, visible, toolCalls, parse)
      invariant Speaks(spoken, visible)
      invariant cancelSent == (cancelAfterFirstToken && tokens != [])
      invariant eventsAfterCancel == if cancelSent then |tokens| - 1 else 0
    {
      var r := frames[i];
      assert frames[..i + 1][..i] == frames[..i];
      if Stale(r) {
        i := i + 1;
        continue;
      }
      match r.frame {
        case Token(text) =>
          if cancelSent {
            eventsAfterCancel := eventsAfterCancel + 1;
          }
          FilterOneMore(thinking.View(), tokens, chunks, text);
          var filtered := thinking.Feed(text);
          ExtractOneMore(extractor.View(), chunks, visible, toolCalls, filtered.value.text, parse);
          var extracted := extractor.Feed(filtered.value.text);
          tokens, chunks := tokens + [text], chunks + [filtered.value.text];
          spoken := Emit(spoken, visible, extracted.value.text);
          visible := visible + [extracted.value.text];
          toolCalls := toolCalls + extracted.value.calls;
          if cancelAfterFirstToken && !cancelSent {
            cancelSent := true;
          }
        case Usage =>
        case Done(_) => break;
        case Error => break;
      }
      i := i + 1;
    }
    LengthIs(frames, i);
    if i == |frames| {
      return None, spoken;
    }

    Finished(thinking.View(), tokens, chunks);
    var tail := thinking.Finish();
    ExtractOneMore(extractor.View(), chunks, visible, toolCalls, tail.text, parse);
    var final := extractor.Feed(tail.text);
    chunks := chunks + [tail.text];
    spoken := Emit(spoken, visible, final.value.text);
    visible := visible + [final.value.text];
    toolCalls := toolCalls + final.value.calls;
    Closed(extractor.View(), chunks, visible, toolCalls, parse);
    var closing := extractor.Finish();
    spoken := Emit(spoken, visible, closing.text);
    visible := visible + [closing.text];
    toolCalls := toolCalls + closing.calls;
    Collected(Tools.Lifted(Join(visible), toolCalls), tokens, parse);
    SpeaksVisible(spoken, visible);
    outcome := Some(Outcome(StatusOf(frames[i]), Join(visible), toolCalls, tail.violations, eventsAfterCancel));
  }

  lemma {:induction false} Collected(collected: Tools.Lifted, tokens: seq<string>, parse: Tools.Parser)
    requires collected == Tools.Extract(Chunks(tokens), parse)
    ensures collected == Piped(tokens, parse)
    ensures FitsInTransit(Join(tokens)) ==> collected == Understood(Join(tokens), parse)
  {
    hide Tools.Extract, Understood, FitsInTransit, Chunks, Join;
    if FitsInTransit(Join(tokens)) { FittingIsUnderstood(tokens, parse); }
  }

  lemma {:induction false} SpeaksVisible(spoken: seq<string>, visible: seq<string>)
    requires Speaks(spoken, visible)
    ensures Join(spoken) == Join(visible) && "" !in spoken
  {
  }

  lemma StartsEmpty(parse: Tools.Parser)
    ensures Filtering(Thinking.START, [], []) && Extracting(Tools.START, [], [], [], parse) && Speaks([], [])
  {
  }
}
