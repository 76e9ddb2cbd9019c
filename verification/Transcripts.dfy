/**
 What reaches the listener and the tools, however the tokens of a response are cut.

 For a response whose visible part is a transcript that ends outside a block: what is spoken is what is not in a
 block, and every block is called, if and only if no block has more than 8192 characters (`HeardAndCalled`).
 */
module Transcripts {
  import opened Responses
  import opened TagScan
  import Text
  import Thinking
  import Tools
  import ToolCuts
  import Worker

  /** No block is longer than what the extractor keeps. */
  predicate Short(blocks: seq<Block>) {
    forall i | 0 <= i < |blocks| :: |blocks[i].body| <= 8_192
  }

  lemma {:induction false} OpenFits(before: string, rest: string)
    requires Free(before, "<tool_call>")
    ensures ToolCuts.ClosedFit(before + "<tool_call>" + rest, false) == ToolCuts.ClosedFit(rest, true)
    ensures ToolCuts.EndsOpen(before + "<tool_call>" + rest, false) == ToolCuts.EndsOpen(rest, true)
  {
    FirstTag(before, "<tool_call>", rest);
  }

  lemma {:induction false} CloseFits(body: string, rest: string)
    requires Free(body, "</tool_call>")
    ensures ToolCuts.ClosedFit(body + "</tool_call>" + rest, true)
            == (|body| <= 8_192 && ToolCuts.ClosedFit(rest, false))
    ensures ToolCuts.EndsOpen(body + "</tool_call>" + rest, true) == ToolCuts.EndsOpen(rest, false)
  {
    FirstTag(body, "</tool_call>", rest);
  }

  lemma {:induction false} SaidFits(text: string)
    requires Free(text, "<tool_call>")
    ensures ToolCuts.ClosedFit(text, false) && !ToolCuts.EndsOpen(text, false)
  {
    FreeIs(text, "<tool_call>");
  }

  lemma {:induction false} UnclosedFits(body: string)
    requires Free(body, "</tool_call>")
    ensures ToolCuts.ClosedFit(body, true) && ToolCuts.EndsOpen(body, true)
  {
    FreeIs(body, "</tool_call>");
  }

  /** The closed blocks of a transcript fit exactly if they are short, and it ends open if its last block does. */
  lemma {:induction false} ShortFits(blocks: seq<Block>, rest: Rest)
    requires ValidTranscript(blocks, rest)
    ensures ToolCuts.ClosedFit(Transcript(blocks, rest), false) <==> Short(blocks)
    ensures ToolCuts.EndsOpen(Transcript(blocks, rest), false) <==> rest.Unclosed?
  {
    hide ToolCuts.ClosedFit, ToolCuts.EndsOpen, Free;
    if blocks == [] {
      match rest
      case Said(text) => SaidFits(text);
      case Unclosed(before, body) =>
        OpenFits(before, body);
        UnclosedFits(body);
    } else {
      var head, more := blocks[0], blocks[1..];
      ShortFits(more, rest);
      OpenFits(head.before, head.body + "</tool_call>" + Transcript(more, rest));
      CloseFits(head.body, Transcript(more, rest));
      assert forall i | 0 < i < |blocks| :: blocks[i] == more[i - 1];
    }
  }

  /**
   The extractor alone: every cutting of a transcript that ends outside a block gives its speech and its calls if and
   only if its blocks are short.
   */
  lemma {:induction false} LiftedExactly(blocks: seq<Block>, said: string, parse: Tools.Parser)
    requires ValidTranscript(blocks, Said(said))
    ensures (forall chunks | Text.Join(chunks) == Transcript(blocks, Said(said)) ::
               Tools.Extract(chunks, parse)
               == Tools.Lifted(Speech(blocks, Said(said)), Calls(blocks, Said(said), parse)))
            <==> Short(blocks)
  {
    hide Tools.Extract, Tools.Lift, ToolCuts.Fits, ToolCuts.ClosedFit, ToolCuts.EndsOpen, Text.Join;
    var text := Transcript(blocks, Said(said));
    LiftMeans(blocks, Said(said), parse);
    ShortFits(blocks, Said(said));
    ToolCuts.FitsIsClosedFit(text, false);
    ToolCuts.ExtractorExact(text, parse);
  }

  /**
   The whole way from the tokens: if the visible part of a response is a transcript that ends outside a block, its
   speech is spoken and its calls are made, however its tokens are cut, if and only if its blocks are short.
   */
  lemma {:induction false} HeardAndCalled(sections: seq<Section>, ending: Ending, blocks: seq<Block>, said: string,
                                          parse: Tools.Parser)
    requires Valid(sections, ending) && ValidTranscript(blocks, Said(said))
    requires Visible(sections, ending) == Transcript(blocks, Said(said))
    ensures (forall tokens | Text.Join(tokens) == Written(sections, ending) ::
               Worker.Piped(tokens, parse)
               == Tools.Lifted(Speech(blocks, Said(said)), Calls(blocks, Said(said), parse)))
            <==> Short(blocks)
  {
    hide Worker.Piped, Thinking.Strip, Tools.Lift, ToolCuts.ClosedFit, ToolCuts.EndsOpen, Text.Join, Valid, Written,
         ValidTranscript, Faults, FirstMet;
    var text := Written(sections, ending);
    StripMeans(sections, ending);
    LiftMeans(blocks, Said(said), parse);
    ShortFits(blocks, Said(said));
    Worker.PipelineClosedForm(text, parse);
  }
}
