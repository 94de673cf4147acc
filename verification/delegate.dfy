/**
 * What a call to the language-model service gives back, as far as the agents
 * look at it: either the call raised, or it answered with a list of content
 * blocks, of which only the text blocks carry text.
 */
module Delegate {
  import opened Wrappers

  /** One content block of an answer: a block whose `type` is "text", or
      `ToolBlock`, which stands for every other block (web-search tool use and
      its results). What such a block holds is never read. */
  datatype ContentBlock = TextBlock(text: string) | ToolBlock

  /** The outcome of `client.messages.create`. */
  datatype Reply = Answered(content: seq<ContentBlock>) | Raised

  /** The texts of the text blocks, in order, run together. */
  function JoinedText(blocks: seq<ContentBlock>): string
    decreases |blocks|
  {
    if blocks == [] then ""
    else
      match blocks[0]
      case TextBlock(t) => t + JoinedText(blocks[1..])
      case ToolBlock => JoinedText(blocks[1..])
  }

  lemma {:induction false} JoinedTextAppend(a: seq<ContentBlock>, b: seq<ContentBlock>)
    ensures JoinedText(a + b) == JoinedText(a) + JoinedText(b)
    decreases |a|
  {
    if a == [] {
      assert a + b == b;
    } else {
      assert (a + b)[0] == a[0];
      assert (a + b)[1..] == a[1..] + b;
      JoinedTextAppend(a[1..], b);
    }
  }

  /** A block that is not a text block adds nothing, wherever it stands. */
  lemma ToolBlockAddsNothing(a: seq<ContentBlock>, b: seq<ContentBlock>)
    ensures JoinedText(a + [ToolBlock] + b) == JoinedText(a + b)
  {
    JoinedTextAppend(a + [ToolBlock], b);
    JoinedTextAppend(a, [ToolBlock]);
    JoinedTextAppend(a, b);
    assert [ToolBlock][1..] == [];
  }

  /** A text block adds exactly its text, at its place in the order. */
  lemma TextBlockAddsItsText(a: seq<ContentBlock>, t: string, b: seq<ContentBlock>)
    ensures JoinedText(a + [TextBlock(t)] + b) == JoinedText(a) + t + JoinedText(b)
  {
    JoinedTextAppend(a + [TextBlock(t)], b);
    JoinedTextAppend(a, [TextBlock(t)]);
    assert [TextBlock(t)][1..] == [];
    assert t + "" == t;
  }

  /** An answer made only of tool blocks has empty text. */
  lemma {:induction false} NoTextBlocksNoText(blocks: seq<ContentBlock>)
    requires forall i :: 0 <= i < |blocks| ==> blocks[i].ToolBlock?
    ensures JoinedText(blocks) == ""
    decreases |blocks|
  {
    if blocks != [] {
      NoTextBlocksNoText(blocks[1..]);
    }
  }

  /** Agent 2's loop: start from the empty string and append the text of
      every block whose type is "text". */
  method CollectText(blocks: seq<ContentBlock>) returns (text: string)
    ensures text == JoinedText(blocks)
  {
    text := "";
    var i := 0;
    while i < |blocks|
      invariant 0 <= i <= |blocks|
      invariant text == JoinedText(blocks[..i])
    {
      JoinedTextAppend(blocks[..i], [blocks[i]]);
      assert blocks[..i + 1] == blocks[..i] + [blocks[i]];
      if blocks[i].TextBlock? {
        text := text + blocks[i].text;
      }
      i := i + 1;
    }
    assert blocks[..i] == blocks;
  }

  /** `message.content[0].text`: raises (IndexError, AttributeError) when
      the answer is empty or its first block is not a text block. */
  function LeadingText(blocks: seq<ContentBlock>): Option<string> {
    if |blocks| > 0 && blocks[0].TextBlock? then Some(blocks[0].text) else None
  }

  /** For an answer whose first block is a text block and whose other blocks
      are tool blocks, agents 1 and 3 and agent 2 read the same text. */
  lemma LeadingTextIsJoinedText(t: string, more: seq<ContentBlock>)
    requires forall i :: 0 <= i < |more| ==> more[i].ToolBlock?
    ensures LeadingText([TextBlock(t)] + more) == Some(JoinedText([TextBlock(t)] + more))
  {
    assert ([TextBlock(t)] + more)[1..] == more;
    NoTextBlocksNoText(more);
    assert t + "" == t;
  }
}
