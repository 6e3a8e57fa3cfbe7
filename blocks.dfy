/** The Block Kit layout tree that every reply is made of: a response holds
    blocks; a block is a header, a divider or a section, and a section holds
    either one text element or a row of fields. */
module Blocks {
  import opened Wrappers

  /** A text element: its type ("plain_text" or "mrkdwn") and its text. */
  datatype BlockText = BlockText(textType: string, text: string)

  /** One field of a fields section. */
  datatype BlockField = BlockField(fieldType: string, text: string)

  /** A block; `text` is the optional text element and `fields` the fields,
      an empty sequence standing for no fields. */
  datatype Block = Block(blockType: string, text: Option<BlockText>, fields: seq<BlockField>)

  /** The reply sent back to the chat client. */
  datatype Response = Response(blocks: seq<Block>)

  /** A section with one text element of the given type. */
  function NewSectionTextBlock(textType: string, text: string): (b: Block)
    ensures b.blockType == "section"
    ensures b.text == Some(BlockText(textType, text)) && b.fields == []
  {
    Block("section", Some(BlockText(textType, text)), [])
  }

  /** A section made of the given fields, copied one by one in order. */
  method NewSectionFieldsBlock(fields: seq<BlockField>) returns (b: Block)
    ensures b.blockType == "section"
    ensures b.text == None && b.fields == fields
  {
    var arr: seq<BlockField> := [];
    for i := 0 to |fields|
      invariant arr == fields[..i]
    {
      arr := arr + [fields[i]];
    }
    b := Block("section", None, arr);
  }

  /** A header, whose text element is always plain text. */
  function NewHeaderBlock(text: string): (b: Block)
    ensures b.blockType == "header"
    ensures b.text == Some(BlockText("plain_text", text)) && b.fields == []
  {
    Block("header", Some(BlockText("plain_text", text)), [])
  }

  /** A divider line: no text and no fields. */
  function NewDividerBlock(): (b: Block)
    ensures b.blockType == "divider" && b.text == None && b.fields == []
  {
    Block("divider", None, [])
  }

  /** A field with exactly the given type and text. */
  function NewField(fieldType: string, text: string): (f: BlockField)
    ensures f.fieldType == fieldType && f.text == text
  {
    BlockField(fieldType, text)
  }

  /** The response holding the given blocks, copied one by one in order. */
  method NewResponse(blocks: seq<Block>) returns (r: Response)
    ensures r.blocks == blocks
  {
    var arr: seq<Block> := [];
    for i := 0 to |blocks|
      invariant arr == blocks[..i]
    {
      arr := arr + [blocks[i]];
    }
    r := Response(arr);
  }
}
