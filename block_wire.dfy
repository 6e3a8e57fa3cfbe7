/** The wire text `json.Marshal` gives each kind of block and a response,
    stated for all texts; for text that needs no escaping `Quote(s)` is just
    `s` in quotation marks (JsonText.QuoteVerbatim).

    The one-line lemmas that join literal pieces (`TypeKeyJoin`,
    `QuoteCommaJoin`, the `...Prefix` and `...OnlyJoin` lemmas) state no
    property of the program: each keeps one step of string concatenation
    apart, so that the verifier does not unfold long literals elsewhere. */
module BlockWire {
  import opened Wrappers
  import opened Blocks
  import opened BlockJson
  import opened JsonText

  // The fixed type names of the layout need no escaping.

  lemma VerbatimSection()
    ensures Verbatim("section")
  {
  }

  lemma VerbatimHeader()
    ensures Verbatim("header")
  {
  }

  lemma VerbatimDivider()
    ensures Verbatim("divider")
  {
  }

  lemma VerbatimPlainText()
    ensures Verbatim("plain_text")
  {
  }

  /** An object whose first member is a `type` with a name needing no
      escaping, followed by one more member. */
  lemma TypedPairText(ty: string, k: string, v: Json)
    requires Verbatim(ty)
    ensures Serialize(JObject([Member("type", JString(ty)), Member(k, v)]))
         == "{\"type\":\"" + ty + "\",\"" + k + "\":" + Serialize(v) + "}"
  {
    ObjectOfTwo("type", JString(ty), k, v);
    QuoteVerbatim(ty);
    TypedRegroup("{\"", "type", "\":", "\"", ty, ",\"", k, "\":", Serialize(v), "}");
    TypeKeyJoin();
    QuoteCommaJoin();
  }

  lemma TypeKeyJoin()
    ensures "{\"" + "type" + "\":" + "\"" == "{\"type\":\""
  {
  }

  lemma QuoteCommaJoin()
    ensures "\"" + ",\"" == "\",\""
  {
  }

  lemma TypedRegroup(a: string, b: string, c: string, q: string, ty: string, d: string,
                     k: string, e: string, x: string, f: string)
    ensures a + b + c + (q + ty + q) + d + k + e + x + f == (a + b + c + q) + ty + (q + d) + k + e + x + f
  {
  }

  lemma TypedText(ty: string)
    requires Verbatim(ty)
    ensures Serialize(JObject([Member("type", JString(ty))])) == "{\"type\":\"" + ty + "\"}"
  {
    ObjectOfOne("type", JString(ty));
    QuoteVerbatim(ty);
  }

  lemma SectionTextJson(textType: string, text: string)
    ensures BlockToJson(NewSectionTextBlock(textType, text))
         == JObject([Member("type", JString("section")), Member("text", TextToJson(BlockText(textType, text)))])
  {
  }

  lemma SectionTextPieces(t: BlockText)
    ensures MarshalBlock(NewSectionTextBlock(t.textType, t.text))
         == "{\"type\":\"" + "section" + "\",\"" + "text" + "\":" + Serialize(TextToJson(t)) + "}"
  {
    SectionTextJson(t.textType, t.text);
    VerbatimSection();
    TypedPairText("section", "text", TextToJson(t));
  }

  lemma SectionPrefix(x: string)
    ensures "{\"type\":\"" + "section" + "\",\"" + "text" + "\":" + x + "}"
         == "{\"type\":\"section\",\"text\":" + x + "}"
  {
  }

  lemma SectionTextBlockText(textType: string, text: string)
    ensures MarshalBlock(NewSectionTextBlock(textType, text))
         == "{\"type\":\"section\",\"text\":" + ("{\"type\":" + Quote(textType) + ",\"text\":" + Quote(text) + "}") + "}"
  {
    var t := BlockText(textType, text);
    SectionTextPieces(t);
    SectionPrefix(Serialize(TextToJson(t)));
    TextElementText(t);
  }

  lemma HeaderJson(text: string)
    ensures BlockToJson(NewHeaderBlock(text))
         == JObject([Member("type", JString("header")), Member("text", TextToJson(BlockText("plain_text", text)))])
  {
  }

  lemma HeaderPieces(text: string)
    ensures MarshalBlock(NewHeaderBlock(text))
         == "{\"type\":\"" + "header" + "\",\"" + "text" + "\":" + Serialize(TextToJson(BlockText("plain_text", text))) + "}"
  {
    HeaderJson(text);
    VerbatimHeader();
    TypedPairText("header", "text", TextToJson(BlockText("plain_text", text)));
  }

  lemma HeaderPrefix(x: string)
    ensures "{\"type\":\"" + "header" + "\",\"" + "text" + "\":" + x + "}"
         == "{\"type\":\"header\",\"text\":" + x + "}"
  {
  }

  /** The header's own text element, whose type is `plain_text`. */
  lemma PlainTextElement(text: string)
    ensures Serialize(TextToJson(BlockText("plain_text", text)))
         == "{\"type\":\"plain_text\",\"text\":" + Quote(text) + "}"
  {
    VerbatimPlainText();
    TypedPairText("plain_text", "text", JString(text));
    PlainTextPrefix(Serialize(JString(text)));
  }

  lemma PlainTextPrefix(x: string)
    ensures "{\"type\":\"" + "plain_text" + "\",\"" + "text" + "\":" + x + "}"
         == "{\"type\":\"plain_text\",\"text\":" + x + "}"
  {
  }

  lemma HeaderBlockText(text: string)
    ensures MarshalBlock(NewHeaderBlock(text))
         == "{\"type\":\"header\",\"text\":" + ("{\"type\":\"plain_text\",\"text\":" + Quote(text) + "}") + "}"
  {
    HeaderPieces(text);
    HeaderPrefix(Serialize(TextToJson(BlockText("plain_text", text))));
    PlainTextElement(text);
  }

  lemma DividerBlockText()
    ensures MarshalBlock(NewDividerBlock()) == "{\"type\":\"divider\"}"
  {
    DividerJson();
    DividerObjectText();
  }

  lemma DividerJson()
    ensures BlockToJson(NewDividerBlock()) == JObject([Member("type", JString("divider"))])
  {
  }

  lemma DividerObjectText()
    ensures Serialize(JObject([Member("type", JString("divider"))])) == "{\"type\":\"divider\"}"
  {
    VerbatimDivider();
    TypedText("divider");
    DividerOnlyJoin();
  }

  lemma DividerOnlyJoin()
    ensures "{\"type\":\"" + "divider" + "\"}" == "{\"type\":\"divider\"}"
  {
  }

  lemma FieldText(fieldType: string, text: string)
    ensures MarshalField(NewField(fieldType, text))
         == "{\"type\":" + Quote(fieldType) + ",\"text\":" + Quote(text) + "}"
  {
    TextElementText(BlockText(fieldType, text));
  }

  /** A fields section: `type`, then the array of its fields; with no
      fields the `fields` member is left out. */
  lemma SectionFieldsBlockText(fields: seq<BlockField>)
    ensures MarshalBlock(Block("section", None, fields))
         == (if |fields| > 0 then "{\"type\":\"section\",\"fields\":" + ("[" + SerializeItems(FieldsToJson(fields)) + "]") + "}"
             else "{\"type\":\"section\"}")
  {
    if |fields| > 0 {
      FieldsSectionText(fields);
    } else {
      EmptySectionText(fields);
    }
  }

  lemma FieldsSectionText(fields: seq<BlockField>)
    requires |fields| > 0
    ensures MarshalBlock(Block("section", None, fields))
         == "{\"type\":\"section\",\"fields\":" + ("[" + SerializeItems(FieldsToJson(fields)) + "]") + "}"
  {
    VerbatimSection();
    var v := JArray(FieldsToJson(fields));
    assert BlockToJson(Block("section", None, fields)) == JObject([Member("type", JString("section")), Member("fields", v)]);
    TypedPairText("section", "fields", v);
    ArrayText(FieldsToJson(fields));
    FieldsPrefix(Serialize(v));
  }

  lemma EmptySectionText(fields: seq<BlockField>)
    requires |fields| == 0
    ensures MarshalBlock(Block("section", None, fields)) == "{\"type\":\"section\"}"
  {
    VerbatimSection();
    assert BlockToJson(Block("section", None, fields)) == JObject([Member("type", JString("section"))]);
    TypedText("section");
    SectionOnlyJoin();
  }

  lemma SectionOnlyJoin()
    ensures "{\"type\":\"" + "section" + "\"}" == "{\"type\":\"section\"}"
  {
  }

  lemma FieldsPrefix(x: string)
    ensures "{\"type\":\"" + "section" + "\",\"" + "fields" + "\":" + x + "}"
         == "{\"type\":\"section\",\"fields\":" + x + "}"
  {
  }

  /** A response: the `blocks` array, always present. */
  lemma ResponseText(r: Response)
    ensures Marshal(r) == "{\"blocks\":[" + SerializeItems(BlocksToJson(r.blocks)) + "]}"
  {
    ObjectOfOne("blocks", JArray(BlocksToJson(r.blocks)));
  }
}
