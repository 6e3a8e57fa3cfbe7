/** The wire texts of the documented examples of the block constructors
    (tododo/blocks_test.go), derived from the general wire lemmas. */
module WireExamples {
  import opened Wrappers
  import opened Blocks
  import opened BlockJson
  import opened JsonText
  import opened BlockWire

  lemma VerbatimMrkdwn()
    ensures Verbatim("mrkdwn")
  {
  }

  lemma VerbatimHello()
    ensures Verbatim("hello")
  {
  }

  lemma VerbatimWelcome()
    ensures Verbatim("welcome")
  {
  }

  lemma QuoteMrkdwn()
    ensures Quote("mrkdwn") == "\"mrkdwn\""
  {
    VerbatimMrkdwn();
    QuoteVerbatim("mrkdwn");
  }

  lemma QuoteHello()
    ensures Quote("hello") == "\"hello\""
  {
    VerbatimHello();
    QuoteVerbatim("hello");
  }

  lemma QuoteWelcome()
    ensures Quote("welcome") == "\"welcome\""
  {
    VerbatimWelcome();
    QuoteVerbatim("welcome");
  }

  lemma ExampleSectionTextBlock()
    ensures MarshalBlock(NewSectionTextBlock("mrkdwn", "hello"))
         == "{\"type\":\"section\",\"text\":{\"type\":\"mrkdwn\",\"text\":\"hello\"}}"
  {
    SectionTextBlockText("mrkdwn", "hello");
    QuoteMrkdwn();
    QuoteHello();
    JoinSectionHello();
  }

  lemma ExampleHeaderBlock()
    ensures MarshalBlock(NewHeaderBlock("hello"))
         == "{\"type\":\"header\",\"text\":{\"type\":\"plain_text\",\"text\":\"hello\"}}"
  {
    HeaderBlockText("hello");
    QuoteHello();
    JoinHeaderHello();
  }

  lemma ExampleDividerBlock()
    ensures MarshalBlock(NewDividerBlock()) == "{\"type\":\"divider\"}"
  {
    DividerBlockText();
  }

  lemma ExampleField()
    ensures MarshalField(NewField("mrkdwn", "hello")) == "{\"type\":\"mrkdwn\",\"text\":\"hello\"}"
  {
    FieldText("mrkdwn", "hello");
    QuoteMrkdwn();
    QuoteHello();
    JoinFieldHello();
  }

  lemma ExampleSectionWelcome()
    ensures MarshalBlock(NewSectionTextBlock("mrkdwn", "welcome"))
         == "{\"type\":\"section\",\"text\":{\"type\":\"mrkdwn\",\"text\":\"welcome\"}}"
  {
    SectionTextBlockText("mrkdwn", "welcome");
    QuoteMrkdwn();
    QuoteWelcome();
    JoinSectionWelcome();
  }

  lemma ThreeItems(a: Json, b: Json, c: Json)
    ensures SerializeItems([a, b, c]) == Serialize(a) + "," + Serialize(b) + "," + Serialize(c)
  {
    assert [a, b, c][1..] == [b, c];
    assert [b, c][1..] == [c];
    assert SerializeItems([b, c]) == Serialize(b) + "," + Serialize(c);
    assert SerializeItems([a, b, c]) == Serialize(a) + "," + SerializeItems([b, c]);
  }

  /** A response of three blocks: their texts, comma-separated. */
  lemma ThreeBlockResponse(b0: Block, b1: Block, b2: Block)
    ensures Marshal(Response([b0, b1, b2]))
         == "{\"blocks\":[" + (MarshalBlock(b0) + "," + MarshalBlock(b1) + "," + MarshalBlock(b2)) + "]}"
  {
    var bs := [b0, b1, b2];
    ResponseText(Response(bs));
    assert BlocksToJson(bs) == [BlockToJson(b0), BlockToJson(b1), BlockToJson(b2)];
    ThreeItems(BlockToJson(b0), BlockToJson(b1), BlockToJson(b2));
  }

  /** The response example, written as the three block texts it joins. */
  lemma ExampleResponse()
    ensures Marshal(Response([NewHeaderBlock("hello"), NewDividerBlock(), NewSectionTextBlock("mrkdwn", "welcome")]))
         == "{\"blocks\":["
          + ("{\"type\":\"header\",\"text\":{\"type\":\"plain_text\",\"text\":\"hello\"}}"
             + "," + "{\"type\":\"divider\"}"
             + "," + "{\"type\":\"section\",\"text\":{\"type\":\"mrkdwn\",\"text\":\"welcome\"}}")
          + "]}"
  {
    ThreeBlockResponse(NewHeaderBlock("hello"), NewDividerBlock(), NewSectionTextBlock("mrkdwn", "welcome"));
    ExampleHeaderBlock();
    ExampleDividerBlock();
    ExampleSectionWelcome();
  }

  // The literal pieces of each example text, joined. These `Join...` lemmas
  // state no property of the program: they keep the concatenation of long
  // literals apart from the lemmas above, for the verifier's sake.

  lemma JoinSectionHello()
    ensures "{\"type\":\"section\",\"text\":" + ("{\"type\":" + "\"mrkdwn\"" + ",\"text\":" + "\"hello\"" + "}") + "}"
         == "{\"type\":\"section\",\"text\":{\"type\":\"mrkdwn\",\"text\":\"hello\"}}"
  {
  }

  lemma JoinHeaderHello()
    ensures "{\"type\":\"header\",\"text\":" + ("{\"type\":\"plain_text\",\"text\":" + "\"hello\"" + "}") + "}"
         == "{\"type\":\"header\",\"text\":{\"type\":\"plain_text\",\"text\":\"hello\"}}"
  {
  }

  lemma JoinFieldHello()
    ensures "{\"type\":" + "\"mrkdwn\"" + ",\"text\":" + "\"hello\"" + "}" == "{\"type\":\"mrkdwn\",\"text\":\"hello\"}"
  {
  }

  lemma JoinSectionWelcome()
    ensures "{\"type\":\"section\",\"text\":" + ("{\"type\":" + "\"mrkdwn\"" + ",\"text\":" + "\"welcome\"" + "}") + "}"
         == "{\"type\":\"section\",\"text\":{\"type\":\"mrkdwn\",\"text\":\"welcome\"}}"
  {
  }
}
