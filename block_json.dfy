/** The wire form of a reply, as Go's `encoding/json` writes it from the
    struct tags of the block types: a block always has `"type"`, then
    `"text"` only when it has a text element and `"fields"` only when it has
    at least one field (the `omitempty` tags); a response always has
    `"blocks"`. Marshalling is split in two: the tree of JSON values the tags
    describe, then its text. */
module BlockJson {
  import opened Wrappers
  import opened Blocks

  /** The JSON values the block types marshal to. */
  datatype Json = JString(str: string) | JArray(items: seq<Json>) | JObject(members: seq<Member>)

  /** One `"key": value` member of an object, kept in field order. */
  datatype Member = Member(key: string, value: Json)

  function Keys(ms: seq<Member>): (ks: seq<string>)
    ensures |ks| == |ms| && forall i :: 0 <= i < |ms| ==> ks[i] == ms[i].key
  {
    seq(|ms|, i requires 0 <= i < |ms| => ms[i].key)
  }

  /** The first member with the given key. This is the model's own reading
      of an object; the trees `BlockToJson` builds never repeat a key, so
      which duplicate wins does not arise. */
  function Lookup(ms: seq<Member>, key: string): (v: Option<Json>)
    ensures v.Some? <==> key in Keys(ms)
    decreases |ms|
  {
    if |ms| == 0 then None
    else if ms[0].key == key then Some(ms[0].value)
    else
      var v := Lookup(ms[1..], key);
      assert Keys(ms) == [ms[0].key] + Keys(ms[1..]);
      v
  }

  // ---------------------------------------------------------------------------
  // From blocks to JSON values

  function TextToJson(t: BlockText): Json {
    JObject([Member("type", JString(t.textType)), Member("text", JString(t.text))])
  }

  function FieldToJson(f: BlockField): Json {
    JObject([Member("type", JString(f.fieldType)), Member("text", JString(f.text))])
  }

  function FieldsToJson(fs: seq<BlockField>): (items: seq<Json>)
    ensures |items| == |fs|
    ensures forall i :: 0 <= i < |fs| ==> items[i] == FieldToJson(fs[i])
  {
    seq(|fs|, i requires 0 <= i < |fs| => FieldToJson(fs[i]))
  }

  /** A block as an object: `type`, then `text` and `fields` only when
      present and non-empty. */
  function BlockToJson(b: Block): Json {
    JObject(
      [Member("type", JString(b.blockType))]
      + (if b.text.Some? then [Member("text", TextToJson(b.text.value))] else [])
      + (if |b.fields| > 0 then [Member("fields", JArray(FieldsToJson(b.fields)))] else []))
  }

  function BlocksToJson(bs: seq<Block>): (items: seq<Json>)
    ensures |items| == |bs|
    ensures forall i :: 0 <= i < |bs| ==> items[i] == BlockToJson(bs[i])
  {
    seq(|bs|, i requires 0 <= i < |bs| => BlockToJson(bs[i]))
  }

  /** A response as an object with its one `blocks` member. */
  function ResponseToJson(r: Response): Json {
    JObject([Member("blocks", JArray(BlocksToJson(r.blocks)))])
  }

  /** The `omitempty` tags: the keys of a marshalled block are `type`,
      followed by `text` exactly when the block has a text element and by
      `fields` exactly when it has at least one field. */
  lemma OmitEmpty(b: Block)
    ensures BlockToJson(b).JObject?
    ensures Keys(BlockToJson(b).members)
         == ["type"] + (if b.text.Some? then ["text"] else []) + (if |b.fields| > 0 then ["fields"] else [])
    ensures "text" in Keys(BlockToJson(b).members) <==> b.text.Some?
    ensures "fields" in Keys(BlockToJson(b).members) <==> |b.fields| > 0
  {
    var ms := BlockToJson(b).members;
    var ks := ["type"] + (if b.text.Some? then ["text"] else []) + (if |b.fields| > 0 then ["fields"] else []);
    assert |Keys(ms)| == |ks|;
    assert Keys(ms) == ks;
  }

  // ---------------------------------------------------------------------------
  // Reading JSON values back, with missing members taking their zero value

  function StringMember(ms: seq<Member>, key: string): Option<string> {
    match Lookup(ms, key)
    case Some(JString(s)) => Some(s)
    case _ => None
  }

  function TextFromJson(j: Json): Option<BlockText> {
    if !j.JObject? then None
    else
      match (StringMember(j.members, "type"), StringMember(j.members, "text"))
      case (Some(t), Some(s)) => Some(BlockText(t, s))
      case _ => None
  }

  function FieldFromJson(j: Json): Option<BlockField> {
    match TextFromJson(j)
    case Some(t) => Some(BlockField(t.textType, t.text))
    case None => None
  }

  function FieldsFromJson(items: seq<Json>): Option<seq<BlockField>>
    decreases |items|
  {
    if |items| == 0 then Some([])
    else
      match (FieldFromJson(items[0]), FieldsFromJson(items[1..]))
      case (Some(f), Some(fs)) => Some([f] + fs)
      case _ => None
  }

  function BlockFromJson(j: Json): Option<Block> {
    if !j.JObject? then None
    else
      var ms := j.members;
      var text: Option<Option<BlockText>> :=
        match Lookup(ms, "text")
        case None => Some(None)
        case Some(v) => (match TextFromJson(v) case Some(t) => Some(Some(t)) case None => None);
      var fields: Option<seq<BlockField>> :=
        match Lookup(ms, "fields")
        case None => Some([])
        case Some(JArray(items)) => FieldsFromJson(items)
        case Some(_) => None;
      match (StringMember(ms, "type"), text, fields)
      case (Some(ty), Some(t), Some(fs)) => Some(Block(ty, t, fs))
      case _ => None
  }

  function BlocksFromJson(items: seq<Json>): Option<seq<Block>>
    decreases |items|
  {
    if |items| == 0 then Some([])
    else
      match (BlockFromJson(items[0]), BlocksFromJson(items[1..]))
      case (Some(b), Some(bs)) => Some([b] + bs)
      case _ => None
  }

  function ResponseFromJson(j: Json): Option<Response> {
    if !j.JObject? then None
    else
      match Lookup(j.members, "blocks")
      case Some(JArray(items)) =>
        (match BlocksFromJson(items) case Some(bs) => Some(Response(bs)) case None => None)
      case _ => None
  }

  lemma TextRoundTrip(t: BlockText)
    ensures TextFromJson(TextToJson(t)) == Some(t)
    ensures FieldFromJson(TextToJson(t)) == Some(BlockField(t.textType, t.text))
  {
    var ms := TextToJson(t).members;
    assert Lookup(ms, "type") == Some(JString(t.textType));
    assert Lookup(ms, "text") == Some(JString(t.text));
  }

  lemma {:induction false} FieldsRoundTrip(fs: seq<BlockField>)
    ensures FieldsFromJson(FieldsToJson(fs)) == Some(fs)
    decreases |fs|
  {
    if |fs| > 0 {
      FieldsRoundTrip(fs[1..]);
      TextRoundTrip(BlockText(fs[0].fieldType, fs[0].text));
      assert FieldToJson(fs[0]) == TextToJson(BlockText(fs[0].fieldType, fs[0].text));
      assert FieldsToJson(fs)[1..] == FieldsToJson(fs[1..]);
      assert fs == [fs[0]] + fs[1..];
    }
  }

  /** Nothing is lost by omitting empty members: reading a marshalled block
      back gives the block. */
  lemma BlockRoundTrip(b: Block)
    ensures BlockFromJson(BlockToJson(b)) == Some(b)
  {
    LookupBlockType(b);
    LookupBlockText(b);
    LookupBlockFields(b);
    if b.text.Some? {
      TextRoundTrip(b.text.value);
    }
    if |b.fields| > 0 {
      FieldsRoundTrip(b.fields);
    }
  }

  lemma LookupBlockType(b: Block)
    ensures Lookup(BlockToJson(b).members, "type") == Some(JString(b.blockType))
  {
  }

  lemma LookupBlockText(b: Block)
    ensures Lookup(BlockToJson(b).members, "text")
         == if b.text.Some? then Some(TextToJson(b.text.value)) else None
  {
    var ms := BlockToJson(b).members;
    OmitEmpty(b);
    if b.text.Some? {
      assert ms[1].key == "text";
    }
  }

  lemma LookupBlockFields(b: Block)
    ensures Lookup(BlockToJson(b).members, "fields")
         == if |b.fields| > 0 then Some(JArray(FieldsToJson(b.fields))) else None
  {
    var ms := BlockToJson(b).members;
    OmitEmpty(b);
    if |b.fields| > 0 {
      var k := |ms| - 1;
      assert ms[k] == Member("fields", JArray(FieldsToJson(b.fields)));
      LookupLast(ms, "fields");
    }
  }

  /** A key found only in the last member is looked up there. */
  lemma {:induction false} LookupLast(ms: seq<Member>, key: string)
    requires |ms| > 0 && ms[|ms| - 1].key == key
    requires forall i :: 0 <= i < |ms| - 1 ==> ms[i].key != key
    ensures Lookup(ms, key) == Some(ms[|ms| - 1].value)
    decreases |ms|
  {
    if |ms| > 1 {
      LookupLast(ms[1..], key);
    }
  }

  lemma {:induction false} BlocksRoundTrip(bs: seq<Block>)
    ensures BlocksFromJson(BlocksToJson(bs)) == Some(bs)
    decreases |bs|
  {
    if |bs| > 0 {
      BlockRoundTrip(bs[0]);
      BlocksRoundTrip(bs[1..]);
      assert BlocksToJson(bs)[1..] == BlocksToJson(bs[1..]);
      assert bs == [bs[0]] + bs[1..];
    }
  }

  /** Reading a marshalled response back gives the response. */
  lemma ResponseRoundTrip(r: Response)
    ensures ResponseFromJson(ResponseToJson(r)) == Some(r)
  {
    BlocksRoundTrip(r.blocks);
  }
}
