/** The transcript-preparation handler: it reads an Amazon Transcribe output
    file, keeps only the transcript text, and writes that text plus a
    knowledge-base metadata file next to it under `data/`. */
module PrepareData {
  import opened Wrappers
  import opened Text
  import opened Json

  datatype Input = Input(bucketName: string, transcriptFilePath: string, transcriptFileId: string)

  /** What the S3 GetObject call gives back: an object, with or without a
      body, or a rejected promise. */
  datatype GetReply = Fetched(body: Option<string>) | GetFailed(error: string)

  /** One PutObject request the handler sends. */
  datatype Put = Put(bucket: string, key: string, body: string)

  datatype Outcome = Returned | Threw(error: string)

  /** What one invocation does: the objects it writes, in request order,
      and how it ends. */
  datatype Effects = Effects(writes: seq<Put>, outcome: Outcome)

  const DataPrefix := "data/"
  const MetadataSuffix := ".metadata.json"
  const TranscriptsPath := ["results", "transcripts"]

  const AttributesKey := "metadataAttributes"
  const SourceAttribute := "source"

  /** The metadata file's text around the escaped transcript id. */
  const MetadataOpen := "{\"" + AttributesKey + "\":{\"" + SourceAttribute + "\":\""
  const MetadataClose := "\"}}"

  function DataKey(id: string): string {
    DataPrefix + id
  }

  function MetadataKey(id: string): string {
    DataPrefix + id + MetadataSuffix
  }

  // ---------------------------------------------------------------------------
  // The transcript file's shape

  /** `{ transcript: string }`: the member is present and is a string. */
  predicate HasTranscript(item: Json) {
    Member(item, "transcript").Some? && Member(item, "transcript").value.JStr?
  }

  /** The transcript strings of `items`, or None as soon as one item does
      not have the expected shape. */
  function ChunkTexts(items: seq<Json>): (r: Option<seq<string>>)
    ensures r.Some? <==> forall i :: 0 <= i < |items| ==> HasTranscript(items[i])
    ensures r.Some? ==>
      && |r.value| == |items|
      && forall i :: 0 <= i < |items| ==> Member(items[i], "transcript") == Some(JStr(r.value[i]))
  {
    if |items| == 0 then Some([])
    else
      match Member(items[0], "transcript")
      case Some(JStr(c)) =>
        (match ChunkTexts(items[1..])
          case None => None
          case Some(cs) =>
            assert forall i :: 1 <= i < |items| ==> items[i] == items[1..][i - 1];
            Some([c] + cs))
      case _ => None
  }

  /** The validated `results.transcripts[].transcript` strings of a parsed
      transcript file; None when the document does not have that shape. */
  function TranscriptChunks(doc: Json): (r: Option<seq<string>>)
    ensures r.Some? <==>
      (exists items :: Select(doc, TranscriptsPath) == Some(JArr(items))
                       && forall i :: 0 <= i < |items| ==> HasTranscript(items[i]))
    ensures r.Some? ==>
      && Select(doc, TranscriptsPath).Some? && Select(doc, TranscriptsPath).value.JArr?
      && var items := Select(doc, TranscriptsPath).value.items;
         |r.value| == |items| &&
         forall i :: 0 <= i < |items| ==> Member(items[i], "transcript") == Some(JStr(r.value[i]))
  {
    match Select(doc, TranscriptsPath)
    case Some(JArr(items)) => ChunkTexts(items)
    case _ => None
  }

  // ---------------------------------------------------------------------------
  // The metadata document

  /** `{ metadataAttributes: { source: id } }`. */
  function MetadataDocument(id: string): Json {
    JObj([(AttributesKey, JObj([(SourceAttribute, JStr(id))]))])
  }

  /** A two-level object with plain keys, as `JSON.stringify` writes it. */
  lemma NestedMemberText(outer: string, inner: string, id: string)
    requires forall i :: 0 <= i < |outer| ==> Plain(outer[i])
    requires forall i :: 0 <= i < |inner| ==> Plain(inner[i])
    ensures Stringify(JObj([(outer, JObj([(inner, JStr(id))]))]))
              == "{\"" + outer + "\":{\"" + inner + "\":\"" + Escape(id) + "\"}}"
  {
    var e := Escape(id);
    assert "{" + ("\"" + outer + "\"") + ":" + ("{" + ("\"" + inner + "\"") + ":" + ("\"" + e + "\"") + "}") + "}"
             == "{\"" + outer + "\":{\"" + inner + "\":\"" + e + "\"}}";
    EscapePlain(outer);
    EscapePlain(inner);
    var innerObj := JObj([(inner, JStr(id))]);
    StringifySingleMember(inner, JStr(id));
    var innerText := "{" + Quote(inner) + ":" + Quote(id) + "}";
    assert Stringify(innerObj) == innerText;
    StringifySingleMember(outer, innerObj);
    assert Stringify(JObj([(outer, innerObj)])) == "{" + Quote(outer) + ":" + innerText + "}";
  }

  /** The text `JSON.stringify` produces for the metadata document. */
  lemma MetadataText(id: string)
    ensures Stringify(MetadataDocument(id)) == MetadataOpen + Escape(id) + MetadataClose
  {
    NestedMemberText(AttributesKey, SourceAttribute, id);
  }

  /** The metadata object's body as written: the fixed text around the
      escaped id, which is what `JSON.stringify` makes of the document. */
  function MetadataBody(id: string): (text: string)
    ensures text == Stringify(MetadataDocument(id))
  {
    MetadataText(id);
    MetadataOpen + Escape(id) + MetadataClose
  }

  // ---------------------------------------------------------------------------
  // The handler

  /** `body` is the parts written back to back: its length is their total
      and each part sits, unchanged, right after the parts before it. */
  predicate Concatenates(body: string, parts: seq<string>) {
    && |body| == TotalLength(parts)
    && forall i :: 0 <= i < |parts| ==>
         var at := TotalLength(parts[..i]);
         at + |parts[i]| <= |body| && body[at .. at + |parts[i]|] == parts[i]
  }

  /** The data object's text: the chunks joined with the empty string. */
  function DataBody(chunks: seq<string>): (body: string)
    ensures Concatenates(body, chunks)
  {
    var body := Join(chunks, "");
    assert |body| == TotalLength(chunks) by {
      JoinLength(chunks, "");
    }
    assert forall i :: 0 <= i < |chunks| ==>
             var at := TotalLength(chunks[..i]);
             at + |chunks[i]| <= |body| && body[at .. at + |chunks[i]|] == chunks[i] by {
      forall i | 0 <= i < |chunks|
        ensures var at := TotalLength(chunks[..i]);
                at + |chunks[i]| <= |body| && body[at .. at + |chunks[i]|] == chunks[i]
      {
        JoinEmptyPlacesEachPart(chunks, i);
      }
    }
    body
  }

  /** What a successful run writes for `chunks`: two objects in the input
      bucket, the combined text at the data key and the metadata document at
      the metadata key. */
  predicate WritesTranscript(writes: seq<Put>, input: Input, chunks: seq<string>) {
    && |writes| == 2
    && writes[0].bucket == input.bucketName && writes[1].bucket == input.bucketName
    && writes[0].key == DataKey(input.transcriptFileId)
    && Concatenates(writes[0].body, chunks)
    && writes[1].key == MetadataKey(input.transcriptFileId)
    && writes[1].body == Stringify(MetadataDocument(input.transcriptFileId))
  }

  /** The two PutObject requests, in the order they are sent. */
  function TranscriptWrites(input: Input, chunks: seq<string>): (writes: seq<Put>)
    ensures WritesTranscript(writes, input, chunks)
  {
    var id := input.transcriptFileId;
    var data := Put(input.bucketName, DataKey(id), DataBody(chunks));
    var metadata := Put(input.bucketName, MetadataKey(id), MetadataBody(id));
    [data, metadata]
  }

  /** One invocation. `getObject` is the S3 read, `parseJson` is
      `JSON.parse` (None where it throws). */
  function Handle(input: Input, getObject: (string, string) -> GetReply, parseJson: string -> Option<Json>)
    : (eff: Effects)
    ensures var got := getObject(input.bucketName, input.transcriptFilePath);
      && (got.GetFailed? <==> eff.outcome.Threw?)
      && (got.GetFailed? ==> eff == Effects([], Threw(got.error)))
      && (got == Fetched(None) ==> eff == Effects([], Returned))
      && (eff.writes != [] <==>
            got.Fetched? && got.body.Some? && parseJson(got.body.value).Some?
            && TranscriptChunks(parseJson(got.body.value).value).Some?)
    ensures eff.writes != [] ==>
      && eff.outcome == Returned
      && WritesTranscript(eff.writes, input,
           TranscriptChunks(parseJson(getObject(input.bucketName, input.transcriptFilePath).body.value).value).value)
  {
    match getObject(input.bucketName, input.transcriptFilePath)
    case GetFailed(e) => Effects([], Threw(e))
    case Fetched(None) => Effects([], Returned)
    case Fetched(Some(text)) =>
      match parseJson(text)
      case None => Effects([], Returned)
      case Some(doc) =>
        match TranscriptChunks(doc)
        case None => Effects([], Returned)
        case Some(chunks) => Effects(TranscriptWrites(input, chunks), Returned)
  }

  /** The metadata file records the transcript id so that it can be read
      back: whatever the text holds between the fixed opening and closing
      decodes, as a JSON string literal, to the id. */
  lemma MetadataSourceRoundTrip(id: string, middle: string)
    requires Stringify(MetadataDocument(id)) == MetadataOpen + middle + MetadataClose
    ensures Unescape(middle) == Some(id)
  {
    MetadataText(id);
    var text := MetadataOpen + middle + MetadataClose;
    Framed(MetadataOpen, middle, MetadataClose);
    Framed(MetadataOpen, Escape(id), MetadataClose);
    assert middle == Escape(id);
    UnescapeEscape(id);
  }

  // ---------------------------------------------------------------------------
  // Object keys

  /** The two objects written for one transcript never overwrite each other,
      and both lie under the `data/` prefix. */
  lemma KeysDistinctUnderData(id: string)
    ensures DataKey(id) != MetadataKey(id)
    ensures StartsWith(DataKey(id), DataPrefix) && StartsWith(MetadataKey(id), DataPrefix)
    ensures EndsWith(MetadataKey(id), MetadataSuffix)
  {
    assert |DataKey(id)| < |MetadataKey(id)|;
    assert MetadataKey(id)[..|DataPrefix|] == DataPrefix;
  }

  /** Different transcripts get different data keys and different
      metadata keys. */
  lemma {:induction false} KeysInjective(id1: string, id2: string)
    ensures DataKey(id1) == DataKey(id2) ==> id1 == id2
    ensures MetadataKey(id1) == MetadataKey(id2) ==> id1 == id2
  {
    if DataKey(id1) == DataKey(id2) {
      assert id1 == DataKey(id1)[|DataPrefix|..];
      assert id2 == DataKey(id2)[|DataPrefix|..];
    }
    if MetadataKey(id1) == MetadataKey(id2) {
      var k := MetadataKey(id1);
      assert id1 == k[|DataPrefix| .. |k| - |MetadataSuffix|];
      assert id2 == MetadataKey(id2)[|DataPrefix| .. |k| - |MetadataSuffix|];
    }
  }

  /** Across transcripts the key spaces overlap: the data object of a
      transcript whose id ends in `.metadata.json` is the metadata object of
      the transcript with that suffix removed. */
  lemma DataKeyMeetsMetadataKey(id: string)
    ensures DataKey(id + MetadataSuffix) == MetadataKey(id)
  {
    assert DataPrefix + (id + MetadataSuffix) == DataPrefix + id + MetadataSuffix;
  }
}
