/** The `GET /transcripts` handler: read the transcription rows from
    DynamoDB, check every row's shape, and list them as `{id, fileName}`. */
module GetTranscripts {
  import opened Wrappers
  import opened Json
  import opened ApiGateway

  /** A key-condition query `pk = value` on the table. */
  datatype Query = Query(keyName: string, keyValue: string)

  const TranscriptionsQuery := Query("pk", "transcription")

  /** The query's `Items`, possibly absent, or a rejected promise. */
  datatype QueryReply = Items(items: Option<seq<Json>>) | QueryFailed(error: string)

  /** One listed transcript. */
  datatype Row = Row(id: string, fileName: string)

  const MalformedEntries := "Malformed entries"

  /** `{ sk: string, fileName: string }` mapped to `{ id: sk, fileName }`. */
  function RowOf(item: Json): (r: Option<Row>)
    ensures r.Some? <==> (exists sk, name :: Member(item, "sk") == Some(JStr(sk))
                                          && Member(item, "fileName") == Some(JStr(name)))
    ensures r.Some? ==> Member(item, "sk") == Some(JStr(r.value.id))
                        && Member(item, "fileName") == Some(JStr(r.value.fileName))
  {
    match (Member(item, "sk"), Member(item, "fileName"))
    case (Some(JStr(sk)), Some(JStr(name))) => Some(Row(sk, name))
    case _ => None
  }

  /** All rows or nothing: None as soon as one item is malformed. */
  function ParseRows(items: seq<Json>): (r: Option<seq<Row>>)
    ensures r.Some? <==> forall i :: 0 <= i < |items| ==> RowOf(items[i]).Some?
    ensures r.Some? ==>
      && |r.value| == |items|
      && forall i :: 0 <= i < |items| ==>
           Member(items[i], "sk") == Some(JStr(r.value[i].id))
           && Member(items[i], "fileName") == Some(JStr(r.value[i].fileName))
  {
    if |items| == 0 then Some([])
    else
      match RowOf(items[0])
      case None => None
      case Some(row) =>
        (match ParseRows(items[1..])
          case None => None
          case Some(rows) =>
            assert forall i :: 1 <= i < |items| ==> items[i] == items[1..][i - 1];
            Some([row] + rows))
  }

  function RowJson(row: Row): (j: Json)
    ensures j.JObj? && |j.fields| == 2
    ensures Member(j, "id") == Some(JStr(row.id)) && Member(j, "fileName") == Some(JStr(row.fileName))
  {
    var fs := [("id", JStr(row.id)), ("fileName", JStr(row.fileName))];
    assert fs[..1] == [fs[0]];
    JObj(fs)
  }

  /** The listed entries, one `{id, fileName}` object per row, in order,
      with no other member (the schema's transform builds a fresh object). */
  function Listing(rows: seq<Row>): (listed: seq<Json>)
    ensures |listed| == |rows|
    ensures forall i :: 0 <= i < |rows| ==>
              listed[i].JObj? && |listed[i].fields| == 2
              && Member(listed[i], "id") == Some(JStr(rows[i].id))
              && Member(listed[i], "fileName") == Some(JStr(rows[i].fileName))
  {
    seq(|rows|, i requires 0 <= i < |rows| => RowJson(rows[i]))
  }

  /** One invocation; `query` is the DynamoDB call. */
  function Handle(query: Query -> QueryReply): (res: HandlerResult)
    ensures query(TranscriptionsQuery).QueryFailed? <==> res.Threw?
    ensures query(TranscriptionsQuery).QueryFailed? ==> res == Threw(query(TranscriptionsQuery).error)
    ensures query(TranscriptionsQuery).Items? ==>
      var items := query(TranscriptionsQuery).items.GetOr([]);
      && ((exists i :: 0 <= i < |items| && RowOf(items[i]).None?) <==>
            res == Answered(ErrorResponse(ServerError, MalformedEntries)))
      && ((forall i :: 0 <= i < |items| ==> RowOf(items[i]).Some?) <==> AnsweredWith(res, Ok))
    ensures query(TranscriptionsQuery) == Items(None) ==>
      res == Answered(Response(Ok, JObj([("transcripts", JArr([]))])))
    ensures AnsweredWith(res, Ok) ==>
      var items := query(TranscriptionsQuery).items.GetOr([]);
      && res.response.body.JObj? && |res.response.body.fields| == 1
      && Member(res.response.body, "transcripts").Some?
      && Member(res.response.body, "transcripts").value.JArr?
      && var listed := Member(res.response.body, "transcripts").value.items;
         |listed| == |items|
         && forall i :: 0 <= i < |items| ==>
              listed[i].JObj? && |listed[i].fields| == 2
              && Member(listed[i], "id") == Member(items[i], "sk")
              && Member(listed[i], "fileName") == Member(items[i], "fileName")
  {
    match query(TranscriptionsQuery)
    case QueryFailed(e) => Threw(e)
    case Items(found) =>
      var items := found.GetOr([]);
      match ParseRows(items)
      case None => Answered(ErrorResponse(ServerError, MalformedEntries))
      case Some(rows) =>
        var listed := Listing(rows);
        Answered(Response(Ok, JObj([("transcripts", JArr(listed))])))
  }

  /** The handler asks only for the `transcription` partition: two tables
      that answer that query alike give the same response. */
  lemma OnlyTranscriptionPartitionRead(q1: Query -> QueryReply, q2: Query -> QueryReply)
    requires q1(TranscriptionsQuery) == q2(TranscriptionsQuery)
    ensures Handle(q1) == Handle(q2)
  {
  }
}
