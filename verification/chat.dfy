/** The `POST /transcripts/{id}/chat` handler: validate the path and the
    body, then ask the knowledge base a question restricted to one
    transcript's documents. */
module ChatWithTranscript {
  import opened Wrappers
  import opened Json
  import opened ApiGateway

  /** The parts of the API Gateway event the handler reads. */
  datatype Event = Event(pathParameters: Option<Json>, body: Option<string>)

  /** `KNOWLEDGE_BASE_ID` and `MODEL_ARN`, which may be unset. */
  datatype Env = Env(knowledgeBaseId: Option<string>, modelArn: Option<string>)

  /** A metadata filter `equals { key, value }`. */
  datatype Filter = Equals(key: string, value: string)

  /** The retrieve-and-generate request. */
  datatype RagRequest = RagRequest(inputText: string, configurationType: string,
                                   knowledgeBaseId: Option<string>, modelArn: Option<string>,
                                   numberOfResults: nat, filter: Filter)

  /** The model's answer (`output?.text`, possibly absent) or a rejection. */
  datatype RagReply = Generated(outputText: Option<string>) | RagFailed(error: string)

  const MalformedPath := "Malformed path parameters"
  const MalformedBody := "Malformed body"
  const KnowledgeBaseType := "KNOWLEDGE_BASE"
  const NumberOfResults := 5
  const SourceKey := "source"

  /** `pathParameters` as `{ id: string }`. */
  function PathId(event: Event): (r: Option<string>)
    ensures r.Some? <==> event.pathParameters.Some? && Member(event.pathParameters.value, "id").Some?
                         && Member(event.pathParameters.value, "id").value.JStr?
    ensures r.Some? ==> Member(event.pathParameters.value, "id") == Some(JStr(r.value))
  {
    match event.pathParameters
    case None => None
    case Some(p) =>
      match Member(p, "id")
      case Some(JStr(id)) => Some(id)
      case _ => None
  }

  /** The body as a JSON string holding `{ text: string }`. */
  function BodyText(event: Event, parseJson: string -> Option<Json>): (r: Option<string>)
    ensures r.Some? <==> event.body.Some? && parseJson(event.body.value).Some?
                         && Member(parseJson(event.body.value).value, "text").Some?
                         && Member(parseJson(event.body.value).value, "text").value.JStr?
    ensures r.Some? ==> Member(parseJson(event.body.value).value, "text") == Some(JStr(r.value))
  {
    match event.body
    case None => None
    case Some(b) =>
      match parseJson(b)
      case None => None
      case Some(doc) =>
        match Member(doc, "text")
        case Some(JStr(t)) => Some(t)
        case _ => None
  }

  /** The request for question `text` about transcript `id`. */
  function ChatRequest(env: Env, id: string, text: string): (q: RagRequest)
    ensures q.filter == Equals(SourceKey, id) && q.inputText == text
    ensures q.numberOfResults == 5 && q.configurationType == "KNOWLEDGE_BASE"
    ensures q.knowledgeBaseId == env.knowledgeBaseId && q.modelArn == env.modelArn
  {
    RagRequest(text, KnowledgeBaseType, env.knowledgeBaseId, env.modelArn, NumberOfResults, Equals(SourceKey, id))
  }

  /** `{ text: output?.text }`; `JSON.stringify` drops the member when the
      value is undefined. */
  function AnswerBody(output: Option<string>): (j: Json)
    ensures output.Some? ==> Member(j, "text") == Some(JStr(output.value))
    ensures output.None? ==> j == JObj([])
  {
    match output
    case None => JObj([])
    case Some(t) => JObj([("text", JStr(t))])
  }

  /** One invocation; `rag` is the Bedrock call. */
  function Handle(env: Env, event: Event, parseJson: string -> Option<Json>, rag: RagRequest -> RagReply)
    : (res: HandlerResult)
    ensures PathId(event).None? ==> res == Answered(ErrorResponse(BadRequest, MalformedPath))
    ensures PathId(event).Some? && BodyText(event, parseJson).None? ==>
              res == Answered(ErrorResponse(BadRequest, MalformedBody))
    ensures PathId(event).Some? && BodyText(event, parseJson).Some? ==>
              var reply := rag(ChatRequest(env, PathId(event).value, BodyText(event, parseJson).value));
              && (reply.RagFailed? ==> res == Threw(reply.error))
              && (reply.Generated? ==> res == Answered(Response(Ok, AnswerBody(reply.outputText))))
    ensures AnsweredWith(res, Ok) <==>
      && PathId(event).Some? && BodyText(event, parseJson).Some?
      && rag(ChatRequest(env, PathId(event).value, BodyText(event, parseJson).value)).Generated?
  {
    match PathId(event)
    case None => Answered(ErrorResponse(BadRequest, MalformedPath))
    case Some(id) =>
      match BodyText(event, parseJson)
      case None => Answered(ErrorResponse(BadRequest, MalformedBody))
      case Some(text) =>
        match rag(ChatRequest(env, id, text))
        case RagFailed(e) => Threw(e)
        case Generated(output) => Answered(Response(Ok, AnswerBody(output)))
  }

  /** The path is checked before the body: with a bad path the answer is the
      same whatever the body is. */
  lemma PathCheckedFirst(env: Env, e1: Event, e2: Event, parseJson: string -> Option<Json>,
                         rag: RagRequest -> RagReply)
    requires e1.pathParameters == e2.pathParameters && PathId(e1).None?
    ensures Handle(env, e1, parseJson, rag) == Handle(env, e2, parseJson, rag)
    ensures Handle(env, e1, parseJson, rag).response.body == JObj([("message", JStr(MalformedPath))])
  {
  }

  /** Only valid requests reach the model, and the model sees nothing but
      the one request: two models that answer it alike give the same
      response, and any model gives the same response to an invalid one. */
  lemma OnlyChatRequestReachesModel(env: Env, event: Event, parseJson: string -> Option<Json>,
                                    rag1: RagRequest -> RagReply, rag2: RagRequest -> RagReply)
    requires PathId(event).Some? && BodyText(event, parseJson).Some? ==>
      var q := ChatRequest(env, PathId(event).value, BodyText(event, parseJson).value);
      rag1(q) == rag2(q)
    ensures Handle(env, event, parseJson, rag1) == Handle(env, event, parseJson, rag2)
  {
  }

  /** The successful response's text as sent: `{"text":"<escaped answer>"}`. */
  lemma AnswerText(t: string)
    ensures Stringify(AnswerBody(Some(t))) == "{\"text\":\"" + Escape(t) + "\"}"
  {
    var e := Escape(t);
    assert "{\"" + "text" + "\":\"" + e + "\"}" == "{\"text\":\"" + e + "\"}";
    assert AnswerBody(Some(t)) == JObj([("text", JStr(t))]);
    StringMemberText("text", t);
  }
}
