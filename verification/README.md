# bedrock-video-rag: the media pipeline and its handlers, in Dafny

This project models the behavioural core of the bedrock-video-rag system and
proves properties of that model. In that system:

- An S3 upload of an `.mp4` or `.m4a` file matches an EventBridge rule.
- The rule starts a Step Functions state machine. The state machine
  transcribes the media with Amazon Transcribe and polls until the
  transcription job ends.
- Athena then concatenates the transcript chunks with an UNLOAD to the
  location `data/<execution name>`, under which it writes files of its own
  naming.
- A Bedrock knowledge-base ingestion job is started and polled.
- Two HTTP handlers list the stored transcripts and answer questions about
  one transcript through retrieve-and-generate.
- A preparation handler does in TypeScript what the Athena step does: it
  writes the combined transcript text plus a metadata file.

## Modules

| file | module | what it holds |
|---|---|---|
| `wrappers.dfy` | `Wrappers` | `Option` |
| `text.dfy` | `Text` | prefixes, suffixes, `join`, and where each joined part lands |
| `json.dfy` | `Json` | JSON values and member lookup (the last duplicate wins). `JSON.stringify` with string escaping, and a string-literal decoder as its reference inverse |
| `workflow.dfy` | `MediaWorkflow` | the `MediaStateMachine` as an Amazon States Language transition system. States, `Next` edges, Choice rules, `States.Format`, each task's request, `resultSelector`s, one-step semantics, runs |
| `workflow_props.dfy` | `MediaWorkflowProperties` | routing of the two Choice states, the shape of the graph, facts about runs, job identity across polling |
| `workflow_scenarios.dfy` | `MediaWorkflowScenarios` | two complete concrete runs: a success, and a failed transcription |
| `trigger.dfy` | `MediaTrigger` | the `MediaBusRule` event pattern and its input transformer |
| `prepare.dfy` | `PrepareData` | the prepare-data-for-bedrock handler |
| `api.dfy` | `ApiGateway` | proxy responses and status codes |
| `transcripts.dfy` | `GetTranscripts` | the get-transcripts handler |
| `chat.dfy` | `ChatWithTranscript` | the chat-with-transcript handler |
| `pipeline.dfy` | `Pipeline` | how the pieces connect: keys, prefixes and the `source` filter |

External calls are parameters of the functions that make them:

- S3 GetObject, the DynamoDB query and Bedrock retrieve-and-generate are
  function parameters.
- `JSON.parse` is a parameter returning `None` where it throws.
- Each task's service reply is one element of a reply sequence that drives
  a run.

### Behaviour of the deployed code worth knowing

- **A failed transcription is not a failed execution.** `TranscriptionFailed`
  and `BedrockIngestionFailed` are plain `Pass` states without `Next`. An
  execution that reaches them ends SUCCEEDED, with its input as output.
- **No retries and no catchers.** No task declares either, so any task error
  ends the execution as FAILED at that task.
- **Task output replaces the data.** No task sets `resultPath`, so each task's
  output is exactly its `resultSelector` object. Earlier keys are dropped, not
  accumulated. The Athena task has no selector, so its output is the whole
  query reply.
- **The transcription check needs the transcript URI on every poll.** Its
  selector reads `$.TranscriptionJob.Transcript.TranscriptFileUri`. A reply
  without that path is a `States.Runtime` failure even while the job is still
  in progress.
- **The state machine never invokes the prepare handler.** The Athena UNLOAD
  writes the combined text instead.
- **The chat filter admits only prepared documents.** The UNLOAD writes no
  `.metadata.json` file next to its output under `data/<execution name>`.
  So the `source = <id>` filter can admit only documents that the prepare
  handler wrote, and nothing in the deployed pipeline invokes that handler.
  `Pipeline.ChatRetrievesOwnTranscript` is about those documents.

## Model

| member | source | states |
|---|---|---|
| MediaWorkflow.NextOf | lib/bedrock-video-rag-stack.ts:418-466 | exactly the Task and Wait states have a `Next`; Choice states route by rules and Pass states end the run |
| MediaWorkflowProperties.SuccessorsAreEdges | lib/bedrock-video-rag-stack.ts:418-466 | the edges induced by the `.next` chains and the Choice rules are exactly the drawn graph, state by state |
| MediaWorkflow.DecideFirstMatch | lib/bedrock-video-rag-stack.ts:440-448 | Choice rules are evaluated in declared order. The first rule that does not pass over decides: a match takes its target, an absent status path is `NoPath`, and `otherwise` is taken when every rule passes over |
| MediaWorkflow.DecideTargets | lib/bedrock-video-rag-stack.ts:397-408 | a Choice only goes to a declared rule target or to its `otherwise` |
| MediaWorkflowProperties.TranscriptionChoiceRoutes | lib/bedrock-video-rag-stack.ts:440-462 | `COMPLETED` goes to Athena, `FAILED` to `TranscriptionFailed`, any other status to the Wait, and a missing status is a runtime error; each in both directions |
| MediaWorkflowProperties.IngestionChoiceRoutes | lib/bedrock-video-rag-stack.ts:397-422 | `COMPLETE` goes to success, `FAILED` to `BedrockIngestionFailed`, any other status to the Wait, and a missing status is a runtime error; each in both directions |
| MediaWorkflowProperties.StatusVocabulariesDiffer | lib/bedrock-video-rag-stack.ts:397-403 | an ingestion status `COMPLETED` keeps polling, and so does a transcription status `COMPLETE` |
| MediaWorkflowProperties.TerminalStates | lib/bedrock-video-rag-stack.ts:382-390 | the states without successors are exactly the Pass states, and those are exactly the three named terminals |
| MediaWorkflowProperties.PollingLoops | lib/bedrock-video-rag-stack.ts:418-422 | each polling loop is Wait → Check → Choice, and the Choice leads back to its Wait or to that loop's two exits |
| MediaWorkflowProperties.EdgeRaisesRank | lib/bedrock-video-rag-stack.ts:426-466 | every edge that does not enter a Wait state moves forward in a fixed topological order |
| MediaWorkflowProperties.CycleHasWait | lib/bedrock-video-rag-stack.ts:458-462 | every cycle of the graph passes through a Wait state |
| MediaWorkflowProperties.RevisitPassesWait | lib/bedrock-video-rag-stack.ts:450-462 | a run that returns to a state it visited before has passed a Wait state in between |
| MediaWorkflow.FormatTwoHoles | lib/bedrock-video-rag-stack.ts:224-238 | `States.Format` fills the two `{}` placeholders of a brace-free template with its two arguments, in order |
| MediaWorkflow.StartTranscriptionRequestBuilt | lib/bedrock-video-rag-stack.ts:222-238 | the start task requests the media `s3://<bucket>/<key>`, the execution name as job name, `en-US`, and the output key `transcriptions/<name>.json`; it fails when either input field is not a string |
| MediaWorkflow.ApplySelector | lib/bedrock-video-rag-stack.ts:244-251 | a `resultSelector` builds one member per entry, in order, holding the value at that entry's path; it fails exactly when some path is absent |
| MediaWorkflowProperties.CheckWithoutTranscriptUriFails | lib/bedrock-video-rag-stack.ts:267-277 | a transcription check whose reply lacks `Transcript.TranscriptFileUri` fails the run with `States.Runtime` |
| MediaWorkflow.Step | lib/bedrock-video-rag-stack.ts:214-466 | a step moves along a graph edge, succeeds exactly at a Pass state (its input becomes its output), and leaves an error at the state it stands on. A Wait moves to its `Next` with its input unchanged |
| MediaWorkflow.TaskStep | lib/bedrock-video-rag-stack.ts:214-380 | with no retry or catcher, a task fails with `States.Runtime` when a request path or a selector path is absent, and with the service's error when the call errors. It continues exactly when the request is built, the reply is an answer and every selector path is present. It then goes to its `Next` with exactly its output as the new data: the whole reply when it has no selector, else one member per selector entry, in order, holding the value at that entry's path. The task's input is not kept, because no task sets `resultPath` |
| MediaWorkflow.Execute | lib/bedrock-video-rag-stack.ts:464-466 | running from a state with a reply sequence yields a run that starts there and is a trace of the state machine |
| MediaWorkflow.TraceCons | lib/bedrock-video-rag-stack.ts:464-466 | a run extended at the front by a step into its first state is a run |
| MediaWorkflowProperties.TraceIsExecute | lib/bedrock-video-rag-stack.ts:464-466 | a run is determined by its first state and its replies |
| MediaWorkflowProperties.EdgePhase | lib/bedrock-video-rag-stack.ts:426-448 | edges never go back a stage, and the only edge into the Athena/ingestion half leaves the transcription choice for Athena |
| MediaWorkflowProperties.StepPhase | lib/bedrock-video-rag-stack.ts:426-448 | a step into the ingestion half is the `COMPLETED` branch of the transcription choice, and it hands its input on unchanged |
| MediaWorkflowProperties.PhaseNeverDecreases | lib/bedrock-video-rag-stack.ts:426-466 | along a run the stage never decreases |
| MediaWorkflowProperties.IngestionRequiresCompletedTranscription | lib/bedrock-video-rag-stack.ts:426-448 | a run in the Athena/ingestion half earlier passed a transcription choice whose status was `COMPLETED`, and that choice stepped to Athena |
| MediaWorkflowProperties.IngestionStartFollowsAthena | lib/bedrock-video-rag-stack.ts:426-428 | `StartBedrockDataIngestionTask` is entered only from the Athena task |
| MediaWorkflowProperties.FailedTranscriptionNeverIngests | lib/bedrock-video-rag-stack.ts:430-448 | once the transcription status is `FAILED`, the run goes to `TranscriptionFailed` and succeeds there one step later. It never reaches Athena or ingestion, before or after |
| MediaWorkflowProperties.LoopStepKeepsJob | lib/bedrock-video-rag-stack.ts:264-277 | one step inside a polling loop keeps the job identifier (`jobName`/`jobId`) when the service answers about the job it was asked about |
| MediaWorkflowProperties.TranscriptionCheckKeepsJob | lib/bedrock-video-rag-stack.ts:264-277 | the transcription check re-emits the `jobName` it queried |
| MediaWorkflowProperties.IngestionCheckKeepsJob | lib/bedrock-video-rag-stack.ts:367-378 | the ingestion check re-emits the `jobId` it queried |
| MediaWorkflowProperties.PollingKeepsJob | lib/bedrock-video-rag-stack.ts:341-378 | every visit to one polling loop in a run carries the same job identifier |
| MediaWorkflowProperties.PollingQueriesOneJob | lib/bedrock-video-rag-stack.ts:264-265 | every status check of one polling loop in a run sends the same request |
| MediaWorkflowProperties.TranscriptionPollsExecutionJob | lib/bedrock-video-rag-stack.ts:230-231 | with answering services, every transcription check asks about the job named after the execution |
| MediaWorkflowScenarios.UploadRunsToIngestionSuccess | lib/bedrock-video-rag-stack.ts:214-466 | a concrete upload goes through transcription polling, Athena and ingestion polling, and ends succeeded at `BedrockIngestionSuccessful` after 14 states |
| MediaWorkflowScenarios.FailedTranscriptionRun | lib/bedrock-video-rag-stack.ts:430-448 | a concrete run whose transcription fails ends at `TranscriptionFailed` after 6 states, without entering the ingestion half |
| MediaTrigger.MediaPatternAdmits | lib/bedrock-video-rag-stack.ts:162-173 | the event pattern matches exactly: source `aws.s3`, detail type `Object Created`, the media bucket, and a string key ending in `.mp4` or `.m4a` |
| MediaTrigger.Trigger | lib/bedrock-video-rag-stack.ts:160-185 | an event is delivered exactly when the pattern admits it, and then as `{bucketName, objectKey}` taken from the event |
| MediaTrigger.TriggerReadsOnlyPattern | lib/bedrock-video-rag-stack.ts:162-183 | two events that agree on the four pattern paths are delivered alike |
| PrepareData.ChunkTexts | functions/prepare-data-for-bedrock/handler.ts:17-21 | every transcript item is an object with a string `transcript`, or the whole file is rejected; the chunks keep count and order |
| PrepareData.TranscriptChunks | functions/prepare-data-for-bedrock/handler.ts:17-23 | a parsed file is accepted exactly when `results.transcripts` is an array of well-formed items, and the chunks are those items' strings |
| PrepareData.DataBody | functions/prepare-data-for-bedrock/handler.ts:54-56 | the data text is the chunks back to back: its length is their total, and each chunk sits unchanged after the ones before it |
| PrepareData.MetadataText | functions/prepare-data-for-bedrock/handler.ts:73-77 | the metadata body is `{"metadataAttributes":{"source":"<escaped id>"}}` |
| PrepareData.MetadataBody | functions/prepare-data-for-bedrock/handler.ts:73-77 | the fixed text around the escaped id is what `JSON.stringify` makes of the metadata document |
| PrepareData.MetadataSourceRoundTrip | functions/prepare-data-for-bedrock/handler.ts:73-77 | whatever sits between the metadata text's fixed opening and closing decodes back to the transcript id |
| Json.UnescapeEscape | functions/prepare-data-for-bedrock/handler.ts:73-77 | decoding the body of a string literal that `JSON.stringify` wrote gives back the original string |
| PrepareData.TranscriptWrites | functions/prepare-data-for-bedrock/handler.ts:58-80 | exactly two writes, both to the input bucket: the combined text at `data/<id>`, then the metadata document at `data/<id>.metadata.json` |
| PrepareData.Handle | functions/prepare-data-for-bedrock/handler.ts:25-81 | a failed read rejects with no writes; a missing body, unparsable JSON or a bad shape returns with no writes; otherwise the two transcript writes happen and it returns |
| PrepareData.KeysDistinctUnderData | functions/prepare-data-for-bedrock/handler.ts:58-59 | the data key and the metadata key differ, both start with `data/`, and the metadata key ends in `.metadata.json` |
| PrepareData.KeysInjective | functions/prepare-data-for-bedrock/handler.ts:58-59 | different transcript ids get different data keys and different metadata keys |
| PrepareData.DataKeyMeetsMetadataKey | functions/prepare-data-for-bedrock/handler.ts:58-59 | across ids the key spaces overlap: the data key of `<id>.metadata.json` is the metadata key of `<id>` |
| GetTranscripts.RowOf | functions/get-transcripts/handler.ts:8-20 | an item is accepted exactly when `sk` and `fileName` are strings, and it maps to `{id: sk, fileName}` |
| GetTranscripts.ParseRows | functions/get-transcripts/handler.ts:8-20 | all items are accepted or none, and the accepted rows keep count, order and contents |
| GetTranscripts.Listing | functions/get-transcripts/handler.ts:14-19 | one object per row, in order, with exactly two members: `id` holding the row's `sk` and `fileName` |
| GetTranscripts.Handle | functions/get-transcripts/handler.ts:22-49 | a rejected query throws. A malformed item gives 500 `Malformed entries`, and 200 comes exactly when all items are well-formed. Absent `Items` gives 200 with an empty list. A 200 body is an object with the single member `transcripts`, listing per item, in order, an object with exactly the two members `id` (the item's `sk`) and `fileName` |
| GetTranscripts.OnlyTranscriptionPartitionRead | functions/get-transcripts/handler.ts:23-34 | the handler reads only the `pk = "transcription"` query: two tables that answer it alike give the same response |
| ChatWithTranscript.PathId | backend/functions/chat-with-transcript/handler.ts:17-19 | the path parameters are accepted exactly when they are an object with a string `id` |
| ChatWithTranscript.BodyText | backend/functions/chat-with-transcript/handler.ts:11-15 | the body is accepted exactly when it is present, parses as JSON, and holds a string `text` |
| ChatWithTranscript.ChatRequest | backend/functions/chat-with-transcript/handler.ts:47-71 | the request carries the question unchanged, type `KNOWLEDGE_BASE`, both environment settings, 5 results, and the filter `source = id` |
| ChatWithTranscript.AnswerBody | backend/functions/chat-with-transcript/handler.ts:73-76 | the answer body holds `text` when the model produced one and is `{}` otherwise |
| ChatWithTranscript.AnswerText | backend/functions/chat-with-transcript/handler.ts:75 | the answer is sent as `{"text":"<escaped answer>"}` |
| ChatWithTranscript.Handle | backend/functions/chat-with-transcript/handler.ts:21-77 | a bad path gives 400 `Malformed path parameters`. Otherwise a bad body gives 400 `Malformed body`. A rejected model call throws, and a generated reply gives 200 with the answer. 200 comes exactly when the input is valid and the model answers |
| ChatWithTranscript.PathCheckedFirst | backend/functions/chat-with-transcript/handler.ts:25-34 | with a bad path the response is the same whatever the body |
| ChatWithTranscript.OnlyChatRequestReachesModel | backend/functions/chat-with-transcript/handler.ts:36-71 | only a validated request reaches the model, and the response depends on the model only through its answer to that request |
| Pipeline.UploadStartsItsTranscription | lib/bedrock-video-rag-stack.ts:176-238 | an admitted upload starts a transcription of exactly that object, named after the execution, writing to `transcriptions/<name>.json` |
| Pipeline.StorageLayoutConnects | lib/bedrock-video-rag-stack.ts:76-297 | Transcribe writes under the Glue table's `transcriptions/` prefix. The UNLOAD location is `s3://<bucket>/data/<name>`, and every key Athena can write under it lies under the `data/` prefix the knowledge base ingests |
| Pipeline.PreparedObjectsIngested | lib/bedrock-video-rag-stack.ts:72-77 | both objects the prepare handler writes lie under the knowledge base's `data/` inclusion prefix |
| Pipeline.ChatRetrievesOwnTranscript | backend/functions/chat-with-transcript/handler.ts:60-65 | the chat filter admits a metadata document exactly when that document was written for the transcript asked about |

## Left out

- CDK provisioning has no behaviour of its own and is not modelled. That
  covers the buckets, Glue database and table, knowledge base, vector store,
  IAM statements and removal policies. Only the values the model needs
  appear: `inclusionPrefixes`, the Glue `s3Prefix` and the database name.
- The Athena UNLOAD statement runs inside Athena. The model keeps the
  values it substitutes (the job name and `s3://<bucket>/data/<name>`) and
  treats its reply as opaque. The prepare handler models the same
  concatenation.
- Time is not modelled. A Wait state is a transition; 10 seconds is recorded
  as a constant.
- The service calls (Transcribe, Athena, Bedrock agent, S3, DynamoDB,
  Bedrock runtime) are not modelled. Their answers are parameters or
  per-step replies.
- `JSON.parse` (backend/functions/lib/schema.ts:3-13) is a parameter
  returning `None` where it throws. Its grammar is not modelled.
- The zod `errors` member of the 400/500 bodies is left out. The flattened
  issue list depends on zod internals; the bodies keep `message` only.
- JSON numbers are integers. No field the core reads is a number.
- EventBridge can match array-valued event fields. Such events are not
  modelled; the matched fields are strings in S3 notifications.
- `States.Format` arguments are modelled as strings only. The execution
  name is always a string, and every execution the `MediaBusRule` starts
  supplies string `bucketName` and `objectKey`. An execution started by hand
  with a number or boolean there is modelled as a `States.Runtime` failure,
  where `States.Format` would print the value.
- `JSON.stringify` is modelled on code points, so lone UTF-16 surrogates
  (escaped as `\uXXXX`) are not distinguished.
- PrepareData.Handle: a PutObject that fails, and the partial effect of
  `Promise.all`, are not modelled. Both puts are recorded as sent.
- GetTranscripts.Handle: DynamoDB query pagination (`LastEvaluatedKey`) is
  not modelled. The handler reads only the first page, and the model sees
  that page as the whole table.
- The `console.warn` logging of the prepare handler
  (functions/prepare-data-for-bedrock/handler.ts:37 and :44) is not
  modelled; it has no effect on the result.
- `transformToString` byte decoding is not modelled; the object body is
  taken as a string.
- The frontend (`frontend/`) and the CDK entry points (`bin/`,
  `backend/bin/`) are not part of this model.
