/** The media-processing state machine (`MediaStateMachine`): transcription,
    a polling loop on the transcription job, the Athena transform, Bedrock
    ingestion and a second polling loop, read as an Amazon States Language
    transition system. Task replies come from the environment, one per step. */
module MediaWorkflow {
  import opened Wrappers
  import opened Text
  import opened Json

  /** One constructor per named state. */
  datatype Node =
    | StartTranscriptionTask
    | TranscriptionStatusWaitFor10Seconds
    | CheckTranscriptionStatusTask
    | DecideOnTranscriptionStatus
    | TranscriptionFailed
    | ExecuteAthenaQueryTask
    | StartBedrockDataIngestionTask
    | IngestionStatusWaitFor10Seconds
    | CheckBedrockDataIngestionTask
    | DecideOnBedrockIngestionStatus
    | BedrockIngestionSuccessful
    | BedrockIngestionFailed

  /** The definition body starts at the transcription task. */
  const StartAt: Node := StartTranscriptionTask

  /** Both Wait states wait a fixed ten seconds; time itself is not modelled. */
  const PollSeconds: nat := 10

  datatype Kind = Task | Wait(seconds: nat) | Choice | Pass

  function KindOf(n: Node): Kind {
    match n
    case StartTranscriptionTask => Task
    case CheckTranscriptionStatusTask => Task
    case ExecuteAthenaQueryTask => Task
    case StartBedrockDataIngestionTask => Task
    case CheckBedrockDataIngestionTask => Task
    case TranscriptionStatusWaitFor10Seconds => Wait(PollSeconds)
    case IngestionStatusWaitFor10Seconds => Wait(PollSeconds)
    case DecideOnTranscriptionStatus => Choice
    case DecideOnBedrockIngestionStatus => Choice
    case TranscriptionFailed => Pass
    case BedrockIngestionSuccessful => Pass
    case BedrockIngestionFailed => Pass
  }

  /** The `Next` of each Task and Wait state, as the `.next(...)` chains
      declare it. Choice states route by their rules; the Pass states have no
      successor and so end the execution. */
  function NextOf(n: Node): (r: Option<Node>)
    ensures r.Some? <==> KindOf(n).Task? || KindOf(n).Wait?
  {
    match n
    case StartTranscriptionTask => Some(TranscriptionStatusWaitFor10Seconds)
    case TranscriptionStatusWaitFor10Seconds => Some(CheckTranscriptionStatusTask)
    case CheckTranscriptionStatusTask => Some(DecideOnTranscriptionStatus)
    case ExecuteAthenaQueryTask => Some(StartBedrockDataIngestionTask)
    case StartBedrockDataIngestionTask => Some(IngestionStatusWaitFor10Seconds)
    case IngestionStatusWaitFor10Seconds => Some(CheckBedrockDataIngestionTask)
    case CheckBedrockDataIngestionTask => Some(DecideOnBedrockIngestionStatus)
    case _ => None
  }

  // ---------------------------------------------------------------------------
  // Choice states

  /** `Condition.stringEquals(variable, value)` routed to `next`. */
  datatype Rule = StringEquals(variable: seq<string>, value: string, next: Node)

  datatype ChoiceState = ChoiceState(rules: seq<Rule>, otherwise: Node)

  const StatusPath: seq<string> := ["status"]

  /** Transcribe's vocabulary: `COMPLETED`. */
  const TranscriptionChoice: ChoiceState :=
    ChoiceState([StringEquals(StatusPath, "COMPLETED", ExecuteAthenaQueryTask),
                 StringEquals(StatusPath, "FAILED", TranscriptionFailed)],
                TranscriptionStatusWaitFor10Seconds)

  /** Bedrock's vocabulary: `COMPLETE`, a different word. */
  const IngestionChoice: ChoiceState :=
    ChoiceState([StringEquals(StatusPath, "COMPLETE", BedrockIngestionSuccessful),
                 StringEquals(StatusPath, "FAILED", BedrockIngestionFailed)],
                IngestionStatusWaitFor10Seconds)

  function ChoiceOf(n: Node): ChoiceState
    requires KindOf(n).Choice?
  {
    if n == DecideOnTranscriptionStatus then TranscriptionChoice else IngestionChoice
  }

  /** The variable is present and is exactly the string `value`; a value of
      another type compares false. */
  predicate Holds(r: Rule, data: Json) {
    Select(data, r.variable) == Some(JStr(r.value))
  }

  /** The variable's path exists in the data. */
  predicate Resolves(r: Rule, data: Json) {
    Select(data, r.variable).Some?
  }

  /** Every rule was looked at and none matched. */
  predicate PassedOver(rules: seq<Rule>, data: Json) {
    forall i :: 0 <= i < |rules| ==> Resolves(rules[i], data) && !Holds(rules[i], data)
  }

  /** `Goto` a state, or `NoPath` when a rule's variable is absent, which the
      States Language interpreter reports as `States.Runtime`. */
  datatype Decision = Goto(target: Node) | NoPath

  /** Rules in declared order, first match wins, `otherwise` when none matches. */
  function Decide(rules: seq<Rule>, otherwise: Node, data: Json): Decision
    decreases |rules|
  {
    if |rules| == 0 then Goto(otherwise)
    else match Select(data, rules[0].variable)
      case None => NoPath
      case Some(v) =>
        if v == JStr(rules[0].value) then Goto(rules[0].next)
        else Decide(rules[1..], otherwise, data)
  }

  /** Passing over a list is passing over its first rule and then the rest. */
  lemma PassedOverCons(rules: seq<Rule>, k: nat, data: Json)
    requires 1 <= k <= |rules|
    ensures PassedOver(rules[..k], data) <==>
              Resolves(rules[0], data) && !Holds(rules[0], data) && PassedOver(rules[1..][..k - 1], data)
  {
    if Resolves(rules[0], data) && !Holds(rules[0], data) && PassedOver(rules[1..][..k - 1], data) {
      forall i | 0 <= i < k
        ensures Resolves(rules[..k][i], data) && !Holds(rules[..k][i], data)
      {
        if i > 0 {
          assert rules[..k][i] == rules[1..][..k - 1][i - 1];
        }
      }
    }
    if PassedOver(rules[..k], data) {
      assert rules[..k][0] == rules[0];
      var head := rules[..k];
      var tail := rules[1..][..k - 1];
      forall i | 0 <= i < |tail|
        ensures Resolves(tail[i], data) && !Holds(tail[i], data)
      {
        assert tail[i] == head[i + 1];
      }
    }
  }

  /** First-match semantics: the first rule that does not pass over decides,
      by matching (its target) or by an absent variable (`NoPath`); when every
      rule passes over, `otherwise` is taken. */
  lemma {:induction false} DecideFirstMatch(rules: seq<Rule>, otherwise: Node, data: Json, k: nat)
    requires k <= |rules| && PassedOver(rules[..k], data)
    ensures k < |rules| && Holds(rules[k], data) ==> Decide(rules, otherwise, data) == Goto(rules[k].next)
    ensures k < |rules| && !Resolves(rules[k], data) ==> Decide(rules, otherwise, data) == NoPath
    ensures k == |rules| ==> Decide(rules, otherwise, data) == Goto(otherwise)
    decreases k
  {
    if k > 0 {
      PassedOverCons(rules, k, data);
      assert rules[1..][k - 1..] == rules[k..];
      DecideFirstMatch(rules[1..], otherwise, data, k - 1);
    } else if k < |rules| {
      assert rules[k] == rules[0];
    }
  }

  /** Every decision names a declared target: some rule's or `otherwise`. */
  lemma {:induction false} DecideTargets(rules: seq<Rule>, otherwise: Node, data: Json)
    ensures Decide(rules, otherwise, data).Goto? ==>
              Decide(rules, otherwise, data).target == otherwise
              || exists k :: 0 <= k < |rules| && rules[k].next == Decide(rules, otherwise, data).target
    decreases |rules|
  {
    if |rules| > 0 && Select(data, rules[0].variable).Some? && Select(data, rules[0].variable).value != JStr(rules[0].value) {
      DecideTargets(rules[1..], otherwise, data);
      var d := Decide(rules, otherwise, data);
      if d.Goto? && d.target != otherwise {
        var k :| 0 <= k < |rules[1..]| && rules[1..][k].next == d.target;
        assert rules[k + 1].next == d.target;
      }
    }
  }

  // ---------------------------------------------------------------------------
  // Task states

  /** Deployment values the tasks read: `$$.Execution.Name` and the CDK
      tokens for the transcriptions bucket, data source and knowledge base. */
  datatype Context = Context(executionName: string, transcriptionsBucket: string,
                             dataSourceId: string, knowledgeBaseId: string)

  /** The service call each task makes. Of the Athena UNLOAD statement only
      its two substituted values are kept: the job whose transcript it
      selects and the S3 location it unloads to. */
  datatype Request =
    | StartTranscriptionJob(mediaFileUri: string, jobName: string, languageCode: string,
                            outputBucketName: string, outputKey: string)
    | GetTranscriptionJob(transcriptionJobName: Json)
    | StartQueryExecution(queriedJobName: string, unloadLocation: string, databaseName: string)
    | StartIngestionJob(dataSourceId: string, knowledgeBaseId: string)
    | GetIngestionJob(dataSourceId: string, knowledgeBaseId: string, ingestionJobId: Json)

  /** `States.Format`: each `{}` of the template takes the next argument;
      None when the counts differ. */
  function Format(template: string, args: seq<string>): Option<string>
    decreases |template|
  {
    if |template| == 0 then (if |args| == 0 then Some("") else None)
    else if |template| >= 2 && template[0] == '{' && template[1] == '}' then
      if |args| == 0 then None
      else match Format(template[2..], args[1..])
        case None => None
        case Some(r) => Some(args[0] + r)
    else match Format(template[1..], args)
      case None => None
      case Some(r) => Some([template[0]] + r)
  }

  /** Literal template text without braces is copied through. */
  lemma {:induction false} FormatText(lit: string, rest: string, args: seq<string>)
    requires NoBrace(lit)
    ensures Format(lit + rest, args) == (match Format(rest, args) case None => None case Some(r) => Some(lit + r))
    decreases |lit|
  {
    if |lit| > 0 {
      var t := lit + rest;
      assert t[0] == lit[0];
      assert t[1..] == lit[1..] + rest;
      FormatText(lit[1..], rest, args);
      match Format(rest, args) {
        case None =>
        case Some(r) => assert [lit[0]] + (lit[1..] + r) == lit + r;
      }
    } else {
      assert lit + rest == rest;
      match Format(rest, args) {
        case None =>
        case Some(r) => assert lit + r == r;
      }
    }
  }

  /** A placeholder takes the first argument. */
  lemma FormatHole(rest: string, a: string, args: seq<string>)
    ensures Format("{}" + rest, [a] + args) == (match Format(rest, args) case None => None case Some(r) => Some(a + r))
  {
    var t := "{}" + rest;
    assert t[2..] == rest;
    assert ([a] + args)[1..] == args;
  }

  predicate NoBrace(lit: string) {
    forall i :: 0 <= i < |lit| ==> lit[i] != '{'
  }

  /** Literal text, a placeholder, then the rest of the template. */
  lemma FormatTextHole(pre: string, a: string, rest: string, args: seq<string>)
    requires NoBrace(pre)
    ensures Format(pre + "{}" + rest, [a] + args)
              == (match Format(rest, args) case None => None case Some(r) => Some(pre + a + r))
  {
    FormatHole(rest, a, args);
    FormatText(pre, "{}" + rest, [a] + args);
    assert pre + "{}" + rest == pre + ("{}" + rest);
    match Format(rest, args) {
      case None =>
      case Some(r) => assert pre + (a + r) == pre + a + r;
    }
  }

  /** A template without placeholders and no arguments is its own text. */
  lemma FormatPlain(lit: string)
    requires NoBrace(lit)
    ensures Format(lit, []) == Some(lit)
  {
    assert Format("", []) == Some("");
    FormatText(lit, "", []);
    assert lit + "" == lit;
  }

  /** A template with two placeholders between literal text. */
  lemma FormatTwoHoles(pre: string, a: string, mid: string, b: string, post: string)
    requires NoBrace(pre) && NoBrace(mid) && NoBrace(post)
    ensures Format(pre + "{}" + mid + "{}" + post, [a, b]) == Some(pre + a + mid + b + post)
  {
    var t := mid + "{}" + post;
    assert Format(t, [b]) == Some(mid + b + post) by {
      FormatPlain(post);
      FormatTextHole(mid, b, post, []);
      assert [b] + [] == [b];
    }
    assert Format(pre + "{}" + t, [a, b]) == Some(pre + a + (mid + b + post)) by {
      FormatTextHole(pre, a, t, [b]);
      assert [a] + [b] == [a, b];
    }
    assert pre + "{}" + t == pre + "{}" + mid + "{}" + post;
    assert pre + a + (mid + b + post) == pre + a + mid + b + post;
  }

  /** The media URI is `s3://<bucket>/<key>`. */
  lemma FormatMediaUri(bucket: string, key: string)
    ensures Format(MediaUriTemplate, [bucket, key]) == Some("s3://" + bucket + "/" + key)
  {
    assert NoBrace("s3://") && NoBrace("/") && NoBrace("");
    FormatTwoHoles("s3://", bucket, "/", key, "");
    assert "s3://" + "{}" + "/" + "{}" + "" == MediaUriTemplate;
    assert "s3://" + bucket + "/" + key + "" == "s3://" + bucket + "/" + key;
  }

  /** The transcript's output key is `transcriptions/<name>.json`. */
  lemma FormatOutputKey(name: string)
    ensures Format(OutputKeyTemplate, [TranscriptionsPrefix, name]) == Some("transcriptions/" + name + ".json")
  {
    assert NoBrace("") && NoBrace("/") && NoBrace(".json");
    FormatTwoHoles("", TranscriptionsPrefix, "/", name, ".json");
    assert "" + "{}" + "/" + "{}" + ".json" == OutputKeyTemplate;
    assert "" + TranscriptionsPrefix + "/" + name + ".json" == "transcriptions/" + name + ".json";
  }

  /** The execution input's `$.bucketName` and `$.objectKey`. */
  const InputBucketName: seq<string> := ["bucketName"]
  const InputObjectKey: seq<string> := ["objectKey"]

  const MediaUriTemplate := "s3://{}/{}"
  const OutputKeyTemplate := "{}/{}.json"
  const TranscriptionsPrefix := "transcriptions"
  const LanguageCode := "en-US"
  const GlueDatabase := "transcriptions"
  const UnloadPrefix := "data/"

  /** Where the Athena query writes the combined transcript:
      `s3://<transcriptions bucket>/data/<execution name>`. */
  function UnloadLocation(ctx: Context): string {
    "s3://" + ctx.transcriptionsBucket + "/" + UnloadPrefix + ctx.executionName
  }

  /** The transcription job request built from the execution input, or None
      when `$.bucketName` or `$.objectKey` is not a string. */
  function StartTranscriptionRequest(ctx: Context, data: Json): Option<Request> {
    if StringAt(data, InputBucketName).None? || StringAt(data, InputObjectKey).None? then None
    else
      var uri := Format(MediaUriTemplate, [StringAt(data, InputBucketName).value, StringAt(data, InputObjectKey).value]);
      var outKey := Format(OutputKeyTemplate, [TranscriptionsPrefix, ctx.executionName]);
      if uri.None? || outKey.None? then None
      else Some(StartTranscriptionJob(uri.value, ctx.executionName, LanguageCode, ctx.transcriptionsBucket, outKey.value))
  }

  /** The request a task sends for input `data`, or None when a path it
      reads is absent (`States.Runtime`). */
  function TaskRequest(ctx: Context, n: Node, data: Json): Option<Request>
    requires KindOf(n).Task?
  {
    match n
    case StartTranscriptionTask => StartTranscriptionRequest(ctx, data)
    case CheckTranscriptionStatusTask =>
      (match Member(data, "jobName")
       case None => None
       case Some(name) => Some(GetTranscriptionJob(name)))
    case ExecuteAthenaQueryTask => Some(StartQueryExecution(ctx.executionName, UnloadLocation(ctx), GlueDatabase))
    case StartBedrockDataIngestionTask => Some(StartIngestionJob(ctx.dataSourceId, ctx.knowledgeBaseId))
    case CheckBedrockDataIngestionTask =>
      (match Member(data, "jobId")
       case None => None
       case Some(id) => Some(GetIngestionJob(ctx.dataSourceId, ctx.knowledgeBaseId, id)))
  }

  /** The start task sends Transcribe the media at `s3://<bucket>/<key>`,
      names the job after the execution and writes the transcript to
      `transcriptions/<execution name>.json` in the transcriptions bucket; it
      fails when either input field is not a string. */
  lemma StartTranscriptionRequestBuilt(ctx: Context, data: Json)
    ensures StringAt(data, InputBucketName).Some? && StringAt(data, InputObjectKey).Some? ==>
              TaskRequest(ctx, StartTranscriptionTask, data) == Some(StartTranscriptionJob(
                "s3://" + StringAt(data, InputBucketName).value + "/" + StringAt(data, InputObjectKey).value,
                ctx.executionName, "en-US", ctx.transcriptionsBucket,
                "transcriptions/" + ctx.executionName + ".json"))
    ensures StringAt(data, InputBucketName).None? || StringAt(data, InputObjectKey).None? ==>
              TaskRequest(ctx, StartTranscriptionTask, data).None?
  {
    if StringAt(data, InputBucketName).Some? && StringAt(data, InputObjectKey).Some? {
      FormatMediaUri(StringAt(data, InputBucketName).value, StringAt(data, InputObjectKey).value);
      FormatOutputKey(ctx.executionName);
    }
  }

  /** One `resultSelector` entry: `field` takes the value at `path` of the reply. */
  datatype Selector = Selector(field: string, path: seq<string>)

  const TranscriptionJobName: seq<string> := ["TranscriptionJob", "TranscriptionJobName"]
  const TranscriptionJobStatus: seq<string> := ["TranscriptionJob", "TranscriptionJobStatus"]
  const TranscriptFileUri: seq<string> := ["TranscriptionJob", "Transcript", "TranscriptFileUri"]
  const IngestionJobId: seq<string> := ["IngestionJob", "IngestionJobId"]
  const IngestionJobStatus: seq<string> := ["IngestionJob", "Status"]

  /** The `resultSelector` of each task; the Athena task has none. */
  function ResultSelectorOf(n: Node): Option<seq<Selector>>
    requires KindOf(n).Task?
  {
    match n
    case StartTranscriptionTask =>
      Some([Selector("jobName", TranscriptionJobName), Selector("status", TranscriptionJobStatus)])
    case CheckTranscriptionStatusTask =>
      Some([Selector("status", TranscriptionJobStatus), Selector("jobName", TranscriptionJobName),
            Selector("transcriptUri", TranscriptFileUri)])
    case ExecuteAthenaQueryTask => None
    case StartBedrockDataIngestionTask =>
      Some([Selector("jobId", IngestionJobId), Selector("status", IngestionJobStatus)])
    case CheckBedrockDataIngestionTask =>
      Some([Selector("status", IngestionJobStatus), Selector("jobId", IngestionJobId)])
  }

  /** The object a `resultSelector` builds: one member per entry, in order;
      None when some path is absent from the reply. */
  function ApplySelector(sel: seq<Selector>, reply: Json): (r: Option<Json>)
    ensures r.Some? <==> forall i :: 0 <= i < |sel| ==> Select(reply, sel[i].path).Some?
    ensures r.Some? ==> r.value.JObj? && |r.value.fields| == |sel|
    ensures r.Some? ==> forall i :: 0 <= i < |sel| ==>
              r.value.fields[i] == (sel[i].field, Select(reply, sel[i].path).value)
    decreases |sel|
  {
    if |sel| == 0 then Some(JObj([]))
    else match Select(reply, sel[0].path)
      case None => None
      case Some(v) =>
        match ApplySelector(sel[1..], reply)
        case None => None
        case Some(rest) => Some(JObj([(sel[0].field, v)] + rest.fields))
  }

  /** With no `resultPath` and no `outputPath`, a task's output is exactly
      what its selector builds (or the whole reply when it has none). */
  function TaskOutput(n: Node, reply: Json): Option<Json>
    requires KindOf(n).Task?
  {
    match ResultSelectorOf(n)
    case None => Some(reply)
    case Some(sel) => ApplySelector(sel, reply)
  }

  // ---------------------------------------------------------------------------
  // Executions

  /** A service reply, or the error a task raises. No task declares a retry
      or catcher, so any task error ends the execution. */
  datatype Reply = Answer(payload: Json) | ServiceError(error: string)

  /** A running execution is about to run `node` on `input`; a finished one
      records the state it ended in. */
  datatype Exec =
    | Running(node: Node, input: Json)
    | Succeeded(node: Node, output: Json)
    | Failed(node: Node, error: string)

  const StatesRuntime := "States.Runtime"

  function Start(input: Json): Exec {
    Running(StartAt, input)
  }

  /** All edges of the graph leaving `n`. */
  function Successors(n: Node): set<Node> {
    match KindOf(n)
    case Choice => (set r | r in ChoiceOf(n).rules :: r.next) + {ChoiceOf(n).otherwise}
    case Pass => {}
    case _ => {NextOf(n).value}
  }

  /** One state transition. Running moves along an edge; an execution
      succeeds exactly at a Pass state, with its input as output; errors stop
      it where it stands. A Wait passes its input on; what a task does is
      stated by `TaskStep`. */
  function Step(ctx: Context, e: Exec, reply: Reply): (e': Exec)
    requires e.Running?
    ensures e'.Running? ==> e'.node in Successors(e.node)
    ensures e'.Succeeded? <==> KindOf(e.node).Pass?
    ensures e'.Succeeded? ==> e'.output == e.input
    ensures !e'.Running? ==> e'.node == e.node
    ensures KindOf(e.node).Wait? ==> e' == Running(NextOf(e.node).value, e.input)
  {
    match KindOf(e.node)
    case Task =>
      if TaskRequest(ctx, e.node, e.input).None? then Failed(e.node, StatesRuntime)
      else (match reply
        case ServiceError(err) => Failed(e.node, err)
        case Answer(p) =>
          match TaskOutput(e.node, p)
          case None => Failed(e.node, StatesRuntime)
          case Some(out) => Running(NextOf(e.node).value, out))
    case Wait(_) => Running(NextOf(e.node).value, e.input)
    case Choice =>
      var c := ChoiceOf(e.node);
      (match Decide(c.rules, c.otherwise, e.input)
        case Goto(t) =>
          assert t in Successors(e.node) by {
            DecideTargets(c.rules, c.otherwise, e.input);
            if t != c.otherwise {
              var k :| 0 <= k < |c.rules| && c.rules[k].next == t;
              assert c.rules[k] in c.rules;
            }
          }
          Running(t, e.input)
        case NoPath => Failed(e.node, StatesRuntime))
    case Pass => Succeeded(e.node, e.input)
  }

  /** A task has no retry and no catcher: it fails with `States.Runtime`
      when a path its request reads is absent, with the service's error when
      the call errors, and with `States.Runtime` when a selector path is
      absent from the reply. Otherwise it passes on exactly its output: the
      whole reply without a selector, and otherwise the object its selector
      builds, one member per entry and in order; nothing of the task's input
      survives. */
  lemma TaskStep(ctx: Context, n: Node, data: Json, reply: Reply)
    requires KindOf(n).Task?
    ensures TaskRequest(ctx, n, data).None? ==> Step(ctx, Running(n, data), reply) == Failed(n, StatesRuntime)
    ensures TaskRequest(ctx, n, data).Some? && reply.ServiceError? ==>
              Step(ctx, Running(n, data), reply) == Failed(n, reply.error)
    ensures TaskRequest(ctx, n, data).Some? && reply.Answer? && TaskOutput(n, reply.payload).None? ==>
              Step(ctx, Running(n, data), reply) == Failed(n, StatesRuntime)
    ensures Step(ctx, Running(n, data), reply).Running? <==>
              TaskRequest(ctx, n, data).Some? && reply.Answer? && TaskOutput(n, reply.payload).Some?
    ensures var e' := Step(ctx, Running(n, data), reply);
            e'.Running? ==>
              && reply.Answer?
              && e'.node == NextOf(n).value
              && (ResultSelectorOf(n).None? ==> e'.input == reply.payload)
              && (ResultSelectorOf(n).Some? ==>
                    var sel := ResultSelectorOf(n).value;
                    && e'.input.JObj? && |e'.input.fields| == |sel|
                    && forall i :: 0 <= i < |sel| ==>
                         e'.input.fields[i] == (sel[i].field, Select(reply.payload, sel[i].path).value))
  {
  }

  /** Position `k` of `t` is running and steps with `replies[k]` to `k + 1`. */
  ghost predicate Moves(ctx: Context, t: seq<Exec>, replies: seq<Reply>, k: nat)
    requires k + 1 < |t|
  {
    t[k].Running? && k < |replies| && t[k + 1] == Step(ctx, t[k], replies[k])
  }

  /** `t` is the run that `replies` produce: each running state steps with
      the next reply, and the run stops at a finished state or when the
      replies are used up. */
  ghost predicate IsTrace(ctx: Context, t: seq<Exec>, replies: seq<Reply>) {
    && |t| >= 1
    && (forall k :: 0 <= k < |t| - 1 ==> t[k].Running?)
    && (forall k: nat :: k + 1 < |t| ==> Moves(ctx, t, replies, k))
    && (t[|t| - 1].Running? ==> |t| == |replies| + 1)
  }

  /** A run extended at the front by one step is a run. */
  lemma TraceCons(ctx: Context, e: Exec, reply: Reply, t: seq<Exec>, replies: seq<Reply>)
    requires IsTrace(ctx, t, replies) && e.Running? && t[0] == Step(ctx, e, reply)
    ensures IsTrace(ctx, [e] + t, [reply] + replies)
  {
    var t' := [e] + t;
    var r' := [reply] + replies;
    forall k: nat | k + 1 < |t'|
      ensures Moves(ctx, t', r', k)
    {
      if k > 0 {
        assert Moves(ctx, t, replies, k - 1);
        assert t'[k] == t[k - 1] && t'[k + 1] == t[k] && r'[k] == replies[k - 1];
      } else {
        assert t'[0] == e && t'[1] == t[0] && r'[0] == reply;
      }
    }
    assert forall k :: 0 < k < |t'| - 1 ==> t'[k] == t[k - 1];
    assert t'[|t'| - 1] == t[|t| - 1];
  }

  function Execute(ctx: Context, e: Exec, replies: seq<Reply>): (t: seq<Exec>)
    ensures IsTrace(ctx, t, replies) && t[0] == e
    decreases |replies|
  {
    if !e.Running? || |replies| == 0 then [e]
    else
      var rest := Execute(ctx, Step(ctx, e, replies[0]), replies[1..]);
      TraceCons(ctx, e, replies[0], rest, replies[1..]);
      assert [replies[0]] + replies[1..] == replies;
      [e] + rest
  }
}
