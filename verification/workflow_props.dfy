/** Properties of the media-processing state machine: how the two Choice
    states route, which paths can reach ingestion, that every cycle waits,
    that polling keeps asking about one job, and two complete runs. */
module MediaWorkflowProperties {
  import opened Wrappers
  import opened Json
  import opened MediaWorkflow

  // ---------------------------------------------------------------------------
  // The two Choice states

  /** Transcription routing: `COMPLETED` to Athena, `FAILED` to the
      `TranscriptionFailed` Pass state, any other status back to the Wait,
      and no status at all is a runtime error. */
  lemma TranscriptionChoiceRoutes(data: Json)
    ensures (Decide(TranscriptionChoice.rules, TranscriptionChoice.otherwise, data) == Goto(ExecuteAthenaQueryTask))
              <==> Select(data, StatusPath) == Some(JStr("COMPLETED"))
    ensures (Decide(TranscriptionChoice.rules, TranscriptionChoice.otherwise, data) == Goto(TranscriptionFailed))
              <==> Select(data, StatusPath) == Some(JStr("FAILED"))
    ensures (Decide(TranscriptionChoice.rules, TranscriptionChoice.otherwise, data) == Goto(TranscriptionStatusWaitFor10Seconds))
              <==> Select(data, StatusPath).Some? && Select(data, StatusPath) != Some(JStr("COMPLETED"))
                   && Select(data, StatusPath) != Some(JStr("FAILED"))
    ensures (Decide(TranscriptionChoice.rules, TranscriptionChoice.otherwise, data) == NoPath)
              <==> Select(data, StatusPath).None?
  {
    RouteTwoRules(TranscriptionChoice, data);
  }

  /** Ingestion routing: `COMPLETE` (not `COMPLETED`) to success, `FAILED`
      to the failure Pass state, any other status back to the Wait. */
  lemma IngestionChoiceRoutes(data: Json)
    ensures (Decide(IngestionChoice.rules, IngestionChoice.otherwise, data) == Goto(BedrockIngestionSuccessful))
              <==> Select(data, StatusPath) == Some(JStr("COMPLETE"))
    ensures (Decide(IngestionChoice.rules, IngestionChoice.otherwise, data) == Goto(BedrockIngestionFailed))
              <==> Select(data, StatusPath) == Some(JStr("FAILED"))
    ensures (Decide(IngestionChoice.rules, IngestionChoice.otherwise, data) == Goto(IngestionStatusWaitFor10Seconds))
              <==> Select(data, StatusPath).Some? && Select(data, StatusPath) != Some(JStr("COMPLETE"))
                   && Select(data, StatusPath) != Some(JStr("FAILED"))
    ensures (Decide(IngestionChoice.rules, IngestionChoice.otherwise, data) == NoPath)
              <==> Select(data, StatusPath).None?
  {
    RouteTwoRules(IngestionChoice, data);
  }

  /** Routing of a Choice with two status rules whose targets and default differ. */
  lemma RouteTwoRules(c: ChoiceState, data: Json)
    requires |c.rules| == 2 && c.rules[0].variable == StatusPath && c.rules[1].variable == StatusPath
    requires c.rules[0].value != c.rules[1].value
    ensures var st := Select(data, StatusPath);
            && (st.None? ==> Decide(c.rules, c.otherwise, data) == NoPath)
            && (st == Some(JStr(c.rules[0].value)) ==> Decide(c.rules, c.otherwise, data) == Goto(c.rules[0].next))
            && (st == Some(JStr(c.rules[1].value)) ==> Decide(c.rules, c.otherwise, data) == Goto(c.rules[1].next))
            && ((st.Some? && st != Some(JStr(c.rules[0].value)) && st != Some(JStr(c.rules[1].value)))
                  ==> Decide(c.rules, c.otherwise, data) == Goto(c.otherwise))
  {
    var st := Select(data, StatusPath);
    if st.None? || st == Some(JStr(c.rules[0].value)) {
      DecideFirstMatch(c.rules, c.otherwise, data, 0);
    } else {
      assert PassedOver(c.rules[..1], data) by {
        assert c.rules[..1][0] == c.rules[0];
      }
      if st == Some(JStr(c.rules[1].value)) {
        DecideFirstMatch(c.rules, c.otherwise, data, 1);
      } else {
        assert c.rules[..2] == c.rules;
        DecideFirstMatch(c.rules, c.otherwise, data, 2);
      }
    }
  }

  /** The two services' words for "done" differ: a `COMPLETED` ingestion
      status keeps polling, and so does a `COMPLETE` transcription status. */
  lemma StatusVocabulariesDiffer(data: Json)
    ensures Select(data, StatusPath) == Some(JStr("COMPLETED")) ==>
              Decide(IngestionChoice.rules, IngestionChoice.otherwise, data) == Goto(IngestionStatusWaitFor10Seconds)
    ensures Select(data, StatusPath) == Some(JStr("COMPLETE")) ==>
              Decide(TranscriptionChoice.rules, TranscriptionChoice.otherwise, data) == Goto(TranscriptionStatusWaitFor10Seconds)
  {
    IngestionChoiceRoutes(data);
    TranscriptionChoiceRoutes(data);
  }

  // ---------------------------------------------------------------------------
  // Shape of the graph

  /** The edges as the state machine definition draws them, state by state. */
  function Edges(n: Node): set<Node> {
    match n
    case StartTranscriptionTask => {TranscriptionStatusWaitFor10Seconds}
    case TranscriptionStatusWaitFor10Seconds => {CheckTranscriptionStatusTask}
    case CheckTranscriptionStatusTask => {DecideOnTranscriptionStatus}
    case DecideOnTranscriptionStatus =>
      {ExecuteAthenaQueryTask, TranscriptionFailed, TranscriptionStatusWaitFor10Seconds}
    case TranscriptionFailed => {}
    case ExecuteAthenaQueryTask => {StartBedrockDataIngestionTask}
    case StartBedrockDataIngestionTask => {IngestionStatusWaitFor10Seconds}
    case IngestionStatusWaitFor10Seconds => {CheckBedrockDataIngestionTask}
    case CheckBedrockDataIngestionTask => {DecideOnBedrockIngestionStatus}
    case DecideOnBedrockIngestionStatus =>
      {BedrockIngestionSuccessful, BedrockIngestionFailed, IngestionStatusWaitFor10Seconds}
    case BedrockIngestionSuccessful => {}
    case BedrockIngestionFailed => {}
  }

  /** The graph the `Next` fields and Choice rules induce is exactly that
      drawing. */
  lemma SuccessorsAreEdges(n: Node)
    ensures Successors(n) == Edges(n)
  {
    if n == DecideOnTranscriptionStatus {
      assert TranscriptionChoice.rules[0] in TranscriptionChoice.rules;
      assert TranscriptionChoice.rules[1] in TranscriptionChoice.rules;
    } else if n == DecideOnBedrockIngestionStatus {
      assert IngestionChoice.rules[0] in IngestionChoice.rules;
      assert IngestionChoice.rules[1] in IngestionChoice.rules;
    }
  }

  /** The only states without an outgoing edge are the three Pass states,
      and they are exactly where an execution succeeds. */
  lemma TerminalStates(n: Node)
    ensures Successors(n) == {} <==> KindOf(n).Pass?
    ensures KindOf(n).Pass? <==>
              n == TranscriptionFailed || n == BedrockIngestionSuccessful || n == BedrockIngestionFailed
  {
    SuccessorsAreEdges(n);
  }

  /** Both polling loops are `Wait -> Check -> Choice -> (otherwise) Wait`. */
  lemma PollingLoops()
    ensures Successors(TranscriptionStatusWaitFor10Seconds) == {CheckTranscriptionStatusTask}
    ensures Successors(CheckTranscriptionStatusTask) == {DecideOnTranscriptionStatus}
    ensures Successors(DecideOnTranscriptionStatus)
              == {ExecuteAthenaQueryTask, TranscriptionFailed, TranscriptionStatusWaitFor10Seconds}
    ensures Successors(IngestionStatusWaitFor10Seconds) == {CheckBedrockDataIngestionTask}
    ensures Successors(CheckBedrockDataIngestionTask) == {DecideOnBedrockIngestionStatus}
    ensures Successors(DecideOnBedrockIngestionStatus)
              == {BedrockIngestionSuccessful, BedrockIngestionFailed, IngestionStatusWaitFor10Seconds}
  {
    SuccessorsAreEdges(TranscriptionStatusWaitFor10Seconds);
    SuccessorsAreEdges(CheckTranscriptionStatusTask);
    SuccessorsAreEdges(DecideOnTranscriptionStatus);
    SuccessorsAreEdges(IngestionStatusWaitFor10Seconds);
    SuccessorsAreEdges(CheckBedrockDataIngestionTask);
    SuccessorsAreEdges(DecideOnBedrockIngestionStatus);
  }

  /** Topological position of each state, ignoring the edges back into a Wait. */
  function Rank(n: Node): nat {
    match n
    case StartTranscriptionTask => 0
    case TranscriptionStatusWaitFor10Seconds => 1
    case CheckTranscriptionStatusTask => 2
    case DecideOnTranscriptionStatus => 3
    case TranscriptionFailed => 4
    case ExecuteAthenaQueryTask => 5
    case StartBedrockDataIngestionTask => 6
    case IngestionStatusWaitFor10Seconds => 7
    case CheckBedrockDataIngestionTask => 8
    case DecideOnBedrockIngestionStatus => 9
    case BedrockIngestionSuccessful => 10
    case BedrockIngestionFailed => 10
  }

  /** Every edge that does not enter a Wait state moves forward. */
  lemma EdgeRaisesRank(a: Node, b: Node)
    requires b in Successors(a) && !KindOf(b).Wait?
    ensures Rank(b) > Rank(a)
  {
    SuccessorsAreEdges(a);
  }

  ghost predicate Link(p: seq<Node>, k: nat)
    requires k + 1 < |p|
  {
    p[k + 1] in Successors(p[k])
  }

  /** Consecutive nodes of `p` are joined by edges. */
  ghost predicate IsPath(p: seq<Node>) {
    forall k: nat :: k + 1 < |p| ==> Link(p, k)
  }

  lemma {:induction false} WaitFreePathClimbs(p: seq<Node>)
    requires IsPath(p) && |p| >= 2
    requires forall k :: 1 <= k < |p| ==> !KindOf(p[k]).Wait?
    ensures Rank(p[|p| - 1]) > Rank(p[0])
    decreases |p|
  {
    var n := |p|;
    assert Link(p, n - 2);
    EdgeRaisesRank(p[n - 2], p[n - 1]);
    if n > 2 {
      var init := p[..n - 1];
      assert IsPath(init) by {
        forall k: nat | k + 1 < |init|
          ensures Link(init, k)
        {
          assert Link(p, k);
        }
      }
      WaitFreePathClimbs(init);
    }
  }

  /** Every cycle of the graph passes through a Wait state, so no execution
      can spin without waiting. */
  lemma CycleHasWait(p: seq<Node>)
    requires IsPath(p) && |p| >= 2 && p[0] == p[|p| - 1]
    ensures exists k :: 1 <= k < |p| && KindOf(p[k]).Wait?
  {
    if forall k :: 1 <= k < |p| ==> !KindOf(p[k]).Wait? {
      WaitFreePathClimbs(p);
      assert false;
    }
  }

  // ---------------------------------------------------------------------------
  // Runs

  /** Stage of a state: 0 start, 1 transcription loop, 2 transcription
      failed, 3 Athena, 4 ingestion start, 5 ingestion loop, 6 ingestion end. */
  function Phase(n: Node): nat {
    match n
    case StartTranscriptionTask => 0
    case TranscriptionStatusWaitFor10Seconds => 1
    case CheckTranscriptionStatusTask => 1
    case DecideOnTranscriptionStatus => 1
    case TranscriptionFailed => 2
    case ExecuteAthenaQueryTask => 3
    case StartBedrockDataIngestionTask => 4
    case IngestionStatusWaitFor10Seconds => 5
    case CheckBedrockDataIngestionTask => 5
    case DecideOnBedrockIngestionStatus => 5
    case BedrockIngestionSuccessful => 6
    case BedrockIngestionFailed => 6
  }

  /** The Athena/ingestion half of the machine. */
  predicate InIngestion(n: Node) {
    Phase(n) >= 3
  }

  /** Edges never go back a stage; the one edge into the ingestion half
      leaves the transcription choice for Athena. */
  lemma EdgePhase(a: Node, b: Node)
    requires b in Successors(a)
    ensures Phase(b) >= Phase(a)
    ensures !InIngestion(a) && InIngestion(b) ==> a == DecideOnTranscriptionStatus && b == ExecuteAthenaQueryTask
  {
    SuccessorsAreEdges(a);
  }

  /** A step never goes back a stage, and the only step from the
      transcription half into the ingestion half is the `COMPLETED` branch of
      `DecideOnTranscriptionStatus`, which hands its input on to Athena. */
  lemma StepPhase(ctx: Context, e: Exec, reply: Reply)
    requires e.Running?
    ensures Phase(Step(ctx, e, reply).node) >= Phase(e.node)
    ensures !InIngestion(e.node) && InIngestion(Step(ctx, e, reply).node) ==>
              && e.node == DecideOnTranscriptionStatus
              && Select(e.input, StatusPath) == Some(JStr("COMPLETED"))
              && Step(ctx, e, reply) == Running(ExecuteAthenaQueryTask, e.input)
  {
    var e' := Step(ctx, e, reply);
    if e'.Running? {
      EdgePhase(e.node, e'.node);
      if !InIngestion(e.node) && InIngestion(e'.node) {
        TranscriptionChoiceRoutes(e.input);
      }
    }
  }

  lemma {:induction false} PhaseNeverDecreases(ctx: Context, t: seq<Exec>, replies: seq<Reply>, i: nat, j: nat)
    requires IsTrace(ctx, t, replies) && i <= j < |t|
    ensures Phase(t[i].node) <= Phase(t[j].node)
    decreases j
  {
    if i < j {
      PhaseNeverDecreases(ctx, t, replies, i, j - 1);
      assert Moves(ctx, t, replies, j - 1);
      StepPhase(ctx, t[j - 1], replies[j - 1]);
    }
  }

  /** A run that has reached the Athena/ingestion half got there through a
      transcription check that returned `COMPLETED`. */
  lemma {:induction false} IngestionRequiresCompletedTranscription(ctx: Context, t: seq<Exec>, replies: seq<Reply>, j: nat)
    requires IsTrace(ctx, t, replies) && t[0].node == StartAt
    requires j < |t| && InIngestion(t[j].node)
    ensures exists i :: 0 <= i < j && t[i].Running? && t[i].node == DecideOnTranscriptionStatus
              && Select(t[i].input, StatusPath) == Some(JStr("COMPLETED"))
              && t[i + 1] == Running(ExecuteAthenaQueryTask, t[i].input)
    decreases j
  {
    assert j > 0;
    assert Moves(ctx, t, replies, j - 1);
    StepPhase(ctx, t[j - 1], replies[j - 1]);
    if InIngestion(t[j - 1].node) {
      IngestionRequiresCompletedTranscription(ctx, t, replies, j - 1);
    }
  }

  /** `StartBedrockDataIngestionTask` is entered only from the Athena task. */
  lemma IngestionStartFollowsAthena(ctx: Context, t: seq<Exec>, replies: seq<Reply>, j: nat)
    requires IsTrace(ctx, t, replies) && 0 < j < |t|
    requires t[j].Running? && t[j].node == StartBedrockDataIngestionTask
    ensures t[j - 1].node == ExecuteAthenaQueryTask
  {
    assert Moves(ctx, t, replies, j - 1);
    SuccessorsAreEdges(t[j - 1].node);
  }

  /** Once the transcription check reports `FAILED`, the run goes to the
      `TranscriptionFailed` Pass state and succeeds there at the next step;
      at no point, before or after, does it reach Athena or ingestion. */
  lemma FailedTranscriptionNeverIngests(ctx: Context, t: seq<Exec>, replies: seq<Reply>, i: nat)
    requires IsTrace(ctx, t, replies) && i < |t|
    requires t[i].Running? && t[i].node == DecideOnTranscriptionStatus
    requires Select(t[i].input, StatusPath) == Some(JStr("FAILED"))
    ensures |t| <= i + 3
    ensures forall j :: i < j < |t| ==> t[j].node == TranscriptionFailed
    ensures i + 2 < |t| ==> t[i + 2] == Succeeded(TranscriptionFailed, t[i].input)
    ensures forall j :: 0 <= j < |t| ==> !InIngestion(t[j].node)
  {
    TranscriptionChoiceRoutes(t[i].input);
    if i + 1 < |t| {
      assert Moves(ctx, t, replies, i);
      assert t[i + 1] == Running(TranscriptionFailed, t[i].input);
      if i + 2 < |t| {
        assert Moves(ctx, t, replies, i + 1);
      }
    }
    forall j | 0 <= j <= i
      ensures !InIngestion(t[j].node)
    {
      PhaseNeverDecreases(ctx, t, replies, j, i);
    }
  }

  /** A run that comes back to a state it has visited has passed a Wait
      state in between. */
  lemma RevisitPassesWait(ctx: Context, t: seq<Exec>, replies: seq<Reply>, i: nat, j: nat)
    requires IsTrace(ctx, t, replies) && i < j < |t|
    requires t[j].Running? && t[i].node == t[j].node
    ensures exists k :: i < k <= j && KindOf(t[k].node).Wait?
  {
    var p := seq(j - i + 1, m requires 0 <= m <= j - i => t[i + m].node);
    forall k: nat | k + 1 < |p|
      ensures Link(p, k)
    {
      assert t[i + k + 1].Running?;
      EdgeInTrace(ctx, t, replies, i + k);
    }
    CycleHasWait(p);
    var k :| 1 <= k < |p| && KindOf(p[k]).Wait?;
    assert KindOf(t[i + k].node).Wait?;
  }

  /** A step of a run into a running state follows an edge. */
  lemma EdgeInTrace(ctx: Context, t: seq<Exec>, replies: seq<Reply>, m: nat)
    requires IsTrace(ctx, t, replies) && m + 1 < |t| && t[m + 1].Running?
    ensures t[m + 1].node in Successors(t[m].node)
  {
    assert Moves(ctx, t, replies, m);
  }

  /** A run is determined by its first state and its replies. */
  lemma {:induction false} TraceIsExecute(ctx: Context, t: seq<Exec>, replies: seq<Reply>)
    requires IsTrace(ctx, t, replies)
    ensures t == Execute(ctx, t[0], replies)
    decreases |t|
  {
    if |t| > 1 {
      assert Moves(ctx, t, replies, 0);
      var rest := t[1..];
      var more := replies[1..];
      forall k: nat | k + 1 < |rest|
        ensures Moves(ctx, rest, more, k)
      {
        assert Moves(ctx, t, replies, k + 1);
      }
      assert forall k :: 0 <= k < |rest| - 1 ==> rest[k].Running? by {
        forall k | 0 <= k < |rest| - 1
          ensures rest[k].Running?
        {
          assert rest[k] == t[k + 1];
        }
      }
      assert rest[|rest| - 1] == t[|t| - 1];
      assert IsTrace(ctx, rest, more);
      TraceIsExecute(ctx, rest, more);
      assert rest[0] == Step(ctx, t[0], replies[0]);
      assert Execute(ctx, t[0], replies) == [t[0]] + Execute(ctx, rest[0], more);
      assert t == [t[0]] + rest;
    } else if t[0].Running? {
      assert |replies| == 0;
    }
  }

  // ---------------------------------------------------------------------------
  // Polling keeps asking about the same job

  /** The field carrying the job identifier through each polling loop. */
  function JobKey(n: Node): string {
    if Phase(n) <= 2 then "jobName" else "jobId"
  }

  predicate InPollingLoop(n: Node) {
    Phase(n) == 1 || Phase(n) == 5
  }

  /** The service answered about the job it was asked about: a start reply
      carries the requested job name, a status reply the queried identifier. */
  ghost predicate Echoes(ctx: Context, e: Exec, reply: Reply) {
    e.Running? && KindOf(e.node).Task? && reply.Answer? ==>
      match TaskRequest(ctx, e.node, e.input)
      case Some(StartTranscriptionJob(_, name, _, _, _)) => Select(reply.payload, TranscriptionJobName) == Some(JStr(name))
      case Some(GetTranscriptionJob(name)) => Select(reply.payload, TranscriptionJobName) == Some(name)
      case Some(GetIngestionJob(_, _, id)) => Select(reply.payload, IngestionJobId) == Some(id)
      case _ => true
  }

  /** One step inside a polling loop keeps the job identifier. */
  lemma LoopStepKeepsJob(ctx: Context, e: Exec, reply: Reply)
    requires e.Running? && InPollingLoop(e.node) && Echoes(ctx, e, reply)
    requires Step(ctx, e, reply).Running? && Phase(Step(ctx, e, reply).node) == Phase(e.node)
    ensures Member(Step(ctx, e, reply).input, JobKey(e.node)) == Member(e.input, JobKey(e.node))
  {
    if e.node == CheckTranscriptionStatusTask {
      TranscriptionCheckKeepsJob(ctx, e.input, reply);
    } else if e.node == CheckBedrockDataIngestionTask {
      IngestionCheckKeepsJob(ctx, e.input, reply);
    }
  }

  lemma TranscriptionCheckKeepsJob(ctx: Context, data: Json, reply: Reply)
    requires Echoes(ctx, Running(CheckTranscriptionStatusTask, data), reply)
    requires Step(ctx, Running(CheckTranscriptionStatusTask, data), reply).Running?
    ensures Member(Step(ctx, Running(CheckTranscriptionStatusTask, data), reply).input, "jobName")
              == Member(data, "jobName")
  {
    var out := ApplySelector(ResultSelectorOf(CheckTranscriptionStatusTask).value, reply.payload).value;
    var fs := out.fields;
    assert |fs| == 3 && fs[0].0 == "status" && fs[2].0 == "transcriptUri";
    assert fs[1] == ("jobName", Select(reply.payload, TranscriptionJobName).value);
    LookupUnique(fs, "jobName", 1);
  }

  lemma IngestionCheckKeepsJob(ctx: Context, data: Json, reply: Reply)
    requires Echoes(ctx, Running(CheckBedrockDataIngestionTask, data), reply)
    requires Step(ctx, Running(CheckBedrockDataIngestionTask, data), reply).Running?
    ensures Member(Step(ctx, Running(CheckBedrockDataIngestionTask, data), reply).input, "jobId")
              == Member(data, "jobId")
  {
    var out := ApplySelector(ResultSelectorOf(CheckBedrockDataIngestionTask).value, reply.payload).value;
    var fs := out.fields;
    assert |fs| == 2 && fs[0].0 == "status";
    assert fs[1] == ("jobId", Select(reply.payload, IngestionJobId).value);
    LookupUnique(fs, "jobId", 1);
  }

  /** Every visit to a polling loop's states in one run carries the same job
      identifier. */
  lemma {:induction false} PollingKeepsJob(ctx: Context, t: seq<Exec>, replies: seq<Reply>, i: nat, j: nat)
    requires IsTrace(ctx, t, replies)
    requires forall k :: 0 <= k < |t| && k < |replies| ==> Echoes(ctx, t[k], replies[k])
    requires i <= j < |t| && t[i].Running? && t[j].Running?
    requires InPollingLoop(t[i].node) && Phase(t[i].node) == Phase(t[j].node)
    ensures Member(t[i].input, JobKey(t[i].node)) == Member(t[j].input, JobKey(t[j].node))
    decreases j
  {
    if i < j {
      LoopStepInTrace(ctx, t, replies, i, j - 1);
      PollingKeepsJob(ctx, t, replies, i, j - 1);
    }
  }

  /** The last step of a stretch inside one polling loop keeps the job. */
  lemma LoopStepInTrace(ctx: Context, t: seq<Exec>, replies: seq<Reply>, i: nat, k: nat)
    requires IsTrace(ctx, t, replies)
    requires forall k :: 0 <= k < |t| && k < |replies| ==> Echoes(ctx, t[k], replies[k])
    requires i <= k && k + 1 < |t| && t[k + 1].Running?
    requires InPollingLoop(t[i].node) && Phase(t[i].node) == Phase(t[k + 1].node)
    ensures t[k].Running? && Phase(t[k].node) == Phase(t[i].node)
    ensures Member(t[k].input, JobKey(t[k].node)) == Member(t[k + 1].input, JobKey(t[k + 1].node))
  {
    var p := t[k];
    assert Moves(ctx, t, replies, k);
    assert p.Running? && t[k + 1] == Step(ctx, p, replies[k]);
    PhaseNeverDecreases(ctx, t, replies, i, k);
    StepPhase(ctx, p, replies[k]);
    assert Echoes(ctx, p, replies[k]);
    LoopStepKeepsJob(ctx, p, replies[k]);
  }

  /** A status check's request is fixed by the job identifier it is given. */
  lemma CheckRequestByJob(ctx: Context, n: Node, d1: Json, d2: Json)
    requires KindOf(n).Task? && InPollingLoop(n)
    requires Member(d1, JobKey(n)) == Member(d2, JobKey(n))
    ensures TaskRequest(ctx, n, d1) == TaskRequest(ctx, n, d2)
  {
  }

  /** So every status check of a polling loop in one run asks about the same
      job. */
  lemma PollingQueriesOneJob(ctx: Context, t: seq<Exec>, replies: seq<Reply>, i: nat, j: nat)
    requires IsTrace(ctx, t, replies)
    requires forall k :: 0 <= k < |t| && k < |replies| ==> Echoes(ctx, t[k], replies[k])
    requires i <= j < |t| && t[i].Running? && t[j].Running?
    requires InPollingLoop(t[i].node) && KindOf(t[i].node).Task? && t[j].node == t[i].node
    ensures TaskRequest(ctx, t[i].node, t[i].input) == TaskRequest(ctx, t[j].node, t[j].input)
  {
    PollingKeepsJob(ctx, t, replies, i, j);
    CheckRequestByJob(ctx, t[i].node, t[i].input, t[j].input);
  }

  /** The first step of an echoing run records the execution name as the
      job name. */
  lemma StartRecordsJobName(ctx: Context, t: seq<Exec>, replies: seq<Reply>, input: Json)
    requires IsTrace(ctx, t, replies) && t[0] == Start(input) && 1 < |t| && t[1].Running?
    requires 0 < |replies| && Echoes(ctx, t[0], replies[0])
    ensures Member(t[1].input, "jobName") == Some(JStr(ctx.executionName))
  {
    assert Moves(ctx, t, replies, 0);
    var r := replies[0];
    var out := ApplySelector(ResultSelectorOf(StartTranscriptionTask).value, r.payload).value;
    assert t[1] == Running(TranscriptionStatusWaitFor10Seconds, out);
    var fs := out.fields;
    assert fs == [fs[0], fs[1]];
    assert fs[..1] == [fs[0]];
  }

  /** The transcription job is named after the execution, so with echoing
      replies every transcription check asks about that name. */
  lemma TranscriptionPollsExecutionJob(ctx: Context, t: seq<Exec>, replies: seq<Reply>, input: Json, j: nat)
    requires IsTrace(ctx, t, replies) && t[0] == Start(input)
    requires forall k :: 0 <= k < |t| && k < |replies| ==> Echoes(ctx, t[k], replies[k])
    requires j < |t| && t[j].Running? && t[j].node == CheckTranscriptionStatusTask
    ensures TaskRequest(ctx, CheckTranscriptionStatusTask, t[j].input)
              == Some(GetTranscriptionJob(JStr(ctx.executionName)))
  {
    assert t[0].node == StartTranscriptionTask;
    assert 1 <= j;
    assert t[1].Running?;
    assert Moves(ctx, t, replies, 0);
    assert Echoes(ctx, t[0], replies[0]);
    StartRecordsJobName(ctx, t, replies, input);
    assert t[1].node == TranscriptionStatusWaitFor10Seconds;
    PhaseNeverDecreases(ctx, t, replies, 1, j);
    PollingKeepsJob(ctx, t, replies, 1, j);
  }

  /** A transcription check whose reply lacks `Transcript.TranscriptFileUri`
      fails the run: the selector reads that path on every poll. */
  lemma CheckWithoutTranscriptUriFails(ctx: Context, data: Json, payload: Json)
    requires Member(data, "jobName").Some?
    requires Select(payload, TranscriptFileUri).None?
    ensures Step(ctx, Running(CheckTranscriptionStatusTask, data), Answer(payload))
              == Failed(CheckTranscriptionStatusTask, StatesRuntime)
  {
    var sel := ResultSelectorOf(CheckTranscriptionStatusTask).value;
    assert Select(payload, sel[2].path).None?;
  }
}
