/** Two complete runs of the media-processing state machine on concrete
    replies: an upload that polls, transforms, ingests and succeeds, and one
    whose transcription fails. */
module MediaWorkflowScenarios {
  import opened Wrappers
  import opened Json
  import opened MediaWorkflow
  import opened MediaWorkflowProperties

  const Ctx := Context("exec-1", "transcriptions-bucket", "data-source", "knowledge-base")

  const Upload := JObj([("bucketName", JStr("media")), ("objectKey", JStr("clip.mp4"))])

  function TranscribeReply(status: string): Reply {
    Answer(JObj([("TranscriptionJob", JObj([
      ("TranscriptionJobName", JStr("exec-1")),
      ("TranscriptionJobStatus", JStr(status)),
      ("Transcript", JObj([("TranscriptFileUri", JStr("s3://transcriptions-bucket/transcriptions/exec-1.json"))]))]))]))
  }

  function IngestReply(status: string): Reply {
    Answer(JObj([("IngestionJob", JObj([("IngestionJobId", JStr("job-7")), ("Status", JStr(status))]))]))
  }

  /** Replies to steps that call no service are never read. */
  const Unread := Answer(JNull)

  function Polled(status: string): Json {
    JObj([("status", JStr(status)), ("jobName", JStr("exec-1")),
          ("transcriptUri", JStr("s3://transcriptions-bucket/transcriptions/exec-1.json"))])
  }

  function Ingesting(status: string): Json {
    JObj([("status", JStr(status)), ("jobId", JStr("job-7"))])
  }

  const Started := JObj([("jobName", JStr("exec-1")), ("status", JStr("IN_PROGRESS"))])
  const StartedIngestion := JObj([("jobId", JStr("job-7")), ("status", JStr("STARTING"))])

  lemma TranscribeReplyFields(status: string)
    ensures Select(TranscribeReply(status).payload, TranscriptionJobStatus) == Some(JStr(status))
    ensures Select(TranscribeReply(status).payload, TranscriptionJobName) == Some(JStr("exec-1"))
    ensures Select(TranscribeReply(status).payload, TranscriptFileUri)
              == Some(JStr("s3://transcriptions-bucket/transcriptions/exec-1.json"))
  {
    var p := TranscribeReply(status).payload;
    var uri := JObj([("TranscriptFileUri", JStr("s3://transcriptions-bucket/transcriptions/exec-1.json"))]);
    var fs := [("TranscriptionJobName", JStr("exec-1")), ("TranscriptionJobStatus", JStr(status)), ("Transcript", uri)];
    assert Member(p, "TranscriptionJob") == Some(JObj(fs));
    assert Lookup(fs, "TranscriptionJobStatus") == Some(JStr(status)) by {
      assert fs[..2] == [fs[0], fs[1]];
    }
    assert Lookup(fs, "TranscriptionJobName") == Some(JStr("exec-1")) by {
      assert fs[..2] == [fs[0], fs[1]];
      assert fs[..2][..1] == [fs[0]];
    }
    assert Lookup(fs, "Transcript") == Some(uri);
    assert TranscriptionJobStatus[1..] == ["TranscriptionJobStatus"];
    assert TranscriptionJobName[1..] == ["TranscriptionJobName"];
    assert TranscriptFileUri[1..] == ["Transcript", "TranscriptFileUri"];
    assert TranscriptFileUri[1..][1..] == ["TranscriptFileUri"];
  }

  lemma IngestReplyFields(status: string)
    ensures Select(IngestReply(status).payload, IngestionJobStatus) == Some(JStr(status))
    ensures Select(IngestReply(status).payload, IngestionJobId) == Some(JStr("job-7"))
  {
    var p := IngestReply(status).payload;
    var fs := [("IngestionJobId", JStr("job-7")), ("Status", JStr(status))];
    assert Member(p, "IngestionJob") == Some(JObj(fs));
    assert Lookup(fs, "IngestionJobId") == Some(JStr("job-7")) by {
      assert fs[..1] == [fs[0]];
    }
    assert IngestionJobStatus[1..] == ["Status"];
    assert IngestionJobId[1..] == ["IngestionJobId"];
  }

  lemma PolledFields(status: string)
    ensures Select(Polled(status), StatusPath) == Some(JStr(status))
    ensures Member(Polled(status), "jobName").Some?
  {
    var fs := Polled(status).fields;
    assert fs[..2] == [fs[0], fs[1]];
    assert fs[..2][..1] == [fs[0]];
  }

  lemma IngestingFields(status: string)
    ensures Select(Ingesting(status), StatusPath) == Some(JStr(status))
    ensures Member(StartedIngestion, "jobId").Some?
  {
    var fs := Ingesting(status).fields;
    assert fs[..1] == [fs[0]];
  }

  lemma StartSelected()
    ensures TaskOutput(StartTranscriptionTask, TranscribeReply("IN_PROGRESS").payload) == Some(Started)
  {
    TranscribeReplyFields("IN_PROGRESS");
    var out := ApplySelector(ResultSelectorOf(StartTranscriptionTask).value, TranscribeReply("IN_PROGRESS").payload);
    assert out.Some?;
    var sel := ResultSelectorOf(StartTranscriptionTask).value;
    assert out.value.fields[0] == (sel[0].field, JStr("exec-1"));
    assert out.value.fields[1] == (sel[1].field, JStr("IN_PROGRESS"));
    assert out.value.fields == Started.fields;
  }

  lemma StartStep()
    ensures Step(Ctx, Start(Upload), TranscribeReply("IN_PROGRESS")) == Running(TranscriptionStatusWaitFor10Seconds, Started)
  {
    StartTranscriptionRequestBuilt(Ctx, Upload);
    assert StringAt(Upload, InputBucketName) == Some("media");
    assert StringAt(Upload, InputObjectKey) == Some("clip.mp4") by {
      assert Upload.fields[..1] == [Upload.fields[0]];
    }
    StartSelected();
  }

  lemma CheckSelected(status: string)
    ensures TaskOutput(CheckTranscriptionStatusTask, TranscribeReply(status).payload) == Some(Polled(status))
  {
    TranscribeReplyFields(status);
    var out := ApplySelector(ResultSelectorOf(CheckTranscriptionStatusTask).value, TranscribeReply(status).payload);
    assert out.Some?;
    var sel := ResultSelectorOf(CheckTranscriptionStatusTask).value;
    assert out.value.fields[0] == (sel[0].field, JStr(status));
    assert out.value.fields[1] == (sel[1].field, JStr("exec-1"));
    assert out.value.fields[2] == (sel[2].field, JStr("s3://transcriptions-bucket/transcriptions/exec-1.json"));
    assert out.value.fields == Polled(status).fields;
  }

  lemma CheckTranscriptionStep(d: Json, status: string)
    requires Member(d, "jobName").Some?
    ensures Step(Ctx, Running(CheckTranscriptionStatusTask, d), TranscribeReply(status))
              == Running(DecideOnTranscriptionStatus, Polled(status))
  {
    CheckSelected(status);
  }

  lemma AthenaAndIngestionStartSteps(d: Json)
    ensures Step(Ctx, Running(ExecuteAthenaQueryTask, d), Answer(JObj([])))
              == Running(StartBedrockDataIngestionTask, JObj([]))
    ensures Step(Ctx, Running(StartBedrockDataIngestionTask, JObj([])), IngestReply("STARTING"))
              == Running(IngestionStatusWaitFor10Seconds, StartedIngestion)
  {
    IngestReplyFields("STARTING");
    var out := ApplySelector(ResultSelectorOf(StartBedrockDataIngestionTask).value, IngestReply("STARTING").payload);
    assert out.Some?;
    assert out.value.fields == StartedIngestion.fields;
  }

  lemma IngestSelected(status: string)
    ensures TaskOutput(CheckBedrockDataIngestionTask, IngestReply(status).payload) == Some(Ingesting(status))
  {
    IngestReplyFields(status);
    var out := ApplySelector(ResultSelectorOf(CheckBedrockDataIngestionTask).value, IngestReply(status).payload);
    assert out.Some?;
    var sel := ResultSelectorOf(CheckBedrockDataIngestionTask).value;
    assert out.value.fields[0] == (sel[0].field, JStr(status));
    assert out.value.fields[1] == (sel[1].field, JStr("job-7"));
    assert out.value.fields == Ingesting(status).fields;
  }

  lemma CheckIngestionStep(d: Json, status: string)
    requires Member(d, "jobId").Some?
    ensures Step(Ctx, Running(CheckBedrockDataIngestionTask, d), IngestReply(status))
              == Running(DecideOnBedrockIngestionStatus, Ingesting(status))
  {
    IngestSelected(status);
  }

  lemma DecideTranscriptionStep(status: string)
    ensures status == "COMPLETED" ==>
              Step(Ctx, Running(DecideOnTranscriptionStatus, Polled(status)), Unread)
                == Running(ExecuteAthenaQueryTask, Polled(status))
    ensures status == "FAILED" ==>
              Step(Ctx, Running(DecideOnTranscriptionStatus, Polled(status)), Unread)
                == Running(TranscriptionFailed, Polled(status))
    ensures status == "IN_PROGRESS" ==>
              Step(Ctx, Running(DecideOnTranscriptionStatus, Polled(status)), Unread)
                == Running(TranscriptionStatusWaitFor10Seconds, Polled(status))
  {
    PolledFields(status);
    TranscriptionChoiceRoutes(Polled(status));
  }

  lemma DecideIngestionStep()
    ensures Step(Ctx, Running(DecideOnBedrockIngestionStatus, Ingesting("COMPLETE")), Unread)
              == Running(BedrockIngestionSuccessful, Ingesting("COMPLETE"))
  {
    IngestingFields("COMPLETE");
    IngestionChoiceRoutes(Ingesting("COMPLETE"));
  }

  // The happy run, built back to front one step at a time.

  const Happy13: seq<Exec> := [Succeeded(BedrockIngestionSuccessful, Ingesting("COMPLETE"))]
  const Happy12 := [Running(BedrockIngestionSuccessful, Ingesting("COMPLETE"))] + Happy13
  const Happy11 := [Running(DecideOnBedrockIngestionStatus, Ingesting("COMPLETE"))] + Happy12
  const Happy10 := [Running(CheckBedrockDataIngestionTask, StartedIngestion)] + Happy11
  const Happy9 := [Running(IngestionStatusWaitFor10Seconds, StartedIngestion)] + Happy10
  const Happy8 := [Running(StartBedrockDataIngestionTask, JObj([]))] + Happy9
  const Happy7 := [Running(ExecuteAthenaQueryTask, Polled("COMPLETED"))] + Happy8
  const Happy6 := [Running(DecideOnTranscriptionStatus, Polled("COMPLETED"))] + Happy7
  const Happy5 := [Running(CheckTranscriptionStatusTask, Polled("IN_PROGRESS"))] + Happy6
  const Happy4 := [Running(TranscriptionStatusWaitFor10Seconds, Polled("IN_PROGRESS"))] + Happy5
  const Happy3 := [Running(DecideOnTranscriptionStatus, Polled("IN_PROGRESS"))] + Happy4
  const Happy2 := [Running(CheckTranscriptionStatusTask, Started)] + Happy3
  const Happy1 := [Running(TranscriptionStatusWaitFor10Seconds, Started)] + Happy2
  /** Upload, transcription polled once in progress and then completed,
      Athena, ingestion started, polled once and completed. */
  const HappyRun := [Start(Upload)] + Happy1

  const HappyReplies13: seq<Reply> := []
  const HappyReplies12 := [Unread] + HappyReplies13
  const HappyReplies11 := [Unread] + HappyReplies12
  const HappyReplies10 := [IngestReply("COMPLETE")] + HappyReplies11
  const HappyReplies9 := [Unread] + HappyReplies10
  const HappyReplies8 := [IngestReply("STARTING")] + HappyReplies9
  const HappyReplies7 := [Answer(JObj([]))] + HappyReplies8
  const HappyReplies6 := [Unread] + HappyReplies7
  const HappyReplies5 := [TranscribeReply("COMPLETED")] + HappyReplies6
  const HappyReplies4 := [Unread] + HappyReplies5
  const HappyReplies3 := [Unread] + HappyReplies4
  const HappyReplies2 := [TranscribeReply("IN_PROGRESS")] + HappyReplies3
  const HappyReplies1 := [Unread] + HappyReplies2
  const HappyReplies := [TranscribeReply("IN_PROGRESS")] + HappyReplies1

  lemma HappyFrom12()
    ensures IsTrace(Ctx, Happy12, HappyReplies12)
  {
    assert IsTrace(Ctx, Happy13, HappyReplies13);
    TraceCons(Ctx, Happy12[0], Unread, Happy13, HappyReplies13);
  }

  lemma HappyFrom11()
    ensures IsTrace(Ctx, Happy11, HappyReplies11)
  {
    HappyFrom12();
    DecideIngestionStep();
    TraceCons(Ctx, Happy11[0], Unread, Happy12, HappyReplies12);
  }

  lemma HappyFrom10()
    ensures IsTrace(Ctx, Happy10, HappyReplies10)
  {
    HappyFrom11();
    CheckIngestionStep(StartedIngestion, "COMPLETE");
    TraceCons(Ctx, Happy10[0], IngestReply("COMPLETE"), Happy11, HappyReplies11);
  }

  lemma HappyFrom9()
    ensures IsTrace(Ctx, Happy9, HappyReplies9)
  {
    HappyFrom10();
    TraceCons(Ctx, Happy9[0], Unread, Happy10, HappyReplies10);
  }

  lemma HappyFrom8()
    ensures IsTrace(Ctx, Happy8, HappyReplies8)
  {
    HappyFrom9();
    AthenaAndIngestionStartSteps(Polled("COMPLETED"));
    TraceCons(Ctx, Happy8[0], IngestReply("STARTING"), Happy9, HappyReplies9);
  }

  lemma HappyFrom7()
    ensures IsTrace(Ctx, Happy7, HappyReplies7)
  {
    HappyFrom8();
    AthenaAndIngestionStartSteps(Polled("COMPLETED"));
    TraceCons(Ctx, Happy7[0], Answer(JObj([])), Happy8, HappyReplies8);
  }

  lemma HappyFrom6()
    ensures IsTrace(Ctx, Happy6, HappyReplies6)
  {
    HappyFrom7();
    DecideTranscriptionStep("COMPLETED");
    TraceCons(Ctx, Happy6[0], Unread, Happy7, HappyReplies7);
  }

  lemma HappyFrom5()
    ensures IsTrace(Ctx, Happy5, HappyReplies5)
  {
    HappyFrom6();
    CheckTranscriptionStep(Polled("IN_PROGRESS"), "COMPLETED");
    TraceCons(Ctx, Happy5[0], TranscribeReply("COMPLETED"), Happy6, HappyReplies6);
  }

  lemma HappyFrom4()
    ensures IsTrace(Ctx, Happy4, HappyReplies4)
  {
    HappyFrom5();
    TraceCons(Ctx, Happy4[0], Unread, Happy5, HappyReplies5);
  }

  lemma HappyFrom3()
    ensures IsTrace(Ctx, Happy3, HappyReplies3)
  {
    HappyFrom4();
    DecideTranscriptionStep("IN_PROGRESS");
    TraceCons(Ctx, Happy3[0], Unread, Happy4, HappyReplies4);
  }

  lemma HappyFrom2()
    ensures IsTrace(Ctx, Happy2, HappyReplies2)
  {
    HappyFrom3();
    CheckTranscriptionStep(Started, "IN_PROGRESS");
    TraceCons(Ctx, Happy2[0], TranscribeReply("IN_PROGRESS"), Happy3, HappyReplies3);
  }

  lemma HappyFrom1()
    ensures IsTrace(Ctx, Happy1, HappyReplies1)
  {
    HappyFrom2();
    TraceCons(Ctx, Happy1[0], Unread, Happy2, HappyReplies2);
  }

  lemma HappyFromStart()
    ensures IsTrace(Ctx, HappyRun, HappyReplies)
  {
    HappyFrom1();
    StartStep();
    TraceCons(Ctx, HappyRun[0], TranscribeReply("IN_PROGRESS"), Happy1, HappyReplies1);
  }

  /** The upload runs through both halves of the workflow and ends in
      `BedrockIngestionSuccessful` with the completed ingestion status. */
  lemma UploadRunsToIngestionSuccess()
    ensures IsTrace(Ctx, HappyRun, HappyReplies) && HappyRun[0] == Start(Upload)
    ensures |HappyRun| == 14 && HappyRun[13] == Succeeded(BedrockIngestionSuccessful, Ingesting("COMPLETE"))
    ensures exists j :: 0 <= j < |HappyRun| && HappyRun[j] == Running(ExecuteAthenaQueryTask, Polled("COMPLETED"))
  {
    HappyFromStart();
    assert HappyRun[7] == Running(ExecuteAthenaQueryTask, Polled("COMPLETED"));
  }

  const Failed5: seq<Exec> := [Succeeded(TranscriptionFailed, Polled("FAILED"))]
  const Failed4 := [Running(TranscriptionFailed, Polled("FAILED"))] + Failed5
  const Failed3 := [Running(DecideOnTranscriptionStatus, Polled("FAILED"))] + Failed4
  const Failed2 := [Running(CheckTranscriptionStatusTask, Started)] + Failed3
  const Failed1 := [Running(TranscriptionStatusWaitFor10Seconds, Started)] + Failed2
  /** Upload, transcription polled once in progress and then failed. */
  const FailedRun := [Start(Upload)] + Failed1

  const FailedReplies5: seq<Reply> := []
  const FailedReplies4 := [Unread] + FailedReplies5
  const FailedReplies3 := [Unread] + FailedReplies4
  const FailedReplies2 := [TranscribeReply("FAILED")] + FailedReplies3
  const FailedReplies1 := [Unread] + FailedReplies2
  const FailedReplies := [TranscribeReply("IN_PROGRESS")] + FailedReplies1

  lemma FailedFrom3()
    ensures IsTrace(Ctx, Failed3, FailedReplies3)
  {
    assert IsTrace(Ctx, Failed5, FailedReplies5);
    TraceCons(Ctx, Failed4[0], Unread, Failed5, FailedReplies5);
    DecideTranscriptionStep("FAILED");
    TraceCons(Ctx, Failed3[0], Unread, Failed4, FailedReplies4);
  }

  lemma FailedFrom1()
    ensures IsTrace(Ctx, Failed1, FailedReplies1)
  {
    FailedFrom3();
    CheckTranscriptionStep(Started, "FAILED");
    TraceCons(Ctx, Failed2[0], TranscribeReply("FAILED"), Failed3, FailedReplies3);
    TraceCons(Ctx, Failed1[0], Unread, Failed2, FailedReplies2);
  }

  lemma FailedFromStart()
    ensures IsTrace(Ctx, FailedRun, FailedReplies)
  {
    FailedFrom1();
    StartStep();
    TraceCons(Ctx, FailedRun[0], TranscribeReply("IN_PROGRESS"), Failed1, FailedReplies1);
  }

  /** A transcription that fails ends at the `TranscriptionFailed` Pass
      state, which the States Language counts as a succeeded execution; the
      ingestion half is never entered. */
  lemma FailedTranscriptionRun()
    ensures IsTrace(Ctx, FailedRun, FailedReplies) && FailedRun[0] == Start(Upload)
    ensures |FailedRun| == 6 && FailedRun[5] == Succeeded(TranscriptionFailed, Polled("FAILED"))
    ensures forall j :: 0 <= j < |FailedRun| ==> !InIngestion(FailedRun[j].node)
  {
    FailedFromStart();
    var t := FailedRun;
    assert t[3] == Running(DecideOnTranscriptionStatus, Polled("FAILED"));
    PolledFields("FAILED");
    FailedTranscriptionNeverIngests(Ctx, t, FailedReplies, 3);
  }
}
