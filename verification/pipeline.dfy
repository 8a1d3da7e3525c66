/** How the pieces fit together: the upload event feeds the workflow, the
    transcription lands where the Glue table reads, the combined transcript
    lands where the knowledge base ingests, and the chat filter selects the
    documents the preparation handler wrote for the transcript asked about.
    The Athena output carries no metadata file, so that filter never admits
    it. */
module Pipeline {
  import opened Wrappers
  import opened Text
  import opened Json
  import opened MediaWorkflow
  import opened MediaTrigger
  import opened PrepareData
  import opened ChatWithTranscript

  /** The knowledge-base data source's `inclusionPrefixes`. */
  const InclusionPrefixes := ["data/"]

  /** The Glue table's `s3Prefix`, the location Athena reads transcripts from. */
  const GlueTablePrefix := "transcriptions/"

  predicate Ingested(key: string) {
    exists p :: p in InclusionPrefixes && StartsWith(key, p)
  }

  /** An admitted upload starts a transcription job for exactly that object:
      the media URI is `s3://<media bucket>/<object key>`, the job is named
      after the execution, and the transcript goes to
      `transcriptions/<execution name>.json` in the transcriptions bucket. */
  lemma UploadStartsItsTranscription(ctx: Context, mediaBucket: string, event: Json)
    requires Trigger(mediaBucket, event).Some?
    ensures var key := StringAt(event, ObjectKeyPath).value;
            TaskRequest(ctx, StartTranscriptionTask, Trigger(mediaBucket, event).value)
              == Some(StartTranscriptionJob("s3://" + mediaBucket + "/" + key, ctx.executionName, LanguageCode,
                                            ctx.transcriptionsBucket, "transcriptions/" + ctx.executionName + ".json"))
  {
    var key := StringAt(event, ObjectKeyPath).value;
    ProjectionFields(mediaBucket, key);
    StartTranscriptionRequestBuilt(ctx, Trigger(mediaBucket, event).value);
  }

  lemma ProjectionFields(bucket: string, key: string)
    ensures var input := JObj([("bucketName", JStr(bucket)), ("objectKey", JStr(key))]);
            StringAt(input, InputBucketName) == Some(bucket) && StringAt(input, InputObjectKey) == Some(key)
  {
    var fields := [("bucketName", JStr(bucket)), ("objectKey", JStr(key))];
    assert fields[..1] == [fields[0]];
  }

  /** Transcribe writes under the prefix the Glue table reads. Athena's
      UNLOAD location is `data/<execution name>` in the transcriptions
      bucket; Athena writes files of its own naming under that location, and
      every key there lies under the prefix the knowledge base ingests. */
  lemma StorageLayoutConnects(ctx: Context)
    ensures StartsWith("transcriptions/" + ctx.executionName + ".json", GlueTablePrefix)
    ensures UnloadLocation(ctx) == "s3://" + ctx.transcriptionsBucket + "/" + DataPrefix + ctx.executionName
    ensures forall key :: StartsWith(key, DataPrefix + ctx.executionName) ==> Ingested(key)
  {
    var k := "transcriptions/" + ctx.executionName + ".json";
    assert k[..|GlueTablePrefix|] == GlueTablePrefix;
    assert InclusionPrefixes[0] == DataPrefix;
    forall key | StartsWith(key, DataPrefix + ctx.executionName)
      ensures Ingested(key)
    {
      StartsWithLonger(key, DataPrefix, ctx.executionName);
    }
  }

  /** Both objects the preparation handler writes are ingested by the
      knowledge base. */
  lemma PreparedObjectsIngested(id: string)
    ensures Ingested(DataKey(id)) && Ingested(MetadataKey(id))
  {
    KeysDistinctUnderData(id);
    assert InclusionPrefixes[0] == DataPrefix;
  }

  /** Whether a document whose metadata is `doc` passes `filter`. */
  predicate FilterAdmits(filter: Filter, doc: Json) {
    Select(doc, [AttributesKey, filter.key]) == Some(JStr(filter.value))
  }

  /** The chat filter uses the attribute the preparation handler writes, so
      a question about transcript `asked` retrieves from the documents of
      transcript `stored` exactly when the two ids are equal. */
  lemma ChatRetrievesOwnTranscript(env: Env, asked: string, text: string, stored: string)
    ensures FilterAdmits(ChatRequest(env, asked, text).filter, MetadataDocument(stored)) <==> asked == stored
  {
    assert SourceKey == SourceAttribute;
    var inner := JObj([(SourceKey, JStr(stored))]);
    assert Member(MetadataDocument(stored), AttributesKey) == Some(inner);
    assert Member(inner, SourceKey) == Some(JStr(stored));
    var path := [AttributesKey, SourceKey];
    assert path[1..] == [SourceKey];
    assert [SourceKey][1..] == [];
    assert Select(inner, [SourceKey]) == Some(JStr(stored));
    assert Select(MetadataDocument(stored), path) == Some(JStr(stored));
  }
}
