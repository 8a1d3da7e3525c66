/** The EventBridge rule that starts the media workflow: an event pattern on
    the S3 "Object Created" notification and the input transformer that
    hands the state machine `{bucketName, objectKey}`. */
module MediaTrigger {
  import opened Wrappers
  import opened Text
  import opened Json

  /** One allowed value in an event-pattern list. */
  datatype Matcher = Exactly(value: string) | Suffix(suffix: string)

  /** An event-pattern leaf: the value at `path` must satisfy one of `allowed`. */
  datatype PatternField = PatternField(path: seq<string>, allowed: seq<Matcher>)

  const SourcePath := ["source"]
  const DetailTypePath := ["detail-type"]
  const BucketNamePath := ["detail", "bucket", "name"]
  const ObjectKeyPath := ["detail", "object", "key"]

  const S3Source := "aws.s3"
  const ObjectCreated := "Object Created"
  const Mp4 := ".mp4"
  const M4a := ".m4a"

  /** The rule's pattern for uploads into `mediaBucket`. */
  function MediaPattern(mediaBucket: string): seq<PatternField> {
    [ PatternField(SourcePath, [Exactly(S3Source)]),
      PatternField(DetailTypePath, [Exactly(ObjectCreated)]),
      PatternField(BucketNamePath, [Exactly(mediaBucket)]),
      PatternField(ObjectKeyPath, [Suffix(Mp4), Suffix(M4a)]) ]
  }

  predicate MatcherAdmits(m: Matcher, v: Json) {
    v.JStr? &&
    match m
    case Exactly(x) => v.s == x
    case Suffix(x) => EndsWith(v.s, x)
  }

  /** A leaf matches when its path is present and one allowed value fits. */
  predicate FieldAdmits(f: PatternField, event: Json) {
    match Select(event, f.path)
    case None => false
    case Some(v) => exists m :: m in f.allowed && MatcherAdmits(m, v)
  }

  /** An event matches a pattern when every leaf matches. */
  predicate Matches(pattern: seq<PatternField>, event: Json) {
    forall f :: f in pattern ==> FieldAdmits(f, event)
  }

  lemma ExactlyAdmits(path: seq<string>, x: string, event: Json)
    ensures FieldAdmits(PatternField(path, [Exactly(x)]), event) <==> StringAt(event, path) == Some(x)
  {
    if StringAt(event, path) == Some(x) {
      assert MatcherAdmits(Exactly(x), Select(event, path).value);
    }
  }

  lemma SuffixesAdmit(path: seq<string>, x: string, y: string, event: Json)
    ensures FieldAdmits(PatternField(path, [Suffix(x), Suffix(y)]), event) <==>
      StringAt(event, path).Some?
      && (EndsWith(StringAt(event, path).value, x) || EndsWith(StringAt(event, path).value, y))
  {
    if StringAt(event, path).Some? {
      var v := Select(event, path).value;
      if EndsWith(v.s, x) {
        assert MatcherAdmits(Suffix(x), v);
      } else if EndsWith(v.s, y) {
        assert MatcherAdmits(Suffix(y), v);
      }
    }
  }

  /** The media pattern, leaf by leaf. */
  lemma MediaPatternAdmits(mediaBucket: string, event: Json)
    ensures Matches(MediaPattern(mediaBucket), event) <==>
      && StringAt(event, SourcePath) == Some(S3Source)
      && StringAt(event, DetailTypePath) == Some(ObjectCreated)
      && StringAt(event, BucketNamePath) == Some(mediaBucket)
      && StringAt(event, ObjectKeyPath).Some?
      && (EndsWith(StringAt(event, ObjectKeyPath).value, Mp4)
          || EndsWith(StringAt(event, ObjectKeyPath).value, M4a))
  {
    var p := MediaPattern(mediaBucket);
    ExactlyAdmits(SourcePath, S3Source, event);
    ExactlyAdmits(DetailTypePath, ObjectCreated, event);
    ExactlyAdmits(BucketNamePath, mediaBucket, event);
    SuffixesAdmit(ObjectKeyPath, Mp4, M4a, event);
    assert Matches(p, event) <==> FieldAdmits(p[0], event) && FieldAdmits(p[1], event)
                                  && FieldAdmits(p[2], event) && FieldAdmits(p[3], event) by {
      if FieldAdmits(p[0], event) && FieldAdmits(p[1], event) && FieldAdmits(p[2], event) && FieldAdmits(p[3], event) {
        forall f | f in p
          ensures FieldAdmits(f, event)
        {
          var i :| 0 <= i < |p| && p[i] == f;
        }
      }
    }
  }

  /** What the rule delivers to the state machine for `event`: None when
      the pattern rejects it, otherwise the transformed input. */
  function Trigger(mediaBucket: string, event: Json): (r: Option<Json>)
    ensures r.Some? <==>
      && StringAt(event, SourcePath) == Some(S3Source)
      && StringAt(event, DetailTypePath) == Some(ObjectCreated)
      && StringAt(event, BucketNamePath) == Some(mediaBucket)
      && StringAt(event, ObjectKeyPath).Some?
      && (EndsWith(StringAt(event, ObjectKeyPath).value, Mp4)
          || EndsWith(StringAt(event, ObjectKeyPath).value, M4a))
    ensures r.Some? ==>
      r.value == JObj([("bucketName", JStr(mediaBucket)),
                       ("objectKey", JStr(StringAt(event, ObjectKeyPath).value))])
  {
    MediaPatternAdmits(mediaBucket, event);
    if Matches(MediaPattern(mediaBucket), event) then
      Some(JObj([("bucketName", Select(event, BucketNamePath).value),
                 ("objectKey", Select(event, ObjectKeyPath).value)]))
    else
      None
  }

  /** The rule looks at nothing but the four pattern paths: two events that
      agree on them are delivered identically. */
  lemma TriggerReadsOnlyPattern(mediaBucket: string, e1: Json, e2: Json)
    requires Select(e1, SourcePath) == Select(e2, SourcePath)
    requires Select(e1, DetailTypePath) == Select(e2, DetailTypePath)
    requires Select(e1, BucketNamePath) == Select(e2, BucketNamePath)
    requires Select(e1, ObjectKeyPath) == Select(e2, ObjectKeyPath)
    ensures Trigger(mediaBucket, e1) == Trigger(mediaBucket, e2)
  {
  }
}
