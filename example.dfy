/** The demonstration event of lambda_function.py's `__main__` block: an RDS
    high-connections alarm with a subject and one dimension. */
module AlarmExample {
  import opened Wrappers
  import opened PyJson
  import opened AlarmRelay

  const ExampleSubject := "ALARM: \"RDS: svc-ca-backend-prod High Connections\" in US East (N. Virginia)"

  const ExampleName := "RDS: svc-ca-backend-prod High Connections"
  const ExampleDescription := "svc-ca-backend-prod is considered to have a high number of connections"
  const ExampleReason := "Threshold Crossed: 1 out of the last 1 datapoints [75.0 (24/09/19 21:32:00)] was greater than the threshold (25.0) (minimum 1 datapoint for OK -> ALARM transition)."

  /** The texts of the demonstration alarm that reach the payload. */
  datatype AlarmTexts = AlarmTexts(name: string, description: string, reason: string,
                                   namespace: string, metric: string, dimName: string, dimValue: string)

  const ExampleTexts := AlarmTexts(ExampleName, ExampleDescription, ExampleReason, "AWS/RDS",
                                   "DatabaseConnections", "DBClusterIdentifier", "svc-ca-backend-prod-cluster")

  /** The demonstration alarm, as `json.loads` returns it, with the texts that
      reach the payload drawn from `a`. */
  function DemoAlarm(a: AlarmTexts): Json
  {
    JObject([
      ("AlarmName", JString(a.name)),
      ("AlarmDescription", JString(a.description)),
      ("AWSAccountId", JString("765783612490")),
      ("NewStateValue", JString("ALARM")),
      ("NewStateReason", JString(a.reason)),
      ("StateChangeTime", JString("2019-09-24T21:33:49.363+0000")),
      ("Region", JString("US East (N. Virginia)")),
      ("OldStateValue", JString("OK")),
      ("Trigger", DemoTrigger(a))])
  }

  function DemoTrigger(a: AlarmTexts): Json
  {
    JObject([
      ("MetricName", JString(a.metric)),
      ("Namespace", JString(a.namespace)),
      ("StatisticType", JString("Statistic")),
      ("Statistic", JString("AVERAGE")),
      ("Unit", JNull),
      ("Dimensions", JArray([DemoDimension(a)])),
      ("Period", JInt(60)),
      ("EvaluationPeriods", JInt(1)),
      ("ComparisonOperator", JString("GreaterThanThreshold")),
      ("Threshold", JFloat("25.0")),
      ("TreatMissingData", JString("- TreatMissingData:                    missing")),
      ("EvaluateLowSampleCountPercentile", JString(""))])
  }

  function DemoDimension(a: AlarmTexts): Json
  {
    JObject([("value", JString(a.dimValue)), ("name", JString(a.dimName))])
  }

  /** The author line the demonstration alarm should get. */
  function DemoAuthor(a: AlarmTexts): string
  {
    "Namespace: " + a.namespace + " || Metric: " + a.metric + " on " + a.dimName + " " + a.dimValue
  }

  /** For any parser that reads the example message as the demonstration
      alarm, the payload is one red attachment whose author line is
      "Namespace: AWS/RDS || Metric: DatabaseConnections on DBClusterIdentifier
      svc-ca-backend-prod-cluster", with the subject as pretext. */
  lemma ExamplePayload(message: string, loads: string -> Option<Json>)
    requires loads(message) == Some(DemoAlarm(ExampleTexts))
    ensures PayloadOf(Sns(Some(JString(ExampleSubject)), Some(JString(message))), loads)
            == Ok([("attachments", JArray([JObject(DemoAttachment(ExampleTexts, ExampleSubject))]))])
  {
    DemoPayload(ExampleTexts, ExampleSubject, message, loads);
  }

  /** The same for the demonstration alarm with any texts and subject. */
  lemma DemoPayload(a: AlarmTexts, subject: string, text: string, loads: string -> Option<Json>)
    requires loads(text) == Some(DemoAlarm(a))
    ensures PayloadOf(Sns(Some(JString(subject)), Some(JString(text))), loads)
            == Ok([("attachments", JArray([JObject(DemoAttachment(a, subject))]))])
  {
    DemoAttachmentRule(a, subject);
  }

  /** The attachment the demonstration alarm should get. */
  function DemoAttachment(a: AlarmTexts, subject: string): Dict
  {
    [("fallback", JString(a.name)),
     ("title", JString(a.description)),
     ("text", JString(a.reason)),
     ("color", JString(Red)),
     ("author", JString(DemoAuthor(a))),
     ("pretext", JString(subject))]
  }

  /** The demonstration alarm gets all six attachment entries, coloured red. */
  lemma DemoAttachmentRule(a: AlarmTexts, subject: string)
    ensures Attachment(DemoAlarm(a), Some(JString(subject))) == Some(DemoAttachment(a, subject))
  {
    var msg := DemoAlarm(a);
    DemoFieldLookups(a);
    DemoAuthorLine(a);
    assert ColourEntry(msg) == [("color", JString(Red))];
    assert AuthorEntry(msg) == [("author", JString(DemoAuthor(a)))];
    var req := [("fallback", JString(a.name)), ("title", JString(a.description)), ("text", JString(a.reason))];
    assert Attachment(msg, Some(JString(subject)))
           == Some(req + ColourEntry(msg) + AuthorEntry(msg) + PretextEntry(Some(JString(subject))));
    assert req + ColourEntry(msg) + AuthorEntry(msg) + PretextEntry(Some(JString(subject)))
           == DemoAttachment(a, subject);
  }

  /** The four top-level fields the attachment reads. */
  lemma DemoFieldLookups(a: AlarmTexts)
    ensures Subscript(DemoAlarm(a), "AlarmName") == Some(JString(a.name))
    ensures Subscript(DemoAlarm(a), "AlarmDescription") == Some(JString(a.description))
    ensures Subscript(DemoAlarm(a), "NewStateValue") == Some(JString(AlarmState))
    ensures Subscript(DemoAlarm(a), "NewStateReason") == Some(JString(a.reason))
  {
    var ms := DemoAlarm(a).members;
    var k := "NewStateReason";
    assert Get(ms[4..], k) == Some(JString(a.reason));
    assert Get(ms[3..], k) == Get(ms[4..], k);
    assert Get(ms[2..], k) == Get(ms[3..], k);
    assert Get(ms[1..], k) == Get(ms[2..], k);
    assert Get(ms, k) == Get(ms[1..], k);
    k := "NewStateValue";
    assert Get(ms[3..], k) == Some(JString(AlarmState));
    assert Get(ms[2..], k) == Get(ms[3..], k);
    assert Get(ms[1..], k) == Get(ms[2..], k);
    assert Get(ms, k) == Get(ms[1..], k);
    k := "AlarmDescription";
    assert Get(ms[1..], k) == Some(JString(a.description));
    assert Get(ms, k) == Get(ms[1..], k);
  }

  /** The demonstration alarm's trigger, as the handler looks it up. */
  lemma DemoTriggerLookup(a: AlarmTexts)
    ensures Get(DemoAlarm(a).members, "Trigger") == Some(DemoTrigger(a))
  {
    var ms := DemoAlarm(a).members;
    var k := "Trigger";
    assert Get(ms[8..], k) == Some(DemoTrigger(a));
    assert Get(ms[7..], k) == Get(ms[8..], k);
    assert Get(ms[6..], k) == Get(ms[7..], k);
    assert Get(ms[5..], k) == Get(ms[6..], k);
    assert Get(ms[4..], k) == Get(ms[5..], k);
    assert Get(ms[3..], k) == Get(ms[4..], k);
    assert Get(ms[2..], k) == Get(ms[3..], k);
    assert Get(ms[1..], k) == Get(ms[2..], k);
    assert Get(ms, k) == Get(ms[1..], k);
  }

  /** The trigger's dimensions, as the handler looks them up. */
  lemma DemoDimensionsLookup(a: AlarmTexts)
    ensures Get(DemoTrigger(a).members, "Dimensions") == Some(JArray([DemoDimension(a)]))
  {
    var t := DemoTrigger(a).members;
    var k := "Dimensions";
    assert Get(t[5..], k) == Some(JArray([DemoDimension(a)]));
    assert Get(t[4..], k) == Get(t[5..], k);
    assert Get(t[3..], k) == Get(t[4..], k);
    assert Get(t[2..], k) == Get(t[3..], k);
    assert Get(t[1..], k) == Get(t[2..], k);
    assert Get(t, k) == Get(t[1..], k);
  }

  /** The author line of the demonstration alarm. */
  lemma DemoAuthorLine(a: AlarmTexts)
    ensures AuthorLine(DemoAlarm(a)) == Some(DemoAuthor(a))
  {
    DemoTriggerLookup(a);
    DemoDimensionsLookup(a);
    assert Get(DemoTrigger(a).members, "Namespace") == Some(JString(a.namespace));
    assert Get(DemoDimension(a).members, "name") == Some(JString(a.dimName));
  }
}
