/** The CloudWatch-alarm-to-Slack relay: turns the first record of an SNS
    event into a Slack webhook payload, posts it when a webhook is configured,
    and reports the outcome as a Lambda result `{statusCode, body}`.

    The pure functions below say what the payload is; the method
    `LambdaHandler` builds it step by step as the handler does and is proved
    to produce exactly that. */
module AlarmRelay {
  import opened Wrappers
  import opened PyJson

  const SnsSource := "aws:sns"
  const AlarmState := "ALARM"
  const Red := "#e60000"
  const Green := "#36a64f"
  /** What the response line of the body says when nothing was posted. */
  const NotSent := "No event sent - Failed"
  const Incompatible := "Unable to process incompatible EventSource!"
  const JsonContentType := "application/json"

  /** The keys an attachment can carry. */
  const AttachmentKeys: set<string> := {"fallback", "title", "text", "color", "author", "pretext"}

  /** The `Sns` part of a record: its `Subject` and `Message` when present. */
  datatype Sns = Sns(subject: Option<Json>, message: Option<Json>)

  /** One entry of the event's `Records`. */
  datatype Record = Record(eventSource: string, sns: Sns)

  /** The body of the Lambda result, before `json.dumps`: either the three
      values formatted into the summary line (the payload sent, the webhook
      and the response text) or the error message. */
  datatype Body =
    | Summary(payload: Dict, hook: string, response: string)
    | Rejected(message: string)

  datatype LambdaResult = LambdaResult(statusCode: int, body: Body)

  /** Exceptions that escape the handler. */
  datatype Failure =
    | NoRecords             // `event['Records'][0]` raised on an empty list
    | MessageNotDecodable   // `json.loads` raised on the SNS message
    | PostFailed            // `requests.post` raised

  datatype Outcome = Returned(result: LambdaResult) | Raised(failure: Failure)

  /** The HTTP request the handler makes. */
  datatype Post = Post(url: string, contentType: string, data: Dict)

  // ---------------------------------------------------------------------
  // What the payload is.

  /** `json.loads(message)`, with the parser given as `loads` (`None` where it
      raises). A message that is not a str makes `json.loads` raise `TypeError`. */
  function Decode(message: Json, loads: string -> Option<Json>): (r: Option<Json>)
    ensures !message.JString? ==> r.None?
  {
    if message.JString? then loads(message.s) else None
  }

  /** The author line built from the trigger's namespace, metric and first
      dimension; `None` where any of the lookups raises. */
  function AuthorLine(msg: Json): (r: Option<string>)
    ensures r.Some? <==> HasTriggerFields(msg)
  {
    var trigger := Subscript(msg, "Trigger");
    if trigger.None? then None
    else
      var ns := Subscript(trigger.value, "Namespace");
      var metric := Subscript(trigger.value, "MetricName");
      var dims := Subscript(trigger.value, "Dimensions");
      if ns.None? || metric.None? || dims.None? then None
      else
        var first := At0(dims.value);
        if first.None? then None
        else
          var name := Subscript(first.value, "name");
          var value := Subscript(first.value, "value");
          if name.None? || value.None? then None
          else Some("Namespace: " + Str(ns.value) + " || Metric: " + Str(metric.value)
                    + " on " + Str(name.value) + " " + Str(value.value))
  }

  /** The colour for a `NewStateValue`: red for the alarm state, green for any other. */
  function Colour(state: Json): (r: string)
    ensures r == Red <==> state == JString(AlarmState)
    ensures r == Green <==> state != JString(AlarmState)
  {
    if state == JString(AlarmState) then Red else Green
  }

  /** The `color` entry, present when the message has a `NewStateValue`. */
  function ColourEntry(msg: Json): (r: Dict)
    ensures |r| <= 1
    ensures r != [] <==> msg.JObject? && "NewStateValue" in Keys(msg.members)
    ensures r != [] ==> r[0].0 == "color" && r[0].1 in {JString(Red), JString(Green)}
  {
    match Subscript(msg, "NewStateValue")
    case None => []
    case Some(state) => [("color", JString(Colour(state)))]
  }

  function AuthorEntry(msg: Json): Dict
  {
    match AuthorLine(msg)
    case None => []
    case Some(line) => [("author", JString(line))]
  }

  function PretextEntry(subject: Option<Json>): Dict
  {
    match subject
    case None => []
    case Some(s) => [("pretext", s)]
  }

  /** True when the message is a dict holding the three keys every attachment needs. */
  predicate HasAlarmFields(msg: Json)
  {
    msg.JObject? && {"AlarmName", "AlarmDescription", "NewStateReason"} <= Keys(msg.members)
  }

  /** The fixed start of every attachment. */
  function RequiredEntries(msg: Json): Dict
    requires HasAlarmFields(msg)
  {
    [("fallback", Subscript(msg, "AlarmName").value),
     ("title", Subscript(msg, "AlarmDescription").value),
     ("text", Subscript(msg, "NewStateReason").value)]
  }

  /** The attachment for a decoded message, in the order its keys are added;
      `None` where one of the three required lookups raises. */
  function Attachment(msg: Json, subject: Option<Json>): (r: Option<Dict>)
    ensures r.Some? <==> HasAlarmFields(msg)
  {
    var name := Subscript(msg, "AlarmName");
    var description := Subscript(msg, "AlarmDescription");
    var reason := Subscript(msg, "NewStateReason");
    if name.None? || description.None? || reason.None? then None
    else Some(RequiredEntries(msg) + ColourEntry(msg) + AuthorEntry(msg) + PretextEntry(subject))
  }

  /** The plain text sent when no attachment can be built: the subject and
      ": ", then the message, each part only when present. */
  function FallbackText(sns: Sns): (r: string)
    ensures sns.subject.Some? ==> Str(sns.subject.value) + ": " <= r
    ensures sns.message.Some? && sns.message.value.JString? ==>
              |sns.message.value.s| <= |r| && r[|r| - |sns.message.value.s|..] == sns.message.value.s
    ensures sns.subject.None? && sns.message.None? ==> r == ""
  {
    (if sns.subject.None? then "" else Str(sns.subject.value) + ": ")
    + (if sns.message.None? then "" else Str(sns.message.value))
  }

  /** The whole payload for an SNS record: empty without a message, one
      attachment when the decoded message allows it, the fallback text
      otherwise; an error when the message cannot be decoded. */
  function PayloadOf(sns: Sns, loads: string -> Option<Json>): (r: Result<Dict, Failure>)
    ensures sns.message.None? ==> r == Ok([])
    ensures r.Err? <==> sns.message.Some? && Decode(sns.message.value, loads).None?
  {
    match sns.message
    case None => Ok([])
    case Some(m) =>
      match Decode(m, loads)
      case None => Err(MessageNotDecodable)
      case Some(msg) =>
        match Attachment(msg, sns.subject)
        case Some(att) => Ok([("attachments", JArray([JObject(att)]))])
        case None => Ok([("text", JString(FallbackText(sns)))])
  }

  // ---------------------------------------------------------------------
  // The handler.

  /** The `try` that sets the colour: `color` is added when the message has a
      `NewStateValue`, and the attachment is left as it was when that lookup raises. */
  method AddColour(att: Dict, msg: Json) returns (r: Dict)
    requires "color" !in Keys(att)
    ensures r == att + ColourEntry(msg)
    ensures Keys(r) == Keys(att) + Keys(ColourEntry(msg)) <= Keys(att) + {"color"}
  {
    r := att;
    var state := Subscript(msg, "NewStateValue");
    if state.Some? {
      UpdateNewKey(att, "color", JString(Colour(state.value)));
      r := Update(att, "color", JString(Colour(state.value)));
    }
    KeysAppend(att, ColourEntry(msg));
  }

  /** Adds the author line when the inner `try` that formats it succeeded. */
  method AddAuthor(att: Dict, info: Option<string>) returns (r: Dict)
    requires "author" !in Keys(att)
    ensures r == att + (if info.Some? then [("author", JString(info.value))] else [])
    ensures Keys(r) <= Keys(att) + {"author"}
  {
    r := att;
    if info.Some? {
      UpdateNewKey(att, "author", JString(info.value));
      r := Update(att, "author", JString(info.value));
      KeysUpdate(att, "author", JString(info.value));
    }
  }

  /** Adds the record's subject as `pretext` when the record has one. */
  method AddPretext(att: Dict, subject: Option<Json>) returns (r: Dict)
    requires "pretext" !in Keys(att)
    ensures r == att + PretextEntry(subject)
  {
    r := att;
    if subject.Some? {
      UpdateNewKey(att, "pretext", subject.value);
      r := Update(att, "pretext", subject.value);
    }
  }

  /** The body of the handler's outer `try`, once the three required lookups
      have succeeded: the attachment starts with `fallback`, `title` and
      `text`, and `color`, `author` and `pretext` are added to it in turn. */
  method BuildAttachment(msg: Json, subject: Option<Json>) returns (att: Dict)
    requires HasAlarmFields(msg)
    ensures Attachment(msg, subject) == Some(att)
  {
    att := RequiredEntries(msg);
    RequiredEntriesRule(msg);
    var info := AuthorLine(msg);
    att := AddColour(att, msg);
    att := AddAuthor(att, info);
    att := AddPretext(att, subject);
  }

  /** `lambda_handler(event, context)` on an event whose `Records` are
      `records`, with `SLACK_HOOK` set to `webhook`. `loads` is `json.loads`;
      `reply` is what the webhook answers to the POST: its status code, or
      `None` when `requests.post` raises. */
  method LambdaHandler(records: seq<Record>, webhook: string, loads: string -> Option<Json>, reply: Option<int>)
    returns (outcome: Outcome, post: Option<Post>)
    // an event without records raises before anything else happens
    ensures records == [] ==> outcome == Raised(NoRecords) && post == None
    // another event source is rejected, with nothing built and nothing posted
    ensures records != [] && records[0].eventSource != SnsSource ==>
              outcome == Returned(LambdaResult(500, Rejected(Incompatible))) && post == None
    // a message that cannot be decoded escapes before anything is posted
    ensures records != [] && records[0].eventSource == SnsSource && PayloadOf(records[0].sns, loads).Err? ==>
              outcome == Raised(MessageNotDecodable) && post == None
    // otherwise the payload is posted exactly when a webhook is configured
    ensures records != [] && records[0].eventSource == SnsSource && PayloadOf(records[0].sns, loads).Ok? ==>
              var payload := PayloadOf(records[0].sns, loads).value;
              && post == (if webhook == "" then None else Some(Post(webhook, JsonContentType, payload)))
              && outcome == if webhook != "" && reply.None? then Raised(PostFailed)
                            else Returned(LambdaResult(200, Summary(payload, webhook,
                                   if webhook == "" then NotSent else Decimal(reply.value))))
    // on the SNS path the status code is always 200
    ensures outcome.Returned? ==>
              records != [] && outcome.result.statusCode == if records[0].eventSource == SnsSource then 200 else 500
  {
    post := None;
    if records == [] {
      outcome := Raised(NoRecords);
      return;
    }
    var record := records[0];
    if record.eventSource != SnsSource {
      outcome := Returned(LambdaResult(500, Rejected(Incompatible)));
      return;
    }
    var status := NotSent;
    var payload: Dict := [];
    if record.sns.message.Some? {
      var parsed := Decode(record.sns.message.value, loads);
      if parsed.None? {
        outcome := Raised(MessageNotDecodable);
        return;
      }
      var msg := parsed.value;
      if HasAlarmFields(msg) {
        var att := BuildAttachment(msg, record.sns.subject);
        payload := Update(payload, "attachments", JArray([JObject(att)]));
      } else {
        payload := [("text", JString(FallbackText(record.sns)))];
      }
    }
    if webhook != "" {
      post := Some(Post(webhook, JsonContentType, payload));
      if reply.None? {
        outcome := Raised(PostFailed);
        return;
      }
      status := Decimal(reply.value);
    }
    outcome := Returned(LambdaResult(200, Summary(payload, webhook, status)));
  }

  // ---------------------------------------------------------------------
  // What the payload is proved to be.

  /** The fixed start of every attachment is a dict of the three required
      keys, holding the message's three required values. */
  lemma RequiredEntriesRule(msg: Json)
    requires HasAlarmFields(msg)
    ensures var req := RequiredEntries(msg);
            && IsDict(req)
            && Keys(req) == {"fallback", "title", "text"}
            && Get(req, "fallback") == Get(msg.members, "AlarmName")
            && Get(req, "title") == Get(msg.members, "AlarmDescription")
            && Get(req, "text") == Get(msg.members, "NewStateReason")
  {
    var req := RequiredEntries(msg);
    assert req[1..][1..] == req[2..] && req[2..][1..] == [];
    assert Keys(req[2..]) == {"text"} && IsDict(req[2..]);
    assert Keys(req[1..]) == {"title", "text"} && IsDict(req[1..]);
    assert Get(req, "title") == Get(req[1..], "title");
    assert Get(req, "text") == Get(req[1..], "text") == Get(req[2..], "text");
  }

  /** The optional `color`, `author` and `pretext` entries that follow the
      required ones each hold at most one key, present under its own condition. */
  lemma AttachmentParts(msg: Json, subject: Option<Json>)
    requires HasAlarmFields(msg)
    ensures |ColourEntry(msg)| <= 1
    ensures Keys(ColourEntry(msg)) == if "NewStateValue" in Keys(msg.members) then {"color"} else {}
    ensures |AuthorEntry(msg)| <= 1
    ensures Keys(AuthorEntry(msg)) == if AuthorLine(msg).Some? then {"author"} else {}
    ensures |PretextEntry(subject)| <= 1
    ensures Keys(PretextEntry(subject)) == if subject.Some? then {"pretext"} else {}
  {
  }

  /** Where each key of an attachment takes its value from. */
  lemma AttachmentLookup(msg: Json, subject: Option<Json>, k: string)
    requires HasAlarmFields(msg)
    ensures var att := Attachment(msg, subject).value;
            && Keys(att) == {"fallback", "title", "text"} + Keys(ColourEntry(msg))
                            + Keys(AuthorEntry(msg)) + Keys(PretextEntry(subject))
            && Get(att, k) == if k in {"fallback", "title", "text"} then Get(RequiredEntries(msg), k)
                              else if k == "color" then Get(ColourEntry(msg), k)
                              else if k == "author" then Get(AuthorEntry(msg), k)
                              else Get(PretextEntry(subject), k)
  {
    RequiredEntriesRule(msg);
    AttachmentParts(msg, subject);
    KeysAppend4(RequiredEntries(msg), ColourEntry(msg), AuthorEntry(msg), PretextEntry(subject));
    GetAppend4(RequiredEntries(msg), ColourEntry(msg), AuthorEntry(msg), PretextEntry(subject), k);
  }

  /** An attachment's keys are exactly the three required ones, plus `color`
      when the message has a `NewStateValue`, `author` when the author line
      could be built and `pretext` when the record has a subject. */
  lemma AttachmentKeySet(msg: Json, subject: Option<Json>)
    requires HasAlarmFields(msg)
    ensures Keys(Attachment(msg, subject).value)
            == {"fallback", "title", "text"}
               + (if "NewStateValue" in Keys(msg.members) then {"color"} else {})
               + (if AuthorLine(msg).Some? then {"author"} else {})
               + (if subject.Some? then {"pretext"} else {})
  {
    RequiredEntriesRule(msg);
    AttachmentParts(msg, subject);
    KeysAppend4(RequiredEntries(msg), ColourEntry(msg), AuthorEntry(msg), PretextEntry(subject));
  }

  /** So an attachment never has a key outside the six attachment keys. */
  lemma AttachmentKeysBounded(msg: Json, subject: Option<Json>)
    requires HasAlarmFields(msg)
    ensures Keys(Attachment(msg, subject).value) <= AttachmentKeys
  {
    AttachmentKeySet(msg, subject);
  }

  /** No key appears twice in an attachment: it is a genuine dict. */
  lemma AttachmentIsDict(msg: Json, subject: Option<Json>)
    requires HasAlarmFields(msg)
    ensures IsDict(Attachment(msg, subject).value)
  {
    RequiredEntriesRule(msg);
    AttachmentParts(msg, subject);
    OptionalEntriesKeepDict(RequiredEntries(msg), ColourEntry(msg), AuthorEntry(msg), PretextEntry(subject));
  }

  lemma OptionalEntriesKeepDict(req: Dict, c: Dict, a: Dict, p: Dict)
    requires IsDict(req) && Keys(req) == {"fallback", "title", "text"}
    requires |c| <= 1 && Keys(c) <= {"color"}
    requires |a| <= 1 && Keys(a) <= {"author"}
    requires |p| <= 1 && Keys(p) <= {"pretext"}
    ensures IsDict(req + c + a + p)
  {
    assert IsDict(c) && IsDict(a) && IsDict(p);
    DisjointAppendKeepsDict(req, c);
    KeysAppend(req, c);
    DisjointAppendKeepsDict(req + c, a);
    KeysAppend(req + c, a);
    DisjointAppendKeepsDict(req + c + a, p);
  }

  /** The three required fields are copied from the message whatever else it
      holds: a missing trigger or state does not disturb them. */
  lemma AttachmentRequiredFields(msg: Json, subject: Option<Json>)
    requires HasAlarmFields(msg)
    ensures var att := Attachment(msg, subject).value;
            && Get(att, "fallback") == Get(msg.members, "AlarmName")
            && Get(att, "title") == Get(msg.members, "AlarmDescription")
            && Get(att, "text") == Get(msg.members, "NewStateReason")
  {
    RequiredEntriesRule(msg);
    AttachmentLookup(msg, subject, "fallback");
    AttachmentLookup(msg, subject, "title");
    AttachmentLookup(msg, subject, "text");
  }

  /** The colour is red exactly when `NewStateValue` is the str "ALARM", green
      for any other value, and absent, with the rest of the attachment kept,
      when the message has no `NewStateValue`. */
  lemma ColourRule(msg: Json, subject: Option<Json>)
    requires HasAlarmFields(msg)
    ensures var att := Attachment(msg, subject).value;
            var state := Get(msg.members, "NewStateValue");
            && ("color" in Keys(att) <==> state.Some?)
            && (Get(att, "color") == Some(JString(Red)) <==> state == Some(JString("ALARM")))
            && (Get(att, "color") == Some(JString(Green)) <==> state.Some? && state != Some(JString("ALARM")))
  {
    AttachmentLookup(msg, subject, "color");
    assert Red != Green;
  }

  /** The `author` entry holds the author line when one can be built and is
      absent otherwise. */
  lemma AuthorRule(msg: Json, subject: Option<Json>)
    requires HasAlarmFields(msg)
    ensures var att := Attachment(msg, subject).value;
            && ("author" in Keys(att) <==> AuthorLine(msg).Some?)
            && (AuthorLine(msg).Some? ==> Get(att, "author") == Some(JString(AuthorLine(msg).value)))
  {
    AttachmentLookup(msg, subject, "author");
  }

  /** `pretext` is the record's subject, present exactly when the record has one. */
  lemma PretextRule(msg: Json, subject: Option<Json>)
    requires HasAlarmFields(msg)
    ensures var att := Attachment(msg, subject).value;
            && ("pretext" in Keys(att) <==> subject.Some?)
            && Get(att, "pretext") == subject
  {
    AttachmentLookup(msg, subject, "pretext");
  }

  /** The trigger fields an author line needs: a dict under `Trigger` with
      `Namespace`, `MetricName` and a non-empty list of `Dimensions` whose
      first element is a dict with `name` and `value`. */
  predicate HasTriggerFields(msg: Json)
  {
    && msg.JObject?
    && match Get(msg.members, "Trigger")
       case Some(JObject(t)) =>
         && Get(t, "Namespace").Some? && Get(t, "MetricName").Some?
         && (match Get(t, "Dimensions")
             case Some(JArray(dims)) =>
               && |dims| > 0 && dims[0].JObject?
               && Get(dims[0].members, "name").Some? && Get(dims[0].members, "value").Some?
             case _ => false)
       case _ => false
  }

  /** The author line, when the trigger fields are all there, is
      "Namespace: <ns> || Metric: <metric> on <name> <value>", taken from the
      first dimension only. */
  lemma AuthorLineRule(msg: Json)
    ensures HasTriggerFields(msg) ==>
              var t := Get(msg.members, "Trigger").value.members;
              var first := Get(t, "Dimensions").value.elems[0].members;
              AuthorLine(msg) == Some("Namespace: " + Str(Get(t, "Namespace").value)
                                      + " || Metric: " + Str(Get(t, "MetricName").value)
                                      + " on " + Str(Get(first, "name").value)
                                      + " " + Str(Get(first, "value").value))
  {
  }

  /** With a decodable message that is a dict holding the three required keys,
      the payload is exactly one attachment and has no top-level `text`. */
  lemma AttachmentPath(sns: Sns, loads: string -> Option<Json>)
    requires sns.message.Some? && Decode(sns.message.value, loads).Some?
    requires HasAlarmFields(Decode(sns.message.value, loads).value)
    ensures var msg := Decode(sns.message.value, loads).value;
            var att := Attachment(msg, sns.subject).value;
            && PayloadOf(sns, loads) == Ok([("attachments", JArray([JObject(att)]))])
            && Keys(PayloadOf(sns, loads).value) == {"attachments"}
            && Get(att, "fallback") == Get(msg.members, "AlarmName")
            && Get(att, "title") == Get(msg.members, "AlarmDescription")
            && Get(att, "text") == Get(msg.members, "NewStateReason")
  {
    AttachmentRequiredFields(Decode(sns.message.value, loads).value, sns.subject);
  }

  /** With a decodable message that is not a dict, or lacks one of the three
      required keys, the payload is only the text "<Subject>: <Message>", the
      subject part left out when there is none and the message unparsed. */
  lemma TextFallbackPath(sns: Sns, loads: string -> Option<Json>)
    requires sns.message.Some? && Decode(sns.message.value, loads).Some?
    requires !HasAlarmFields(Decode(sns.message.value, loads).value)
    ensures sns.message.value.JString?
    ensures PayloadOf(sns, loads)
            == Ok([("text", JString((if sns.subject.None? then "" else Str(sns.subject.value) + ": ")
                                    + sns.message.value.s))])
  {
  }
}
