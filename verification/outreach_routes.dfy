/** The outreach endpoints of `BE/api/routes.py` and the in-memory stores they
    share: `get_lead`, `generate_outreach_message`,
    `generate_bulk_outreach_messages` and `analyze_message_quality`. The
    stores are values threaded through the calls; the language model's
    replies, the JSON decoder and the generated message ids are
    parameters. */
module OutreachRoutes {
  import opened Wrappers
  import opened Text
  import opened Http
  import opened Json
  import opened Schemas
  import opened AiOutreach
  import Seqs

  type LeadStore = map<string, Lead>
  type MessageStore = map<string, OutreachMessage>

  const LeadNotFound: string := "Lead Not Found"
  const LeadNotFoundOrNotProvided: string := "Lead Not Found or Not Provided"
  const MessageNotFound: string := "Message Not Found"
  const NoValidLeads: string := "No Valid Leads Found"
  const GenerateFailedPrefix: string := "Failed to Generate Outreach Message: "
  const BulkFailedPrefix: string := "Failed to Generate Bulk Messages: "
  const AnalyzeFailedPrefix: string := "Failed to Analyze Message: "

  // ---------------------------------------------------------------------------
  // Stores

  /** `store_lead`: the lead is filed under its id, replacing any earlier one. */
  function StoreLead(store: LeadStore, lead: Lead): LeadStore {
    store[lead.id := lead]
  }

  /** `store_message`: a message is filed under its id only when the id is
      truthy. */
  function StoreMessage(store: MessageStore, m: OutreachMessage): MessageStore {
    if Truthy(m.id) then store[m.id.value := m] else store
  }

  /** `get_lead_by_id`. */
  function GetLeadById(store: LeadStore, id: string): (r: Option<Lead>)
    ensures r.Some? <==> id in store
  {
    if id in store then Some(store[id]) else None
  }

  /** `get_message_by_id`. */
  function GetMessageById(store: MessageStore, id: string): (r: Option<OutreachMessage>)
    ensures r.Some? <==> id in store
  {
    if id in store then Some(store[id]) else None
  }

  /** A stored lead is found under its id, and storing it leaves every other
      id's lookup unchanged. */
  lemma StoreThenGetLead(store: LeadStore, lead: Lead, other: string)
    ensures GetLeadById(StoreLead(store, lead), lead.id) == Some(lead)
    ensures other != lead.id ==> GetLeadById(StoreLead(store, lead), other) == GetLeadById(store, other)
  {
  }

  /** A message with a truthy id is found under it afterwards; storing never
      changes any other id's lookup, and a message without a truthy id is not
      stored at all. */
  lemma StoreThenGetMessage(store: MessageStore, m: OutreachMessage, other: string)
    ensures Truthy(m.id) ==> GetMessageById(StoreMessage(store, m), m.id.value) == Some(m)
    ensures !Truthy(m.id) ==> StoreMessage(store, m) == store
    ensures (m.id != Some(other)) ==> GetMessageById(StoreMessage(store, m), other) == GetMessageById(store, other)
  {
  }

  /** `get_lead`. */
  function GetLead(store: LeadStore, id: string): (r: Result<Lead, HttpError>)
    ensures r.Success? <==> id in store
    ensures r.Success? ==> r.value == store[id]
    ensures r.Failure? ==> r.error == HttpError(404, LeadNotFound)
  {
    if id in store then Success(store[id]) else Failure(HttpError(404, LeadNotFound))
  }

  // ---------------------------------------------------------------------------
  // Building a quality analysis from a record

  /** The text of the `TypeError` raised when the record already carries a
      `message_id` key next to the explicit keyword. */
  const DuplicateMessageId: string := "got multiple values for keyword argument 'message_id'"

  /** A fixed stand-in for pydantic's message rejecting an analysis record. */
  const AnalysisValidationError: string := "validation error for MessageQualityAnalysis"

  /** A required `float` field. */
  function ScoreField(data: JsonObject, key: string): Result<real, string> {
    if key in data && data[key].JNum? then Success(data[key].x) else Failure(AnalysisValidationError)
  }

  /** A `List[str]` field defaulting to the empty list. */
  function ListField(data: JsonObject, key: string): Result<seq<string>, string> {
    if key !in data then Success([])
    else if data[key].JStrList? then Success(data[key].items)
    else Failure(AnalysisValidationError)
  }

  /** `MessageQualityAnalysis(message_id=messageId, **data)`; keys the model
      does not declare are ignored. */
  function AnalysisFromJson(messageId: string, data: JsonObject): Result<MessageQualityAnalysis, string> {
    if "message_id" in data then Failure(DuplicateMessageId)
    else
      var overall :- ScoreField(data, "overall_score");
      var personalization :- ScoreField(data, "personalization_score");
      var clarity :- ScoreField(data, "clarity_score");
      var engagement :- ScoreField(data, "engagement_score");
      var callToAction :- ScoreField(data, "call_to_action_score");
      var feedback :- ListField(data, "feedback");
      var strengths :- ListField(data, "strengths");
      var improvements :- ListField(data, "improvements");
      match NewQualityAnalysis(messageId, overall, personalization, clarity, engagement, callToAction,
                               feedback, strengths, improvements)
      case Some(a) => Success(a)
      case None => Failure(AnalysisValidationError)
  }

  predicate ScoreOk(data: JsonObject, key: string) {
    key in data && data[key].JNum? && InScoreRange(data[key].x)
  }

  predicate ListOk(data: JsonObject, key: string) {
    key !in data || data[key].JStrList?
  }

  function ListOr(data: JsonObject, key: string): seq<string>
    requires ListOk(data, key)
  {
    if key in data then data[key].items else []
  }

  /** A record becomes an analysis exactly when it has no `message_id` key,
      carries the five scores as numbers in [0, 10], and each list field is
      absent or a list of strings; the analysis then holds the path id, the
      record's scores, and its lists with absent ones empty. */
  lemma AnalysisFromJsonSpec(messageId: string, data: JsonObject)
    ensures AnalysisFromJson(messageId, data).Success? <==>
      && "message_id" !in data
      && ScoreOk(data, "overall_score") && ScoreOk(data, "personalization_score")
      && ScoreOk(data, "clarity_score") && ScoreOk(data, "engagement_score")
      && ScoreOk(data, "call_to_action_score")
      && ListOk(data, "feedback") && ListOk(data, "strengths") && ListOk(data, "improvements")
    ensures AnalysisFromJson(messageId, data).Success? ==>
      && ListOk(data, "feedback") && ListOk(data, "strengths") && ListOk(data, "improvements")
      && AnalysisFromJson(messageId, data).value == MessageQualityAnalysis(
           messageId, data["overall_score"].x, data["personalization_score"].x, data["clarity_score"].x,
           data["engagement_score"].x, data["call_to_action_score"].x,
           ListOr(data, "feedback"), ListOr(data, "strengths"), ListOr(data, "improvements"))
    ensures "message_id" in data ==> AnalysisFromJson(messageId, data) == Failure(DuplicateMessageId)
  {
  }

  /** The default record of a failed model call always yields a valid
      analysis: 7.5 overall, 7.0 personalization, 7.5 clarity, 7.0
      engagement, 7.5 call to action. */
  lemma DefaultRecordAnalysis(messageId: string)
    ensures AnalysisFromJson(messageId, DefaultQualityAnalysis()) == Success(MessageQualityAnalysis(
      messageId, 7.5, 7.0, 7.5, 7.0, 7.5,
      ["Message generated successfully"], ["Clear messaging"], ["Could be more personalized"]))
  {
    var d := DefaultQualityAnalysis();
    assert "message_id" !in d;
    assert ScoreOk(d, "overall_score") && ScoreOk(d, "personalization_score") && ScoreOk(d, "clarity_score");
    assert ScoreOk(d, "engagement_score") && ScoreOk(d, "call_to_action_score");
    AnalysisFromJsonSpec(messageId, d);
  }

  /** A reply with no decodable JSON never becomes an analysis: the fallback
      record carries no scores. */
  lemma FallbackRecordHasNoAnalysis(messageId: string, text: string)
    ensures AnalysisFromJson(messageId, FallbackRecord(text)) == Failure(AnalysisValidationError)
  {
    assert "overall_score" !in FallbackRecord(text);
  }

  // ---------------------------------------------------------------------------
  // Generating one message

  /** The lead a generate call works on: a truthy path id found in the store
      wins; otherwise the lead embedded in the request, if any. */
  function ResolveLead(store: LeadStore, request: OutreachRequest, leadId: Option<string>): (lead: Option<Lead>)
    ensures Truthy(leadId) && leadId.value in store ==> lead == Some(store[leadId.value])
    ensures !(Truthy(leadId) && leadId.value in store) ==> lead == request.lead
  {
    var fromStore := if Truthy(leadId) then GetLeadById(store, leadId.value) else None;
    if fromStore.Some? then fromStore else request.lead
  }

  /** The analysis the generate call attaches, if building it succeeded. */
  function AttachedAnalysis(message: OutreachMessage, messageId: string, analysisReply: Result<string, string>,
                            decode: Decoder): Option<MessageQualityAnalysis> {
    match AnalysisFromJson(messageId, AnalyzeMessageQuality(message, analysisReply, decode))
    case Success(a) => Some(a)
    case Failure(_) => None
  }

  /** `generate_outreach_message`; `reply` is the model's answer to the
      generation prompt, `analysisReply` its answer to the analysis prompt,
      and `messageId` the generated id. The message stored is the object
      returned, so a quality score set after storing shows in the store too.
      Returns the response (or exception) and the message store after the
      call. */
  function GenerateOutreach(leads: LeadStore, messages: MessageStore, request: OutreachRequest,
                            leadId: Option<string>, messageId: string, reply: Result<string, string>,
                            analysisReply: Result<string, string>,
                            decode: Decoder): (r: (Result<OutreachResponse, HttpError>, MessageStore))
    ensures r.0.Failure? ==> r.1 == messages
  {
    match ResolveLead(leads, request, leadId)
    case None => (Failure(HttpError(404, LeadNotFoundOrNotProvided)), messages)
    case Some(lead) =>
      match GenerateOutreachMessage(lead, request, reply, decode)
      case Failure(e) => (Failure(HttpError(500, GenerateFailedPrefix + e)), messages)
      case Success(generated) =>
        var m := generated.(id := Some(messageId));
        var analysis := AttachedAnalysis(m, messageId, analysisReply, decode);
        var final := if analysis.Some? then m.(qualityScore := Some(analysis.value.overallScore)) else m;
        (Success(OutreachResponse(final, analysis, true, None)), StoreMessage(messages, final))
  }

  /** The error cases of a generate call: no lead gives a 404, a failed
      generation a 500 carrying the service's exception text; the stores are
      untouched either way. */
  lemma GenerateOutreachErrors(leads: LeadStore, messages: MessageStore, request: OutreachRequest,
                               leadId: Option<string>, messageId: string, reply: Result<string, string>,
                               analysisReply: Result<string, string>, decode: Decoder)
    ensures var r := GenerateOutreach(leads, messages, request, leadId, messageId, reply, analysisReply, decode);
      var lead := ResolveLead(leads, request, leadId);
      && (lead.None? <==> r.0 == Failure(HttpError(404, LeadNotFoundOrNotProvided)))
      && (lead.Some? && GenerateOutreachMessage(lead.value, request, reply, decode).Failure? ==>
            r.0 == Failure(HttpError(500, GenerateFailedPrefix + GenerateOutreachMessage(lead.value, request, reply, decode).error)))
      && (r.0.Success? <==> lead.Some? && GenerateOutreachMessage(lead.value, request, reply, decode).Success?)
  {
    var lead := ResolveLead(leads, request, leadId);
    if lead.Some? {
      var g := GenerateOutreachMessage(lead.value, request, reply, decode);
      if g.Failure? {
        GenerateFailureStatus(g.error);
      }
    }
  }

  lemma GenerateFailureStatus(e: string)
    ensures HttpError(500, GenerateFailedPrefix + e) != HttpError(404, LeadNotFoundOrNotProvided)
  {
  }

  /** On success the returned message is the generated one under the new id,
      it is what the store now holds under that id, its quality score is the
      analysis' overall score (absent exactly when there is no analysis), and
      the analysis names the same message id. */
  lemma GenerateOutreachSuccess(leads: LeadStore, messages: MessageStore, request: OutreachRequest,
                                leadId: Option<string>, messageId: string, reply: Result<string, string>,
                                analysisReply: Result<string, string>, decode: Decoder)
    requires messageId != ""
    ensures var r := GenerateOutreach(leads, messages, request, leadId, messageId, reply, analysisReply, decode);
      r.0.Success? ==>
        var resp := r.0.value;
        var lead := ResolveLead(leads, request, leadId).value;
        && resp.success && resp.error.None?
        && resp.message.id == Some(messageId)
        && resp.message.leadId == lead.id
        && resp.message.message == GenerateOutreachMessage(lead, request, reply, decode).value.message
        && resp.message.subject == GenerateOutreachMessage(lead, request, reply, decode).value.subject
        && r.1 == messages[messageId := resp.message]
        && (resp.message.qualityScore.Some? <==> resp.analysis.Some?)
        && (resp.analysis.Some? ==>
              resp.message.qualityScore == Some(resp.analysis.value.overallScore)
              && resp.analysis.value.messageId == messageId
              && resp.analysis.value.Valid())
  {
    var lead := ResolveLead(leads, request, leadId);
    if lead.Some? && GenerateOutreachMessage(lead.value, request, reply, decode).Success? {
      var m := GenerateOutreachMessage(lead.value, request, reply, decode).value.(id := Some(messageId));
      match AnalysisFromJson(messageId, AnalyzeMessageQuality(m, analysisReply, decode))
      case Success(a) =>
        AnalysisFromJsonValid(messageId, AnalyzeMessageQuality(m, analysisReply, decode));
      case Failure(_) =>
    }
  }

  /** Whatever a built analysis came from, it names the requested id and its
      scores are in range. */
  lemma AnalysisFromJsonValid(messageId: string, data: JsonObject)
    ensures AnalysisFromJson(messageId, data).Success? ==>
      AnalysisFromJson(messageId, data).value.Valid() && AnalysisFromJson(messageId, data).value.messageId == messageId
  {
  }

  /** When the analysis call itself fails, the message still gets the
      default record's overall score of 7.5. */
  lemma FailedAnalysisCallScores(leads: LeadStore, messages: MessageStore, request: OutreachRequest,
                                 leadId: Option<string>, messageId: string, reply: Result<string, string>,
                                 analysisError: string, decode: Decoder)
    ensures var r := GenerateOutreach(leads, messages, request, leadId, messageId, reply, Failure(analysisError), decode);
      r.0.Success? ==> r.0.value.message.qualityScore == Some(7.5)
  {
    DefaultRecordAnalysis(messageId);
  }

  // ---------------------------------------------------------------------------
  // Bulk generation

  function NotFoundEntry(id: string): string {
    "Lead " + id + " Not Found"
  }

  /** The lead-fetching loop: found leads in request order, and one
      "Lead {id} Not Found" entry per missing id, also in order. */
  function FetchLeads(ids: seq<string>, store: LeadStore): (r: (seq<Lead>, seq<string>))
    ensures |r.0| + |r.1| == |ids|
  {
    if ids == [] then ([], [])
    else
      var prev := FetchLeads(ids[..|ids| - 1], store);
      var id := ids[|ids| - 1];
      if id in store then (prev.0 + [store[id]], prev.1) else (prev.0, prev.1 + [NotFoundEntry(id)])
  }

  /** Fetching a concatenation fetches each part in turn. */
  lemma {:induction false} FetchLeadsConcat(a: seq<string>, b: seq<string>, store: LeadStore)
    ensures FetchLeads(a + b, store) == (FetchLeads(a, store).0 + FetchLeads(b, store).0,
                                         FetchLeads(a, store).1 + FetchLeads(b, store).1)
    decreases |b|
  {
    if b == [] {
      assert a + b == a;
      var fa := FetchLeads(a, store);
      assert fa.0 + [] == fa.0 && fa.1 + [] == fa.1;
    } else {
      var b' := b[..|b| - 1];
      var id := b[|b| - 1];
      FetchLeadsConcat(a, b', store);
      assert (a + b)[..|a + b| - 1] == a + b';
      assert (a + b)[|a + b| - 1] == id;
      var fa := FetchLeads(a, store);
      var fb' := FetchLeads(b', store);
      if id in store {
        assert fa.0 + fb'.0 + [store[id]] == fa.0 + (fb'.0 + [store[id]]);
      } else {
        assert fa.1 + fb'.1 + [NotFoundEntry(id)] == fa.1 + (fb'.1 + [NotFoundEntry(id)]);
      }
    }
  }

  /** When every id is stored, the leads come back in request order with no
      errors; when none is, every id yields its error, in order, and no lead
      is found. */
  lemma {:induction false} FetchLeadsExtremes(ids: seq<string>, store: LeadStore)
    ensures (forall i :: 0 <= i < |ids| ==> ids[i] in store) ==>
      var (found, errors) := FetchLeads(ids, store);
      && errors == [] && |found| == |ids|
      && forall i :: 0 <= i < |ids| ==> found[i] == store[ids[i]]
    ensures (forall i :: 0 <= i < |ids| ==> ids[i] !in store) ==>
      var (found, errors) := FetchLeads(ids, store);
      && found == [] && |errors| == |ids|
      && forall i :: 0 <= i < |ids| ==> errors[i] == NotFoundEntry(ids[i])
    decreases |ids|
  {
    if ids != [] {
      var init := ids[..|ids| - 1];
      FetchLeadsExtremes(init, store);
      assert forall i :: 0 <= i < |init| ==> init[i] == ids[i];
    }
  }

  /** How many messages have a non-empty body. */
  function CountNonEmpty(ms: seq<OutreachMessage>): (n: nat)
    ensures n <= |ms|
  {
    if ms == [] then 0 else CountNonEmpty(ms[..|ms| - 1]) + (if ms[|ms| - 1].message != "" then 1 else 0)
  }

  /** Counting is additive over concatenation. */
  lemma {:induction false} CountNonEmptyConcat(a: seq<OutreachMessage>, b: seq<OutreachMessage>)
    ensures CountNonEmpty(a + b) == CountNonEmpty(a) + CountNonEmpty(b)
    decreases |b|
  {
    if b == [] {
      assert a + b == a;
    } else {
      var b' := b[..|b| - 1];
      CountNonEmptyConcat(a, b');
      assert (a + b)[..|a + b| - 1] == a + b';
      assert (a + b)[|a + b| - 1] == b[|b| - 1];
    }
  }

  /** `m.message` as Python tests it. */
  predicate HasBody(m: OutreachMessage) {
    m.message != ""
  }

  /** The count is the length of `[m for m in ms if m.message]`. */
  lemma {:induction false} CountNonEmptyIsFilter(ms: seq<OutreachMessage>)
    ensures CountNonEmpty(ms) == |Seqs.Filter(ms, HasBody)|
    decreases |ms|
  {
    if ms != [] {
      CountNonEmptyIsFilter(ms[..|ms| - 1]);
    }
  }

  /** The count is |ms| exactly when every body is non-empty. */
  lemma {:induction false} CountNonEmptyAll(ms: seq<OutreachMessage>)
    ensures CountNonEmpty(ms) == |ms| <==> forall i :: 0 <= i < |ms| ==> ms[i].message != ""
    decreases |ms|
  {
    if ms != [] {
      var init := ms[..|ms| - 1];
      CountNonEmptyAll(init);
      assert forall i :: 0 <= i < |init| ==> init[i] == ms[i];
    }
  }

  /** The messages with their generated ids assigned, `msgIds(i)` to the
      i-th. */
  function AssignIds(ms: seq<OutreachMessage>, msgIds: nat -> string): (r: seq<OutreachMessage>)
    ensures |r| == |ms|
  {
    seq(|ms|, i requires 0 <= i < |ms| => ms[i].(id := Some(msgIds(i))))
  }

  /** The bulk response for a list of messages. */
  function BulkResponse(messages: seq<OutreachMessage>, errors: seq<string>): BulkOutreachResponse {
    var success := CountNonEmpty(messages);
    BulkOutreachResponse(messages, success, |messages| - success, |messages|, errors, true)
  }

  /** `generate_bulk_outreach_messages`; `replies(i)` is the model's answer
      for the i-th found lead and `msgIds(i)` the id given to the i-th
      message. Every exception, its own 400 included, leaves as a 500. */
  method GenerateBulk(store: LeadStore, request: BulkOutreachRequest, replies: nat -> Result<string, string>,
                      decode: Decoder, msgIds: nat -> string) returns (r: Result<BulkOutreachResponse, HttpError>)
    ensures var (found, errors) := FetchLeads(request.leadIds, store);
      && (found == [] ==> r == Failure(HttpError(500, BulkFailedPrefix + ExceptionText(HttpError(400, NoValidLeads)))))
      && (r.Success? ==>
            && |r.value.messages| == r.value.totalCount == |found|
            && r.value.successCount == CountNonEmpty(r.value.messages)
            && r.value.failedCount == |r.value.messages| - CountNonEmpty(r.value.messages)
            && r.value.errors == errors && r.value.success
            && forall i :: 0 <= i < |found| ==>
                 MessageFor(found[i], request.outreachRequest, replies(i), decode).Success?
                 && r.value.messages[i]
                   == MessageFor(found[i], request.outreachRequest, replies(i), decode).value.(id := Some(msgIds(i)))
                 && r.value.messages[i].leadId == found[i].id)
      && (r.Failure? && found != [] ==>
            exists i :: 0 <= i < |found|
              && MessageFor(found[i], request.outreachRequest, replies(i), decode).Failure?
              && r.error == HttpError(500, BulkFailedPrefix + MessageFor(found[i], request.outreachRequest, replies(i), decode).error))
      && (found != [] ==>
            (r.Success? <==> forall i :: 0 <= i < |found| ==> MessageFor(found[i], request.outreachRequest, replies(i), decode).Success?))
  {
    var (found, errors) := FetchLeads(request.leadIds, store);
    if found == [] {
      return Failure(HttpError(500, BulkFailedPrefix + ExceptionText(HttpError(400, NoValidLeads))));
    }
    var generated := GenerateBulkMessages(found, request.outreachRequest, replies, decode);
    if generated.Failure? {
      return Failure(HttpError(500, BulkFailedPrefix + generated.error));
    }
    var messages := AssignIds(generated.value, msgIds);
    r := Success(BulkResponse(messages, errors));
  }

  /** The counts of a bulk response: every message is counted once, as a
      success when its body is non-empty and as a failure otherwise. */
  lemma BulkResponseCounts(messages: seq<OutreachMessage>, errors: seq<string>)
    ensures var resp := BulkResponse(messages, errors);
      && resp.totalCount == |messages|
      && resp.successCount == |Seqs.Filter(messages, HasBody)|
      && resp.successCount + resp.failedCount == resp.totalCount
      && 0 <= resp.successCount <= resp.totalCount
      && (resp.failedCount == 0 <==> forall i :: 0 <= i < |messages| ==> messages[i].message != "")
  {
    CountNonEmptyAll(messages);
    CountNonEmptyIsFilter(messages);
  }

  /** When every generation raised and every fallback was built, the bulk
      response counts every message as a success: a fallback body is never
      empty, so `failed_count` stays 0. */
  lemma FailedGenerationsCountAsSuccesses(found: seq<Lead>, request: OutreachRequest,
                                          replies: nat -> Result<string, string>, decode: Decoder,
                                          msgIds: nat -> string, errors: seq<string>)
    requires forall i :: 0 <= i < |found| ==>
      GenerateOutreachMessage(found[i], request, replies(i), decode).Failure?
      && MessageFor(found[i], request, replies(i), decode).Success?
    ensures var generated := seq(|found|, i requires 0 <= i < |found| =>
                                          MessageFor(found[i], request, replies(i), decode).value);
      var resp := BulkResponse(AssignIds(generated, msgIds), errors);
      resp.failedCount == 0 && resp.successCount == resp.totalCount == |found|
  {
    var generated := seq(|found|, i requires 0 <= i < |found| =>
                                   MessageFor(found[i], request, replies(i), decode).value);
    var messages := AssignIds(generated, msgIds);
    forall i | 0 <= i < |messages|
      ensures messages[i].message != ""
    {
      FailedGenerationHasBody(found[i], request, replies(i), decode);
      assert messages[i].message == generated[i].message;
    }
    CountNonEmptyAll(messages);
  }

  /** `str()` of the route's own 400 as the bulk handler re-wraps it. */
  lemma NoValidLeadsText()
    ensures BulkFailedPrefix + ExceptionText(HttpError(400, NoValidLeads))
         == "Failed to Generate Bulk Messages: " + "400: No Valid Leads Found"
  {
    StatusTexts();
  }

  lemma StatusTexts()
    ensures NatToString(400) == "400" && NatToString(404) == "404"
  {
    assert NatToString(4) == "4";
    assert NatToString(40) == "40";
  }

  // ---------------------------------------------------------------------------
  // Analysing a stored message

  /** `analyze_message_quality` (the route); `reply` is the model's answer to
      the analysis prompt. Its own 404 is caught and re-wrapped as a 500. */
  function AnalyzeStoredMessage(messages: MessageStore, messageId: string, reply: Result<string, string>,
                                decode: Decoder): (r: Result<MessageQualityAnalysis, HttpError>)
    ensures r.Failure? ==> r.error.status == 500
  {
    match GetMessageById(messages, messageId)
    case None => Failure(HttpError(500, AnalyzeFailedPrefix + ExceptionText(HttpError(404, MessageNotFound))))
    case Some(m) =>
      match AnalysisFromJson(messageId, AnalyzeMessageQuality(m, reply, decode))
      case Success(a) => Success(a)
      case Failure(e) => Failure(HttpError(500, AnalyzeFailedPrefix + e))
  }

  /** An unknown id gives "Failed to Analyze Message: 404: Message Not Found":
      the route's own 404 is re-wrapped by its catch-all. */
  lemma AnalyzeUnknownMessage(messages: MessageStore, messageId: string, reply: Result<string, string>,
                              decode: Decoder)
    requires messageId !in messages
    ensures AnalyzeStoredMessage(messages, messageId, reply, decode)
         == Failure(HttpError(500, "Failed to Analyze Message: " + "404: Message Not Found"))
  {
    assert ExceptionText(HttpError(404, MessageNotFound)) == "404: Message Not Found" by {
      StatusTexts();
    }
    assert GetMessageById(messages, messageId).None?;
  }

  /** A known id succeeds exactly when the record builds, with the path id
      and scores in range; a failed model call always succeeds with the
      default scores. */
  lemma AnalyzeStoredMessageSpec(messages: MessageStore, messageId: string, reply: Result<string, string>,
                                 decode: Decoder)
    requires messageId in messages
    ensures var r := AnalyzeStoredMessage(messages, messageId, reply, decode);
      && (r.Success? <==> AnalysisFromJson(messageId, AnalyzeMessageQuality(messages[messageId], reply, decode)).Success?)
      && (r.Success? ==> r.value.messageId == messageId && r.value.Valid())
      && (reply.Failure? ==> r.Success? && r.value.overallScore == 7.5)
  {
    AnalysisFromJsonValid(messageId, AnalyzeMessageQuality(messages[messageId], reply, decode));
    DefaultRecordAnalysis(messageId);
  }
}
