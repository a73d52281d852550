/** The pydantic models of `BE/models/schemas.py`: required fields are plain
    constructor parameters, optional ones are `Option`s, and the declared
    defaults are Dafny parameter defaults. */
module Schemas {
  import opened Wrappers

  // ---------------------------------------------------------------------------
  // Closed enumerations

  datatype MessageType = ColdEmail | LinkedinMessage | ColdCallScript {
    function Value(): string {
      match this
      case ColdEmail => "cold_email"
      case LinkedinMessage => "linkedin_message"
      case ColdCallScript => "cold_call_script"
    }
  }

  datatype ToneType = Professional | Friendly | Casual | Urgent {
    function Value(): string {
      match this
      case Professional => "professional"
      case Friendly => "friendly"
      case Casual => "casual"
      case Urgent => "urgent"
    }
  }

  datatype PersonalizationLevel = LowLevel | MediumLevel | HighLevel {
    function Value(): string {
      match this
      case LowLevel => "low"
      case MediumLevel => "medium"
      case HighLevel => "high"
    }
  }

  /** Validation of a `message_type` string; `None` is pydantic's rejection. */
  function ParseMessageType(s: string): (r: Option<MessageType>)
    ensures r.Some? ==> r.value.Value() == s
  {
    if s == "cold_email" then Some(ColdEmail)
    else if s == "linkedin_message" then Some(LinkedinMessage)
    else if s == "cold_call_script" then Some(ColdCallScript)
    else None
  }

  function ParseToneType(s: string): (r: Option<ToneType>)
    ensures r.Some? ==> r.value.Value() == s
  {
    if s == "professional" then Some(Professional)
    else if s == "friendly" then Some(Friendly)
    else if s == "casual" then Some(Casual)
    else if s == "urgent" then Some(Urgent)
    else None
  }

  function ParsePersonalizationLevel(s: string): (r: Option<PersonalizationLevel>)
    ensures r.Some? ==> r.value.Value() == s
  {
    if s == "low" then Some(LowLevel)
    else if s == "medium" then Some(MediumLevel)
    else if s == "high" then Some(HighLevel)
    else None
  }

  const MessageTypeValues: set<string> := {"cold_email", "linkedin_message", "cold_call_script"}
  const ToneTypeValues: set<string> := {"professional", "friendly", "casual", "urgent"}
  const PersonalizationLevelValues: set<string> := {"low", "medium", "high"}

  /** Each enumeration accepts exactly its listed strings (3, 4 and 3 of them),
      and parsing a member's value gives that member back. */
  lemma EnumerationsClosed(s: string, m: MessageType, t: ToneType, p: PersonalizationLevel)
    ensures ParseMessageType(s).Some? <==> s in MessageTypeValues
    ensures ParseToneType(s).Some? <==> s in ToneTypeValues
    ensures ParsePersonalizationLevel(s).Some? <==> s in PersonalizationLevelValues
    ensures |MessageTypeValues| == 3 && |ToneTypeValues| == 4 && |PersonalizationLevelValues| == 3
    ensures ParseMessageType(m.Value()) == Some(m)
    ensures ParseToneType(t.Value()) == Some(t)
    ensures ParsePersonalizationLevel(p.Value()) == Some(p)
  {
  }

  // ---------------------------------------------------------------------------
  // Records

  /** `SearchRequest`: the user's industry and location query. */
  datatype SearchRequest = SearchRequest(industry: string, location: string)

  /** `Lead`: id, company, industry and location are required; every other
      field is optional and defaults to `None`. */
  datatype Lead = Lead(
    id: string,
    company: string,
    industry: string,
    location: string,
    website: Option<string> := None,
    linkedinUrl: Option<string> := None,
    contact: Option<string> := None,
    employees: Option<string> := None,
    priority: Option<string> := None,
    outreachAngle: Option<string> := None,
    lastUpdated: Option<string> := None)

  datatype SearchResponse = SearchResponse(leads: seq<Lead>, total: int)

  /** `OutreachRequest`: only `message_type` is required. */
  datatype OutreachRequest = OutreachRequest(
    messageType: MessageType,
    tone: ToneType := Professional,
    personalizationLevel: PersonalizationLevel := MediumLevel,
    targetRole: Option<string> := Some("Decision Maker"),
    companyDescription: Option<string> := None,
    valueProposition: Option<string> := None,
    senderName: Option<string> := None,
    additionalContext: Option<string> := None,
    lead: Option<Lead> := None)

  datatype BulkOutreachRequest = BulkOutreachRequest(leadIds: seq<string>, outreachRequest: OutreachRequest)

  /** `OutreachMessage`. `generated_at` is left out: every construction in the
      services passes `None` for it. */
  datatype OutreachMessage = OutreachMessage(
    leadId: string,
    message: string,
    tone: ToneType,
    messageType: MessageType,
    personalizationLevel: PersonalizationLevel,
    id: Option<string> := None,
    subject: Option<string> := None,
    qualityScore: Option<real> := None,
    keyPersonalizationPoints: Option<seq<string>> := Some([]))

  /** A score field of `MessageQualityAnalysis`: `ge=0, le=10`. */
  predicate InScoreRange(x: real) {
    0.0 <= x <= 10.0
  }

  datatype MessageQualityAnalysis = MessageQualityAnalysis(
    messageId: string,
    overallScore: real,
    personalizationScore: real,
    clarityScore: real,
    engagementScore: real,
    callToActionScore: real,
    feedback: seq<string> := [],
    strengths: seq<string> := [],
    improvements: seq<string> := [])
  {
    predicate Valid() {
      && InScoreRange(overallScore)
      && InScoreRange(personalizationScore)
      && InScoreRange(clarityScore)
      && InScoreRange(engagementScore)
      && InScoreRange(callToActionScore)
    }
  }

  /** Pydantic construction of a `MessageQualityAnalysis`: it exists exactly
      when all five scores lie in [0, 10]. */
  function NewQualityAnalysis(
    messageId: string, overall: real, personalization: real, clarity: real,
    engagement: real, callToAction: real,
    feedback: seq<string>, strengths: seq<string>, improvements: seq<string>): (r: Option<MessageQualityAnalysis>)
    ensures r.Some? <==>
      InScoreRange(overall) && InScoreRange(personalization) && InScoreRange(clarity)
      && InScoreRange(engagement) && InScoreRange(callToAction)
    ensures r.Some? ==> r.value.Valid()
    ensures r.Some? ==>
      && r.value.messageId == messageId && r.value.overallScore == overall
      && r.value.personalizationScore == personalization && r.value.clarityScore == clarity
      && r.value.engagementScore == engagement && r.value.callToActionScore == callToAction
      && r.value.feedback == feedback && r.value.strengths == strengths && r.value.improvements == improvements
  {
    var a := MessageQualityAnalysis(messageId, overall, personalization, clarity, engagement, callToAction,
                                    feedback, strengths, improvements);
    if a.Valid() then Some(a) else None
  }

  datatype OutreachResponse = OutreachResponse(
    message: OutreachMessage,
    analysis: Option<MessageQualityAnalysis> := None,
    success: bool := true,
    error: Option<string> := None)

  datatype BulkOutreachResponse = BulkOutreachResponse(
    messages: seq<OutreachMessage>,
    successCount: int,
    failedCount: int,
    totalCount: int,
    errors: seq<string> := [],
    success: bool := true)

  /** The declared defaults: a `Lead` built from its four required fields has
      no optional field set, and an `OutreachRequest` built from its message
      type alone is professional, medium, aimed at a "Decision Maker", with no
      lead or free-text fields. */
  lemma SchemaDefaults(id: string, company: string, industry: string, location: string, mt: MessageType)
    ensures var l := Lead(id, company, industry, location);
      && l.website.None? && l.linkedinUrl.None? && l.contact.None? && l.employees.None?
      && l.priority.None? && l.outreachAngle.None? && l.lastUpdated.None?
    ensures var r := OutreachRequest(mt);
      && r.tone == Professional && r.personalizationLevel == MediumLevel
      && r.targetRole == Some("Decision Maker")
      && r.companyDescription.None? && r.valueProposition.None? && r.senderName.None?
      && r.additionalContext.None? && r.lead.None?
    ensures var m := OutreachMessage(id, "", Professional, mt, MediumLevel);
      m.id.None? && m.keyPersonalizationPoints == Some([])
  {
  }
}
