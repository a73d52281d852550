/** The deterministic part of `BE/services/ai_outreach_service.py`: reading
    the language model's reply, shaping it into an `OutreachMessage`, the
    template fallback, the bulk loop and the quality-analysis default.
    Every model call is a parameter `reply: Result<string, string>` (the
    reply text, or the text of the exception the call raised); `json.loads`
    is a `Decoder`. */
module AiOutreach {
  import opened Wrappers
  import opened Text
  import opened Json
  import opened Schemas

  // ---------------------------------------------------------------------------
  // Reading a reply

  /** `find('{')` and `rfind('}') + 1`: the half-open span from the first
      opening brace to the last closing brace, when the latter comes after
      the former. */
  function JsonSpan(text: string): (span: Option<(nat, nat)>)
    ensures span.Some? ==> span.value.0 < span.value.1 <= |text|
    ensures span.Some? ==> text[span.value.0] == '{' && text[span.value.1 - 1] == '}'
    ensures span.Some? ==> forall k :: 0 <= k < span.value.0 ==> text[k] != '{'
    ensures span.Some? ==> forall k :: span.value.1 <= k < |text| ==> text[k] != '}'
  {
    var start: int := match FindChar(text, '{') case Some(i) => i case None => -1;
    var end: int := match RFindChar(text, '}') case Some(j) => j + 1 case None => 0;
    if start != -1 && end > start then Some((start as nat, end as nat)) else None
  }

  /** A span is found exactly when some '{' precedes some '}'. */
  lemma JsonSpanExists(text: string)
    ensures JsonSpan(text).None? <==>
      forall i, j :: 0 <= i < j < |text| ==> !(text[i] == '{' && text[j] == '}')
  {
    if JsonSpan(text).None? {
      forall i, j | 0 <= i < j < |text|
        ensures !(text[i] == '{' && text[j] == '}')
      {
        var f := FindChar(text, '{');
        var l := RFindChar(text, '}');
        if f.Some? && l.Some? {
          assert l.value < f.value;
        }
      }
    }
  }

  /** What `_parse_ai_response` returns when the reply holds no decodable
      JSON: the whole reply as the message, under a stock subject. */
  function FallbackRecord(text: string): JsonObject {
    map[
      "subject" := JStr("Partnership Opportunity"),
      "message" := JStr(text),
      "key_personalization_points" := JStrList([]),
      "call_to_action" := JStr("Let's connect"),
      "tone_score" := JNum(8.0)]
  }

  /** `_parse_ai_response`: decode the brace span, or fall back. */
  function ParseAiResponse(text: string, decode: Decoder): (data: JsonObject) {
    match JsonSpan(text)
    case Some((start, end)) =>
      (match decode(text[start..end])
       case Some(obj) => obj
       case None => FallbackRecord(text))
    case None => FallbackRecord(text)
  }

  /** `i` holds the first '{' of `text` and `j`, after it, the last '}'. */
  predicate FirstOpenLastClose(text: string, i: nat, j: nat) {
    && i < j < |text| && text[i] == '{' && text[j] == '}'
    && (forall k :: 0 <= k < i ==> text[k] != '{')
    && (forall k :: j < k < |text| ==> text[k] != '}')
  }

  /** The slice from the first '{' to the last '}' inclusive is decoded, and
      its object returned when it decodes; when it does not decode, or there
      is no '{' before a '}', the reply text itself becomes the message of
      the fallback record. */
  lemma ParseAiResponseSpec(text: string, decode: Decoder)
    ensures forall i: nat, j: nat :: FirstOpenLastClose(text, i, j) ==>
      && (decode(text[i..j + 1]).Some? ==> ParseAiResponse(text, decode) == decode(text[i..j + 1]).value)
      && (decode(text[i..j + 1]).None? ==> ParseAiResponse(text, decode) == FallbackRecord(text))
    ensures (forall i, j :: 0 <= i < j < |text| ==> !(text[i] == '{' && text[j] == '}')) ==>
      ParseAiResponse(text, decode) == FallbackRecord(text)
    ensures var span := JsonSpan(text);
      && (span.Some? && decode(text[span.value.0..span.value.1]).Some? ==>
            ParseAiResponse(text, decode) == decode(text[span.value.0..span.value.1]).value)
      && (span.None? || decode(text[span.value.0..span.value.1]).None? ==>
            ParseAiResponse(text, decode) == FallbackRecord(text))
  {
    forall i: nat, j: nat | FirstOpenLastClose(text, i, j)
      ensures JsonSpan(text) == Some((i, j + 1))
    {
      FirstOpenLastCloseIsSpan(text, i, j);
    }
    JsonSpanExists(text);
  }

  /** The span `JsonSpan` finds is the first '{' through the last '}'. */
  lemma FirstOpenLastCloseIsSpan(text: string, i: nat, j: nat)
    requires FirstOpenLastClose(text, i, j)
    ensures JsonSpan(text) == Some((i, j + 1))
  {
    assert FindChar(text, '{') == Some(i);
    assert RFindChar(text, '}') == Some(j);
  }

  /** A reply with no '{' before a '}' is never decoded: it becomes the
      fallback record. */
  lemma ParseWithoutSpan(text: string, decode: Decoder)
    requires forall i, j :: 0 <= i < j < |text| ==> !(text[i] == '{' && text[j] == '}')
    ensures ParseAiResponse(text, decode) == FallbackRecord(text)
  {
    JsonSpanExists(text);
  }

  // ---------------------------------------------------------------------------
  // Shaping a generated message

  const GenerationFailedPrefix: string := "AI message generation failed: "

  /** A fixed stand-in for pydantic's message rejecting a mistyped field. */
  const ValidationError: string := "validation error for OutreachMessage"

  /** `data.get('subject', default)` validated as `Optional[str]`. */
  function SubjectField(data: JsonObject, company: string): Result<Option<string>, string> {
    if "subject" !in data then Success(Some("Partnership Opportunity with " + company))
    else match data["subject"]
      case JStr(s) => Success(Some(s))
      case JNull => Success(None)
      case _ => Failure(ValidationError)
  }

  /** `data.get('message', '')` validated as `str`. */
  function MessageField(data: JsonObject): Result<string, string> {
    if "message" !in data then Success("")
    else match data["message"]
      case JStr(s) => Success(s)
      case _ => Failure(ValidationError)
  }

  /** `generate_outreach_message`. */
  function GenerateOutreachMessage(lead: Lead, request: OutreachRequest, reply: Result<string, string>,
                                   decode: Decoder): (r: Result<OutreachMessage, string>)
    ensures r.Failure? ==> IsPrefix(GenerationFailedPrefix, r.error)
    ensures reply.Failure? ==> r == Failure(GenerationFailedPrefix + reply.error)
    ensures r.Success? ==>
      && r.value.leadId == lead.id
      && r.value.tone == request.tone
      && r.value.messageType == request.messageType
      && r.value.personalizationLevel == request.personalizationLevel
      && r.value.id.None? && r.value.qualityScore.None?
      && r.value.keyPersonalizationPoints == Some([])
  {
    match reply
    case Failure(e) => Failure(GenerationFailedPrefix + e)
    case Success(text) =>
      var data := ParseAiResponse(text, decode);
      match (SubjectField(data, lead.company), MessageField(data))
      case (Success(subject), Success(message)) =>
        Success(OutreachMessage(lead.id, message, request.tone, request.messageType, request.personalizationLevel,
                                subject := subject))
      case (Failure(e), _) => Failure(GenerationFailedPrefix + e)
      case (_, Failure(e)) => Failure(GenerationFailedPrefix + e)
  }

  /** Field defaulting: a reply succeeds exactly when its subject is absent,
      a string or null and its message is absent or a string; an absent
      subject names the company and an absent message is empty. */
  lemma GeneratedFieldDefaults(lead: Lead, request: OutreachRequest, text: string, decode: Decoder)
    ensures var data := ParseAiResponse(text, decode);
      var r := GenerateOutreachMessage(lead, request, Success(text), decode);
      && (r.Success? <==>
            ("subject" !in data || data["subject"].JStr? || data["subject"].JNull?)
            && ("message" !in data || data["message"].JStr?))
      && (r.Success? && "subject" !in data ==> r.value.subject == Some("Partnership Opportunity with " + lead.company))
      && (r.Success? && "subject" in data && data["subject"].JStr? ==> r.value.subject == Some(data["subject"].s))
      && (r.Success? && "subject" in data && data["subject"].JNull? ==> r.value.subject.None?)
      && (r.Success? && "message" !in data ==> r.value.message == "")
      && (r.Success? && "message" in data ==> r.value.message == data["message"].s)
  {
  }

  /** A reply without a brace pair becomes a message whose body is the whole
      reply, under the stock subject, whatever the decoder does. */
  lemma PlainReplyBecomesMessage(lead: Lead, request: OutreachRequest, text: string, decode: Decoder)
    requires forall i, j :: 0 <= i < j < |text| ==> !(text[i] == '{' && text[j] == '}')
    ensures GenerateOutreachMessage(lead, request, Success(text), decode)
         == Success(OutreachMessage(lead.id, text, request.tone, request.messageType, request.personalizationLevel,
                                    subject := Some("Partnership Opportunity")))
  {
    ParseWithoutSpan(text, decode);
  }

  // ---------------------------------------------------------------------------
  // Template fallback

  /** `str()` of the exceptions the greeting expression can raise. */
  const NoneSplitError: string := "'NoneType' object has no attribute 'split'"
  const IndexOutOfRange: string := "list index out of range"

  /** `lead.contact.split()[0] if lead.contact != 'N/A' else 'there'`. */
  function Greeting(contact: Option<string>): (r: Result<string, string>) {
    match contact
    case None => Failure(NoneSplitError)
    case Some(c) =>
      if c == "N/A" then Success("there")
      else match FirstWord(c)
        case Some(w) => Success(w)
        case None => Failure(IndexOutOfRange)
  }

  /** "N/A" greets "there"; any other contact greets its first
      whitespace-separated token, a non-empty run of non-blanks that follows
      only blanks; a missing or blank contact raises. */
  lemma GreetingSpec(contact: Option<string>)
    ensures contact == Some("N/A") ==> Greeting(contact) == Success("there")
    ensures Greeting(contact).Failure? <==>
      contact.None? || (contact.value != "N/A" && forall k :: 0 <= k < |contact.value| ==> contact.value[k] in Whitespace)
    ensures Greeting(contact).Success? && contact != Some("N/A") ==>
      var w := Greeting(contact).value;
      && w != "" && (forall k :: 0 <= k < |w| ==> w[k] !in Whitespace)
      && exists i :: OccursAt(contact.value, w, i) && (forall k :: 0 <= k < i ==> contact.value[k] in Whitespace)
                     && (i + |w| == |contact.value| || contact.value[i + |w|] in Whitespace)
  {
    if contact.Some? && contact.value != "N/A" {
      var r := FirstWord(contact.value);
      assert Greeting(contact) == (if r.Some? then Success(r.value) else Failure(IndexOutOfRange));
    }
  }

  /** The normalizer's "Contact Not Available" sentinel greets "Contact". */
  lemma SentinelContactGreeting()
    ensures Greeting(Some("Contact Not Available")) == Success("Contact")
  {
    assert "Contact Not Available" == "Contact" + " Not Available";
    FirstWordOf("Contact", " Not Available");
  }

  /** The information separators count as whitespace: a contact opening
      with one greets the word after it. */
  lemma SeparatorContactGreeting()
    ensures Greeting(Some("\U{1C}Bob")) == Success("Bob")
  {
    var c := "\U{1C}Bob";
    assert c[0] in Whitespace && c[1] !in Whitespace;
    var w := "Bob";
    assert w[0] !in Whitespace && w[1] !in Whitespace && w[2] !in Whitespace;
    StripLeftUnique(c, Whitespace, 1);
    assert StripLeft(c, Whitespace) == w by {
      assert c[1..] == w;
    }
    TakeWordOf(w, "", Whitespace);
    assert w + "" == w;
    assert FirstWord(c) == FirstToken(c, Whitespace) == Some(w);
    assert c != "N/A" by {
      assert c[0] != "N/A"[0];
    }
  }

  /** Python's `value or default` on an optional string. */
  function OrDefault(s: Option<string>, default: string): (r: string)
    ensures Truthy(s) ==> r == s.value
    ensures !Truthy(s) ==> r == default
  {
    if Truthy(s) then s.value else default
  }

  /** The indentation the templates carry after their first line, and their
      closing line. */
  const Indent: string := "                "
  const Closing: string := "\n            "

  const DefaultColdEmailProposition: string :=
    "Our company specializes in helping businesses like yours achieve better results."
  const DefaultLinkedinProposition: string := "We help companies in your industry achieve better results."
  const DefaultCallProposition: string := "We help companies like yours improve their results and efficiency."

  function DefaultProposition(t: MessageType): string {
    match t
    case ColdEmail => DefaultColdEmailProposition
    case LinkedinMessage => DefaultLinkedinProposition
    case ColdCallScript => DefaultCallProposition
  }

  function DefaultSender(t: MessageType): string
    requires t != ColdCallScript
  {
    if t == ColdEmail then "Your Sales Team" else "Your Name"
  }

  function FallbackSubject(t: MessageType, company: string): string {
    match t
    case ColdEmail => "Partnership Opportunity with " + company
    case LinkedinMessage => "Connection with " + company
    case ColdCallScript => "Call Script for " + company
  }

  /** The pieces of each template, literal text and interpolated values in
      order; the body is their concatenation. */
  function ColdEmailParts(greeting: string, company: string, industry: string, proposition: string,
                          sender: string): seq<string> {
    ["Hi ", greeting, ",\n\n",
     Indent, "I hope this email finds you well. I came across ", company,
     " and was impressed by your work in the ", industry, " industry.\n\n",
     Indent, proposition, "\n\n",
     Indent, "I'd love to explore how we might be able to support ", company,
     "'s goals. Would you be open to a brief conversation?\n\n",
     Indent, "Best regards,\n",
     Indent, sender, Closing]
  }

  function LinkedinParts(greeting: string, company: string, industry: string, proposition: string,
                         sender: string): seq<string> {
    ["Hi ", greeting, ",\n\n",
     Indent, "I noticed your work at ", company, " in ", industry, ". ", proposition, "\n\n",
     Indent, "Would love to connect and share some insights that might be valuable for ", company, ".\n\n",
     Indent, "Best,\n",
     Indent, sender, Closing]
  }

  function CallScriptParts(company: string, industry: string, proposition: string): seq<string> {
    ["Opening: Hi, this is [Your Name] from [Your Company]. I'm calling because I noticed ", company,
     " is doing great work in ", industry, ".\n\n",
     Indent, "Value Prop: ", proposition, "\n\n",
     Indent, "Question: I'd love to learn more about ", company,
     "'s current challenges in this area. Do you have a few minutes to chat?\n\n",
     Indent, "Close: If not now, when would be a better time to connect?", Closing]
  }

  /** The pieces of the template the request selects. */
  function TemplateParts(lead: Lead, request: OutreachRequest, greeting: string): seq<string> {
    var proposition := OrDefault(request.valueProposition, DefaultProposition(request.messageType));
    match request.messageType
    case ColdCallScript => CallScriptParts(lead.company, lead.industry, proposition)
    case ColdEmail =>
      ColdEmailParts(greeting, lead.company, lead.industry, proposition,
                     OrDefault(request.senderName, DefaultSender(ColdEmail)))
    case LinkedinMessage =>
      LinkedinParts(greeting, lead.company, lead.industry, proposition,
                    OrDefault(request.senderName, DefaultSender(LinkedinMessage)))
  }

  /** The body of the template for the request's message type; only the two
      greeting templates can raise. */
  function FallbackBody(lead: Lead, request: OutreachRequest): Result<string, string> {
    if request.messageType == ColdCallScript then Success(Concat(TemplateParts(lead, request, "")))
    else
      var greeting :- Greeting(lead.contact);
      Success(Concat(TemplateParts(lead, request, greeting)))
  }

  /** `_create_fallback_message`. */
  function CreateFallbackMessage(lead: Lead, request: OutreachRequest): (r: Result<OutreachMessage, string>)
    ensures r.Failure? <==> request.messageType != ColdCallScript && Greeting(lead.contact).Failure?
    ensures r.Failure? ==> r.error == Greeting(lead.contact).error
    ensures r.Success? ==>
      && r.value.leadId == lead.id
      && r.value.tone == request.tone
      && r.value.messageType == request.messageType
      && r.value.personalizationLevel == request.personalizationLevel
      && r.value.subject == Some(FallbackSubject(request.messageType, lead.company))
      && r.value.id.None?
  {
    var body :- FallbackBody(lead, request);
    Success(OutreachMessage(lead.id, body, request.tone, request.messageType, request.personalizationLevel,
                            subject := Some(FallbackSubject(request.messageType, lead.company))))
  }

  /** The subject names the company after a type-specific phrase. */
  lemma FallbackSubjectByType(t: MessageType, company: string)
    ensures t == ColdEmail <==> FallbackSubject(t, company) == "Partnership Opportunity with " + company
    ensures t == LinkedinMessage <==> FallbackSubject(t, company) == "Connection with " + company
    ensures t == ColdCallScript <==> FallbackSubject(t, company) == "Call Script for " + company
  {
    var a := "Partnership Opportunity with ";
    var b := "Connection with ";
    var c := "Call Script for ";
    assert (a + company)[0] == 'P' && (b + company)[0] == 'C' && (c + company)[0] == 'C';
    assert (b + company)[1] == 'o' && (c + company)[1] == 'a';
  }

  lemma FallbackIsTemplate(lead: Lead, request: OutreachRequest)
    requires CreateFallbackMessage(lead, request).Success?
    ensures request.messageType != ColdCallScript ==> Greeting(lead.contact).Success?
    ensures CreateFallbackMessage(lead, request).value.message
         == Concat(TemplateParts(lead, request,
                                 if request.messageType == ColdCallScript then "" else Greeting(lead.contact).value))
  {
  }

  /** Each template names the company and carries the proposition. */
  lemma TemplateMentions(lead: Lead, request: OutreachRequest, greeting: string)
    ensures Contains(Concat(TemplateParts(lead, request, greeting)), lead.company)
    ensures Contains(Concat(TemplateParts(lead, request, greeting)),
                     OrDefault(request.valueProposition, DefaultProposition(request.messageType)))
  {
    var p := OrDefault(request.valueProposition, DefaultProposition(request.messageType));
    match request.messageType
    case ColdCallScript =>
      CallScriptMentions(lead.company, lead.industry, p);
    case ColdEmail =>
      ColdEmailMentions(greeting, lead.company, lead.industry, p, OrDefault(request.senderName, DefaultSender(ColdEmail)));
    case LinkedinMessage =>
      LinkedinMentions(greeting, lead.company, lead.industry, p, OrDefault(request.senderName, DefaultSender(LinkedinMessage)));
  }

  lemma ColdEmailMentions(greeting: string, company: string, industry: string, proposition: string, sender: string)
    ensures Contains(Concat(ColdEmailParts(greeting, company, industry, proposition, sender)), company)
    ensures Contains(Concat(ColdEmailParts(greeting, company, industry, proposition, sender)), proposition)
  {
    var parts := ColdEmailParts(greeting, company, industry, proposition, sender);
    assert parts[5] == company && parts[10] == proposition;
    ConcatContains(parts, 5);
    ConcatContains(parts, 10);
  }

  lemma LinkedinMentions(greeting: string, company: string, industry: string, proposition: string, sender: string)
    ensures Contains(Concat(LinkedinParts(greeting, company, industry, proposition, sender)), company)
    ensures Contains(Concat(LinkedinParts(greeting, company, industry, proposition, sender)), proposition)
  {
    var parts := LinkedinParts(greeting, company, industry, proposition, sender);
    assert parts[5] == company && parts[9] == proposition;
    ConcatContains(parts, 5);
    ConcatContains(parts, 9);
  }

  lemma CallScriptMentions(company: string, industry: string, proposition: string)
    ensures Contains(Concat(CallScriptParts(company, industry, proposition)), company)
    ensures Contains(Concat(CallScriptParts(company, industry, proposition)), proposition)
  {
    var parts := CallScriptParts(company, industry, proposition);
    assert parts[1] == company && parts[7] == proposition;
    ConcatContains(parts, 1);
    ConcatContains(parts, 7);
  }

  /** Every fallback body names the company and carries the value
      proposition, or the template's stock one when the request has none. */
  lemma FallbackMentions(lead: Lead, request: OutreachRequest)
    requires CreateFallbackMessage(lead, request).Success?
    ensures var body := CreateFallbackMessage(lead, request).value.message;
      && Contains(body, lead.company)
      && Contains(body, OrDefault(request.valueProposition, DefaultProposition(request.messageType)))
  {
    FallbackIsTemplate(lead, request);
    TemplateMentions(lead, request,
                     if request.messageType == ColdCallScript then "" else Greeting(lead.contact).value);
  }

  /** The two greeting templates open with "Hi {greeting}," and close with
      the sender name, or the template's stock signature when there is
      none. */
  lemma FallbackGreetsAndSigns(lead: Lead, request: OutreachRequest)
    requires CreateFallbackMessage(lead, request).Success? && request.messageType != ColdCallScript
    ensures var body := CreateFallbackMessage(lead, request).value.message;
      && IsPrefix("Hi " + Greeting(lead.contact).value + ",\n\n", body)
      && EndsWith(body, Indent + OrDefault(request.senderName, DefaultSender(request.messageType)) + Closing)
  {
    FallbackIsTemplate(lead, request);
    var g := Greeting(lead.contact).value;
    var p := OrDefault(request.valueProposition, DefaultProposition(request.messageType));
    var sender := OrDefault(request.senderName, DefaultSender(request.messageType));
    if request.messageType == ColdEmail {
      ColdEmailEnds(g, lead.company, lead.industry, p, sender);
    } else {
      LinkedinEnds(g, lead.company, lead.industry, p, sender);
    }
  }

  lemma ColdEmailEnds(greeting: string, company: string, industry: string, proposition: string, sender: string)
    ensures IsPrefix("Hi " + greeting + ",\n\n", Concat(ColdEmailParts(greeting, company, industry, proposition, sender)))
    ensures EndsWith(Concat(ColdEmailParts(greeting, company, industry, proposition, sender)), Indent + sender + Closing)
  {
    var parts := ColdEmailParts(greeting, company, industry, proposition, sender);
    ConcatEnds(parts);
    assert parts[0] + parts[1] + parts[2] == "Hi " + greeting + ",\n\n";
    assert parts[|parts| - 3] + parts[|parts| - 2] + parts[|parts| - 1] == Indent + sender + Closing;
  }

  lemma LinkedinEnds(greeting: string, company: string, industry: string, proposition: string, sender: string)
    ensures IsPrefix("Hi " + greeting + ",\n\n", Concat(LinkedinParts(greeting, company, industry, proposition, sender)))
    ensures EndsWith(Concat(LinkedinParts(greeting, company, industry, proposition, sender)), Indent + sender + Closing)
  {
    var parts := LinkedinParts(greeting, company, industry, proposition, sender);
    ConcatEnds(parts);
    assert parts[0] + parts[1] + parts[2] == "Hi " + greeting + ",\n\n";
    assert parts[|parts| - 3] + parts[|parts| - 2] + parts[|parts| - 1] == Indent + sender + Closing;
  }

  /** A fallback body is never empty: every template opens with literal
      text. */
  lemma FallbackBodyNonEmpty(lead: Lead, request: OutreachRequest)
    ensures CreateFallbackMessage(lead, request).Success? ==> CreateFallbackMessage(lead, request).value.message != ""
  {
    if CreateFallbackMessage(lead, request).Success? {
      FallbackIsTemplate(lead, request);
      TemplateNonEmpty(lead, request,
                       if request.messageType == ColdCallScript then "" else Greeting(lead.contact).value);
    }
  }

  lemma TemplateNonEmpty(lead: Lead, request: OutreachRequest, greeting: string)
    ensures Concat(TemplateParts(lead, request, greeting)) != ""
  {
    var p := OrDefault(request.valueProposition, DefaultProposition(request.messageType));
    match request.messageType
    case ColdCallScript =>
      CallScriptNonEmpty(lead.company, lead.industry, p);
    case ColdEmail =>
      ColdEmailNonEmpty(greeting, lead.company, lead.industry, p, OrDefault(request.senderName, DefaultSender(ColdEmail)));
    case LinkedinMessage =>
      LinkedinNonEmpty(greeting, lead.company, lead.industry, p, OrDefault(request.senderName, DefaultSender(LinkedinMessage)));
  }

  lemma ColdEmailNonEmpty(greeting: string, company: string, industry: string, proposition: string, sender: string)
    ensures Concat(ColdEmailParts(greeting, company, industry, proposition, sender)) != ""
  {
    ConcatHeadNonEmpty(ColdEmailParts(greeting, company, industry, proposition, sender));
  }

  lemma LinkedinNonEmpty(greeting: string, company: string, industry: string, proposition: string, sender: string)
    ensures Concat(LinkedinParts(greeting, company, industry, proposition, sender)) != ""
  {
    ConcatHeadNonEmpty(LinkedinParts(greeting, company, industry, proposition, sender));
  }

  lemma CallScriptNonEmpty(company: string, industry: string, proposition: string)
    ensures Concat(CallScriptParts(company, industry, proposition)) != ""
  {
    ConcatHeadNonEmpty(CallScriptParts(company, industry, proposition));
  }

  // ---------------------------------------------------------------------------
  // Bulk generation

  /** One step of the bulk loop: the generated message, or the fallback when
      generation raised; the fallback's own exception escapes the loop. */
  function MessageFor(lead: Lead, request: OutreachRequest, reply: Result<string, string>,
                      decode: Decoder): (r: Result<OutreachMessage, string>)
    ensures r.Success? ==> r.value.leadId == lead.id
    ensures r.Failure? ==> GenerateOutreachMessage(lead, request, reply, decode).Failure?
  {
    match GenerateOutreachMessage(lead, request, reply, decode)
    case Success(m) => Success(m)
    case Failure(_) => CreateFallbackMessage(lead, request)
  }

  /** The loop shape of `generate_bulk_messages`: apply `step` to each item
      with its position, in order, stopping at the first exception. */
  method CollectUntilFailure<A, B>(items: seq<A>, step: (A, nat) -> Result<B, string>)
    returns (r: Result<seq<B>, string>)
    ensures r.Success? <==> forall i :: 0 <= i < |items| ==> step(items[i], i).Success?
    ensures r.Success? ==> |r.value| == |items|
    ensures r.Success? ==> forall i :: 0 <= i < |items| ==> r.value[i] == step(items[i], i).value
    ensures r.Failure? ==>
      exists i :: 0 <= i < |items| && step(items[i], i) == Failure(r.error)
        && forall j :: 0 <= j < i ==> step(items[j], j).Success?
  {
    var out: seq<B> := [];
    var i := 0;
    while i < |items|
      invariant 0 <= i <= |items|
      invariant |out| == i
      invariant forall k :: 0 <= k < i ==> step(items[k], k).Success? && out[k] == step(items[k], k).value
    {
      var m := step(items[i], i);
      if m.Failure? {
        return Failure(m.error);
      }
      out := out + [m.value];
      i := i + 1;
    }
    return Success(out);
  }

  /** A lead whose generation raised gets the fallback, whose body is not
      empty. */
  lemma FailedGenerationHasBody(lead: Lead, request: OutreachRequest, reply: Result<string, string>, decode: Decoder)
    ensures GenerateOutreachMessage(lead, request, reply, decode).Failure?
            && MessageFor(lead, request, reply, decode).Success? ==>
              MessageFor(lead, request, reply, decode).value.message != ""
  {
    FallbackBodyNonEmpty(lead, request);
  }

  /** `generate_bulk_messages`; `replies(i)` is the model's answer for the
      i-th lead. The result has one message per lead, in order, each the
      generated one or its fallback; it raises only with the exception of the
      first lead whose fallback raised. */
  method GenerateBulkMessages(leads: seq<Lead>, request: OutreachRequest, replies: nat -> Result<string, string>,
                              decode: Decoder) returns (r: Result<seq<OutreachMessage>, string>)
    ensures r.Success? <==> forall i :: 0 <= i < |leads| ==> MessageFor(leads[i], request, replies(i), decode).Success?
    ensures r.Success? ==> |r.value| == |leads|
    ensures r.Success? ==> forall i :: 0 <= i < |leads| ==>
      r.value[i] == MessageFor(leads[i], request, replies(i), decode).value && r.value[i].leadId == leads[i].id
    ensures r.Failure? ==>
      exists i :: 0 <= i < |leads| && MessageFor(leads[i], request, replies(i), decode) == Failure(r.error)
        && forall j :: 0 <= j < i ==> MessageFor(leads[j], request, replies(j), decode).Success?
  {
    r := CollectUntilFailure(leads, (lead: Lead, i: nat) => MessageFor(lead, request, replies(i), decode));
  }

  // ---------------------------------------------------------------------------
  // Quality analysis

  /** The record `analyze_message_quality` returns when the model call
      raises. */
  function DefaultQualityAnalysis(): JsonObject {
    map[
      "overall_score" := JNum(7.5),
      "personalization_score" := JNum(7.0),
      "clarity_score" := JNum(7.5),
      "engagement_score" := JNum(7.0),
      "call_to_action_score" := JNum(7.5),
      "feedback" := JStrList(["Message generated successfully"]),
      "strengths" := JStrList(["Clear messaging"]),
      "improvements" := JStrList(["Could be more personalized"])]
  }

  /** `analyze_message_quality`: it never raises (its result is not a
      `Result`); a failed call yields the default record, a reply is parsed
      like a generated message. */
  function AnalyzeMessageQuality(message: OutreachMessage, reply: Result<string, string>,
                                 decode: Decoder): (data: JsonObject)
    ensures reply.Failure? ==> data == DefaultQualityAnalysis()
    ensures reply.Success? ==> data == ParseAiResponse(reply.value, decode)
  {
    match reply
    case Failure(_) => DefaultQualityAnalysis()
    case Success(text) => ParseAiResponse(text, decode)
  }
}
