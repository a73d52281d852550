/** The message screen of `FE/src/components/aioutreachgenerator.tsx`: the
    lead search filter, the readiness predicates behind the two generate
    buttons, the guards and request bodies of their handlers, and the text
    shown once a reply arrives. The form's React state is a record changed
    by the events the rendered inputs can fire. */
module OutreachGenerator {
  import opened Wrappers
  import opened Text
  import opened Schemas
  import opened Seqs

  // ---------------------------------------------------------------------------
  // Lead filter

  /** The search term occurs, ignoring ASCII case, in the company, the
      industry, or a truthy contact. */
  predicate Matches(lead: Lead, term: string) {
    var t := Lower(term);
    || Contains(Lower(lead.company), t)
    || Contains(Lower(lead.industry), t)
    || (Truthy(lead.contact) && Contains(Lower(lead.contact.value), t))
  }

  /** `filteredLeads`. */
  function FilteredLeads(leads: seq<Lead>, term: string): seq<Lead> {
    Filter(leads, (lead: Lead) => Matches(lead, term))
  }

  /** A lead is listed exactly when it is one of the leads and matches the
      term; the list keeps the leads' order. */
  lemma FilteredLeadsSpec(leads: seq<Lead>, term: string, lead: Lead)
    ensures lead in FilteredLeads(leads, term) <==> lead in leads && Matches(lead, term)
    ensures IsSubsequence(FilteredLeads(leads, term), leads)
  {
    FilterMembership(leads, (l: Lead) => Matches(l, term), lead);
    FilterIsSubsequence(leads, (l: Lead) => Matches(l, term));
  }

  /** The empty term lists every lead. */
  lemma EmptyTermKeepsAll(leads: seq<Lead>)
    ensures FilteredLeads(leads, "") == leads
  {
    forall i | 0 <= i < |leads|
      ensures Matches(leads[i], "")
    {
      assert IsPrefix("", Lower(leads[i].company));
    }
    FilterAll(leads, (l: Lead) => Matches(l, ""));
  }

  /** Case does not matter: a term and its lower-cased form list the same
      leads. */
  lemma FilterIgnoresCase(leads: seq<Lead>, term: string)
    ensures FilteredLeads(leads, Lower(term)) == FilteredLeads(leads, term)
  {
    LowerIdempotent(term);
    FilterAgrees(leads, (l: Lead) => Matches(l, Lower(term)), (l: Lead) => Matches(l, term));
  }

  // ---------------------------------------------------------------------------
  // Form state

  datatype Form = Form(
    messageType: string,
    tone: string,
    personalizationLevel: string,
    targetRole: string,
    companyDescription: string,
    valueProposition: string,
    senderName: string,
    selectedLead: Option<Lead>,
    generateBulk: bool,
    selectedLeadIds: seq<string>,
    searchTerm: string)

  /** The state the component mounts with. */
  function InitialForm(): Form {
    Form("cold_email", "", "", "", "", "", "", None, false, [], "")
  }

  /** The six inputs both buttons need. */
  predicate FieldsFilled(f: Form) {
    && f.targetRole != "" && f.companyDescription != "" && f.valueProposition != ""
    && f.senderName != "" && f.tone != "" && f.personalizationLevel != ""
  }

  /** `canGenerate`. */
  predicate CanGenerate(f: Form) {
    f.selectedLead.Some? && FieldsFilled(f)
  }

  /** `canGenerateBulk`. */
  predicate CanGenerateBulk(f: Form) {
    |f.selectedLeadIds| > 0 && FieldsFilled(f)
  }

  /** The JSON body of a single generate request. */
  datatype GenerateBody = GenerateBody(
    messageType: string, tone: string, personalizationLevel: string, targetRole: string,
    companyDescription: string, valueProposition: string, senderName: string, lead: Option<Lead>)

  /** The JSON body of a bulk request: the ids and the form's fields, with no
      lead. */
  datatype BulkBody = BulkBody(leadIds: seq<string>, request: GenerateBody)

  function BodyOf(f: Form, lead: Option<Lead>): GenerateBody {
    GenerateBody(f.messageType, f.tone, f.personalizationLevel, f.targetRole,
                 f.companyDescription, f.valueProposition, f.senderName, lead)
  }

  /** The request `handleGenerateMessage` sends, if any. */
  function GenerateRequest(f: Form): Option<GenerateBody> {
    if CanGenerate(f) then Some(BodyOf(f, f.selectedLead)) else None
  }

  /** The request `handleBulkGenerate` sends, if any: its guard looks at the
      ids alone. */
  function BulkRequest(f: Form): Option<BulkBody> {
    if |f.selectedLeadIds| == 0 then None else Some(BulkBody(f.selectedLeadIds, BodyOf(f, None)))
  }

  /** A single request is sent exactly when the button is enabled, and it
      carries the selected lead and all six filled fields. */
  lemma GenerateRequestSpec(f: Form)
    ensures GenerateRequest(f).Some? <==> CanGenerate(f)
    ensures GenerateRequest(f).Some? ==>
      var b := GenerateRequest(f).value;
      && b.lead == f.selectedLead && b.lead.Some?
      && b.tone != "" && b.personalizationLevel != "" && b.targetRole != ""
      && b.companyDescription != "" && b.valueProposition != "" && b.senderName != ""
  {
  }

  /** An enabled bulk button always sends; the handler's own guard is weaker
      than the button's and would send with empty fields. */
  lemma BulkGuardWeaker(f: Form)
    ensures CanGenerateBulk(f) ==> BulkRequest(f).Some?
    ensures BulkRequest(f).Some? <==> |f.selectedLeadIds| > 0
    ensures BulkRequest(f).Some? ==> BulkRequest(f).value.leadIds == f.selectedLeadIds && BulkRequest(f).value.request.lead.None?
    ensures var g := InitialForm().(selectedLeadIds := ["x"]);
      BulkRequest(g).Some? && !CanGenerateBulk(g)
  {
  }

  // ---------------------------------------------------------------------------
  // Events

  /** What the rendered inputs can do to the form. */
  datatype Event =
    | TypeSearchTerm(term: string)
    | PickLead(lead: Lead)
    | ChooseMessageType(v: string)
    | ChooseTone(v: string)
    | ChoosePersonalization(v: string)
    | TypeTargetRole(v: string)
    | TypeCompanyDescription(v: string)
    | TypeValueProposition(v: string)
    | TypeSenderName(v: string)

  function Apply(f: Form, e: Event): Form {
    match e
    case TypeSearchTerm(t) => f.(searchTerm := t)
    case PickLead(l) => f.(selectedLead := Some(l))
    case ChooseMessageType(v) => f.(messageType := v)
    case ChooseTone(v) => f.(tone := v)
    case ChoosePersonalization(v) => f.(personalizationLevel := v)
    case TypeTargetRole(v) => f.(targetRole := v)
    case TypeCompanyDescription(v) => f.(companyDescription := v)
    case TypeValueProposition(v) => f.(valueProposition := v)
    case TypeSenderName(v) => f.(senderName := v)
  }

  function ApplyAll(f: Form, events: seq<Event>): Form
    decreases |events|
  {
    if events == [] then f else ApplyAll(Apply(f, events[0]), events[1..])
  }

  /** No input sets the bulk switch or the bulk id list, so from the mounted
      state the bulk button is never shown or enabled and no bulk request is
      ever sent. */
  lemma {:induction false} BulkUnreachable(f: Form, events: seq<Event>)
    requires !f.generateBulk && f.selectedLeadIds == []
    ensures var g := ApplyAll(f, events);
      !g.generateBulk && g.selectedLeadIds == [] && !CanGenerateBulk(g) && BulkRequest(g).None?
    decreases |events|
  {
    if events != [] {
      BulkUnreachable(Apply(f, events[0]), events[1..]);
    }
  }

  /** Filling the six fields and picking a lead enables the single button. */
  lemma FillingEnablesGenerate(lead: Lead, tone: string, level: string, role: string, description: string,
                               proposition: string, sender: string)
    requires tone != "" && level != "" && role != "" && description != "" && proposition != "" && sender != ""
    ensures CanGenerate(ApplyAll(InitialForm(), [
      PickLead(lead), ChooseTone(tone), ChoosePersonalization(level), TypeTargetRole(role),
      TypeCompanyDescription(description), TypeValueProposition(proposition), TypeSenderName(sender)]))
  {
    var evs := [PickLead(lead), ChooseTone(tone), ChoosePersonalization(level), TypeTargetRole(role),
                TypeCompanyDescription(description), TypeValueProposition(proposition), TypeSenderName(sender)];
    var f0 := InitialForm();
    var f1 := Apply(f0, evs[0]);
    var f2 := Apply(f1, evs[1]);
    var f3 := Apply(f2, evs[2]);
    var f4 := Apply(f3, evs[3]);
    var f5 := Apply(f4, evs[4]);
    var f6 := Apply(f5, evs[5]);
    var f7 := Apply(f6, evs[6]);
    assert ApplyAll(f0, evs) == ApplyAll(f1, evs[1..]);
    assert ApplyAll(f1, evs[1..]) == ApplyAll(f2, evs[2..]);
    assert ApplyAll(f2, evs[2..]) == ApplyAll(f3, evs[3..]);
    assert ApplyAll(f3, evs[3..]) == ApplyAll(f4, evs[4..]);
    assert ApplyAll(f4, evs[4..]) == ApplyAll(f5, evs[5..]);
    assert ApplyAll(f5, evs[5..]) == ApplyAll(f6, evs[6..]);
    assert ApplyAll(f6, evs[6..]) == ApplyAll(f7, []);
  }

  // ---------------------------------------------------------------------------
  // Displayed text

  /** One exchange with the backend as the handlers see it: the call or the
      body decoding threw, a non-ok status, or the decoded body's fields. */
  datatype SingleReply =
    | SingleThrew(error: string)
    | SingleNotOk(status: nat, responseText: string)
    | SingleOk(success: bool, message: Option<string>)

  const NoContent: string := "No message content returned from AI"

  /** The text shown after `handleGenerateMessage`, and the error details. */
  function AfterGenerate(reply: SingleReply): (r: (string, string)) {
    match reply
    case SingleThrew(m) => ("Error: " + m, "")
    case SingleNotOk(status, text) =>
      ("Error: API error: " + NatToString(status), "Status: " + NatToString(status) + "\nResponse: " + text)
    case SingleOk(success, message) => (if success && Truthy(message) then message.value else NoContent, "")
  }

  /** The generated text is shown only for a successful reply with a
      non-empty message; every failure is shown prefixed with "Error: ",
      and error details appear only for a non-ok status. */
  lemma AfterGenerateSpec(reply: SingleReply)
    ensures AfterGenerate(reply).1 != "" <==> reply.SingleNotOk?
    ensures reply.SingleOk? && reply.success && Truthy(reply.message) ==> AfterGenerate(reply).0 == reply.message.value
    ensures reply.SingleOk? && !(reply.success && Truthy(reply.message)) ==> AfterGenerate(reply).0 == NoContent
    ensures !reply.SingleOk? ==> IsPrefix("Error: ", AfterGenerate(reply).0)
  {
    if reply.SingleNotOk? {
      assert ("Status: " + NatToString(reply.status) + "\nResponse: " + reply.responseText)[0] == 'S';
    }
  }

  /** The header line of the i-th message block (counting from 0). */
  function BlockHeader(i: nat, leadId: string): string {
    "--- Message " + NatToString(i + 1) + " (" + leadId + ") ---"
  }

  /** One block: the header, the message, and a newline. */
  function Block(i: nat, leadId: string, message: string): string {
    BlockHeader(i, leadId) + "\n" + message + "\n"
  }

  /** The bulk display: one block per `(lead_id, message)` pair, joined by
      newlines. */
  function BulkText(messages: seq<(string, string)>): string {
    Join(seq(|messages|, i requires 0 <= i < |messages| => Block(i, messages[i].0, messages[i].1)), "\n")
  }

  /** The number a block header shows, read back from the header text. */
  function HeaderNumber(header: string): int {
    if |header| < 12 then -1 else DigitsValue(TakeDigits(header[12..])) - 1
  }

  /** A header's number reads back as its position, so no two blocks share
      a header. */
  lemma HeaderNumberRoundTrip(i: nat, leadId: string)
    ensures HeaderNumber(BlockHeader(i, leadId)) == i
  {
    var d := NatToString(i + 1);
    var h := BlockHeader(i, leadId);
    var t := " (" + leadId + ") ---";
    assert h == "--- Message " + (d + t);
    assert h[12..] == d + t;
    TakeDigitsOf(d, t);
    NatToStringRoundTrip(i + 1);
  }

  lemma HeadersDistinct(i: nat, a: string, j: nat, b: string)
    ensures i != j ==> BlockHeader(i, a) != BlockHeader(j, b)
  {
    HeaderNumberRoundTrip(i, a);
    HeaderNumberRoundTrip(j, b);
  }

  /** Every message's block, header included, appears in the display, and a
      display of at least one message starts with the first header. */
  lemma BulkTextShowsEveryMessage(messages: seq<(string, string)>, k: nat)
    requires k < |messages|
    ensures Contains(BulkText(messages), Block(k, messages[k].0, messages[k].1))
    ensures Contains(BulkText(messages), BlockHeader(k, messages[k].0))
  {
    var blocks := seq(|messages|, i requires 0 <= i < |messages| => Block(i, messages[i].0, messages[i].1));
    JoinContains(blocks, "\n", k);
    var b := blocks[k];
    var h := BlockHeader(k, messages[k].0);
    assert b == h + ("\n" + messages[k].1 + "\n");
    ContainsInfixWithin(BulkText(messages), b, h);
  }

  /** An occurrence of a text that starts with `h` is an occurrence of `h`. */
  lemma ContainsInfixWithin(s: string, b: string, h: string)
    requires Contains(s, b) && IsPrefix(h, b)
    ensures Contains(s, h)
  {
    ContainsIffOccurs(s, b);
    var i :| OccursAt(s, b, i);
    assert s[i..i + |h|] == b[..|h|];
    OccursContains(s, h, i);
  }

  /** The text shown after `handleBulkGenerate`: the blocks for a successful
      reply with messages, otherwise the cleared text. */
  datatype BulkReply =
    | BulkThrew(message: string)
    | BulkNotOk(status: nat, responseText: string)
    | BulkOk(success: bool, messages: Option<seq<(string, string)>>)

  function AfterBulk(reply: BulkReply): string {
    match reply
    case BulkThrew(m) => "Error: " + m
    case BulkNotOk(status, _) => "Error: API error: " + NatToString(status)
    case BulkOk(success, messages) => if success && messages.Some? then BulkText(messages.value) else ""
  }

  /** A successful bulk reply shows every message's block; an unsuccessful
      one leaves the display cleared. */
  lemma AfterBulkSpec(reply: BulkReply, k: nat)
    ensures reply.BulkOk? && reply.success && reply.messages.Some? && k < |reply.messages.value| ==>
      Contains(AfterBulk(reply), BlockHeader(k, reply.messages.value[k].0))
    ensures reply.BulkOk? && !reply.success ==> AfterBulk(reply) == ""
  {
    if reply.BulkOk? && reply.success && reply.messages.Some? && k < |reply.messages.value| {
      BulkTextShowsEveryMessage(reply.messages.value, k);
    }
  }
}
