/** The lead normalizer of `BE/services/data_transformer.py`: one raw
    `{organization, person}` record becomes one canonical `Lead`. The uuid and
    the current date the source generates are parameters here. */
module DataTransformer {
  import opened Wrappers
  import opened Text
  import opened Schemas

  // ---------------------------------------------------------------------------
  // Priority tiers

  datatype Priority = Low | Medium | High {
    function Name(): string {
      match this
      case Low => "Low"
      case Medium => "Medium"
      case High => "High"
    }

    function Rank(): nat {
      match this
      case Low => 0
      case Medium => 1
      case High => 2
    }
  }

  /** Below 50 employees is "Low", 50 to 199 is "Medium", 200 or more is
      "High". */
  function PriorityFromEmployeeCount(count: int): (p: Priority)
    ensures p == Low <==> count < 50
    ensures p == Medium <==> 50 <= count < 200
    ensures p == High <==> 200 <= count
  {
    if count < 50 then Low else if count < 200 then Medium else High
  }

  /** A larger company never gets a lower tier. */
  lemma PriorityMonotone(a: int, b: int)
    requires a <= b
    ensures PriorityFromEmployeeCount(a).Rank() <= PriorityFromEmployeeCount(b).Rank()
  {
  }

  // ---------------------------------------------------------------------------
  // Outreach angle

  /** The keyword table, in declaration order. */
  const OutreachAngles: seq<(string, string)> := [
    ("technology", "Digital transformation solutions"),
    ("healthcare", "HIPAA-compliant solutions"),
    ("finance", "Regulatory compliance tools"),
    ("manufacturing", "Operational efficiency improvements"),
    ("retail", "Customer experience enhancement"),
    ("education", "Learning management solutions")
  ]

  const DefaultOutreachAngle: string := "Business growth solutions"

  /** Keyword `k` of the table occurs, ignoring case, in `industry`. The
      source lower-cases the key as well; the keys are lower-case already
      (`KeysAreLowerCase`), so that step is dropped. */
  predicate AngleKeyMatches(industry: string, k: nat)
    requires k < |OutreachAngles|
  {
    Contains(Lower(industry), OutreachAngles[k].0)
  }

  /** Reference definition: entry `k` is the one chosen for `industry` when
      its key matches and no earlier key does. */
  ghost predicate SelectsAngle(industry: string, k: nat) {
    && k < |OutreachAngles|
    && AngleKeyMatches(industry, k)
    && forall j :: 0 <= j < k ==> !AngleKeyMatches(industry, j)
  }

  function AngleFrom(industry: string, k: nat): string
    requires k <= |OutreachAngles|
    decreases |OutreachAngles| - k
  {
    if k == |OutreachAngles| then DefaultOutreachAngle
    else if AngleKeyMatches(industry, k) then OutreachAngles[k].1
    else AngleFrom(industry, k + 1)
  }

  /** The table scan of `get_outreach_angle_from_industry`. */
  function OutreachAngleFromIndustry(industry: string): string {
    AngleFrom(industry, 0)
  }

  lemma {:induction false} AngleFromSpec(industry: string, k: nat)
    requires k <= |OutreachAngles|
    requires forall j :: 0 <= j < k ==> !AngleKeyMatches(industry, j)
    ensures forall i :: 0 <= i < |OutreachAngles| ==>
      (AngleFrom(industry, k) == OutreachAngles[i].1 <==> SelectsAngle(industry, i))
    ensures AngleFrom(industry, k) == DefaultOutreachAngle <==>
      forall i :: 0 <= i < |OutreachAngles| ==> !AngleKeyMatches(industry, i)
    decreases |OutreachAngles| - k
  {
    if k < |OutreachAngles| && !AngleKeyMatches(industry, k) {
      AngleFromSpec(industry, k + 1);
    }
  }

  /** The angle is the phrase of the first matching key in declaration order,
      and the default exactly when no key matches. */
  lemma OutreachAngleIsFirstMatch(industry: string)
    ensures forall i :: 0 <= i < |OutreachAngles| ==>
      (OutreachAngleFromIndustry(industry) == OutreachAngles[i].1 <==> SelectsAngle(industry, i))
    ensures OutreachAngleFromIndustry(industry) == DefaultOutreachAngle <==>
      forall i :: 0 <= i < |OutreachAngles| ==> !AngleKeyMatches(industry, i)
  {
    AngleFromSpec(industry, 0);
  }

  // ---------------------------------------------------------------------------
  // Raw records

  datatype PrimaryPhone = PrimaryPhone(number: Option<string> := None)

  /** An organization object as returned by the structured API; every key
      may be missing. */
  datatype Organization = Organization(
    id: Option<string> := None,
    name: Option<string> := None,
    industry: Option<string> := None,
    city: Option<string> := None,
    state: Option<string> := None,
    websiteUrl: Option<string> := None,
    linkedinUrl: Option<string> := None,
    estimatedNumEmployees: Option<nat> := None,
    primaryPhone: Option<PrimaryPhone> := None)

  datatype Person = Person(
    name: Option<string> := None,
    email: Option<string> := None,
    organizationId: Option<string> := None)

  /** The `{organization, person}` record the normalizer consumes; a missing
      sub-record is the empty one. */
  datatype CompanyData = CompanyData(organization: Organization := Organization(), person: Person := Person())

  // ---------------------------------------------------------------------------
  // Field derivations

  /** `organization.get("estimated_num_employees", 0)`. */
  function EmployeeCount(org: Organization): nat {
    org.estimatedNumEmployees.GetOr(0)
  }

  /** "Unknown" for a zero count, otherwise the decimal count. */
  function EmployeesDisplay(count: nat): (r: string)
    ensures r == "Unknown" <==> count == 0
    ensures count != 0 ==> (forall k :: 0 <= k < |r| ==> IsDigit(r[k])) && DigitsValue(r) == count
  {
    if count == 0 then "Unknown"
    else
      NatToStringRoundTrip(count);
      assert NatToString(count)[0] != 'U';
      NatToString(count)
  }

  /** `organization.get("primary_phone", {}).get("number", "")`. */
  function ContactNumber(org: Organization): string {
    match org.primaryPhone
    case None => ""
    case Some(p) => p.number.GetOr("")
  }

  const ContactNotAvailable: string := "Contact Not Available"

  /** First non-empty of: the organization's phone number; the person's name,
      followed by " (email)" when an email is known; a fixed sentinel. */
  function ResolveContact(org: Organization, person: Person): (c: string)
    ensures ContactNumber(org) != "" ==> c == ContactNumber(org)
    ensures ContactNumber(org) == "" && Truthy(person.name) ==>
      c == person.name.value + (if Truthy(person.email) then " (" + person.email.value + ")" else "")
    ensures ContactNumber(org) == "" && !Truthy(person.name) ==> c == ContactNotAvailable
  {
    var number := ContactNumber(org);
    if number != "" then number
    else if Truthy(person.name) then
      if Truthy(person.email) then person.name.value + " (" + person.email.value + ")"
      else person.name.value
    else ContactNotAvailable
  }

  const LocationStripChars: set<char> := {',', ' '}

  /** `f"{city}, {state}".strip(", ")`. */
  function FormatLocation(city: string, state: string): (loc: string)
    ensures loc == "" || (loc[0] !in LocationStripChars && loc[|loc| - 1] !in LocationStripChars)
    ensures IsStripOf(city + ", " + state, LocationStripChars, loc)
  {
    StripMeetsDefinition(city + ", " + state, LocationStripChars);
    Strip(city + ", " + state, LocationStripChars)
  }

  /** Formatting is idempotent: a formatted location is already clean. */
  lemma FormatLocationIdempotent(city: string, state: string)
    ensures Strip(FormatLocation(city, state), LocationStripChars) == FormatLocation(city, state)
  {
    StripIdempotent(city + ", " + state, LocationStripChars);
  }

  /** A clean city and region are joined by ", " unchanged. */
  lemma FormatLocationCleanPair(city: string, state: string)
    requires city != "" && city[0] !in LocationStripChars
    requires state != "" && state[|state| - 1] !in LocationStripChars
    ensures FormatLocation(city, state) == city + ", " + state
  {
    var s := city + ", " + state;
    assert s[0] == city[0] && s[|s| - 1] == state[|state| - 1];
    StripSliceUniqueNonEmpty(s, LocationStripChars, 0, |s|);
    assert s[0..|s|] == s;
  }

  /** One empty side gives the other side, with its own edges stripped; both
      empty gives "". */
  lemma FormatLocationOneSided(city: string, state: string)
    ensures FormatLocation(city, "") == Strip(city, LocationStripChars)
    ensures FormatLocation("", state) == Strip(state, LocationStripChars)
    ensures FormatLocation("", "") == ""
  {
    assert city + ", " + "" == city + ", ";
    StripAppendStripped(city, ", ", LocationStripChars);
    assert "" + ", " + state == ", " + state;
    StripPrependStripped(", ", state, LocationStripChars);
    StripLeftOnlyStripped(", ", LocationStripChars);
  }

  // ---------------------------------------------------------------------------
  // The normalizer

  /** `transform_apollo_data_to_lead`, with the generated id and the current
      date passed in. */
  function TransformApolloDataToLead(data: CompanyData, id: string, today: string): (lead: Lead)
    ensures lead.id == id && lead.lastUpdated == Some(today)
    ensures lead.company == data.organization.name.GetOr("Unknown Company")
    ensures lead.industry == data.organization.industry.GetOr("")
    ensures lead.website == Some(data.organization.websiteUrl.GetOr("N/A"))
    ensures lead.linkedinUrl == Some(data.organization.linkedinUrl.GetOr("N/A"))
    ensures lead.employees == Some(EmployeesDisplay(EmployeeCount(data.organization)))
    ensures lead.priority == Some(PriorityFromEmployeeCount(EmployeeCount(data.organization)).Name())
    ensures lead.outreachAngle == Some(OutreachAngleFromIndustry(lead.industry))
    ensures lead.contact == Some(ResolveContact(data.organization, data.person))
    ensures lead.location == FormatLocation(data.organization.city.GetOr(""), data.organization.state.GetOr(""))
  {
    var org := data.organization;
    var count := EmployeeCount(org);
    var industry := org.industry.GetOr("");
    Lead(
      id := id,
      company := org.name.GetOr("Unknown Company"),
      industry := industry,
      location := FormatLocation(org.city.GetOr(""), org.state.GetOr("")),
      website := Some(org.websiteUrl.GetOr("N/A")),
      linkedinUrl := Some(org.linkedinUrl.GetOr("N/A")),
      contact := Some(ResolveContact(org, data.person)),
      employees := Some(EmployeesDisplay(count)),
      priority := Some(PriorityFromEmployeeCount(count).Name()),
      outreachAngle := Some(OutreachAngleFromIndustry(industry)),
      lastUpdated := Some(today))
  }

  /** Normalizing the same record twice gives leads that differ only in id
      and date: everything else is a function of the record. */
  lemma TransformDeterministic(data: CompanyData, id1: string, today1: string, id2: string, today2: string)
    ensures TransformApolloDataToLead(data, id1, today1).(id := id2, lastUpdated := Some(today2))
         == TransformApolloDataToLead(data, id2, today2)
  {
  }

  /** An industry no key matches gets the default angle. */
  lemma NoMatchingKeyGivesDefault(industry: string)
    requires forall i :: 0 <= i < |OutreachAngles| ==> !AngleKeyMatches(industry, i)
    ensures OutreachAngleFromIndustry(industry) == DefaultOutreachAngle
  {
    OutreachAngleIsFirstMatch(industry);
  }

  /** A record with every key missing degrades to the `.get` defaults and sentinel texts. */
  lemma EmptyRecordSentinels(id: string, today: string)
    ensures var lead := TransformApolloDataToLead(CompanyData(), id, today);
      && lead.company == "Unknown Company"
      && lead.industry == ""
      && lead.location == ""
      && lead.website == Some("N/A") && lead.linkedinUrl == Some("N/A")
      && lead.contact == Some(ContactNotAvailable)
      && lead.employees == Some("Unknown")
      && lead.priority == Some("Low")
      && lead.outreachAngle == Some(DefaultOutreachAngle)
  {
    FormatLocationOneSided("", "");
    forall i | 0 <= i < |OutreachAngles|
      ensures !AngleKeyMatches("", i)
    {
      assert |OutreachAngles[i].0| > 0;
    }
    NoMatchingKeyGivesDefault("");
  }

  lemma LowerLiteral(x: string, y: string)
    requires |x| == |y| && forall k :: 0 <= k < |x| ==> LowerChar(x[k]) == y[k]
    ensures Lower(x) == y
  {
  }

  lemma KeysAreLowerCase()
    ensures forall i :: 0 <= i < |OutreachAngles| ==> Lower(OutreachAngles[i].0) == OutreachAngles[i].0
  {
    forall i | 0 <= i < |OutreachAngles|
      ensures Lower(OutreachAngles[i].0) == OutreachAngles[i].0
    {
      var key := OutreachAngles[i].0;
      forall k | 0 <= k < |key|
        ensures Lower(key)[k] == key[k]
      {
      }
    }
  }

  /** The six keys checked one by one: an industry whose lower-cased form
      contains none of them matches no entry of the table. */
  lemma NoKeyInLowered(industry: string, lowered: string)
    requires Lower(industry) == lowered
    requires !Contains(lowered, "technology") && !Contains(lowered, "healthcare")
    requires !Contains(lowered, "finance") && !Contains(lowered, "manufacturing")
    requires !Contains(lowered, "retail") && !Contains(lowered, "education")
    ensures forall i :: 0 <= i < |OutreachAngles| ==> !AngleKeyMatches(industry, i)
  {
  }

  /** Matching is on whole keys: "Financial Services" does not contain
      "finance", so it gets the default. */
  lemma FinancialServicesGetsDefault()
    ensures OutreachAngleFromIndustry("Financial Services") == DefaultOutreachAngle
  {
    LowerFinancialServices();
    FinancialServicesLacksKey(0);
    FinancialServicesLacksKey(1);
    FinancialServicesLacksKey(3);
    FinancialServicesLacksKey(4);
    FinancialServicesLacksKey(5);
    FinanceNotInFinancialServices();
    NoKeyInLowered("Financial Services", "financial services");
    NoMatchingKeyGivesDefault("Financial Services");
  }

  lemma LowerFinancialServices()
    ensures Lower("Financial Services") == "financial services"
  {
    LowerLiteral("Financial Services", "financial services");
  }

  /** Every key but "finance" has a letter "financial services" lacks. */
  lemma FinancialServicesLacksKey(k: nat)
    requires k < |OutreachAngles| && k != 2
    ensures !Contains("financial services", OutreachAngles[k].0)
  {
    var fs := "financial services";
    if k == 0 {
      LacksKey(fs, "technology", 'y');
    } else if k == 1 {
      LacksKey(fs, "healthcare", 'h');
    } else if k == 3 {
      LacksKey(fs, "manufacturing", 'm');
    } else if k == 4 {
      LacksKey(fs, "retail", 't');
    } else {
      LacksKey(fs, "education", 'd');
    }
  }

  /** `MissingCharNotContained` restated with the character as a parameter,
      so each literal is checked in a small obligation of its own. */
  lemma LacksKey(s: string, key: string, c: char)
    requires c in key && c !in s
    ensures !Contains(s, key)
  {
    MissingCharNotContained(s, key, c);
  }

  lemma FinanceNotInFinancialServices()
    ensures !Contains("financial services", "finance")
  {
    var fs := "financial services";
    ContainsIffOccurs(fs, "finance");
    forall i | 0 <= i <= |fs| - 7
      ensures !OccursAt(fs, "finance", i)
    {
      assert fs[i..i + 7][0] == fs[i];
      assert fs[i..i + 7][6] == fs[i + 6];
    }
  }

  /** An industry whose lower-cased form starts with "healthcare" and has no
      "technology" in it gets the healthcare phrase. */
  lemma HealthcarePrefixSelected(industry: string, lowered: string)
    requires Lower(industry) == lowered
    requires IsPrefix("healthcare", lowered) && !Contains(lowered, "technology")
    ensures OutreachAngleFromIndustry(industry) == "HIPAA-compliant solutions"
  {
    OccursContains(lowered, "healthcare", 0);
    assert SelectsAngle(industry, 1);
    OutreachAngleIsFirstMatch(industry);
  }

  /** "Healthcare Solutions Inc" gets the healthcare phrase. */
  lemma HealthcareExample()
    ensures OutreachAngleFromIndustry("Healthcare Solutions Inc") == "HIPAA-compliant solutions"
  {
    LowerHealthcareSolutions();
    LacksKey("healthcare solutions inc", "technology", 'y');
    HealthcareSolutionsPrefix();
    HealthcarePrefixSelected("Healthcare Solutions Inc", "healthcare solutions inc");
  }

  lemma LowerHealthcareSolutions()
    ensures Lower("Healthcare Solutions Inc") == "healthcare solutions inc"
  {
    LowerLiteral("Healthcare Solutions Inc", "healthcare solutions inc");
  }

  lemma HealthcareSolutionsPrefix()
    ensures IsPrefix("healthcare", "healthcare solutions inc")
  {
  }
}
