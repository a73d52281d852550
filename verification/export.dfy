/** The CSV layout of `BE/services/export_service.py`. A document is a list
    of rows, each a list of field strings; quoting and encoding by the `csv`
    module are not modelled. */
module Export {
  import opened Wrappers
  import opened Http
  import opened Schemas

  const Header: seq<string> := [
    "Company", "Industry", "Location", "Website", "LinkedIn URL",
    "Contact", "Employees", "Priority", "Outreach Angle", "Last Updated"
  ]

  const NoLeadsDetail: string := "No leads provided for export"

  /** The dictionary handed to `writerow`, keyed by column name. */
  function RowDict(lead: Lead): map<string, Option<string>> {
    map[
      "Company" := Some(lead.company),
      "Industry" := Some(lead.industry),
      "Location" := Some(lead.location),
      "Website" := lead.website,
      "LinkedIn URL" := lead.linkedinUrl,
      "Contact" := lead.contact,
      "Employees" := lead.employees,
      "Priority" := lead.priority,
      "Outreach Angle" := lead.outreachAngle,
      "Last Updated" := lead.lastUpdated]
  }

  /** `DictWriter` writes a missing value as the empty field. */
  function Cell(v: Option<string>): string {
    v.GetOr("")
  }

  lemma RowDictCoversHeader(lead: Lead)
    ensures forall k :: 0 <= k < |Header| ==> Header[k] in RowDict(lead)
  {
  }

  /** One data row: the dictionary's values in header order. */
  function Row(lead: Lead): (row: seq<string>)
    ensures |row| == |Header|
  {
    RowDictCoversHeader(lead);
    seq(|Header|, k requires 0 <= k < |Header| => Cell(RowDict(lead)[Header[k]]))
  }

  /** `export_leads_to_csv`: an empty list is rejected before anything is
      written; otherwise the header, then one row per lead in order. */
  function ExportLeadsToCsv(leads: seq<Lead>): (r: Result<seq<seq<string>>, HttpError>)
    ensures r.Failure? <==> leads == []
    ensures r.Failure? ==> r.error == HttpError(400, NoLeadsDetail)
    ensures r.Success? ==> |r.value| == |leads| + 1 && r.value[0] == Header
    ensures r.Success? ==> forall i :: 0 <= i < |leads| ==> r.value[i + 1] == Row(leads[i])
  {
    if leads == [] then Failure(HttpError(400, NoLeadsDetail))
    else Success([Header] + seq(|leads|, i requires 0 <= i < |leads| => Row(leads[i])))
  }

  /** Each column holds the lead field its header names, with a missing
      optional field left empty. */
  lemma RowColumns(lead: Lead)
    ensures Row(lead) == [
      lead.company, lead.industry, lead.location,
      lead.website.GetOr(""), lead.linkedinUrl.GetOr(""), lead.contact.GetOr(""),
      lead.employees.GetOr(""), lead.priority.GetOr(""), lead.outreachAngle.GetOr(""),
      lead.lastUpdated.GetOr("")]
  {
  }

  /** The header has ten distinct column names, so no field shadows another. */
  lemma HeaderDistinct()
    ensures |Header| == 10
    ensures forall i, j :: 0 <= i < j < |Header| ==> Header[i] != Header[j]
  {
  }

  /** Exporting a concatenation gives the first list's rows followed by the
      second's, under one header. */
  lemma ExportConcat(a: seq<Lead>, b: seq<Lead>)
    requires a != [] && b != []
    ensures ExportLeadsToCsv(a + b).value
         == ExportLeadsToCsv(a).value + ExportLeadsToCsv(b).value[1..]
  {
    var ra := ExportLeadsToCsv(a).value;
    var rb := ExportLeadsToCsv(b).value;
    var r := ExportLeadsToCsv(a + b).value;
    assert |r| == |ra + rb[1..]|;
    forall k | 0 <= k < |r|
      ensures r[k] == (ra + rb[1..])[k]
    {
      if 0 < k <= |a| {
        assert r[k] == Row((a + b)[k - 1]);
      } else if k > |a| {
        assert r[k] == Row((a + b)[k - 1]);
        assert (a + b)[k - 1] == b[k - 1 - |a|];
      }
    }
  }
}
