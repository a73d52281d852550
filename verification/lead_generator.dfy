/** The lead-search screen of `FE/src/components/leadgenerator.tsx`: the
    selection set over the listed leads, the guards of the search and export
    handlers, and the lead lists handed to the export and to the outreach
    screen. React state is a record; each handler is a function from the
    state (and whatever its awaited call returned) to the next state. */
module LeadGenerator {
  import opened Wrappers
  import opened Text
  import opened Schemas
  import opened Seqs
  import opened FrontendApi

  datatype ScreenState = ScreenState(
    industry: string,
    location: string,
    leads: seq<Lead>,
    selected: set<string>,
    searching: bool,
    exporting: bool,
    error: string,
    success: string)

  /** The state the component mounts with. */
  function InitialState(): ScreenState {
    ScreenState("", "", [], {}, false, false, "", "")
  }

  // ---------------------------------------------------------------------------
  // Selection

  /** `handleSelectLead`: checking adds the id, unchecking removes it. */
  function SelectLead(selected: set<string>, id: string, checked: bool): (r: set<string>) {
    if checked then selected + {id} else selected - {id}
  }

  /** The ids of the listed leads. */
  function LeadIds(leads: seq<Lead>): set<string> {
    set i | 0 <= i < |leads| :: leads[i].id
  }

  /** `handleSelectAll`. */
  function SelectAll(leads: seq<Lead>, checked: bool): set<string> {
    if checked then LeadIds(leads) else {}
  }

  /** `allSelected`. */
  predicate AllSelected(leads: seq<Lead>, selected: set<string>) {
    |leads| > 0 && |selected| == |leads|
  }

  /** `someSelected`, which drives the indeterminate check box. */
  predicate SomeSelected(leads: seq<Lead>, selected: set<string>) {
    |selected| > 0 && |selected| < |leads|
  }

  /** Toggling one lead decides that id's membership and leaves every other
      id as it was; toggling on and then off removes an id that was not
      there before. */
  lemma SelectLeadSpec(selected: set<string>, id: string, checked: bool, other: string)
    ensures id in SelectLead(selected, id, checked) <==> checked
    ensures other != id ==> (other in SelectLead(selected, id, checked) <==> other in selected)
    ensures id !in selected ==> SelectLead(SelectLead(selected, id, true), id, false) == selected
  {
  }

  /** Selecting all selects exactly the listed ids, and clearing empties the
      selection. */
  lemma SelectAllSpec(leads: seq<Lead>, id: string)
    ensures id in SelectAll(leads, true) <==> exists i :: 0 <= i < |leads| && leads[i].id == id
    ensures SelectAll(leads, false) == {}
  {
  }

  /** The check box is never both checked and indeterminate. */
  lemma NeverAllAndSome(leads: seq<Lead>, selected: set<string>)
    ensures !(AllSelected(leads, selected) && SomeSelected(leads, selected))
  {
  }

  predicate DistinctIds(leads: seq<Lead>) {
    forall i, j :: 0 <= i < j < |leads| ==> leads[i].id != leads[j].id
  }

  /** There are as many ids as leads when the ids are distinct. */
  lemma {:induction false} LeadIdsCount(leads: seq<Lead>)
    requires DistinctIds(leads)
    ensures |LeadIds(leads)| == |leads|
    decreases |leads|
  {
    if leads != [] {
      var init := leads[..|leads| - 1];
      var last := leads[|leads| - 1];
      LeadIdsCount(init);
      assert LeadIds(leads) == LeadIds(init) + {last.id} by {
        forall x | x in LeadIds(leads)
          ensures x in LeadIds(init) + {last.id}
        {
          var i :| 0 <= i < |leads| && leads[i].id == x;
          if i < |init| {
            assert init[i].id == x;
          }
        }
        forall x | x in LeadIds(init)
          ensures x in LeadIds(leads)
        {
          var i :| 0 <= i < |init| && init[i].id == x;
          assert leads[i].id == x;
        }
        assert leads[|leads| - 1].id == last.id;
      }
      forall i | 0 <= i < |init|
        ensures init[i].id != last.id
      {
        assert init[i] == leads[i];
      }
      assert last.id !in LeadIds(init);
    }
  }

  /** With distinct ids (as the backend assigns them), "select all" on a
      non-empty list checks the header box, and clearing unchecks it. */
  lemma SelectAllChecksHeader(leads: seq<Lead>)
    requires DistinctIds(leads)
    ensures AllSelected(leads, SelectAll(leads, true)) <==> |leads| > 0
    ensures !AllSelected(leads, SelectAll(leads, false)) && !SomeSelected(leads, SelectAll(leads, false))
  {
    LeadIdsCount(leads);
  }

  /** The header state compares sizes only, and a search does not clear the
      selection: a selection left over from an earlier list, holding as many
      ids as the new list has leads but none of theirs, checks the header box
      while the list to export is empty. */
  lemma StaleSelectionLooksAll(leads: seq<Lead>, selected: set<string>)
    requires |leads| > 0 && |selected| == |leads|
    requires forall i :: 0 <= i < |leads| ==> leads[i].id !in selected
    ensures AllSelected(leads, selected) && SelectedLeads(leads, selected) == []
  {
    var chosen := SelectedLeads(leads, selected);
    if chosen != [] {
      FilterMembership(leads, (l: Lead) => l.id in selected, chosen[0]);
      assert false;
    }
  }

  // ---------------------------------------------------------------------------
  // The selected leads

  /** `leads.filter(lead => selectedLeads.has(lead.id))`. */
  function SelectedLeads(leads: seq<Lead>, selected: set<string>): seq<Lead> {
    Filter(leads, (lead: Lead) => lead.id in selected)
  }

  /** The exported and forwarded list holds exactly the listed leads whose id
      is selected, in list order, and all of them when all are selected. */
  lemma SelectedLeadsSpec(leads: seq<Lead>, selected: set<string>, lead: Lead)
    ensures lead in SelectedLeads(leads, selected) <==> lead in leads && lead.id in selected
    ensures IsSubsequence(SelectedLeads(leads, selected), leads)
    ensures SelectedLeads(leads, SelectAll(leads, true)) == leads
  {
    FilterMembership(leads, (l: Lead) => l.id in selected, lead);
    FilterIsSubsequence(leads, (l: Lead) => l.id in selected);
    var all := SelectAll(leads, true);
    forall i | 0 <= i < |leads|
      ensures leads[i].id in all
    {
    }
    FilterAll(leads, (l: Lead) => l.id in all);
  }

  // ---------------------------------------------------------------------------
  // Handlers

  const SelectSomethingFirst: string := "Please select at least one lead to export"
  const ExportFailed: string := "Failed to export leads"

  /** The start of `handleFindLeads`: nothing happens unless both an industry
      and a location are chosen; otherwise the request is made with a
      cleared banner. */
  function StartSearch(s: ScreenState): (r: (ScreenState, Option<SearchRequest>))
    ensures r.1.None? <==> s.industry == "" || s.location == ""
    ensures r.1.None? ==> r.0 == s
    ensures r.1.Some? ==>
      r.1.value == SearchRequest(s.industry, s.location) && r.0 == s.(searching := true, error := "", success := "")
  {
    if s.industry == "" || s.location == "" then (s, None)
    else (s.(searching := true, error := "", success := ""), Some(SearchRequest(s.industry, s.location)))
  }

  /** The rest of `handleFindLeads`, given how the search ended: the leads
      and a count banner, or the error's message and no leads. The selection
      is kept either way. */
  function FinishSearch(s: ScreenState, outcome: Result<SearchBody, string>): (r: ScreenState)
    requires outcome.Success? ==> outcome.value.leads.Some? && outcome.value.total >= 0
  {
    match outcome
    case Success(body) =>
      s.(leads := body.leads.value, success := "Found " + NatToString(body.total) + " leads successfully!",
         searching := false)
    case Failure(message) => s.(error := message, leads := [], searching := false)
  }

  /** A finished search lists the leads the client returned, or none after an
      error; it never touches the selection or the search fields. */
  lemma SearchRoundTrip(s: ScreenState, reply: Reply<SearchBody>)
    requires s.industry != "" && s.location != ""
    requires reply.Ok? && reply.decoded.Success? ==> reply.decoded.value.total >= 0
    ensures var started := StartSearch(s).0;
      var outcome := FrontendApi.SearchLeads(reply);
      var r := FinishSearch(started, outcome);
      && !r.searching
      && r.selected == s.selected && r.industry == s.industry && r.location == s.location
      && (outcome.Success? ==> r.leads == outcome.value.leads.value && r.error == "")
      && (outcome.Failure? ==> r.leads == [] && r.error == outcome.error && r.success == "")
  {
  }

  /** The start of `handleExportToExcel`: an empty selection only sets the
      error banner; otherwise the selected leads, in list order, are
      exported. */
  function StartExport(s: ScreenState): (r: (ScreenState, Option<seq<Lead>>))
    ensures r.1.None? <==> s.selected == {}
    ensures r.1.None? ==> r.0 == s.(error := SelectSomethingFirst)
    ensures r.1.Some? ==>
      r.1.value == SelectedLeads(s.leads, s.selected) && r.0 == s.(exporting := true, error := "")
  {
    if s.selected == {} then (s.(error := SelectSomethingFirst), None)
    else (s.(exporting := true, error := ""), Some(SelectedLeads(s.leads, s.selected)))
  }

  /** The rest of `handleExportToExcel`: the success banner counts the
      selection, not the exported rows; any failure shows one fixed
      message. */
  function FinishExport(s: ScreenState, outcome: Result<nat, string>): (r: ScreenState) {
    match outcome
    case Success(_) => s.(success := "Exported " + NatToString(|s.selected|) + " leads successfully!", exporting := false)
    case Failure(_) => s.(error := ExportFailed, exporting := false)
  }

  /** The name the component downloads under:
      `leads_{industry}_{location}_{date}.csv`, unsanitized. It agrees with
      the client's `generateExportFilename` exactly when both choices are
      already sanitized. */
  function DownloadFilename(s: ScreenState, isoNow: string): string {
    "leads_" + s.industry + "_" + s.location + "_" + DatePart(isoNow) + ".csv"
  }

  lemma DownloadFilenameAgrees(s: ScreenState, isoNow: string)
    ensures DownloadFilename(s, isoNow) == GenerateExportFilename(s.industry, s.location, isoNow)
        <==> Sanitize(s.industry) == s.industry && Sanitize(s.location) == s.location
  {
    var tail := "_" + DatePart(isoNow) + ".csv";
    NameFields(s.industry, s.location, tail);
    NameFields(Sanitize(s.industry), Sanitize(s.location), tail);
    assert DownloadFilename(s, isoNow) == "leads_" + s.industry + "_" + s.location + tail;
    assert GenerateExportFilename(s.industry, s.location, isoNow)
        == "leads_" + Sanitize(s.industry) + "_" + Sanitize(s.location) + tail;
  }

  /** The two segments of a `leads_{x}_{y}...` name can be read back by
      position. */
  lemma NameFields(x: string, y: string, tail: string)
    ensures var n := "leads_" + x + "_" + y + tail;
      n[6..6 + |x|] == x && n[7 + |x|..7 + |x| + |y|] == y
  {
    var n := "leads_" + x + "_" + y + tail;
    assert n == "leads_" + x + ("_" + y + tail);
    MiddleSlice("leads_", x, "_" + y + tail);
    MiddleSlice("leads_" + x + "_", y, tail);
  }

  lemma MiddleSlice(p: string, m: string, q: string)
    ensures (p + m + q)[|p|..|p| + |m|] == m
  {
  }

  /** A selected listed lead makes the exported list non-empty, so the
      client's own guard does not fire. A selection holding only ids of no
      listed lead (left over from an earlier search) passes the screen's
      guard, hands the client an empty list, and ends in the generic export
      failure. */
  lemma ExportGuards(s: ScreenState, send: seq<Lead> -> Reply<nat>)
    ensures (exists i :: 0 <= i < |s.leads| && s.leads[i].id in s.selected) ==>
      StartExport(s).1.Some? && StartExport(s).1.value != []
    ensures s.selected != {} && (forall i :: 0 <= i < |s.leads| ==> s.leads[i].id !in s.selected) ==>
      && StartExport(s).1 == Some([])
      && FrontendApi.ExportToExcel(StartExport(s).1, send) == Failure(NoLeadsForExport)
      && FinishExport(StartExport(s).0, Failure(NoLeadsForExport)).error == ExportFailed
  {
    if exists i :: 0 <= i < |s.leads| && s.leads[i].id in s.selected {
      var i :| 0 <= i < |s.leads| && s.leads[i].id in s.selected;
      SelectedLeadsSpec(s.leads, s.selected, s.leads[i]);
    }
    if s.selected != {} && (forall i :: 0 <= i < |s.leads| ==> s.leads[i].id !in s.selected) {
      var picked := SelectedLeads(s.leads, s.selected);
      if picked != [] {
        SelectedLeadsSpec(s.leads, s.selected, picked[0]);
      }
    }
  }
}
