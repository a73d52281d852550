/** The browser-side API client of `FE/src/lib/api.ts`: the export filename,
    error-message selection, and the checks `searchLeads` and
    `exportToExcel` make around their requests. Each `fetch` exchange is a
    value (`Reply`) or a parameter `send`; the clock is an ISO timestamp
    passed in. */
module FrontendApi {
  import opened Wrappers
  import opened Text
  import opened Schemas

  // ---------------------------------------------------------------------------
  // Export filename

  predicate IsAsciiAlnum(c: char) {
    ('a' <= c <= 'z') || ('A' <= c <= 'Z') || ('0' <= c <= '9')
  }

  /** A character a sanitized segment may hold: [a-z0-9_]. */
  predicate IsSanitizedChar(c: char) {
    ('a' <= c <= 'z') || ('0' <= c <= '9') || c == '_'
  }

  /** `s.replace(/[^a-zA-Z0-9]/g, '_').toLowerCase()`: after the replacement
      only ASCII letters, digits and '_' remain, so lower-casing is the ASCII
      mapping. */
  function Sanitize(s: string): (r: string)
    ensures |r| == |s|
    ensures forall i :: 0 <= i < |s| ==> IsSanitizedChar(r[i])
    ensures forall i :: 0 <= i < |s| ==> (r[i] == '_' <==> !IsAsciiAlnum(s[i]))
    ensures forall i :: 0 <= i < |s| ==> IsAsciiAlnum(s[i]) ==> r[i] == LowerChar(s[i])
  {
    seq(|s|, i requires 0 <= i < |s| => if IsAsciiAlnum(s[i]) then LowerChar(s[i]) else '_')
  }

  /** A segment that is already sanitized is left as it is, so sanitizing is
      idempotent. */
  lemma SanitizeFixesSanitized(s: string)
    ensures (forall i :: 0 <= i < |s| ==> IsSanitizedChar(s[i])) ==> Sanitize(s) == s
    ensures Sanitize(Sanitize(s)) == Sanitize(s)
  {
  }

  /** The date part of `toISOString()`: the text before the first 'T'. */
  function DatePart(isoNow: string): string {
    Split(isoNow, "T")[0]
  }

  /** `generateExportFilename`; the extension defaults to "csv". */
  function GenerateExportFilename(industry: string, location: string, isoNow: string,
                                  extension: string := "csv"): (name: string)
  {
    "leads_" + Sanitize(industry) + "_" + Sanitize(location) + "_" + DatePart(isoNow) + "." + extension
  }

  /** The name starts with "leads_" and the two sanitized segments, each of
      the input's length, and ends with the date and extension; sanitizing
      the inputs first changes nothing. */
  lemma ExportFilenameShape(industry: string, location: string, isoNow: string, extension: string)
    ensures var name := GenerateExportFilename(industry, location, isoNow, extension);
      && IsPrefix("leads_" + Sanitize(industry) + "_" + Sanitize(location) + "_", name)
      && |name| == 6 + |industry| + 1 + |location| + 1 + |DatePart(isoNow)| + 1 + |extension|
      && name[|name| - |extension| - 1] == '.'
      && name[|name| - |extension|..] == extension
      && (forall i :: 6 <= i < 6 + |industry| ==> IsSanitizedChar(name[i]))
    ensures GenerateExportFilename(Sanitize(industry), Sanitize(location), isoNow, extension)
         == GenerateExportFilename(industry, location, isoNow, extension)
  {
    var name := GenerateExportFilename(industry, location, isoNow, extension);
    var head := "leads_" + Sanitize(industry) + "_" + Sanitize(location) + "_";
    assert name == head + (DatePart(isoNow) + "." + extension);
    assert name[..|head|] == head;
    forall i | 6 <= i < 6 + |industry|
      ensures IsSanitizedChar(name[i])
    {
      assert name[i] == head[i] == Sanitize(industry)[i - 6];
    }
    SanitizeFixesSanitized(industry);
    SanitizeFixesSanitized(location);
  }

  /** The date part never contains 'T' and is the whole text when there is
      no 'T'. */
  lemma DatePartSpec(isoNow: string)
    ensures !Contains(DatePart(isoNow), "T")
    ensures !Contains(isoNow, "T") ==> DatePart(isoNow) == isoNow
  {
    SplitPartsAvoidSeparator(isoNow, "T");
    SplitFirstTwo(isoNow, "T");
  }

  // ---------------------------------------------------------------------------
  // Error messages

  /** A thrown value as `getErrorMessage` distinguishes it. */
  datatype Thrown = ErrorObject(message: string) | StringValue(s: string) | OtherValue

  const UnexpectedError: string := "An Unexpected Error Occurred"

  /** `getErrorMessage`. */
  function GetErrorMessage(error: Thrown): (m: string)
    ensures error.ErrorObject? ==> m == error.message
    ensures error.StringValue? ==> m == error.s
    ensures error.OtherValue? ==> m == UnexpectedError
  {
    match error
    case ErrorObject(message) => message
    case StringValue(s) => s
    case OtherValue => UnexpectedError
  }

  /** The body of a non-ok response: JSON with or without a `detail`, or not
      JSON at all. */
  datatype ErrorBody = JsonBody(detail: Option<string>) | NotJson

  /** The message of the error thrown for a non-ok response: the body's
      truthy `detail`; for a body that is not JSON, the status text when it
      is non-empty; otherwise "HTTP error! status: {status}". */
  function ResponseErrorMessage(status: nat, statusText: string, body: ErrorBody): (m: string)
  {
    var fallback := "HTTP error! status: " + NatToString(status);
    match body
    case JsonBody(detail) => if Truthy(detail) then detail.value else fallback
    case NotJson => if statusText != "" then statusText else fallback
  }

  /** The thrown message is never empty: a truthy detail wins, then a
      non-empty status text for a body that is not JSON, then the status
      fallback. */
  lemma ResponseErrorMessageSpec(status: nat, statusText: string, body: ErrorBody)
    ensures ResponseErrorMessage(status, statusText, body) != ""
    ensures body.JsonBody? && Truthy(body.detail) ==> ResponseErrorMessage(status, statusText, body) == body.detail.value
    ensures (body.JsonBody? && !Truthy(body.detail)) || (body.NotJson? && statusText == "") ==>
      ResponseErrorMessage(status, statusText, body) == "HTTP error! status: " + NatToString(status)
    ensures body.NotJson? && statusText != "" ==> ResponseErrorMessage(status, statusText, body) == statusText
  {
  }

  // ---------------------------------------------------------------------------
  // Requests

  /** An exception raised while reading a response body: whether it is a
      `TypeError`, and its message. */
  datatype Raised = Raised(isTypeError: bool, text: string)

  /** One `fetch` exchange: the call itself threw (a `TypeError` or something
      else, with its message); a non-ok response; or an ok response whose
      body decoded to `B` or whose reading raised. */
  datatype Reply<B> =
    | FetchThrew(isTypeError: bool, message: string)
    | NotOk(status: nat, statusText: string, errorBody: ErrorBody)
    | Ok(decoded: Result<B, Raised>)

  const CannotConnect: string := "Unable to Connect to the Server. Please Check if the Backend is Running."
  const MissingLeadsArray: string := "Invalid Response Format: Missing Leads Array"
  const NoLeadsForExport: string := "No Leads Provided for Export"
  const EmptyFile: string := "Export Failed: Received Empty File"

  /** The catch block both requests share: a `TypeError` whose message
      mentions "fetch" becomes the connection message; anything else is
      rethrown unchanged. */
  function Rethrown(isTypeError: bool, message: string): (m: string)
    ensures isTypeError && Contains(message, "fetch") ==> m == CannotConnect
    ensures !(isTypeError && Contains(message, "fetch")) ==> m == message
  {
    if isTypeError && Contains(message, "fetch") then CannotConnect else message
  }

  /** A decoded search body: `leads` when it is present and an array, and
      `total`. */
  datatype SearchBody = SearchBody(leads: Option<seq<Lead>>, total: int)

  /** `searchLeads`: the decoded response, or the message of the error it
      throws. The errors the `try` raises itself are plain `Error`s, which
      the catch rethrows unchanged; a failed `fetch` or body read passes
      through `Rethrown`. */
  function SearchLeads(reply: Reply<SearchBody>): (r: Result<SearchBody, string>)
    ensures r.Success? ==> r.value.leads.Some?
  {
    match reply
    case FetchThrew(isTypeError, message) => Failure(Rethrown(isTypeError, message))
    case NotOk(status, statusText, body) => Failure(ResponseErrorMessage(status, statusText, body))
    case Ok(Failure(e)) => Failure(Rethrown(e.isTypeError, e.text))
    case Ok(Success(data)) =>
      if data.leads.None? then Failure(MissingLeadsArray) else Success(data)
  }

  /** A search succeeds exactly on an ok, decodable response carrying a
      leads array (an empty one included), which it returns unchanged. */
  lemma SearchLeadsSpec(reply: Reply<SearchBody>)
    ensures SearchLeads(reply).Success? <==> reply.Ok? && reply.decoded.Success? && reply.decoded.value.leads.Some?
    ensures SearchLeads(reply).Success? ==> SearchLeads(reply).value == reply.decoded.value
    ensures reply.Ok? && reply.decoded.Success? && reply.decoded.value.leads.None? ==>
      SearchLeads(reply) == Failure(MissingLeadsArray)
    ensures reply.NotOk? ==> SearchLeads(reply) == Failure(ResponseErrorMessage(reply.status, reply.statusText, reply.errorBody))
    ensures reply.FetchThrew? && reply.isTypeError && Contains(reply.message, "fetch") ==>
      SearchLeads(reply) == Failure(CannotConnect)
    ensures reply.Ok? && reply.decoded.Failure? && reply.decoded.error.isTypeError
            && Contains(reply.decoded.error.text, "fetch") ==>
      SearchLeads(reply) == Failure(CannotConnect)
    ensures reply.Ok? && reply.decoded.Failure? && !reply.decoded.error.isTypeError ==>
      SearchLeads(reply) == Failure(reply.decoded.error.text)
  {
  }

  /** `exportToExcel`; `leads` is `None` for an absent list, and `send`
      performs the request, answering with the blob's size. */
  function ExportToExcel(leads: Option<seq<Lead>>, send: seq<Lead> -> Reply<nat>): (r: Result<nat, string>)
  {
    if leads.None? || leads.value == [] then Failure(NoLeadsForExport)
    else
      match send(leads.value)
      case FetchThrew(isTypeError, message) => Failure(Rethrown(isTypeError, message))
      case NotOk(status, statusText, body) => Failure(ResponseErrorMessage(status, statusText, body))
      case Ok(Failure(e)) => Failure(Rethrown(e.isTypeError, e.text))
      case Ok(Success(size)) => if size == 0 then Failure(EmptyFile) else Success(size)
  }

  /** An absent or empty list fails before any request: the answer does not
      depend on `send`. A returned blob is never empty. */
  lemma ExportToExcelGuard(leads: Option<seq<Lead>>, send1: seq<Lead> -> Reply<nat>, send2: seq<Lead> -> Reply<nat>)
    ensures leads.None? || leads.value == [] ==>
      ExportToExcel(leads, send1) == ExportToExcel(leads, send2) == Failure(NoLeadsForExport)
    ensures ExportToExcel(leads, send1).Success? ==>
      leads.Some? && leads.value != [] && ExportToExcel(leads, send1).value > 0
      && send1(leads.value) == Ok(Success(ExportToExcel(leads, send1).value))
  {
  }
}
