# LeadGenAI in Dafny

A model of the core of LeadGenAI, a B2B lead generator. The model covers both halves of the application.

**Backend (FastAPI).**
- It searches the Apollo API for organizations, or scrapes Apollo and Yellow Pages when configured to.
- It normalizes each organization (and its first contact person) into a `Lead`.
- It exports leads as CSV.
- It asks a language model (Gemini) for outreach messages and quality analyses.
- It keeps leads and messages in in-memory stores.

**Frontend (Next.js).** An API client and two screens:
- the lead search screen: selection, search and export handlers;
- the outreach screen: lead filter, form readiness, request bodies and the displayed text.

Every operation is a pure function over immutable datatypes. Anything that is not deterministic in the program is an explicit parameter:
- uuid generation: `ids: nat -> string`, `messageId`, `msgIds`;
- the date: `today`, `isoNow`;
- the language model's replies: `reply`, `replies`, `analysisReply`;
- JSON decoding: `decode`;
- the HTTP exchanges: `send`, `Reply`, `Upstream`;
- the scrapers: `scrape`.

An exception is a `Result` failure that carries the exception's text, and `HTTPException`s are `HttpError(status, detail)`.

One thing is a property of the program rather than of the model. No route ever calls `store_lead` (`BE/api/routes.py:470-472`), so in the running application the lead store is always empty. The model therefore takes the stores as parameters and proves what the routes do for any store contents.

`success_count` counts every message with a non-empty body (`BE/api/routes.py:376-377`), and a fallback body is never empty. So a failed generation whose fallback was built counts as a success (`OutreachRoutes.FailedGenerationsCountAsSuccesses`), and `failed_count` counts only generated messages whose body came back empty.

Modules:
- `Wrappers`, `Text`, `Seqs`: shared helpers. They cover Option/Result, Python and JavaScript string operations (split, strip, find, lower, `in`), and filter.
- `Http`: HTTP errors and their `str()` form.
- `Json`: a flat JSON record.
- `Schemas`: `BE/models/schemas.py`.
- `DataTransformer`: `BE/services/data_transformer.py`.
- `ApolloClient`: `BE/services/apollo_client.py`.
- `Export`: `BE/services/export_service.py`.
- `AiOutreach`: `BE/services/ai_outreach_service.py`.
- `LeadRoutes`: the lead search endpoints of `BE/api/routes.py`.
- `OutreachRoutes`: the store and outreach endpoints of `BE/api/routes.py`.
- `FrontendApi`: `FE/src/lib/api.ts`.
- `LeadGenerator`: `FE/src/components/leadgenerator.tsx`.
- `OutreachGenerator`: `FE/src/components/aioutreachgenerator.tsx`.

## Model

| member | source | states |
|---|---|---|
| Schemas.ParseMessageType | BE/models/schemas.py:37-40 | an accepted `message_type` string is exactly the value of the member it parses to |
| Schemas.EnumerationsClosed | BE/models/schemas.py:37-51 | each enumeration accepts exactly its listed strings (3, 4 and 3 of them), and parsing a member's value gives that member back |
| Schemas.NewQualityAnalysis | BE/models/schemas.py:83-92 | an analysis can be built exactly when all five scores lie in [0, 10]; the built analysis is valid and carries the message id, each of the five scores and the three lists as given |
| Schemas.SchemaDefaults | BE/models/schemas.py:12-23 | a `Lead` built from its four required fields has no optional field set; an `OutreachRequest` built from its message type alone is professional, medium, for a "Decision Maker", with no lead |
| DataTransformer.PriorityFromEmployeeCount | BE/services/data_transformer.py:9-16 | under 50 employees is "Low", 50 to 199 "Medium", 200 or more "High" |
| DataTransformer.PriorityMonotone | BE/services/data_transformer.py:9-16 | a larger company never gets a lower priority tier |
| DataTransformer.OutreachAngleIsFirstMatch | BE/services/data_transformer.py:19-34 | the angle is the phrase of the first key, in declaration order, contained in the lower-cased industry; it is the default phrase exactly when no key is contained |
| DataTransformer.NoMatchingKeyGivesDefault | BE/services/data_transformer.py:30-34 | an industry that contains none of the keys gets "Business growth solutions" |
| DataTransformer.FinancialServicesGetsDefault | BE/services/data_transformer.py:21-34 | matching is on whole keys: "Financial Services" does not contain "finance" and gets the default |
| DataTransformer.HealthcarePrefixSelected | BE/services/data_transformer.py:21-32 | an industry that starts with "healthcare" and lacks "technology" gets the HIPAA phrase, since "technology" is checked first |
| DataTransformer.HealthcareExample | BE/services/data_transformer.py:21-32 | "Healthcare Solutions Inc" gets the HIPAA phrase |
| DataTransformer.KeysAreLowerCase | BE/services/data_transformer.py:21-31 | lower-casing a key changes nothing, so only the industry's case matters |
| DataTransformer.EmployeesDisplay | BE/services/data_transformer.py:45-46 | a zero count shows "Unknown", any other count its decimal digits |
| DataTransformer.ResolveContact | BE/services/data_transformer.py:54-67 | the contact is the organization's phone when non-empty, else the person's name with " (email)" when an email is known, else "Contact Not Available" |
| DataTransformer.FormatLocation | BE/services/data_transformer.py:70-72 | the location is "city, state" stripped of ',' and ' ' at both ends, so it neither starts nor ends with either |
| DataTransformer.FormatLocationIdempotent | BE/services/data_transformer.py:72 | a formatted location is already clean: formatting it again changes nothing |
| DataTransformer.FormatLocationCleanPair | BE/services/data_transformer.py:72 | a city and region with clean edges come out joined by ", " unchanged |
| DataTransformer.FormatLocationOneSided | BE/services/data_transformer.py:72 | an empty city or region gives the other side with its own edges stripped; both empty give "" |
| DataTransformer.TransformApolloDataToLead | BE/services/data_transformer.py:37-86 | the lead takes the given id and date, the organization's name (or "Unknown Company"), its industry, website and LinkedIn (or "N/A"), and the priority, angle, employees and contact derived from the record |
| DataTransformer.TransformDeterministic | BE/services/data_transformer.py:37-86 | two normalizations of one record differ only in id and date |
| DataTransformer.EmptyRecordSentinels | BE/services/data_transformer.py:41-86 | a record with every key missing gives "Unknown Company", "", "", "N/A", "N/A", "Contact Not Available", "Unknown", "Low" and the default angle |
| ApolloClient.ClientFor | BE/services/apollo_client.py:55-56 | a client exists exactly when the key is configured, and it holds that key and the configured base URL |
| ApolloClient.SplitLocationSpec | BE/services/apollo_client.py:19-22 | neither location part contains ", "; with no separator the city is the whole location; otherwise "city, region" starts the location |
| ApolloClient.SplitLocationInverse | BE/services/apollo_client.py:19-22 | splitting undoes "city, region": both parts come back, anything after a further separator is dropped, and a bare city stays whole |
| ApolloClient.OrganizationLocationsPrefix | BE/services/apollo_client.py:19-26 | the location filter always holds exactly one entry, a prefix of the location; a location without the separator passes unchanged |
| ApolloClient.OrganizationLocationsPair | BE/services/apollo_client.py:19-26 | "city, region" with a non-empty region passes unchanged, and a third part is dropped |
| ApolloClient.SearchRequestShape | BE/services/apollo_client.py:11-41 | the request goes to `/organizations/search` with the key header, the caller's keywords, page and page size, and the eight employee ranges |
| ApolloClient.MapUpstream | BE/services/apollo_client.py:42-53 | the call succeeds exactly when the upstream responded, with that body |
| ApolloClient.ErrorMapping | BE/services/apollo_client.py:42-53 | a status error keeps its status under the "Apollo API error: " prefix; a request error becomes a 500 under "Request error: "; only an undecodable body escapes as a non-HTTP exception |
| Export.ExportLeadsToCsv | BE/services/export_service.py:13-44 | an empty list is rejected with 400 before anything is written; otherwise the header comes first, then one row per lead, in order |
| Export.Row | BE/services/export_service.py:28-40 | a row has one cell per header column |
| Export.RowColumns | BE/services/export_service.py:20-40 | each column holds the lead field its header names, and a missing optional field is left empty |
| Export.HeaderDistinct | BE/services/export_service.py:20-23 | the header has ten distinct column names |
| Export.ExportConcat | BE/services/export_service.py:26-40 | exporting two lists together gives the first list's rows, then the second's, under one header |
| AiOutreach.JsonSpan | BE/services/ai_outreach_service.py:176-180 | a span starts at a '{' with no '{' before it and ends just past a '}' with no '}' after it |
| AiOutreach.JsonSpanExists | BE/services/ai_outreach_service.py:176-179 | a span is found exactly when some '{' precedes some '}' |
| AiOutreach.ParseAiResponseSpec | BE/services/ai_outreach_service.py:172-199 | when the first '{' precedes the last '}', a slice between them that decodes is returned as decoded, and one that does not decode gives exactly the fallback record; with no '{' before a '}' the fallback record is returned; the same two cases are stated over the span `JsonSpan` finds |
| AiOutreach.ParseWithoutSpan | BE/services/ai_outreach_service.py:176-190 | a reply with no '{' before a '}' is never decoded and becomes the fallback record |
| AiOutreach.GenerateOutreachMessage | BE/services/ai_outreach_service.py:18-47 | a generated message belongs to the lead, carries the request's tone, type and personalization, and has no id or score yet; a failed call raises "AI message generation failed: " followed by the cause |
| AiOutreach.GeneratedFieldDefaults | BE/services/ai_outreach_service.py:33-43 | a reply succeeds exactly when its subject is absent, a string or null and its message is absent or a string; an absent subject names the company and an absent message is empty |
| AiOutreach.PlainReplyBecomesMessage | BE/services/ai_outreach_service.py:179-190 | a reply without a brace pair becomes the message, under "Partnership Opportunity", whatever the decoder does |
| AiOutreach.GreetingSpec | BE/services/ai_outreach_service.py:205 | "N/A" greets "there"; any other contact greets its first whitespace-separated token: a non-empty run of non-blanks that follows only blanks and ends at a blank or at the end; a missing or blank contact raises |
| AiOutreach.SeparatorContactGreeting | BE/services/ai_outreach_service.py:205 | a contact opening with the separator U+001C, which `str.split()` treats as whitespace, greets the word after it |
| AiOutreach.SentinelContactGreeting | BE/services/ai_outreach_service.py:205 | the normalizer's "Contact Not Available" greets "Contact" |
| AiOutreach.OrDefault | BE/services/ai_outreach_service.py:209 | `value or default` gives the value when it is a non-empty string, the default otherwise |
| AiOutreach.CreateFallbackMessage | BE/services/ai_outreach_service.py:201-248 | the fallback belongs to the lead, keeps the request's tone, type and personalization, and raises only when a greeting template meets a missing or blank contact |
| AiOutreach.FallbackSubjectByType | BE/services/ai_outreach_service.py:203-230 | the subject is "Partnership Opportunity with", "Connection with" or "Call Script for", followed by the company |
| AiOutreach.FallbackMentions | BE/services/ai_outreach_service.py:203-238 | every fallback body names the company and carries the value proposition, or the template's stock one when none is given |
| AiOutreach.FallbackGreetsAndSigns | BE/services/ai_outreach_service.py:203-227 | the email and LinkedIn bodies open with "Hi {greeting}," and end with the sender, or the template's stock signature |
| AiOutreach.MessageFor | BE/services/ai_outreach_service.py:57-65 | one lead's message always belongs to that lead, and its step fails only when generation failed as well |
| AiOutreach.FallbackBodyNonEmpty | BE/services/ai_outreach_service.py:200-248 | a fallback message that is built never has an empty body |
| AiOutreach.FailedGenerationHasBody | BE/services/ai_outreach_service.py:58-64 | a lead whose generation raised and whose fallback was built gets a message with a non-empty body |
| AiOutreach.GenerateBulkMessages | BE/services/ai_outreach_service.py:49-67 | one message per lead, in order, each the generated one or its fallback; it raises only with the exception of the first lead whose fallback raised |
| AiOutreach.AnalyzeMessageQuality | BE/services/ai_outreach_service.py:250-291 | analysis never raises: a failed call yields the default record, and a reply is parsed like a generated message |
| LeadRoutes.PeopleOfEmpty | BE/api/routes.py:40-46 | an organization has people exactly when some person with that truthy id occurs |
| LeadRoutes.GroupingSpec | BE/api/routes.py:40-46 | the map's keys are exactly the truthy organization ids that occur, and each holds that organization's people in response order |
| LeadRoutes.FirstPersonOf | BE/api/routes.py:51-54 | the person found is the earliest one of the organization, and none exactly when nobody works there |
| LeadRoutes.PeopleOfHead | BE/api/routes.py:51-54 | the first person grouped under an id is the earliest person of that organization |
| LeadRoutes.PrimaryPersonIsFirst | BE/api/routes.py:49-54 | a company's primary contact is the first person whose organization id equals the company id, or the empty person when there is none |
| LeadRoutes.BuildLeads | BE/api/routes.py:49-63 | the company loop yields as many leads as there are organizations |
| LeadRoutes.LeadsFromResponseSpec | BE/api/routes.py:35-68 | each organization yields exactly one lead, in order, normalized with the first person of that organization |
| LeadRoutes.CallApi | BE/api/routes.py:20-32 | the API step reports "no client" exactly when no client is configured; otherwise it sends the search for the request's industry and location, page 1 and 50 per page, and answers exactly when the upstream responded, with that body |
| LeadRoutes.ApiLeadsPrefix | BE/api/routes.py:201-212 | the leads built before a failing organization are the first leads a complete build gives |
| LeadRoutes.SearchLeads | BE/api/routes.py:17-74 | the search fails, always with 500, exactly when the API step did not answer: no client gives the "not configured" detail, a raised call or build "Error searching leads: " and the cause; otherwise one lead per organization of the response, with the total equal to their count |
| LeadRoutes.SearchLeadsRewrapsClientError | BE/api/routes.py:70-74 | a client error reaches the caller as a 500 whose detail embeds the client's own status and detail |
| LeadRoutes.ScrapedLocationFree | BE/api/routes.py:97-98 | a missing location gives two empty parts, and a comma-free one is all city, trimmed |
| LeadRoutes.ScrapedLocationFields | BE/api/routes.py:97-98 | the first two comma-separated fields, trimmed, are the city and region |
| LeadRoutes.ScrapedLocationPair | BE/api/routes.py:97-98 | "a,b" with comma-free parts splits into a and b, each trimmed |
| LeadRoutes.ScrapedLocationTriple | BE/api/routes.py:97-98 | anything after a second comma is dropped |
| LeadRoutes.ScrapedLeadFields | BE/api/routes.py:91-110 | a scraped lead shows "Unknown" employees and "Low" priority, a company defaulting to "Unknown Company", and the trimmed city and region formatted as for the API |
| LeadRoutes.ScrapedLeadContact | BE/api/routes.py:146-155 | the contact is "Phone: {phone}" when the phone is present and not "N/A"; "Contact not available (N/A)" when it is exactly "N/A", since it first served as the placeholder's email; otherwise "Contact not available" |
| LeadRoutes.ScrapedLeads | BE/api/routes.py:134-157 | the scraped rows become leads one to one, in order, the i-th row's lead taking id `ids(offset + i)` |
| LeadRoutes.ScrapeLeadsApollo | BE/api/routes.py:76-121 | the Apollo scraper is called with the request and the page bound; its rows become leads with their LinkedIn kept; a failure becomes "Error scraping Apollo leads: " with status 500 |
| LeadRoutes.ScrapeLeadsYellowPages | BE/api/routes.py:123-168 | the Yellow Pages scraper is called; LinkedIn is "N/A" and phones become contacts; a failure becomes "Error Scraping Yellow Pages Leads: " with status 500 |
| LeadRoutes.SearchLeadsHybrid | BE/api/routes.py:170-275 | every error of the hybrid search is a 500, and a success reports its own lead count as the total |
| LeadRoutes.HybridScrapePolicy | BE/api/routes.py:221-233 | scraping runs exactly when the API step did not succeed and scraping is enabled; exactly "apollo" picks the Apollo scraper |
| LeadRoutes.HybridIgnoresUnusedScraper | BE/api/routes.py:221 | when no scraper is called, the scraper cannot influence the result |
| LeadRoutes.HybridApiSuccess | BE/api/routes.py:214-275 | an API success returns its leads as they are, even none |
| LeadRoutes.HybridErrors | BE/api/routes.py:259-270 | "Both API and Scraping Failed" happens exactly when the scraper raised and no leads exist; "Not Configured & Scraping Disabled" exactly when nothing succeeded and no leads exist otherwise |
| LeadRoutes.BothFailedDiffers | BE/api/routes.py:259-270 | the two error details are always distinct |
| LeadRoutes.HybridKeepsApiLeads | BE/api/routes.py:177-275 | a successful search lists the API step's leads first, in order; when the scraper raises after the API step left leads, exactly those leads are returned |
| OutreachRoutes.GetLeadById | BE/api/routes.py:462-464 | a lookup finds a lead exactly when the id is stored |
| OutreachRoutes.GetMessageById | BE/api/routes.py:466-468 | a lookup finds a message exactly when the id is stored |
| OutreachRoutes.StoreThenGetLead | BE/api/routes.py:462-472 | a stored lead is found under its id, and every other id's lookup is unchanged |
| OutreachRoutes.StoreThenGetMessage | BE/api/routes.py:466-477 | a message with a truthy id is found under it afterwards; a message without one is not stored; no other id changes |
| OutreachRoutes.GetLead | BE/api/routes.py:285-291 | a stored lead is returned, and any other id is a 404 "Lead Not Found" |
| OutreachRoutes.AnalysisFromJsonSpec | BE/api/routes.py:329-335 | a record becomes an analysis exactly when it lacks `message_id`, has five numeric scores in [0, 10], and its lists are absent or string lists; the analysis holds the path id and the record's values |
| OutreachRoutes.DefaultRecordAnalysis | BE/api/routes.py:329-335 | the default record of a failed model call always yields a valid analysis with the default scores |
| OutreachRoutes.FallbackRecordHasNoAnalysis | BE/api/routes.py:329-337 | a reply with no decodable JSON never becomes an analysis, because the fallback record has no scores |
| OutreachRoutes.ResolveLead | BE/api/routes.py:314-317 | a truthy path id found in the store wins; otherwise the request's embedded lead, if any |
| OutreachRoutes.GenerateOutreach | BE/api/routes.py:309-346 | a failed call leaves the message store as it was |
| OutreachRoutes.GenerateOutreachErrors | BE/api/routes.py:319-346 | no lead gives a 404 and a failed generation a 500 with the exception text; the store is unchanged either way |
| OutreachRoutes.GenerateOutreachSuccess | BE/api/routes.py:323-343 | the message returned is the generated one under the new id and is what the store holds; its quality score is the analysis' overall score, absent exactly when there is no analysis |
| OutreachRoutes.AnalysisFromJsonValid | BE/api/routes.py:331-335 | a built analysis names the requested message and has scores in range |
| OutreachRoutes.FailedAnalysisCallScores | BE/api/routes.py:329-335 | a failed analysis call still scores the message 7.5 |
| OutreachRoutes.FetchLeads | BE/api/routes.py:353-364 | every requested id yields either a found lead or an error entry |
| OutreachRoutes.FetchLeadsConcat | BE/api/routes.py:356-364 | fetching a concatenation of id lists fetches each part in turn |
| OutreachRoutes.FetchLeadsExtremes | BE/api/routes.py:356-364 | all ids stored gives every lead and no errors; none stored gives every error and no lead |
| OutreachRoutes.CountNonEmptyConcat | BE/api/routes.py:376 | the success count adds up over concatenation |
| OutreachRoutes.CountNonEmptyIsFilter | BE/api/routes.py:376 | the count of non-empty bodies is the length of the list of messages whose body is truthy |
| OutreachRoutes.CountNonEmptyAll | BE/api/routes.py:376-377 | the success count equals the number of messages exactly when every body is non-empty |
| OutreachRoutes.AssignIds | BE/api/routes.py:373-374 | id assignment keeps the number of messages |
| OutreachRoutes.GenerateBulk | BE/api/routes.py:348-389 | no found lead gives a 500 wrapping the 400; otherwise it succeeds exactly when every found lead got a message, one per lead in order under the assigned ids, with the fetch errors; `success_count` is the number of messages with a non-empty body and `failed_count` the rest; a fallback that raised gives a 500 with its text |
| OutreachRoutes.FailedGenerationsCountAsSuccesses | BE/api/routes.py:370-377 | when every generation raised and every fallback was built, the response has `failed_count` 0 and `success_count` equal to the number of leads |
| OutreachRoutes.BulkResponseCounts | BE/api/routes.py:376-383 | the total is the number of messages, `success_count` is the length of the truthy-body filter, successes and failures add up to the total, and no message fails exactly when every body is non-empty |
| OutreachRoutes.NoValidLeadsText | BE/api/routes.py:366-389 | the route's own 400 reaches the caller as "Failed to Generate Bulk Messages: 400: No Valid Leads Found" |
| OutreachRoutes.AnalyzeStoredMessage | BE/api/routes.py:391-410 | every failure of the route, its own 404 included, reaches the caller as a 500 |
| OutreachRoutes.AnalyzeUnknownMessage | BE/api/routes.py:395-410 | an unknown id gives "Failed to Analyze Message: 404: Message Not Found", with status 500 |
| OutreachRoutes.AnalyzeStoredMessageSpec | BE/api/routes.py:395-410 | a known id succeeds exactly when the record builds, naming that id with scores in range; a failed model call always succeeds with overall score 7.5 |
| Seqs.FilterMembership | FE/src/components/leadgenerator.tsx:61 | an element survives a filter exactly when it occurs in the input and the predicate accepts it |
| Seqs.FilterIsSubsequence | FE/src/components/leadgenerator.tsx:61 | a filter keeps the survivors in input order |
| FrontendApi.Sanitize | FE/src/lib/api.ts:191-192 | the segment keeps its length; it holds only [a-z0-9_]; '_' is exactly where the input was not an ASCII letter or digit; the letters come out lower-cased |
| FrontendApi.SanitizeFixesSanitized | FE/src/lib/api.ts:191-192 | sanitizing leaves a sanitized segment unchanged, so it is idempotent |
| FrontendApi.ExportFilenameShape | FE/src/lib/api.ts:189-195 | the name is "leads_", the two sanitized segments and the date, joined by '_', then '.' and the extension; sanitizing the inputs first changes nothing |
| FrontendApi.DatePartSpec | FE/src/lib/api.ts:190 | the date part never contains 'T', and is the whole timestamp when there is no 'T' |
| FrontendApi.GetErrorMessage | FE/src/lib/api.ts:226-236 | an Error gives its message, a string itself, anything else "An Unexpected Error Occurred" |
| FrontendApi.ResponseErrorMessageSpec | FE/src/lib/api.ts:53-61 | the thrown message is never empty: a truthy detail wins, then a non-empty status text for a non-JSON body, then "HTTP error! status: {status}" |
| FrontendApi.Rethrown | FE/src/lib/api.ts:71-79 | a TypeError mentioning "fetch" becomes the connection message, and anything else is rethrown unchanged |
| FrontendApi.SearchLeads | FE/src/lib/api.ts:42-80 | a successful search always carries a leads array |
| FrontendApi.SearchLeadsSpec | FE/src/lib/api.ts:42-80 | a search succeeds exactly on an ok, decodable response with a leads array, which it returns unchanged; a missing array and a non-ok status give their messages; a `TypeError` mentioning "fetch", from the call or from reading the body, gives the connection message, and another body-read error its own text |
| FrontendApi.ExportToExcelGuard | FE/src/lib/api.ts:83-125 | an absent or empty list fails before any request; a returned blob is never empty and is what the server sent |
| LeadGenerator.SelectLeadSpec | FE/src/components/leadgenerator.tsx:75-83 | toggling decides that id's membership and no other; adding then removing a new id restores the selection |
| LeadGenerator.SelectAllSpec | FE/src/components/leadgenerator.tsx:85-91 | select-all selects exactly the listed ids, and clearing empties the selection |
| LeadGenerator.NeverAllAndSome | FE/src/components/leadgenerator.tsx:93-94 | the header box is never both checked and indeterminate |
| LeadGenerator.LeadIdsCount | FE/src/components/leadgenerator.tsx:87 | distinct ids give as many selected ids as leads |
| LeadGenerator.SelectAllChecksHeader | FE/src/components/leadgenerator.tsx:85-93 | with distinct ids, select-all on a non-empty list checks the header box, and clearing unchecks it |
| LeadGenerator.StaleSelectionLooksAll | FE/src/components/leadgenerator.tsx:61-93 | a kept selection with as many ids as the new list has leads, but none of theirs, checks the header box while the list to export is empty |
| LeadGenerator.SelectedLeadsSpec | FE/src/components/leadgenerator.tsx:61-107 | the exported and forwarded list holds exactly the listed leads whose id is selected, in list order, and every lead after select-all |
| LeadGenerator.StartSearch | FE/src/components/leadgenerator.tsx:28-39 | nothing happens without both an industry and a location; otherwise the request uses them and clears the banners |
| LeadGenerator.SearchRoundTrip | FE/src/components/leadgenerator.tsx:28-49 | a finished search lists the client's leads, or none with its error message, and never touches the selection or the chosen filters |
| LeadGenerator.StartExport | FE/src/components/leadgenerator.tsx:51-62 | an empty selection only sets the error banner; otherwise the selected leads are exported, in list order |
| LeadGenerator.DownloadFilenameAgrees | FE/src/components/leadgenerator.tsx:64 | the screen's own download name equals the client's sanitized name exactly when both choices are already sanitized |
| LeadGenerator.ExportGuards | FE/src/components/leadgenerator.tsx:51-72 | a selected listed lead gives a non-empty export; a selection of only stale ids exports an empty list, which the client rejects, and the screen shows "Failed to export leads" |
| OutreachGenerator.FilteredLeadsSpec | FE/src/components/aioutreachgenerator.tsx:48-52 | a lead is listed exactly when it is one of the leads and its company, industry or truthy contact contains the term, ignoring case; order is kept |
| OutreachGenerator.EmptyTermKeepsAll | FE/src/components/aioutreachgenerator.tsx:48-52 | the empty term lists every lead |
| OutreachGenerator.FilterIgnoresCase | FE/src/components/aioutreachgenerator.tsx:48-52 | a term and its lower-cased form list the same leads |
| OutreachGenerator.GenerateRequestSpec | FE/src/components/aioutreachgenerator.tsx:73-90 | a single request is sent exactly when the button is enabled, and it carries the selected lead and the six filled fields |
| OutreachGenerator.BulkGuardWeaker | FE/src/components/aioutreachgenerator.tsx:125-175 | an enabled bulk button always sends the ids without a lead; the handler's own guard checks only the ids, so it would send with empty fields |
| OutreachGenerator.BulkUnreachable | FE/src/components/aioutreachgenerator.tsx:39-40 | no input sets the bulk switch or the bulk id list, so from the mounted state the bulk button never shows and no bulk request is ever sent |
| OutreachGenerator.FillingEnablesGenerate | FE/src/components/aioutreachgenerator.tsx:174 | picking a lead and filling the six fields through the inputs enables the single button |
| OutreachGenerator.AfterGenerateSpec | FE/src/components/aioutreachgenerator.tsx:102-119 | the generated text is shown only for a successful reply with a non-empty message; failures show "Error: "; error details appear exactly for a non-ok status |
| OutreachGenerator.HeaderNumberRoundTrip | FE/src/components/aioutreachgenerator.tsx:161-163 | the number in a block header reads back as the block's position |
| OutreachGenerator.HeadersDistinct | FE/src/components/aioutreachgenerator.tsx:161-163 | blocks at different positions have different headers |
| OutreachGenerator.BulkTextShowsEveryMessage | FE/src/components/aioutreachgenerator.tsx:160-164 | every message's block, header included, appears in the bulk display |
| OutreachGenerator.AfterBulkSpec | FE/src/components/aioutreachgenerator.tsx:152-168 | a successful bulk reply shows every message's header; an unsuccessful one leaves the cleared display |

## Left out

- HTTP transport, streaming responses, timeouts, logging and `print`: each exchange is a value or a parameter (`Upstream`, `Reply`, `send`).
- CSV quoting, line endings, UTF-8 encoding and the timestamped export filename (`BE/services/export_service.py:42-57`): the export is a list of rows of cells.
- Prompt construction (`_create_outreach_prompt`, and the analysis prompt text): the prompt only feeds the model, whose reply is a parameter.
- The `get_all_leads`, `export_leads`, `health` and `templates` endpoints. They only return a store, call the export service, report configuration and return constant data. `export_leads` is `Export.ExportLeadsToCsv`.
- The `except` branch of the bulk fetch loop ("Failed to Fetch Lead ..."): a dictionary lookup cannot raise, so it is unreachable.
- uuid4 and `datetime.now`: they become the parameters `ids`, `messageId`, `msgIds`, `today` and `isoNow`.
- `generated_at`: both message constructors pass `None`, so it is always absent.
- Unicode: `lower()` and `toLowerCase()` are modelled for ASCII letters only. `split()` and `strip()` use the characters Python's `str.isspace()` accepts.
- FrontendApi.Sanitize: a Dafny `char` is a code point, while the regular expression in `FE/src/lib/api.ts:191-192` has no `u` flag and replaces each UTF-16 code unit. A character outside the Basic Multilingual Plane therefore becomes "__" in the program and "_" in the model.
- Pydantic coercion: only JSON numbers are accepted as scores, and lax numeric strings are not modelled. Validation messages are fixed texts (`ValidationError`, `AnalysisValidationError`, `DuplicateMessageId`), not pydantic's wording.
- JSON values are flat (string, number, string list, null, other). Nested objects inside a model reply are "other".
- The Apollo response: `organizations` and `people` keys present with `null` values are not modelled. They count as absent.
- DataTransformer: an organization or person field present with a JSON `null` counts as absent. In the program, a `null` `estimated_num_employees` raises at `BE/services/data_transformer.py:11`, a `null` `industry` raises at line 31, and a `null` `city` is formatted as "None" at line 72.
- The raw JSON structure of an Apollo organization beyond the keys the normalizer reads.
- FrontendApi.ResponseErrorMessage: a non-string `detail` (pydantic's 422 list) is not modelled; the detail is a string or absent.
- FrontendApi.SearchLeads: a JSON body of `null`, which would make the TypeScript throw a `TypeError` when reading `leads`, is not modelled.
- `downloadFile`, `healthCheck`, `testConnection`, `checkBackendConnection` and clipboard access: browser side effects or health reporting.
- JSX rendering, the `isGenerating` and `showLeadSelector` flags, and navigation between screens (`FE/src/app/page.tsx`). The screens' state is modelled, not their markup.
- `BE/main.py` (app wiring and CORS), `BE/core/config.py` (settings, represented by the configured key and constants) and the Playwright scrapers in `BE/services/scraper_service.py` (their rows are a parameter).
- OutreachGenerator.AfterBulkSpec: the error details set for a non-ok bulk reply are not modelled. They are the same text as for a single reply.
