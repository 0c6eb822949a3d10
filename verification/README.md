# SMS address lookup and weekly report: a Dafny model

This project models two pieces of pure decision and formatting logic from a
Python service that answers property-ownership questions by SMS and posts a
weekly analytics report.

1. **The SMS lookup workflow** (`services/services.py`). It covers:
   - the sub-unit extraction from a normalized address;
   - the registry filter and the four-way classification: wrong format, no match, ambiguous, exact;
   - the reply handlers;
   - the ordered status notifications (`process_statuses`).

   The messaging gateway, the registry query, the owner query engine and
   `time.sleep` are effects. Each one appears as an `Event` in the trace a call
   returns, in order. The registry is a sequence of records. The owner query
   engine and the tax and rental message builders are function parameters.
   The SMS templates and the lookup label are a `Config` value.
2. **The weekly report** (`services/analytics/utils.py` and the pure parts of
   `services/analytics/service.py`). It covers:
   - the count dictionaries;
   - the conversation metrics;
   - `to_pascal_case` and `map_status`;
   - the markdown row formatters and the fixed-shape sections;
   - the bind parameters and the message grouping of `get_weekly_messages_history`;
   - the section assembly of `send_weekly_report`;
   - the record `insert_weekly_report` stores.

Modules:

- `Results` (`results.dfy`): `Option` and `Result`. A Python `KeyError` becomes an `Err`.
- `Strings` (`strings.dfy`): the Python string operations the code relies on:
  - `isspace`, restricted to ASCII;
  - `lower`/`upper`, restricted to ASCII;
  - `strip`, `split()`, `split(c)`, `join`, `replace`, `ljust`, `str(int)`.
- `Services` (`services.dfy`): `services/services.py`.
- `AnalyticsUtils` (`analytics_utils.dfy`): `services/analytics/utils.py`.
- `AnalyticsService` (`analytics_service.dfy`): the fragments of `services/analytics/service.py`.

## Model

| member | source | states |
|---|---|---|
| Services.ExtractAddressInformation | services/services.py:145-153 | The address is `address_line_1`, or "" when that key is missing. The sub-unit is "" when `address_line_2` is missing. |
| Services.SubUnitClean | services/services.py:149 | The extracted sub-unit contains no `#`. It has no leading, trailing or doubled whitespace. It keeps every non-whitespace character of the secondary line once the `UNIT` and `#` markers are removed, and the same words in the same order. |
| Services.Candidates | services/services.py:34-50 | The filtered records are at most the registry. Every one of them passes the filter: a case-insensitive prefix match on the stripped address, plus a case-sensitive suffix match on a present sub-unit when one was given. |
| Services.CandidatesFromRegistry | services/services.py:34-50 | Every filtered record is a registry record. |
| Services.CandidatesExactly | services/services.py:34-50 | A record is among the filtered records if and only if it is in the registry and passes the filter. |
| Services.NoCandidates | services/services.py:34-50 | When no registry record passes the filter, the query returns nothing. |
| Services.OneCandidate | services/services.py:34-50 | When exactly the record at index k passes the filter, the query returns exactly that record. |
| Services.TwoCandidates | services/services.py:34-50 | Two records passing the filter give at least two results. |
| Services.Classify | services/services.py:30-60 | Wrong format iff the address is empty. Otherwise: no match iff no candidate; ambiguous iff more than one. The display address is the unstripped address, followed by a space and the sub-unit when there is one. An exact match carries the single candidate, a registry record. |
| Services.HandleNoMatch | services/services.py:67-74 | One unlabelled message to the caller's conversation and phone, whose text is the no-match template with `{address}` replaced by the display address. The payload is the no-match template before formatting, with 200. The argument order is the corrected one (see Findings). |
| Services.HandleAmbiguous | services/services.py:77-84 | One unlabelled message to the caller's conversation and phone, whose text is the closest-match template with `{address}` replaced by the display address. The payload is the closest-match template before formatting, with 200. The argument order is the corrected one (see Findings). |
| Services.HandleNoMatchAsWritten | services/services.py:69-73 | The positional call puts the phone where the gateway expects the conversation. The message is the no-match template filled with the display address. It goes to conversation `phone`, and it misses the caller whenever the two differ. |
| Services.HandleAmbiguousAsWritten | services/services.py:79-83 | The same misaddressed message, here the closest-match template filled with the display address. |
| Services.HandleMatch | services/services.py:87-109 | Three events: the owner answer, a 2-second pause, then the follow-up template. Both messages go to the caller and carry the lookup label. The payload is the owner answer with 200. |
| Services.HandleWrongFormat | services/services.py:112-118 | One unlabelled message to the caller. The message and the payload are both the wrong-format template, with status 200. |
| Services.Respond | services/services.py:53-64 | Exactly one handler runs for an outcome. A wrong format sends one message and queries nothing. Every other outcome starts with the registry query. (corrected argument order; see Findings) |
| Services.SearchService | services/services.py:19-64 | The outcome is the classification of the extracted address. The status is always 200. The wrong-format path is the single wrong-format send. Otherwise the first effect is the registry query for the stripped address and the sub-unit. (corrected argument order; see Findings) |
| Services.OneHandlerPerQuery | services/services.py:30-64 | Every query sends exactly one message, except an exact match, which sends two. |
| Services.WrongFormatPath | services/services.py:30-32 | A missing or empty primary line gives exactly one wrong-format send and payload `(wrong_format, 200)`. The registry and the owner engine are never queried. |
| Services.NoMatchPath | services/services.py:67-74 | With no candidate, the trace is the registry query, then the no-match template filled with the display address, sent to the caller's conversation. The payload is the unfilled template with 200. (corrected argument order; see Findings) |
| Services.AmbiguousPath | services/services.py:77-84 | With two or more candidates, the trace is the registry query, then the closest-match template filled with the display address, sent to the caller's conversation. The payload is the unfilled template with 200. (corrected argument order; see Findings) |
| Services.ExactPath | services/services.py:58-64 | With exactly one candidate, the owner engine is queried with that record's address, sub-unit dropped. Then come the labelled owner answer, a 2-second pause and the labelled follow-up. The payload is the answer text with 200. |
| Services.RespondExact | services/services.py:87-109 | The exact-match reply is the five effects in order: registry query, owner query, answer, pause, follow-up. |
| Services.MetadataIgnored | services/services.py:62-64 | Two owner engines that print the same text give identical replies, whatever their metadata. |
| Services.ProcessStatuses | services/services.py:121-142 | The tax message is sent iff the tax status is truthy and not `NO_TAX_DEBT`. The rental message is sent iff the rental status is truthy. Each is followed by a 2-second pause. The closing message is always last. There are 1 + (tax) + (rental) sends, and sends and pauses alternate. |
| Services.TaxAndRentalScenario | services/services.py:121-142 | Tax debt and a rental status give tax, pause, rental, pause, final. |
| Services.ClosingOnlyScenario | services/services.py:121-142 | No tax debt and no rental status give the closing message alone. |
| Strings.LJust | services/analytics/utils.py:7 | `ljust` keeps the text whole and pads it with spaces to at least the width. It never truncates. |
| Strings.CollapseIsCollapsed | services/services.py:149 | `" ".join(s.split())` has no leading, trailing or doubled whitespace. |
| Strings.CollapseKeepsText | services/services.py:149 | `" ".join(s.split())` keeps every non-whitespace character, in order. |
| Strings.CollapseIdempotent | services/services.py:149 | Collapsing whitespace twice is collapsing it once. |
| AnalyticsUtils.ProcessCounts | services/analytics/utils.py:87-140 | The loop's dictionary has exactly the initial keys. Each key holds the count of the last row with that key, or 0 when no row has it. |
| AnalyticsUtils.LastCountAt | services/analytics/utils.py:99-103 | A repeated key takes the count of its last row: assignment, not accumulation. |
| AnalyticsUtils.LastCountAbsent | services/analytics/utils.py:89-96 | A key no row mentions keeps its initial 0. |
| AnalyticsUtils.LastCountIgnoresOthers | services/analytics/utils.py:102-103 | Inserting a row with another key anywhere leaves a key's count unchanged, so unknown keys are ignored. |
| AnalyticsUtils.ProcessLookupHistory | services/analytics/utils.py:87-105 | The result has exactly the six status keys, each holding its last row's count or 0. |
| AnalyticsUtils.ProcessConversationOutcomes | services/analytics/utils.py:108-126 | The result has exactly the seven outcome labels, each holding its last row's count or 0. |
| AnalyticsUtils.ProcessAudienceSegment | services/analytics/utils.py:129-140 | The result has exactly the five segments, each holding its last row's count or 0. |
| AnalyticsUtils.CellCount | services/analytics/utils.py:46-58 | A non-empty dict yields its `count`. A non-empty dict without one raises `KeyError`. An empty dict or a non-dict yields 0. |
| AnalyticsUtils.SumCounts | services/analytics/utils.py:59-73 | Summing rows succeeds iff every row has a `count`. |
| AnalyticsUtils.SumCountsAppend | services/analytics/utils.py:59-73 | The sum over two lists of rows is the sum of the two sums. |
| AnalyticsUtils.ProcessConversationMetrics | services/analytics/utils.py:45-84 | Succeeds iff no `count` lookup fails. The result has exactly the six metric keys, each holding its cell count or row sum. |
| AnalyticsUtils.QuietWeek | services/analytics/utils.py:45-84 | With no dict cells and no rows, every metric is 0. |
| AnalyticsUtils.PascalFrom | services/analytics/utils.py:34-35 | The character-by-character reading of `to_pascal_case`: same length, every `_` becomes a space, and no `_` remains. |
| AnalyticsUtils.PascalFromAt | services/analytics/utils.py:34-35 | A character is upper case iff it starts the string or follows a `_`. Otherwise it is lower case. |
| AnalyticsUtils.ToPascalCaseByChar | services/analytics/utils.py:34-35 | Lowering, splitting on `_`, capitalizing each piece and joining with spaces equals the character-by-character reading. |
| AnalyticsUtils.PascalPieces | services/analytics/utils.py:34-35 | The same equality, stated for any suffix of the input and either starting state. |
| AnalyticsUtils.MapStatus | services/analytics/utils.py:38-42 | `OK` maps to `No Tax Debt`. Any other status maps to its Pascal-case form, of the same length. |
| AnalyticsUtils.RowText | services/analytics/utils.py:4-31 | A row is non-empty and starts and ends with `|`. |
| AnalyticsUtils.RowTextCells | services/analytics/utils.py:4-31 | A row holds its label and its count whole, at fixed offsets. Each cell is padded to at least its column width. The row's length follows from the cell widths. |
| AnalyticsUtils.RowTextOneLine | services/analytics/utils.py:4-31 | A row whose label has no line break has none either. |
| AnalyticsUtils.FinishRows | services/analytics/utils.py:4-31 | `strip() + "\n"` on accumulated rows removes and restores only the final line break. The result is never blank. |
| AnalyticsUtils.FormatRows | services/analytics/utils.py:4-31 | The table is one line per tally in input order. It is "" iff there are no tallies. |
| AnalyticsUtils.FormatRowsLines | services/analytics/utils.py:4-31 | Split on line breaks, the table gives back exactly its rows, then the empty tail. |
| AnalyticsUtils.FormatMetricByAudienceSegment | services/analytics/utils.py:4-8 | Rows with the `- ` lead and widths 28 and 4. "" iff there are no metrics. |
| AnalyticsUtils.FormatConversationForReport | services/analytics/utils.py:11-15 | Rows with the `- ` lead and widths 28 and 4. "" iff there are no conversations. |
| AnalyticsUtils.MapStatuses | services/analytics/utils.py:22 | Every status label goes through `map_status`, with its count kept. |
| AnalyticsUtils.FormatLookupHistory | services/analytics/utils.py:18-24 | Rows of mapped statuses with widths 28 and 5. "" iff there are no metrics. |
| AnalyticsUtils.FormatGeographicRegions | services/analytics/utils.py:27-31 | Rows of ZIP codes with widths 28 and 4. "" iff there are none. |
| AnalyticsUtils.GenerateGeographicRegionMarkdown | services/analytics/utils.py:143-152 | "" iff the ZIP list is empty. Otherwise the three-line header followed by the rows. |
| AnalyticsUtils.RenderRows | services/analytics/utils.py:155-231 | Filling a fixed section's rows succeeds iff every key is present. Row i is its prefix, the count and its suffix. |
| AnalyticsUtils.FixedSection | services/analytics/utils.py:155-231 | A fixed section succeeds iff every key is present. It is the header lines followed by the filled rows. |
| AnalyticsUtils.FixedSectionLines | services/analytics/utils.py:155-231 | Split on line breaks, a fixed section gives back its header and then one line per row, in the listed order. |
| AnalyticsUtils.GenerateLookupHistoryMarkdown | services/analytics/utils.py:155-166 | Succeeds on any dictionary with the six status keys. The result is the header followed by six rows in the listed order. |
| AnalyticsUtils.GenerateConversationOutcomesMarkdown | services/analytics/utils.py:169-181 | Succeeds on any dictionary with the seven outcome labels. The result is the header followed by seven rows in the listed order. |
| AnalyticsUtils.GenerateDataByAudienceSegmentMarkdown | services/analytics/utils.py:184-194 | Succeeds on any dictionary with the five segments. The result is the header followed by five rows in the listed order. |
| AnalyticsUtils.GenerateConversationMetricsSection | services/analytics/utils.py:220-231 | Succeeds on any dictionary with the six metric keys. The result is the header followed by six rows in the listed order. |
| AnalyticsUtils.GenerateIntroSection | services/analytics/utils.py:204-206 | The title prefix, then the date, then `)`. There is no line break unless the date has one. |
| AnalyticsService.BroadcastMessages | services/analytics/service.py:105-109 | Two messages per broadcast. Positions 2i and 2i+1 hold the i-th broadcast's first and second message. |
| AnalyticsService.Placeholders | services/analytics/service.py:111 | The placeholder list is "" iff there are no messages. |
| AnalyticsService.PlaceholdersSplit | services/analytics/service.py:111 | Split on commas, the list is `$1`, then ` $k` for k = 2..n. |
| AnalyticsService.Params | services/analytics/service.py:112 | Key `str(k)` holds the k-th message for 1 ≤ k ≤ n. Every key is such a numeral. |
| AnalyticsService.PlaceholdersBindParams | services/analytics/service.py:111-112 | As strings: the k-th placeholder is `$k`, the parameter map's key "k" holds the k-th message, and every key has its placeholder. |
| AnalyticsService.HistoryBindings | services/analytics/service.py:105-112 | No placeholders iff no broadcasts. Keys `2i+1` and `2i+2` hold the i-th broadcast's first and second message. |
| AnalyticsService.GroupByReferences | services/analytics/service.py:127-131 | The groups are keyed by exactly the references that occur. |
| AnalyticsService.GroupsArePreviews | services/analytics/service.py:127-131 | Each group is the previews of its messages, in arrival order. |
| AnalyticsService.PreviewsAbsent | services/analytics/service.py:127-131 | A reference with no group has no messages. |
| AnalyticsService.GroupingKeepsEveryMessage | services/analytics/service.py:127-131 | Over distinct keys covering every reference, the previews number exactly the messages. |
| AnalyticsService.GroupTotal | services/analytics/service.py:127-133 | Listing every group once, the group sizes add up to the number of messages. |
| AnalyticsService.AppendPresentKeeps | services/analytics/service.py:312-321 | Appending each section only when it is non-empty equals appending the non-empty sections in their given order. |
| AnalyticsService.AssembleReport | services/analytics/service.py:310-321 | The report begins with intro, major themes and conversation metrics. It continues with the non-empty sections among lookup, ZIP, outcomes, replies and unsubscribes, in that order. |
| AnalyticsService.NonEmpty | services/analytics/service.py:312-321 | Keeping the non-empty sections yields no more sections, and none of them empty. |
| AnalyticsService.ReportSize | services/analytics/service.py:310-321 | The report has 3 sections plus one per non-empty optional section, so between 3 and 8. |
| AnalyticsService.InsertWeeklyReport | services/analytics/service.py:230-263 | The record is built iff every metric, outcome and status key is present. The replies total and the unsubscribes total each equal the sum of their five segment columns. |
| AnalyticsService.InsertedColumns | services/analytics/service.py:230-262 | Every stored column is the value of its key in its dictionary. |
| AnalyticsService.SumOfSegments | services/analytics/service.py:251-257 | `sum(d.values())` over a segment table is the sum of its five segments. |

## Left out

- SQL, the ORM session and the database: `fetch_data`, the week queries and `session.add`/`commit` (services/analytics/service.py:43-84, 137-218, 264-265; services/services.py:20, 156-166). They are I/O. The registry is a sequence, and the query results are the rows given to the functions.
- Services.Candidates: `%` and `_` in the query act as SQL wildcards, and the model does not treat them so. This covers the address in `ILIKE` at services/services.py:39 and 48. It also covers the sub-unit in `endswith`, which becomes `LIKE '%' || sunit` at services/services.py:40. The model reads the address filter as a plain ASCII case-insensitive prefix test and the sub-unit filter as a plain suffix test.
- AnalyticsService.PlaceholdersBindParams: the model does not say what the query driver does with the parameters. SQLAlchemy's `text()` recognises only `:name` bind markers. So `.bindparams(**params)` at services/analytics/service.py:123 has no `:1`, `:2`, … to bind. It raises an error as soon as there is one broadcast message. With no broadcasts the query reads `NOT IN ()`. The model states only the string-level correspondence between `$k` and the key "k".
- AnalyticsUtils.ProcessCounts: query rows are assumed to carry both the key column and `count`. The source reads both before its `if … in counts` test (services/analytics/utils.py:100-101, 121-122, 135-136), so a row missing either one raises `KeyError` even when its key is unknown. The `Row` type has no missing column, so that error path is not modelled.
- Services.IsCandidate: a NULL sub-unit in the registry never matches a non-empty sub-unit. This follows SQL's NULL semantics for `endswith`.
- `get_first_valid_normalized_address`: foreign code. Its result is the `normalized` map, and a missing key stands for a missing or `None` value.
- The owner query engine: foreign code. It is a function from an address to the printed text and the metadata.
- `templates.sms`, `get_tax_message`, `get_rental_message` and `MISSIVE_LOOKUP_TAG_ID`: foreign code. They are `Config` fields and function parameters.
- Services.FormatAddress: `str.format` is modelled only for the `{address}` field, as a plain replacement. Other fields and brace escapes are not modelled.
- Services.RemoveMarkers: `replace("UNIT", "")` is a single left-to-right pass, as in Python. The model does not state that `UNIT` cannot reappear after a removal; for example, `UNUNITIT` becomes `UNIT`.
- The MissiveAPI network calls, `time.sleep` and logging: they are trace events or are omitted. Nothing models real time or delivery failures.
- Non-ASCII whitespace and case: `isspace`, `lower`, `upper` and `capitalize` are modelled on ASCII only. Other characters are left unchanged and are not whitespace.
- AnalyticsUtils.GenerateIntroSection: the date is a parameter. `date.today().strftime` (services/analytics/utils.py:197-201) is not modelled.
- `generate_major_themes_section` is the constant `AnalyticsUtils.MajorThemesSection`. It carries no contract.
- `calculate_percentage_change` and `format_weekly_report_data`: imported at services/analytics/service.py:23-24, but not defined in utils.py, so they are not part of this model.
- The two-argument `generate_*` calls of `send_weekly_report` (services/analytics/service.py:283-308) do not match the one-argument definitions in utils.py. The sections follow utils.py, and AssembleReport takes the sections as opaque strings.
- `format_broadcast_details`, `get_weekly_broadcast_sent` and the cron jobs: I/O and date formatting.
- AnalyticsUtils.ProcessConversationMetrics: counts are integers. Python's `int(...)` conversion of a textual count and its `ValueError` are not modelled.
- AnalyticsUtils.RowText: each formatter's row is a pair of label and count. `format_metric_by_audience_segment` reads fields 1 and 2 of its rows, and field 0 is not modelled.
- AnalyticsService.InsertWeeklyReport: the segment tables are required to be keyed by exactly the five segments. Those are the dictionaries `process_audience_segment_related_data` builds, which are the only ones passed. `sum(d.values())` over other dictionaries is not modelled.
- Strings.Replace: an empty pattern is excluded by its precondition. The code only replaces `UNIT`, `#` and `{address}`.

## Findings

| source | as written | input that shows it | evidently intended | confidence | as-written member | corrected member |
|---|---|---|---|---|---|---|
| services/services.py:69-83 | `send_sms_sync(text, to_phone, conversation_id)` is a positional call. Assuming the gateway signature `send_sms_sync(text, conversation_id, to_phone, add_label_list)`, as every other call in the file spells it with keywords, the phone lands in the conversation slot. | conversation `"c-1"`, phone `"+1313"`: the no-match reply goes to conversation `"+1313"` (`Services.MisaddressedReply`) | the reply goes to the caller's conversation, as in `handle_match` and `handle_wrong_format` | medium: the parameter order `send_sms_sync(text, conversation_id, to_phone, add_label_list)` is assumed, because libs/MissiveAPI is not part of this model; not executed | Services.HandleNoMatchAsWritten, Services.HandleAmbiguousAsWritten | Services.HandleNoMatch, Services.HandleAmbiguous |
