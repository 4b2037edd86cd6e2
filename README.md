# Yale Alumni researcher — a Dafny model of the batch core

The Yale Alumni application looks up former residents of a medical
programme. `main` reads a table of alumni (first name, last name, entry
year), asks a sequential research agent about each of the first ten, and
writes one row per alumnus: the nine fields of the structured record the
agent's formatter produces plus five token totals, or an error row.
Around that loop sit the service that owns the agent runner
(`ADKService`), the helpers that build the user's message, run the agent
over its event stream and sum the token usage (`agent_utils`), the factory
that picks the root agent from the agent mode, the record schema itself,
and the social-media search tool that the research agent calls
(`search_social_media_profiles`), which queries a search engine once per
platform, keeps the links whose URL matches the platform, and writes a
Markdown report.

The model is organised as the program is:

| file | module | models |
|---|---|---|
| `wrappers.dfy` | `Wrappers` | `Option` and `Result` |
| `text.dfy` | `Text` | the Python string operations the core relies on: `lower`, `strip`, `in`, `find`, `rfind`, `str(int)`, `"\n".join` |
| `search_utils.dfy` | `SearchUtils` | `app/utils/search_utils.py` |
| `agent_utils.dfy` | `AgentUtils` | `app/utils/agent_utils.py` |
| `output_schema.dfy` | `OutputSchema` | `AlumniResearcherOutputSchema` and its validation |
| `agent_factory.dfy` | `AgentFactory` | `app/agents/agent_factory.py` |
| `adk_service.dfy` | `AdkService` | `app/services/adk_service.py`, with `ADKService` as a class |
| `batch_driver.dfy` | `BatchDriver` | the loop and column reordering of `app/main.py` |

Everything outside the program is a parameter:

- the search engine is a function from (query, max results) to the raw
  results or a raised exception;
- the agent runner is a function from (user id, session id, message) to
  the events the agent yields;
- creating a session can fail with a message;
- `json.loads` maps text to a decoded JSON value, or to nothing when it
  raises;
- the session id of each query is given by a function of the record's
  position (a fresh `uuid4` in the program).

Behaviour of the code that the model keeps as written:

- `Strip` is CPython's `str.strip()`. It skips Unicode whitespace from
  the left, then from the right of what remains.
- When the stripped response starts with `{`, `get_agent_response` hands
  the whole text to the decoder, trailing prose included
  (`AdkService.ExtractJson`). Only a text that starts
  elsewhere is cut to the span between its first `{` and its last `}`.
- In `main`, the error row of a record whose name cannot be built carries
  the name and year of the previous record
  (`BatchDriver.StaleIdentityInErrorRow`). For the very first record
  those variables are unbound, so the `except` block itself raises
  `NameError` and `main` stops (`BatchDriver.FirstRecordWithoutNameCrashes`).
- `call_root_agent_async` swallows every exception of the event stream.
  So the service's outer handler, which would return `(None, None)`, is
  unreachable from the modelled call. `AdkService.Respond` still models
  that handler (`CallRaised`), but `AgentResponse` never takes it.
- For the same reason `main`'s fallback for `token_counts is None` is dead
  code: every reply that reaches it carries counts
  (`AdkService.AgentResponse`, `BatchDriver.ParsedResponseRow`).
- Every match dictionary built by `_search_platform` has a `title` key.
  So the report's `"No title"` default is never used, and a `None`
  title prints as `None`.
- A result whose `href` is `None` makes `None.lower()` raise inside the
  search loop. The handler then returns the matches gathered so far
  (`SearchUtils.Reached`).

## Model

| member | source | states |
|---|---|---|
| Text.Lower | app/utils/search_utils.py:46-47 | lower-casing keeps the length and maps every character by the ASCII case map |
| Text.StripBounds | app/services/adk_service.py:103 | the stripped text is `s[k..n]`; everything before `k` and from `n` on is whitespace; the first and last kept characters are not whitespace |
| Text.StripUnique | app/services/adk_service.py:103 | any slice with non-space ends and only whitespace around it is the stripped text |
| Text.StripIdempotent | app/agents/agent_factory.py:21 | stripping twice equals stripping once |
| Text.StripTrimmed | app/agents/agent_factory.py:21 | a text that neither starts nor ends with whitespace is unchanged by strip |
| Text.StripKeepsNonSpace | app/services/adk_service.py:103-108 | a non-space character occurs in the stripped text exactly when it occurs in the original |
| Text.StripPadded | app/agents/agent_factory.py:21 | a word padded with whitespace on both sides strips to the word |
| Text.ContainsIff | app/utils/search_utils.py:47 | substring test `p in s` holds exactly when `p` occurs at some position of `s` |
| Text.Find | app/services/adk_service.py:108 | `find` returns -1 exactly when the character is absent, otherwise its first position |
| Text.FindFirst | app/services/adk_service.py:108 | the first occurrence of a character is what `find` returns |
| Text.RFind | app/services/adk_service.py:110 | `rfind` returns -1 exactly when the character is absent, otherwise its last position |
| Text.RFindLast | app/services/adk_service.py:110 | the last occurrence of a character is what `rfind` returns |
| Text.NatToString | app/utils/search_utils.py:156 | `str(n)` of a natural number is a non-empty string of digits |
| Text.NatToStringRoundTrip | app/utils/search_utils.py:156 | reading back the decimal digits of `str(n)` gives `n` |
| SearchUtils.ConfigOf | app/utils/search_utils.py:73-74 | looking a platform up by name gives the table entry with that name |
| SearchUtils.ConfigOfEntry | app/utils/search_utils.py:11-32 | every entry of the platform table is found again by its own name |
| SearchUtils.MatchesPlatformIff | app/utils/search_utils.py:35-47 | a URL matches a platform exactly when some pattern, lower-cased, occurs in the lower-cased URL |
| SearchUtils.NetflixCountsAsX | app/utils/search_utils.py:14 | the bare pattern `x.com` makes `https://netflix.com/title` count as an X (Twitter) link |
| SearchUtils.Reached | app/utils/search_utils.py:79-80 | the loop gets through all results before the first null `href`, and no further |
| SearchUtils.SearchPlatform | app/utils/search_utils.py:50-97 | the collected matches are the matching results before the first null `href`, in order; an exception from the search gives none; every match returned matches the platform |
| SearchUtils.MatchingIsOrderedSubsequence | app/utils/search_utils.py:79-88 | the matches are exactly the matching results, each kept whole, in their original order, none missed |
| SearchUtils.CollectedMatch | app/utils/search_utils.py:83-88 | every collected link matches the platform's patterns, whatever the search engine returns |
| SearchUtils.PlatformResults | app/utils/search_utils.py:128-136 | one entry per platform of the table |
| SearchUtils.SearchSocialMediaProfiles | app/utils/search_utils.py:100-189 | the report is the header, one section per platform and the summary, joined by newlines |
| SearchUtils.AppendSections | app/utils/search_utils.py:151-177 | the section loop appends the sections of every platform, in order |
| SearchUtils.AppendEntries | app/utils/search_utils.py:159-172 | the entry loop appends the lines of every match, numbered from 1 |
| SearchUtils.AppendSummary | app/utils/search_utils.py:180-187 | the summary is appended after the sections |
| SearchUtils.Breakdown | app/utils/search_utils.py:186-187 | one breakdown line per platform, naming it with its link count |
| SearchUtils.EntryLineForms | app/utils/search_utils.py:164-172 | an entry has a numbered title line and a URL line; it has a description line exactly when the body is non-empty |
| SearchUtils.EntriesUrls | app/utils/search_utils.py:159-172 | the URL lines of the entries are the matches' links, one each, in order |
| SearchUtils.EntriesNumbered | app/utils/search_utils.py:159-164 | the title lines of the entries are numbered 1, 2, … in the order of the matches |
| SearchUtils.SectionMarker | app/utils/search_utils.py:155-175 | a section says "No matching links found" exactly when the platform has no matches |
| SearchUtils.SectionHeading | app/utils/search_utils.py:152 | a section's lines, before joining, hold exactly one level-2 heading: the platform's |
| SearchUtils.ReportHeadings | app/utils/search_utils.py:139-189 | the level-2 heading lines of the report's lines, before joining, are the platforms in order, then Summary |
| SearchUtils.ReportSectionsInTableOrder | app/utils/search_utils.py:11-32 | the level-2 heading lines of the report's lines, before joining, are X (Twitter), LinkedIn, Doximity, Google Scholar, Facebook, Summary |
| SearchUtils.ReportUrls | app/utils/search_utils.py:139-189 | the URL lines of the report's lines, before joining, are all collected links, platform by platform, and their number is the total link count |
| SearchUtils.ReportSummary | app/utils/search_utils.py:180-187 | the report's lines, before joining, end with the total line and one breakdown line per platform |
| SearchUtils.FacebookSearchFails | app/utils/search_utils.py:94-97 | when the search for one platform raises, that platform gets no links and the others are unaffected |
| AgentUtils.ProcessUserMessage | app/utils/agent_utils.py:125-194 | the message is the user's text, then the image parts, then the voice parts |
| AgentUtils.AppendImageParts | app/utils/agent_utils.py:144-172 | the image loop appends the parts of every image, in order |
| AgentUtils.AppendVoiceParts | app/utils/agent_utils.py:175-192 | the voice loop appends the parts of every voice note, in order |
| AgentUtils.ImagePartsPaired | app/utils/agent_utils.py:144-172 | image parts come in (label, data) pairs, one pair per original image and one per mask shown |
| AgentUtils.VoicePartsPaired | app/utils/agent_utils.py:175-192 | voice parts come in (label, data) pairs, one per recording with audio |
| AgentUtils.VoiceNoteParts | app/utils/agent_utils.py:177-190 | a note with audio contributes its label and its data under `audio/<format>`, or `audio/mp4` without a format |
| AgentUtils.UserContentShape | app/utils/agent_utils.py:141-194 | a user message holds the text first and then only (label, data) pairs; without media it is the text alone |
| AgentUtils.FinalText | app/utils/agent_utils.py:59-76 | a final event whose first part holds non-empty text gives that text stripped, and every other event gives nothing |
| AgentUtils.LastSetter | app/utils/agent_utils.py:278-281 | the last event that sets the response, and no later event sets it |
| AgentUtils.LastFinalTextWins | app/utils/agent_utils.py:277-281 | the response text is that of the last event with non-empty final text; there is none exactly when no event sets it |
| AgentUtils.ModalityMapLastWins | app/utils/agent_utils.py:100-114 | the keys are the lower-cased modalities present, and each holds the count of its last item |
| AgentUtils.ModalityCounts | app/utils/agent_utils.py:102-106 | the modality loop computes the modality map |
| AgentUtils.GetTokenCounts | app/utils/agent_utils.py:78-122 | an event without usage gives the error dictionary; a `None` usage gives zero counts; otherwise the five counters and the non-empty breakdowns |
| AgentUtils.MergeInto | app/utils/agent_utils.py:265-273 | adding one event's breakdown to the running one sums the counts key by key |
| AgentUtils.AddEvent | app/utils/agent_utils.py:248-273 | one step of the event loop: an unreadable event changes nothing; a readable one is recorded and added to every total |
| AgentUtils.CallRootAgent | app/utils/agent_utils.py:197-292 | the call returns the last final text of the events and their accumulated counts |
| AgentUtils.CountersAreSums | app/utils/agent_utils.py:259-262 | each accumulated counter is the sum of that counter over the readable events, a missing count adding nothing |
| AgentUtils.ModalitiesAreSums | app/utils/agent_utils.py:264-273 | a modality has an accumulated count exactly when some readable event reports it, and the count is the sum over the events |
| AgentUtils.EventDetailsAreCountedEvents | app/utils/agent_utils.py:251-256 | the event details are those of the readable events, in order |
| AgentUtils.ReadableEvents | app/utils/agent_utils.py:251 | keeps only events whose token counts can be read |
| AgentUtils.UnreadableEventsChangeNothing | app/utils/agent_utils.py:251-273 | dropping the events whose counts cannot be read leaves the accumulated counts unchanged |
| OutputSchema.ValidateFields | app/agents/alumni_researcher_agent/subagents/formatter_agent/agent.py:9-46 | a decoded value becomes a record exactly when it is an object whose fields are all strings when present; each field is then the member's string, or "" |
| OutputSchema.BadFieldsEmpty | app/agents/alumni_researcher_agent/subagents/formatter_agent/agent.py:9-46 | no field is reported as invalid exactly when every field is absent or a string |
| OutputSchema.EmptyObjectDefaults | app/agents/alumni_researcher_agent/subagents/formatter_agent/agent.py:9-46 | the empty object gives the record whose nine fields are all "" |
| OutputSchema.RoundTrip | app/agents/alumni_researcher_agent/subagents/formatter_agent/agent.py:9-46 | validating the JSON object of a record gives back that record |
| OutputSchema.ExtraMembersIgnored | app/agents/alumni_researcher_agent/subagents/formatter_agent/agent.py:9-46 | members that are not fields do not change the outcome |
| AgentFactory.GetRootAgent | app/agents/agent_factory.py:7-30 | accepts exactly the modes that normalise to `alumni_researcher`; `email_finder` is not implemented; any other mode is refused with a message quoting it as given |
| AgentFactory.NormalizeIdempotent | app/agents/agent_factory.py:21 | normalising twice equals normalising once, so a mode and its normal form are accepted alike |
| AgentFactory.StripOfLower | app/agents/agent_factory.py:21 | stripping a lower-case string keeps it lower case |
| AgentFactory.PaddedModeAccepted | app/agents/agent_factory.py:21-24 | `"  Alumni_Researcher "` selects the alumni researcher |
| AgentFactory.RefusedModeQuotedAsGiven | app/agents/agent_factory.py:27-30 | `" Chat "` is refused, and the message quotes it with its padding and capitals |
| AdkService.Take | app/services/adk_service.py:116 | `s[:n]`: the first `n` characters of `s`, or all of `s` when it is shorter |
| AdkService.ExtractJson | app/services/adk_service.py:102-116 | when the stripped response starts with `{`, the whole stripped response is handed over; otherwise a success is the slice of the stripped response from its first `{` through its last `}`; every extracted text starts with `{`, and one cut from prose also ends with `}` |
| AdkService.ExtractJsonFailures | app/services/adk_service.py:106-116 | a response is refused for lacking `{` exactly when it has none, and for lacking an end exactly when no `}` follows its first `{` |
| AdkService.ExtractBracedAfterProse | app/services/adk_service.py:106-112 | prose before a braced object and text without `}` after it are cut away |
| AdkService.ExtractBracedAlone | app/services/adk_service.py:103-106 | a braced object with only whitespace around it is extracted as it is |
| AdkService.LeadingBraceKeepsTrailingText | app/services/adk_service.py:103-106 | an object after only whitespace, followed by a suffix that ends in a non-space, reaches the decoder with that suffix |
| AdkService.ExtractIdempotent | app/services/adk_service.py:102-116 | extracting from an extracted text gives it back unchanged |
| AdkService.Respond | app/services/adk_service.py:86-147 | once the call returned, every outcome keeps its token counts, and only an exception from the call loses them; a missing or empty text gives NoResponseText; a text is NotJson exactly when extraction fails, with its reason; a decode that raises gives DecodeFailed; a schema failure gives SchemaFailed with its error; a record comes back exactly when it was parsed, and it is the validated decode of the extracted text |
| AdkService.EmptyTextNotParsed | app/services/adk_service.py:95-97 | a missing or empty response text gives no record and keeps the counts |
| AdkService.NoBraceRefused | app/services/adk_service.py:115-116 | a text without `{` is refused before decoding, quoting the first 100 characters of the stripped text |
| AdkService.ParsedWhenValid | app/services/adk_service.py:119-127 | an extracted text that decodes and validates gives its record and the counts |
| AdkService.RecordAfterProseRecovered | app/services/adk_service.py:102-127 | a record written as JSON after some prose comes back whole |
| AdkService.AgentResponse | app/services/adk_service.py:52-147 | an uninitialised service raises; a reply always carries token counts |
| AdkService.AgentAnswerRecovered | app/services/adk_service.py:75-127 | when the last final text of the run is a record after prose, the caller gets the record and the counts summed over the run |
| AdkService.ADKService.constructor | app/services/adk_service.py:17-38 | keeps the user id and agent mode; no runner yet |
| AdkService.ADKService.Initialize | app/services/adk_service.py:40-48 | an accepted mode sets the runner to its root agent under the app name; a refused mode raises and changes nothing |
| AdkService.ADKService.GetAgentResponse | app/services/adk_service.py:52-147 | the reply for the service's current state, computed by `AgentResponse` |
| BatchDriver.Fail | app/main.py:88-95 | the `except` block: with a known name and year it appends one error row and keeps everything else; otherwise `main` stops |
| BatchDriver.RowStep | app/main.py:37-95 | a record appends exactly one row, full or error; a record with both names and a year never stops `main` |
| BatchDriver.FullRowShaped | app/main.py:62-87 | a full row has the name, year, nine record columns and five token columns, in that order |
| BatchDriver.StaleIdentityInErrorRow | app/main.py:38-94 | a record whose name cannot be built gets an error row with the previous record's name and year |
| BatchDriver.NoneResponseErrorRow | app/main.py:48-94 | a reply without a record gives an error row saying the agent returned None |
| BatchDriver.ParsedResponseRow | app/main.py:44-87 | a parsed reply gives a full row with the record's fields and the reply's token totals |
| BatchDriver.ProcessRecord | app/main.py:37-95 | one pass of the loop body computes `RowStep` with the service's responder |
| BatchDriver.OneRowPerRecord | app/main.py:35-95 | a finished loop has one row per record, each full or an error row |
| BatchDriver.NoCrashAfterGoodFirstRecord | app/main.py:35-95 | once the first record has both names and a year, the loop always finishes |
| BatchDriver.CrashPersists | app/main.py:88-95 | after `main` stops, later records change nothing |
| BatchDriver.FirstRecordWithoutNameCrashes | app/main.py:38-89 | a first record whose name cannot be built stops `main` with `alumni_name` unbound |
| BatchDriver.ColumnsOfRows | app/main.py:98 | the table's columns are distinct and are exactly the keys of its rows |
| BatchDriver.ColumnOrderPermutes | app/main.py:101-106 | reordering keeps every column once and adds none, other columns first and token columns last |
| BatchDriver.SplitCounts | app/main.py:103-105 | the columns outside and inside a list split the columns, and each holds exactly the columns such membership asks for |
| BatchDriver.MainModeAccepted | app/main.py:17-22 | `main`'s agent mode selects the alumni researcher |
| BatchDriver.BatchOutcome | app/main.py:16-106 | `main` never fails to initialise; it finishes when the first record is well formed; it then has one well-shaped row per record among the first ten, and its columns are those of the rows, each once |
| BatchDriver.RunBatch | app/main.py:16-106 | `main` computes `Batch`: the rows of the first ten records and the reordered columns, or the point where it stops |

## Left out

- Logging, `display_system_message`, timing, the progress bar and the
  debug logging loop of `process_agent_message`: they do not affect the
  results.
- `async` execution: each call is modelled as completing in order.
- The session store: the database/in-memory fallback in `__init__`,
  `initial_state`, and the store's contents. Creating a session is a
  parameter that may fail with a message.
- `uuid.uuid4()`: session ids are given per record.
- Building `DDGS()` and the network search: the search engine is a
  parameter. An exception raised partway through the result generator is
  modelled only at a null `href`.
- The search engine's respect of `max_results`: it is passed on and not
  checked.
- `json.loads` and the JSON grammar: decoding is an abstract parameter.
  Only the decoded value is modelled.
- Reading and writing CSV files with pandas, dtype inference (such as a
  year read as `2015.0`), the NaN fill of missing cells in the saved
  table, and `to_csv`. `Columns` models the column order of
  `pd.DataFrame(update_data)`.
- The wording of exceptions raised by pandas, numpy or Python beyond the
  message text modelled. `NameError` is modelled by the name of the
  unbound variable alone.
- Text.Lower: ASCII-only, because Unicode case mapping is not modelled.
- AgentUtils.GetTokenCounts: a `None` token count inside a modality
  breakdown is not modelled (counts are integers). The handler for a
  non-`AttributeError` exception (`Unexpected error`) is not modelled,
  because no modelled input reaches it.
- AgentUtils.ModalityMapLastWins: the key order of the breakdown
  dictionaries is not modelled (maps are unordered).
- AgentUtils.ProcessUserMessage: the image and voice types are records
  with the fields the code reads; the exception path of
  `process_user_message` is not modelled.
- The prompts, the sub-agents' behaviour, `tools.py` and `callbacks.py` of
  the social media agent. The agent runner is a parameter.
- SearchUtils.ReportHeadings, SearchUtils.ReportUrls: line breaks inside a
  search result's title, link or body are not accounted for. The report's
  properties are proved on its list of lines before `"\n".join`, so a
  field holding a newline would add lines to the returned string that
  those lemmas do not account for.
- AgentUtils.CallRootAgent: an event without an `id` or `author`
  attribute is not modelled. ADK events always carry both, so the model
  takes them as plain strings. With such an event the program's debug
  log line would raise and end the event loop; the model does not
  capture that stop, nor `getattr`'s `'unknown'` default.
