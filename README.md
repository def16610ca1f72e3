# IP Whisperer Bot — a verified model of its core

IP Whisperer is a Telegram bot that registers creative works as IP assets and keeps
them under watch. It searches Google and Twitter for content similar to each asset.
Matches accumulate as pending violations. When the owner asks, it drafts a takedown
message in one of three tones, opens a dispute and sends an alert.

This project models the deterministic core of that system in Dafny and proves
what the code promises about it:

- `Domain` (`domain.dfy`): the values shared across the system. These are the search
  candidates, the matches, the IP metadata, the license kinds and a monitored asset
  with its pending violations.
- `JsText` (`jstext.dfy`): the JavaScript string operations the core relies on.
  These are `split` on one character, `join`, `trim` with JavaScript's whitespace
  set, a case-insensitive comparison with a lower-case word, and `length`/`substring`
  counted in UTF-16 code units.
- `Similarity` (`similarity.dfy`): the cosine accumulation over the union of two
  term vectors, with the zero-magnitude guard.
- `Scanner` (`scanner.dfy`): the scanner service. It covers the search queries, the
  similarity filter with its best-first ordering, the per-source cache, the
  credential check, fetching and error swallowing, and the merge of the settled
  sources.
- `Enforcement` (`enforcement.dfy`): the enforcement agent. It covers tone selection
  in the prompt, the two templates, the ABV → OpenAI → template fallback chain, and
  the defaults and gating of `enforce`. It also covers the alert, whose failures
  are swallowed, and the generation of all three tones.
- `Orchestrator` (`orchestrator.dfy`): the agent orchestrator. It holds the monitoring
  registry, an insertion-ordered map kept as a sequence of ids plus a map. Its
  operations are `protectIP`, the scheduled scan tick, the status and
  pending-violation queries, the clearing of pending violations, and
  `handleEnforcement`.
- `Bot` (`bot.dfy`): the Telegram front end. It covers the per-user registration
  dialogue (a step and a draft per user) and the parsing of its answers. It also
  covers the callback data of the enforce buttons, both as the code parses it and
  as it was meant to be parsed, and the enforce command and action.

The model works as follows:

- External services are parameters of the operations that call them. These are the
  search APIs, the LLM completions, the Story Protocol registration and dispute
  calls, the alert webhook, the TF-IDF similarity score, `Math.sqrt` and
  percentage formatting. Each oracle returns a value or a failure.
- The scanner, the orchestrator and the bot are classes whose methods update their
  fields, as in the source.
- Three defects are listed under "## Findings". Each is modelled twice: once as
  written, with a lemma that exhibits the defect, and once as evidently intended.
  The rest of the model uses the intended definitions. "## Left out" names each
  operation this affects and the inputs on which it differs from the code.
- Every method is specified by functions of its inputs and of the old state. The
  properties of those functions are proved as lemmas.

## Model

| member | source | states |
|---|---|---|
| Domain.PendingOf | src/orchestrator.js:204 | an asset's pending list, empty when the asset has none yet |
| Domain.Take | src/orchestrator.js:92 | `slice(0, 3)`: the first min(n, length) elements, a prefix of the list |
| JsText.JsLength | src/modules/scanner.js:277 | `length` counts UTF-16 code units: at least the character count, zero exactly for the empty string |
| JsText.JsPrefix | src/modules/scanner.js:33 | `substring(0, 50)`: a prefix of at most 50 code units that is the whole string or cannot take its next character without going over; a surrogate pair the limit would cut is dropped whole |
| JsText.Split | src/bot.js:133 | `split(',')`: at least one piece, and no piece contains the separator |
| JsText.SplitAppend | src/bot.js:133 | splitting at a separator between two strings splits each of them separately, in order |
| JsText.Join | src/modules/scanner.js:279 | `join`: no parts give the empty string; otherwise the result starts with the first part |
| JsText.JoinAppend | src/modules/scanner.js:279 | joining one more part appends the separator and that part, so the parts appear in order with the separator between neighbours |
| JsText.JoinSplit | src/modules/scanner.js:274-279 | joining the pieces of a split with the separator gives back the original string |
| JsText.PartInJoin | src/modules/scanner.js:279 | every joined term occurs in the joined string |
| JsText.Trim | src/bot.js:133 | `trim()`: the result is a contiguous part of the input, and neither end of a non-empty result is JavaScript whitespace |
| JsText.SkipLeading | src/bot.js:133 | the index of the first non-whitespace character at or after a position |
| JsText.SkipTrailing | src/bot.js:133 | the index just past the last non-whitespace character before a position |
| JsText.LowerEquals | src/bot.js:124 | no contract of its own: `text.toLowerCase() === word` for a lower-case ASCII word; JsText.SkipSpellings states what it accepts |
| JsText.SkipSpellings | src/bot.js:124 | an answer matches "skip" iff it has exactly four characters, each letter of "skip" in either case, with the Kelvin sign also accepted for the "k" |
| Similarity.Weight | src/modules/scanner.js:231-232 | `vec[term] \|\| 0`: a missing term weighs 0 |
| Similarity.SumPick | src/modules/scanner.js:230-237 | the accumulation over a set of terms can take any term first |
| Similarity.SumExtraZeros | src/modules/scanner.js:224 | terms that contribute 0 do not change the sum, so iterating the union or the intersection gives the same dot product |
| Similarity.SumNonNegative | src/modules/scanner.js:235-236 | a sum of squares is non-negative; it is zero iff every term is zero, and positive iff some term is |
| Similarity.SameSignProduct | src/modules/scanner.js:241 | the product of two positive roots is positive, so the final division is defined |
| Similarity.MagnitudeZeroIff | src/modules/scanner.js:239 | a squared magnitude is 0 exactly when every weight is 0, so an empty vector has magnitude 0 |
| Similarity.AccumulateStep | src/modules/scanner.js:234 | one iteration adds the term's product to the dot product |
| Similarity.UnionSums | src/modules/scanner.js:224-237 | over the union of the keys, the dot product equals the sum over shared terms, and the magnitudes are the vectors' own |
| Similarity.CosineSimilarity | src/modules/scanner.js:223-242 | 0 when either squared magnitude is 0; otherwise the dot product over shared terms divided by the product of the roots of the magnitudes |
| Scanner.GoogleQuery | src/modules/scanner.js:33 | the query is the quoted name, a space, then the description's first 50 code units |
| Scanner.LongTerms | src/modules/scanner.js:274-277 | every kept term is longer than 2 code units, and no more terms come out than went in |
| Scanner.LongTermsAppend | src/modules/scanner.js:274-277 | the filter distributes over concatenation, so the kept terms keep their order and multiplicity |
| Scanner.LongTermsMembers | src/modules/scanner.js:277 | a term is kept iff it is one of the given terms and longer than 2 code units |
| Scanner.QueryTerms | src/modules/scanner.js:274-279 | the first min(5, n) of the n long terms of the name's words followed by the keywords, in that order; each is longer than 2 code units and comes from the name or the keywords |
| Scanner.BuildSearchQuery | src/modules/scanner.js:273-280 | the query is empty exactly when no term is chosen; one term is the query itself; with more, the query is the join of all but the last, " OR ", then the last term |
| Scanner.QueryMentionsTerms | src/modules/scanner.js:273-280 | every chosen term occurs in the built query |
| Scanner.EmptyQueryWithoutLongTerms | src/modules/scanner.js:273-280 | with no term longer than 2 code units the query is empty, and the description never contributes |
| Scanner.NoLongTerms | src/modules/scanner.js:277 | the filter keeps nothing when every term is short |
| Scanner.KeysNeverCollide | src/modules/scanner.js:36 | a Google cache key (google:&lt;query&gt;) never equals a Twitter cache key (twitter:&lt;query&gt;, line 119) |
| Scanner.Passing | src/modules/scanner.js:253-264 | the pass collects at most one match per candidate |
| Scanner.PassingAppend | src/modules/scanner.js:253-264 | the pass distributes over concatenation of the results, so the matches keep the candidates' order and a repeated candidate gives a repeated match |
| Scanner.PassingSingle | src/modules/scanner.js:256-262 | one candidate gives its match, with its score and `matched: true`, exactly when the score reaches the threshold |
| Scanner.PassingMembers | src/modules/scanner.js:253-264 | a match is collected iff its candidate is in the results, it is marked matched, and its score is the candidate's similarity and reaches the threshold |
| Scanner.InsertDesc | src/modules/scanner.js:267 | inserting into the sorted list adds exactly one element and keeps the multiset |
| Scanner.InsertDescSorted | src/modules/scanner.js:267 | insertion keeps the list in non-increasing similarity |
| Scanner.SortDesc | src/modules/scanner.js:267 | the sort is a permutation with non-increasing similarity |
| Scanner.WithScore | src/modules/scanner.js:267 | the matches with one similarity, in list order: every one has that similarity |
| Scanner.WithScoreAppend | src/modules/scanner.js:267 | selecting one similarity distributes over concatenation |
| Scanner.WithScoreNone | src/modules/scanner.js:267 | a list whose matches are all less similar has none with that similarity |
| Scanner.InsertDescStable | src/modules/scanner.js:267 | insertion into a best-first list puts the new match after every match with its similarity |
| Scanner.InsertFrontStable | src/modules/scanner.js:267 | a match more similar than the head goes in front, before every match of its own similarity |
| Scanner.SortDescStable | src/modules/scanner.js:267 | the sort is stable: the matches of each similarity keep their relative order |
| Scanner.SortedPassingQualified | src/modules/scanner.js:257-267 | the sorted passing list is ordered best-first and every entry is a matched, over-threshold match |
| Scanner.MergeSettled | src/modules/scanner.js:308-310 | when every source is rejected there are no matches |
| Scanner.MergeSettledAppend | src/modules/scanner.js:308-310 | merging distributes over concatenation of the settled list |
| Scanner.MergeSettledFulfilled | src/modules/scanner.js:297-310 | with every source fulfilled, the merge is the concatenation of their results in order |
| Scanner.MergeSettledMembers | src/modules/scanner.js:308-310 | a match is merged iff some fulfilled source returned it; a rejected source contributes nothing |
| Scanner.FetchTwitterResults | src/modules/scanner.js:157-190 | the body's data when present; [] for a missing data field, a 429 or any other error |
| Scanner.ScannerService.constructor | src/modules/scanner.js:14-17 | starts with an empty cache |
| Scanner.ScannerService.FilterBySimilarity | src/modules/scanner.js:247-268 | exactly the candidates whose similarity to "name description" reaches the threshold, marked matched, in non-increasing similarity |
| Scanner.ScannerService.ScanGoogle | src/modules/scanner.js:24-66 | cache hit first; without credentials [] with the cache unchanged; a failed fetch gives [] and caches nothing; otherwise the filtered list, cached under google:&lt;query&gt; |
| Scanner.ScannerService.ScanTwitter | src/modules/scanner.js:107-148 | cache hit first; without a token [] with the cache unchanged; otherwise the filtered fetch result (an empty list after an API error) is cached under twitter:&lt;query&gt; |
| Scanner.ScannerService.ScanAll | src/modules/scanner.js:293-315 | the Google result, followed by the Twitter result only when a token is configured; every entry qualifies; the cache afterwards is what the Google scan leaves, then what the Twitter scan leaves when it runs |
| Scanner.ScannerService.ExpireEntry | src/modules/scanner.js:57 | the expiry timer's delete (also at line 140) removes exactly that key and nothing else |
| Enforcement.ToneInstruction | src/modules/enforcement.js:113-122 | no contract of its own: the `switch`; Enforcement.ToneChoice states the selection |
| Enforcement.ToneChoice | src/modules/enforcement.js:113-122 | the Gen-Z instruction iff the tone is "vibe", the legalistic one iff "formal", the friendly one for every other tone |
| Enforcement.SegmentInRender | src/modules/enforcement.js:124-152 | every piece of a rendered template occurs in the result |
| Enforcement.ValueInRender | src/modules/enforcement.js:124-152 | every interpolated value occurs in the rendered text |
| Enforcement.PromptValue | src/modules/enforcement.js:124-152 | each interpolated value of the prompt occurs in the prompt |
| Enforcement.BuildPrompt | src/modules/enforcement.js:110-152 | no contract of its own: the prompt template; the Prompt lemmas state what it contains |
| Enforcement.PromptNamesAsset | src/modules/enforcement.js:124-152 | the prompt contains the asset name, description and ipId |
| Enforcement.PromptNamesViolation | src/modules/enforcement.js:124-152 | the prompt contains the platform, the URL and the claim and explorer links built from the ipId |
| Enforcement.PromptCarriesTone | src/modules/enforcement.js:113-125 | the prompt contains the instruction selected for the tone |
| Enforcement.TemplateMessage | src/modules/enforcement.js:158-199 | no contract of its own: the template choice; the template lemmas state what each contains |
| Enforcement.RepositoryVibeOpening | src/modules/enforcement.js:161 | with the repository's wording, the casual template opens with "yo!" |
| Enforcement.RepositoryFormalOpening | src/modules/enforcement.js:178 | with the repository's wording, every other tone's template opens with "Dear Content Creator," |
| Enforcement.VibeValue | src/modules/enforcement.js:159-174 | each interpolated value of the vibe template occurs in it |
| Enforcement.FormalValue | src/modules/enforcement.js:177-199 | each interpolated value of the formal template occurs in it |
| Enforcement.VibeTemplateContents | src/modules/enforcement.js:159-174 | the vibe template contains the violation URL, the ipId and both links |
| Enforcement.VibeIgnoresMetadata | src/modules/enforcement.js:159-174 | the vibe template depends only on the ipId, not on the asset's name or description |
| Enforcement.FormalForOtherTones | src/modules/enforcement.js:158-199 | every tone other than "vibe" gets the formal template |
| Enforcement.FormalTemplateContents | src/modules/enforcement.js:177-199 | the formal template contains the asset name, the ipId, the violation URL and both links |
| Enforcement.GenerateEnforcementMessage | src/modules/enforcement.js:46-104 | no contract of its own: the fallback chain; MessageFallbackOrder and GeneratedMessageTrimmed state it |
| Enforcement.MessageFallbackOrder | src/modules/enforcement.js:46-104 | an answering ABV decides the message; otherwise OpenAI does; when neither answers, the template is used |
| Enforcement.GeneratedMessageTrimmed | src/modules/enforcement.js:68-96 | a model's reply is used trimmed |
| Enforcement.AlertText | src/modules/enforcement.js:271 | no contract of its own: the alert text, "N/A" for a falsy dispute id |
| Enforcement.SendAlert | src/modules/enforcement.js:268-295 | no webhook: nothing is sent; otherwise the alert is posted, and a failed post is swallowed |
| Enforcement.Screenshot | src/modules/enforcement.js:229 | the image URL when truthy, else a non-empty placeholder |
| Enforcement.Enforce | src/modules/enforcement.js:209-263 | defaults friendly/true/true; a dispute only with autoDispute, whose failure fails the action with no alert; an alert only with notification and a webhook; the dispute id and hash come from the dispute, absent without one |
| Enforcement.GenerateAllTones | src/modules/enforcement.js:300-309 | exactly the keys friendly, formal and vibe, each with the message generated for that tone |
| Orchestrator.Absorb | src/orchestrator.js:154-166 | a tick appends the found matches to the pending list (created if absent), changes nothing else, and leaves the asset as it was on a failure or an empty result |
| Orchestrator.InOrder | src/orchestrator.js:192 | `Array.from(values())`: one asset per id, in insertion order |
| Orchestrator.InOrderMembers | src/orchestrator.js:192 | the listed assets are exactly those stored under the ordered ids |
| Orchestrator.StatusMembers | src/orchestrator.js:192-206 | the status lines are exactly those of the selected assets; a falsy user id selects all of them |
| Orchestrator.StatusesDistinct | src/orchestrator.js:192-206 | assets with distinct ids give status lines with distinct ids |
| Orchestrator.StatusesAvoid | src/orchestrator.js:192-206 | an id that no asset carries appears on no status line |
| Orchestrator.PendingFor | src/orchestrator.js:213-228 | every collected entry has a non-empty violation list |
| Orchestrator.PendingForAppend | src/orchestrator.js:213-228 | collection distributes over concatenation, so the registry's order is kept |
| Orchestrator.PendingForStep | src/orchestrator.js:213-228 | one more asset adds its entry exactly when it is the user's and has pending violations |
| Orchestrator.PendingForMembers | src/orchestrator.js:213-228 | an entry is collected iff its asset belongs to the user and has pending violations |
| Orchestrator.HandledMessageAsWritten | src/orchestrator.js:125-131 | no contract of its own: the reply message as the spread leaves it; SpreadDropsDisputeId exhibits the loss |
| Orchestrator.SpreadDropsDisputeId | src/orchestrator.js:125-131 | as written, a successful enforcement's dispute id does not reach the reply message |
| Orchestrator.HandledMessage | src/orchestrator.js:125-131 | the composed success message carries the generated message and the dispute id; a failure gives the failure text |
| Orchestrator.AgentOrchestrator.constructor | src/orchestrator.js:14-18 | an empty registry and no scan job |
| Orchestrator.AgentOrchestrator.ProtectIP | src/orchestrator.js:46-103 | a rejected or failing registration leaves the registry unchanged; otherwise the asset is stored under the new id with the caller's user id (position kept on overwrite), and the reply carries the scan's match count and at most its first 3 results, or the scan's error |
| Orchestrator.AgentOrchestrator.ScanTick | src/orchestrator.js:149-173 | every asset absorbs its own scan outcome; ids, order and the job are unchanged |
| Orchestrator.AgentOrchestrator.StartBackgroundScanning | src/orchestrator.js:145-176 | a scan job is running and the registry is unchanged |
| Orchestrator.AgentOrchestrator.StopBackgroundScanning | src/orchestrator.js:181-186 | a started job is stopped, no job stays no job, and the registry is unchanged |
| Orchestrator.AgentOrchestrator.GetMonitoringStatus | src/orchestrator.js:191-207 | the lines are exactly the selected assets' lines, no asset twice, with total equal to their number and to the registry's size for a falsy user id |
| Orchestrator.AgentOrchestrator.GetPendingViolations | src/orchestrator.js:212-231 | in insertion order, one entry for each of the user's assets with non-empty pending violations, and nothing else |
| Orchestrator.AgentOrchestrator.ClearPendingViolations | src/orchestrator.js:236-241 | a known asset's pending list becomes empty and nothing else changes; an unknown id is a no-op |
| Orchestrator.AgentOrchestrator.HandleEnforcement | src/orchestrator.js:112-140 | an unknown id fails without calling enforcement; otherwise the enforce outcome, with success iff enforcement succeeded |
| Bot.NextStep | src/bot.js:99-167 | every step before confirmation moves exactly one step on |
| Bot.MediaAnswer | src/bot.js:123-127 | a case-insensitive "skip" leaves the URL unset; anything else is stored verbatim |
| Bot.KeepTrimmed | src/bot.js:133 | no kept tag is empty |
| Bot.ParseTags | src/bot.js:131-137 | "skip" gives no tags; no tag is ever empty |
| Bot.TrimKeepsOut | src/bot.js:133 | trimming cannot introduce a character |
| Bot.KeepTrimmedMembers | src/bot.js:133 | the kept tags are exactly the non-empty trimmed pieces |
| Bot.KeepTrimmedAppend | src/bot.js:133 | trimming and filtering distribute over concatenation, so the tags keep the pieces' order and multiplicity |
| Bot.KeepTrimmedSingle | src/bot.js:133 | one piece gives its trimmed self, or nothing when that is empty |
| Bot.TagsOfAnswer | src/bot.js:131-137 | the tags are the non-empty trimmed comma-separated pieces, none with a comma or surrounding whitespace |
| Bot.TagsOfJoinedAnswers | src/bot.js:131-137 | the tags of two answers joined by a comma are the first answer's tags followed by the second's |
| Bot.ParseLicense | src/bot.js:142-148 | "2", "3" and "4" choose Non-Commercial, No-Derivatives and Custom; everything else gives Commercial |
| Bot.LicenseAsWritten | src/bot.js:142-148 | the object lookup as written answers with an inherited member exactly for Object.prototype's keys, and agrees with the menu otherwise |
| Bot.InheritedKeyEscapesFallback | src/bot.js:148 | the answer "constructor" escapes the Commercial fallback |
| Bot.Respond | src/bot.js:96-216 | each step before confirmation stores its answer and advances one step, keeping the draft well formed; at confirmation "confirm" registers the draft, "cancel" cancels, and anything else reprompts |
| Bot.Run | src/bot.js:96-167 | a run of answers keeps the session well formed |
| Bot.DialogueOpening | src/bot.js:99-121 | the first four answers are stored verbatim as name, description, category and creator |
| Bot.DialogueClosing | src/bot.js:123-167 | the media, tags and license answers are parsed, and the dialogue reaches confirmation |
| Bot.Dialogue | src/bot.js:22-167 | seven answers from a fresh session reach confirmation with the IP data the answers denote |
| Bot.BuildCallback | src/bot.js:70-72 | no contract of its own: `enforce_<tone>_<ipId>`; RoundTrip and ParsedIsBuilt state its inverse |
| Bot.WordEnd | src/bot.js:77 | the end of the run of `\w` characters |
| Bot.LineEnd | src/bot.js:77 | the end of the run of characters `.` matches |
| Bot.LastSplit | src/bot.js:77 | the last underscore where the greedy `\w+` can give back and `.+` can still match |
| Bot.MatchFromStart | src/bot.js:77 | the regex matched at the start splits at the last possible underscore |
| Bot.ParseCallbackAsWritten | src/bot.js:77-79 | no contract of its own: the leftmost match of the greedy pattern; MatchFromStart, RoundTripAsWritten and MockIdMisparsed state what it returns |
| Bot.RoundTripAsWritten | src/bot.js:70-79 | the regex recovers tone and id when the id has no underscore and no line terminator |
| Bot.MockIdMisparsed | src/bot.js:77-79 | a mock id 0xMOCK_IP_&lt;ts&gt; is split at its last underscore, so the id read back is only the timestamp |
| Bot.FirstUnderscore | src/bot.js:70-72 | the position of the first underscore |
| Bot.ParseCallback | src/bot.js:77-79 | no contract of its own: the split at the first underscore after the prefix; RoundTrip and ParsedIsBuilt state that it inverts BuildCallback |
| Bot.RoundTrip | src/bot.js:70-72 | the corrected parse recovers (tone, id) for every tone without an underscore and every non-empty id |
| Bot.ParsedIsBuilt | src/bot.js:70-79 | whatever the corrected parse accepts is exactly the data built from the parsed tone and id |
| Bot.FindItem | src/bot.js:84 | `find`: the first entry with that id, or none exists |
| Bot.IPWhispererBot.constructor | src/bot.js:11-15 | no sessions, over the given orchestrator |
| Bot.IPWhispererBot.Protect | src/bot.js:22-26 | the user's session is reset to the name step with an empty draft, replacing any session in progress |
| Bot.IPWhispererBot.OnText | src/bot.js:91-217 | no session: the help reply and nothing changes; otherwise the transition of Respond; a confirmation ends the session and registers through protectIP, with protectIP's registry update, order and reply, and the scan job untouched |
| Bot.IPWhispererBot.OnEnforceCommand | src/bot.js:59-75 | nothing to enforce without pending entries; otherwise the first entry's name and the three callbacks for its id |
| Bot.IPWhispererBot.OnEnforceAction | src/bot.js:77-89 | an unparsable callback does nothing and sends no alert, and an id not among the user's entries gives "Not found"; otherwise the first violation is enforced with the tone and autoDispute on, success clears the pending list, and the registry order and scan job are unchanged |

## Left out

- The TF-IDF weights of the `natural` library (`calculateSimilarity`, `getTermVector`) are a foreign library with floating point. The score is an oracle returning a `real`, so the similarity thresholds of the repository's tests are not stated.
- Similarity.CosineSimilarity: `Math.sqrt` is an oracle assumed positive on positive input, and arithmetic is exact real arithmetic, not IEEE doubles.
- Percentage formatting with `toFixed` is a parameter (`formatPercent`).
- HTTP calls through axios and the vendors' response shapes are left out. A Google search is an oracle returning candidates or a failure. A Twitter search returns a body, an HTTP error or a network error.
- `setTimeout` cache expiry is the explicit `ExpireEntry` operation. The `node-cron` schedule is the `ScanTick` method, run whenever a tick fires. `Promise.allSettled` is the sequential Google-then-Twitter scan in `ScanAll`.
- Orchestrator.AgentOrchestrator.ScanTick: the tick's per-asset scan is an oracle on the asset, so the interplay between a tick and the scanner's cache is not modelled. An exception in one asset's scan is a `Failed` outcome that leaves that asset unchanged.
- Orchestrator.AgentOrchestrator.StartBackgroundScanning: the cron job is only a state (`Running`/`Stopped`). A second start leaves the first job running in the source, and the model does not capture that leak.
- Interleaving of concurrent ticks and bot handlers across `await` points is not modelled. Each operation runs to completion.
- `getMockResults` depends on `Math.random` and `Date.now` and only serves demos. `scanTikTok` always returns `[]`.
- Registration and dispute creation on Story Protocol, IPFS upload and hashing are oracles. src/modules/storyProtocol.js is not part of this model beyond the shape of its mock ids.
- Logging, the IPFS helper, tracing instrumentation, configuration loading and the scripts are plumbing and are not modelled. The thresholds and credentials become parameters.
- Telegram transport, Markdown rendering, the `/start`, `/status` and `/alerts` texts, the success text of protectIP and the process signal handlers are left out. A reply is named by what it reports.
- Timestamps (`registeredAt`, `timestamp`) are not modelled.
- The Slack `blocks` of the alert are not modelled. Only its text is.
- JsText.LowerEquals: `toLowerCase() === word` is modelled for the lower-case ASCII words the handlers compare with. Only the characters whose lower case is an ASCII letter fold: A–Z and the Kelvin sign. Lone surrogates are not distinguished from other characters.
- Enforcement.TemplateMessage: the lemmas hold for every wording of the fixed text. `FixedText` holds the repository's own wording.
- Orchestrator.AgentOrchestrator.GetMonitoringStatus: the contract states the lines, their count and that no asset is listed twice, but not their order, which follows the registry's insertion order by construction.
- JsText.JsPrefix: when the 50th code unit is the first half of a surrogate pair, `substring` keeps that lone high surrogate. A Dafny string cannot hold one, so the model drops the whole pair and the Google query is one code unit shorter there.
- Similarity.Weight: `vec[term] || 0` also finds Object.prototype's members. A term such as "constructor" that is absent from the vector reads a function, and the arithmetic then gives NaN. The model weighs every absent term 0.
- Similarity.CosineSimilarity: for the same reason a term named like an Object.prototype member makes the source's score NaN, and no candidate with it passes the threshold. The model scores such a term as absent.
- Bot.KeepTrimmedMembers: states membership only. Order and multiplicity are stated by Bot.KeepTrimmedAppend and Bot.KeepTrimmedSingle.
- Bot.TagsOfAnswer: states membership and the shape of each tag. The order is stated by Bot.TagsOfJoinedAnswers.
- Bot.ParseTags: its own contract covers "skip" and non-empty tags. Bot.TagsOfAnswer and Bot.TagsOfJoinedAnswers state the tags and their order.
- Bot.Respond: runs the corrected Bot.ParseLicense. As written, the answers "constructor", "toString", "__proto__" and the other Object.prototype keys store an inherited member as the license; here they store Commercial.
- Bot.DialogueClosing: uses the corrected Bot.ParseLicense, so it differs from the code for the Object.prototype keys as the license answer.
- Bot.Dialogue: uses the corrected Bot.ParseLicense, so it differs from the code when the seventh answer is an Object.prototype key.
- Bot.IPWhispererBot.OnText: runs Bot.Respond, so it registers Commercial where the code would store an inherited member for an Object.prototype key.
- Bot.IPWhispererBot.OnEnforceAction: runs the corrected Bot.ParseCallback and Orchestrator.HandledMessage. Its results differ from the code in two cases. For an id with an underscore, such as a mock id, it enforces the asset where the code answers "Not found". For every successful enforcement, it replies with the composed summary where the code replies with the bare generated message.
- Orchestrator.AgentOrchestrator.HandleEnforcement: returns the corrected Orchestrator.HandledMessage. On every successful enforcement the code's reply is the bare generated message (Orchestrator.HandledMessageAsWritten) and not the summary.
- `initialize` (the orchestrator's start-up log and schedule) is not modelled beyond `StartBackgroundScanning`.

## Findings

| source | as written | input that shows it | evidently intended | confidence | as-written member | corrected member |
|---|---|---|---|---|---|---|
| src/bot.js:77-79 | the action pattern `enforce_(\w+)_(.+)` is greedy, so `\w+` runs to the last underscore that still leaves something for `.+` | the button built for tone "friendly" and asset "0xMOCK_IP_1712345" (a mock-mode id, src/modules/storyProtocol.js:91) parses as tone "friendly_0xMOCK_IP" and id "1712345", so the action answers "Not found" | split at the first underscore after the prefix, recovering the tone and the id built at src/bot.js:70-72 | high, not executed | Bot.MockIdMisparsed | Bot.RoundTrip |
| src/orchestrator.js:125-131 | the result object spreads `...result` after `message`, so the enforce result's own `message` replaces the composed "Enforcement action completed" summary with its dispute id | a successful enforcement with message "Stop" and dispute id "0xD15" replies "Stop", which does not mention "0xD15" | the reply is the composed summary naming the dispute id and carrying the generated message | high, not executed | Orchestrator.SpreadDropsDisputeId | Orchestrator.HandledMessage |
| src/bot.js:142-148 | `licenseMap[text] \|\| 'Commercial'` looks the answer up on a plain object, which also answers for the keys it inherits from Object.prototype | the answer "constructor" stores the Object constructor function as the license instead of Commercial | every answer other than "1" to "4" falls back to Commercial | high, not executed | Bot.InheritedKeyEscapesFallback | Bot.ParseLicense |
