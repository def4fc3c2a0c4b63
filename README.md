# DAO proposal analyser front end: a verified model of its form, formatting and request state

The repository is a DAO governance front end. A user types a proposal title and
description into a form, and the form validates them. The front end sends them to
an analysis service and then shows the result. A separate utilities file,
`formatting.ts`, exports string and label helpers; none of the components in the
repository calls them. This project models three pieces of that front end in Dafny and proves
their properties:

- **The proposal form** (`ProposalForm`). Each of the two fields runs an ordered
  rule chain: blank after trimming, then too short, then too long. The bounds are
  10/200 characters for the title and 50/5000 for the description. The first
  failing rule gives the field's single message. The component's state cells
  (title, description, stored errors) are the fields of a class, `ProposalInput`.
  Its methods are the change handlers, `validateForm`, `handleSubmit` (which hands
  on the trimmed values only when the form is valid) and `handleReset`.
- **The formatting helpers** (`Formatting`): `truncateText`, `capitalizeFirst`,
  and the likelihood and sentiment emoji lookups, as `formatting.ts` exports them.
- **The analysis request hook** (`AnalysisHook`). The class `AnalysisState` holds
  the `analysis`, `loading` and `error` cells and their transitions. The network
  outcome is a parameter. After every transition, from any state, the condition
  "an error is never shown while a request is in flight" holds.

`JsString` models the JavaScript string built-ins these pieces use:

- `trim` removes exactly the ECMAScript WhiteSpace and LineTerminator characters.
- `substring`, `slice` and `charAt` follow JavaScript's index clamping.
- `toUpperCase` and `toLowerCase` are ASCII-only.

A `char` is one Unicode character, which matches one UTF-16 code unit of JavaScript's
`length` only inside the Basic Multilingual Plane. `CallerRegistry` only declares the
data shapes of the call-legitimacy vote register's interface:

- a vote is two independent flags;
- `getVotes` answers with an optional sequence of votes.

The register's intended behaviour (appending votes, the majority verdict,
clearing) has no implementation among the repository's files, so it is not
modelled. Its `getAllCallIds` and `getVotes` are declared `query` (read-only) in
the interface.

## Model

| member | source | states |
|---|---|---|
| `JsString.Trim` | src/DAO-GIVERNANCE-SYSTEM-frontend/src/components/ProposalInput/ProposalInput.tsx:16 | `s.trim()` is empty exactly when every character of `s` is JavaScript whitespace, and otherwise starts and ends with a non-whitespace character; never longer than `s` (that it is `s` with exactly its surrounding whitespace cut off is `JsString.TrimRemovesSurroundingWhitespace`) |
| `JsString.TrimRemovesSurroundingWhitespace` | src/DAO-GIVERNANCE-SYSTEM-frontend/src/components/ProposalInput/ProposalInput.tsx:39 | `s.trim()` is the slice `s[a..b]` of `s` where every character before `a` and every character from `b` on is whitespace |
| `JsString.TrimIdempotent` | src/DAO-GIVERNANCE-SYSTEM-frontend/src/components/ProposalInput/ProposalInput.tsx:39 | trimming a trimmed value changes nothing |
| `JsString.TrimEndIgnoresTrailingWhitespace` | src/DAO-GIVERNANCE-SYSTEM-frontend/src/components/ProposalInput/ProposalInput.tsx:39 | whitespace appended to a value is exactly what trimming its end removes again |
| `JsString.Substring` | src/DAO-GIVERNANCE-SYSTEM-frontend/src/utils/formatting.ts:25 | `substring(start, end)` with in-range indices is the slice between them; from 0 it is the prefix up to the clamped end |
| `JsString.Slice` | src/DAO-GIVERNANCE-SYSTEM-frontend/src/utils/formatting.ts:29 | `slice(start)` is a suffix; its length is `length - start` for `0 <= start <= length` and `-start` for `-length <= start < 0` |
| `JsString.CharAt` | src/DAO-GIVERNANCE-SYSTEM-frontend/src/utils/formatting.ts:29 | `charAt(pos)` is the single character at `pos`, or empty exactly when `pos` is out of range |
| `JsString.ToUpperCase` | src/DAO-GIVERNANCE-SYSTEM-frontend/src/utils/formatting.ts:29 | upper-casing keeps the length and maps every position through the ASCII upper-case of that character |
| `JsString.ToLowerCase` | src/DAO-GIVERNANCE-SYSTEM-frontend/src/utils/formatting.ts:29 | lower-casing keeps the length and maps every position through the ASCII lower-case of that character |
| `JsString.ToUpperCaseIdempotent` | src/DAO-GIVERNANCE-SYSTEM-frontend/src/utils/formatting.ts:29 | upper-casing twice equals upper-casing once |
| `JsString.ToLowerCaseIdempotent` | src/DAO-GIVERNANCE-SYSTEM-frontend/src/utils/formatting.ts:29 | lower-casing twice equals lower-casing once |
| `Formatting.TruncateText` | src/DAO-GIVERNANCE-SYSTEM-frontend/src/utils/formatting.ts:23-26 | a text no longer than `maxLength` comes back unchanged; a longer one becomes its prefix of the clamped `maxLength` characters followed by `...` |
| `Formatting.TruncateTextCutsLongText` | src/DAO-GIVERNANCE-SYSTEM-frontend/src/utils/formatting.ts:25 | for `0 <= maxLength < length` the result has length `maxLength + 3`, agrees with the text on its first `maxLength` characters and ends in `...`; it is longer than the text exactly when the text exceeds the limit by fewer than three characters |
| `Formatting.TruncateTextNegativeLimit` | src/DAO-GIVERNANCE-SYSTEM-frontend/src/utils/formatting.ts:25 | a negative `maxLength` turns every text, the empty one included, into `...`, so truncation can make the empty string longer |
| `Formatting.TruncateTextIdempotent` | src/DAO-GIVERNANCE-SYSTEM-frontend/src/utils/formatting.ts:23-26 | truncating twice with the same `maxLength` equals truncating once, for every integer `maxLength` |
| `Formatting.CapitalizeFirst` | src/DAO-GIVERNANCE-SYSTEM-frontend/src/utils/formatting.ts:28-30 | the empty string stays empty; otherwise the length is kept, the first character is upper-cased and every later one lower-cased |
| `Formatting.CapitalizeFirstIdempotent` | src/DAO-GIVERNANCE-SYSTEM-frontend/src/utils/formatting.ts:28-30 | capitalising a capitalised string changes nothing, under the ASCII case mapping |
| `Formatting.LikelihoodEmoji` | src/DAO-GIVERNANCE-SYSTEM-frontend/src/utils/formatting.ts:32-39 | total; green exactly for High, yellow exactly for Medium, red exactly for Low, the white circle exactly for every other string |
| `Formatting.SentimentEmoji` | src/DAO-GIVERNANCE-SYSTEM-frontend/src/utils/formatting.ts:41-47 | total; the smile exactly for Positive, the worried face exactly for Negative, the neutral face for everything else |
| `Formatting.SentimentEmojiNeutralIsDefault` | src/DAO-GIVERNANCE-SYSTEM-frontend/src/utils/formatting.ts:41-47 | Neutral falls to the default face, shared with unknown labels and distinct from the Positive and Negative faces |
| `ProposalForm.FieldError` | src/DAO-GIVERNANCE-SYSTEM-frontend/src/components/ProposalInput/ProposalInput.tsx:16-30 | a field has no error exactly when it is not blank and its raw length is within the inclusive bounds; otherwise its single message is the first failing rule (required, then too short, then too long) |
| `ProposalForm.FormErrors.KeyCount` | src/DAO-GIVERNANCE-SYSTEM-frontend/src/components/ProposalInput/ProposalInput.tsx:33 | the error record has at most two keys and none exactly when neither field has a message |
| `ProposalForm.Validate` | src/DAO-GIVERNANCE-SYSTEM-frontend/src/components/ProposalInput/ProposalInput.tsx:13-33 | the form has no errors exactly when both fields are accepted; each field's entry is absent exactly when that field is accepted |
| `ProposalForm.BlankTitleIsRequired` | src/DAO-GIVERNANCE-SYSTEM-frontend/src/components/ProposalInput/ProposalInput.tsx:16-17 | a title whose trim is empty gets "Proposal title is required", whatever its raw length |
| `ProposalForm.TitleLengthBounds` | src/DAO-GIVERNANCE-SYSTEM-frontend/src/components/ProposalInput/ProposalInput.tsx:18-21 | a non-blank title has an error exactly when its raw length is below 10 or above 200, with the too-short and too-long messages respectively; lengths 10 and 200 are accepted, although the too-long message reads "less than 200" |
| `ProposalForm.BlankDescriptionIsRequired` | src/DAO-GIVERNANCE-SYSTEM-frontend/src/components/ProposalInput/ProposalInput.tsx:24-25 | a description whose trim is empty gets "Proposal description is required", whatever its raw length |
| `ProposalForm.DescriptionLengthBounds` | src/DAO-GIVERNANCE-SYSTEM-frontend/src/components/ProposalInput/ProposalInput.tsx:26-30 | a non-blank description has an error exactly when its raw length is below 50 or above 5000, with the matching message; lengths 50 and 5000 are accepted, although the too-long message reads "less than 5000" |
| `ProposalForm.FieldsIndependent` | src/DAO-GIVERNANCE-SYSTEM-frontend/src/components/ProposalInput/ProposalInput.tsx:14-30 | the title's message does not depend on the description, nor the description's on the title |
| `ProposalForm.PaddedTitleAccepted` | src/DAO-GIVERNANCE-SYSTEM-frontend/src/components/ProposalInput/ProposalInput.tsx:16-39 | because the length rules use the untrimmed length, any non-whitespace character followed by nine whitespace characters is an accepted title, yet the title handed on after trimming is that one character |
| `ProposalForm.TrimmedAcceptedField` | src/DAO-GIVERNANCE-SYSTEM-frontend/src/components/ProposalInput/ProposalInput.tsx:16-30 | the trimmed value of an accepted field is non-empty, no longer than the field's maximum, and has no whitespace at either end |
| `ProposalForm.SubmissionWellFormed` | src/DAO-GIVERNANCE-SYSTEM-frontend/src/components/ProposalInput/ProposalInput.tsx:38-40 | when the form is valid the trimmed title and description are non-empty, at most 200 and 5000 characters, and start and end with non-whitespace |
| `ProposalForm.ProposalInput.constructor` | src/DAO-GIVERNANCE-SYSTEM-frontend/src/components/ProposalInput/ProposalInput.tsx:9-11 | both fields start empty with no errors |
| `ProposalForm.ProposalInput.SetTitle` | src/DAO-GIVERNANCE-SYSTEM-frontend/src/components/ProposalInput/ProposalInput.tsx:65 | the title becomes the typed value; nothing else changes |
| `ProposalForm.ProposalInput.SetDescription` | src/DAO-GIVERNANCE-SYSTEM-frontend/src/components/ProposalInput/ProposalInput.tsx:88 | the description becomes the typed value; nothing else changes |
| `ProposalForm.ProposalInput.ValidateForm` | src/DAO-GIVERNANCE-SYSTEM-frontend/src/components/ProposalInput/ProposalInput.tsx:13-34 | the stored errors become the freshly computed ones, the fields are unchanged, and the answer is true exactly when both fields are accepted |
| `ProposalForm.ProposalInput.HandleSubmit` | src/DAO-GIVERNANCE-SYSTEM-frontend/src/components/ProposalInput/ProposalInput.tsx:36-41 | a submission happens exactly when validation leaves no errors, and then carries the trimmed title and description |
| `ProposalForm.ProposalInput.HandleReset` | src/DAO-GIVERNANCE-SYSTEM-frontend/src/components/ProposalInput/ProposalInput.tsx:43-47 | both fields become empty and every error is cleared |
| `ProposalForm.ProposalInput.SubmitDisabled` | src/DAO-GIVERNANCE-SYSTEM-frontend/src/components/ProposalInput/ProposalInput.tsx:108 | the submit button is disabled exactly while loading or while a field is blank, so an enabled button never leads to a "required" message |
| `AnalysisHook.ErrorMessage` | src/DAO-GIVERNANCE-SYSTEM-frontend/src/hooks/useAnalysis.ts:36 | an `Error` shows its own message; any other thrown value shows "Analysis failed" |
| `AnalysisHook.AnalysisState.constructor` | src/DAO-GIVERNANCE-SYSTEM-frontend/src/hooks/useAnalysis.ts:15-17 | no analysis, not loading, no error, so no error is shown while loading |
| `AnalysisHook.AnalysisState.BeginAnalysis` | src/DAO-GIVERNANCE-SYSTEM-frontend/src/hooks/useAnalysis.ts:19-32 | loading becomes true and the error is cleared, the previous analysis is untouched, and the request carries the title, the description and the fixed options |
| `AnalysisHook.AnalysisState.FinishAnalysis` | src/DAO-GIVERNANCE-SYSTEM-frontend/src/hooks/useAnalysis.ts:33-41 | a result replaces the analysis; a rejection sets the error message and keeps the analysis; loading is false after either, so no error is shown while loading |
| `AnalysisHook.AnalysisState.AnalyzeProposal` | src/DAO-GIVERNANCE-SYSTEM-frontend/src/hooks/useAnalysis.ts:19-42 | after a success the analysis is the result and the error is cleared; after a failure the error is the message and the analysis is the old one; loading is false either way |
| `AnalysisHook.AnalysisState.ClearAnalysis` | src/DAO-GIVERNANCE-SYSTEM-frontend/src/hooks/useAnalysis.ts:44-47 | analysis and error are cleared; loading is unchanged |
| `AnalysisHook.AnalysisState.ClearError` | src/DAO-GIVERNANCE-SYSTEM-frontend/src/hooks/useAnalysis.ts:49-51 | only the error is cleared; analysis and loading are unchanged |

## Left out

- The vote register's behaviour (`addVote`, `checkVoteResult`, `clearAllVotes`, `clearCallVotes`, `getAllCallIds`, `getVotes`): only its interface is in the repository. The register's implementation is not part of this model, so only the `Vote` and `getVotes` answer shapes are declared.
- The API client (`fetch`, timeouts, JSON decoding, the mocked canister call) is network I/O. The analysis service is an HTTP server with timing and a foreign analyser. Both are left out. The hook receives the request's outcome as a parameter.
- The asynchronous `await`, React's batching of state updates and re-rendering, and overlapping requests are left out. `analyzeProposal` is modelled as two sequential steps, before and after the `await`.
- The rendering components are presentation and are left out. The `disabled` attributes are left out too; `SubmitDisabled` states the submit button's condition.
- The inputs' `maxLength={200}` and `maxLength={5000}` attributes (ProposalInput.tsx:71, :95) are input constraints that keep typed values within the same bounds the too-long rules test. The model's change handlers accept any value, so the model over-approximates the reachable states: its "too long" branches can be reached, while the browser keeps typed values from reaching them.
- `formatPercentage`, `formatNumber` and `formatDate` are left out: they do floating-point and locale/`Date` formatting.
- The `console.error` logging and `e.preventDefault()` are side effects with no state to model.
- The type declaration files are left out: they declare types only and have no behaviour.
- The 0.7 confidence threshold is kept as 70 hundredths, since it is a floating-point number.
- `JsString.ToUpperCase`: only ASCII letters change case. JavaScript's full Unicode case mapping (which can change a string's length) is not modelled.
- `JsString.ToLowerCase`: only ASCII letters change case, for the same reason.
- `Formatting.CapitalizeFirst`: inherits the ASCII-only case mapping.
- `Formatting.CapitalizeFirstIdempotent`: holds under the ASCII case mapping only. With JavaScript's full mapping, `"ß"` capitalises to `"SS"` and `"SS"` to `"Ss"`.
- `Formatting.TruncateText`: `maxLength` is an integer. JavaScript numbers that are fractional, infinite or NaN are not modelled.
- A character outside the Basic Multilingual Plane is one `char` here, but JavaScript counts it as two units of `length` (a surrogate pair). So for such text the length rules (ProposalInput.tsx:18-20, 26-28) and `truncateText`'s cut point count differently from the source. For example, five 🚀 form a too-short title here but an accepted one in JavaScript. JavaScript's `substring` can also split a surrogate pair, which the model cannot. The emoji constants are likewise written as one `char` each.
