# Project-brief generator: a Dafny model

The application collects a design project's details in a form. It turns them into a
prompt for a chat-completion model and shows the returned brief. The brief can be
edited and exported as a PDF. This project models four parts of it:

- **The PDF line formatter** (`PdfDocument`). The brief is split on line feeds. Every
  line becomes a heading when it matches `^[A-Z][a-z]+:$`, and a paragraph otherwise.
  The pattern is given twice: as a declarative predicate and as a small automaton.
  Lemmas prove that the two agree.
- **The generation gateway** (`GptApi`). It builds the budget and reference blocks,
  the generation prompt and the regeneration prompt. It then reads a reply into a
  trimmed text or an error. The chat client is a function from request to reply,
  passed in as a parameter. Lemmas prove what can be read back from the prompt, line
  by line. `Strings` holds the JavaScript `split`, `join` and `trim` the gateway and
  the formatter rely on.
- **The project form** (`ProjectForm`). A class whose handlers edit the form record:
  text fields, budget rows and references. Budget rows are values. Each reference is
  a `RefEntry` object. `handleReferenceChange` writes into that object in place, so
  the model keeps the aliasing the component has.
- **The home page** (`Page`). A class holding the page's view flags, the brief, the
  form record and a map for the browser's local storage. Each handler updates them
  together. Most handlers end with the stored `persistedShowForm` flag mirroring
  `showForm` (`ShowFormPersisted`).

The code does not do everything the application's documentation suggests. It has no
section splitter, no inline link or image renderer and no per-section regeneration
state. The brief view prints the brief as plain text. The model follows the code.

Two behaviours of the code that the model makes explicit:

- Loading the page with stored form progress opens the form even when the stored flag
  says `"false"`. From then on the flag no longer mirrors `showForm`. The flag is
  restored only when no progress is stored (`Page.Home.LoadPersistedState`).
- The page declares the record's deadline a `Date`, but the form submits the date
  input's text. A record revived from storage does carry a `Date`. `Page.Deadline`
  holds all three cases: none, text, or a date. The text case breaks the submit
  handler; see "## Findings".
- `regenerateSection` checks nothing about the reply's shape. A reply with no choices,
  or whose first choice has no message, fails with a type error. `generateBrief`
  instead throws its own "unexpected structure" error (`GptApi.ReadSection`,
  `GptApi.ReadBrief`).

## Model

| member | source | states |
|---|---|---|
| Strings.Split | app/components/PDFDocument.tsx:32 | `split('\n')` yields at least one piece, and no piece holds the separator |
| Strings.JoinSplit | app/components/PDFDocument.tsx:32 | joining the pieces of a split with the separator gives back the string |
| Strings.SplitJoin | utils/gptApi.ts:19-21 | splitting a join of separator-free pieces gives back exactly those pieces |
| Strings.SplitOfJoin | utils/gptApi.ts:19-21 | splitting a join splits every joined part on its own, in order |
| Strings.SplitAppend | utils/gptApi.ts:35-61 | splitting at a separator splits the two sides independently |
| Strings.SplitLength | app/components/PDFDocument.tsx:32 | a split has one more piece than the string has separators |
| Strings.Join | utils/gptApi.ts:21 | `join('\n')`: the parts in order with one separator between neighbours, `""` for no parts |
| Strings.JoinEnds | utils/gptApi.ts:21 | a join of no parts is empty; otherwise it begins with the first part and ends with the last |
| Strings.SplitPrefix | utils/gptApi.ts:39 | text without a line feed put before a string only extends that string's first line; the later lines are unchanged |
| Strings.Trim | utils/gptApi.ts:75 | neither end of what `trim()` returns is whitespace |
| Strings.TrimInfix | utils/gptApi.ts:75 | what `trim()` returns is the infix of the string left after cutting whitespace at both ends |
| Strings.TrimFixpoint | utils/gptApi.ts:75 | `trim()` leaves a string alone exactly when neither end is whitespace |
| Strings.TrimIdempotent | utils/gptApi.ts:75 | trimming twice is trimming once |
| PdfDocument.HeadingIsRegexMatch | app/components/PDFDocument.tsx:34 | a line matches `^[A-Z][a-z]+:$` exactly when it is one upper-case letter, then one or more lower-case letters, then a colon, and nothing else |
| PdfDocument.IsHeadingLine | app/components/PDFDocument.tsx:34 | the declarative reading of `^[A-Z][a-z]+:$`: at least three characters, an upper-case first, a colon last, lower-case letters between |
| PdfDocument.RegexMatches | app/components/PDFDocument.tsx:34 | the pattern as an automaton: a line matches when the run from the start ends right after the colon |
| PdfDocument.RunInLowers | app/components/PDFDocument.tsx:34 | inside the run of lower-case letters, the pattern accepts exactly more lower-case letters followed by a final colon |
| PdfDocument.FormatBrief | app/components/PDFDocument.tsx:31-40 | element keys are pairwise distinct |
| PdfDocument.FormatBriefLength | app/components/PDFDocument.tsx:32-33 | one element per line feed plus one; an empty brief gives a single empty paragraph |
| PdfDocument.FormatBriefClassifies | app/components/PDFDocument.tsx:33-38 | element `i` has key `i` and carries line `i` unchanged; it is a heading if and only if the line matches the pattern, and a paragraph if and only if it does not |
| PdfDocument.FormatBriefRoundTrip | app/components/PDFDocument.tsx:33-38 | joining the element texts with line feeds gives back the brief, so nothing is dropped, merged or reordered |
| PdfDocument.NoTrimming | app/components/PDFDocument.tsx:32-34 | a line that starts or ends with whitespace is never a heading |
| PdfDocument.CrlfHeadingsOnlyLast | app/components/PDFDocument.tsx:32-34 | in a brief with CRLF line endings, every line but the last keeps its carriage return and is a paragraph |
| PdfDocument.HeadingExamples | app/components/PDFDocument.tsx:34 | `Introduction:` is a heading; `INTRODUCTION:`, `Budget Breakdown:`, `introduction:`, `Introduction`, `A:`, ` Goals:`, `Goals: ` and `Goals:\r` are not |
| PdfDocument.RunRejected | app/components/PDFDocument.tsx:34 | once the pattern has failed, no further character makes it match |
| PdfDocument.RunAfterColon | app/components/PDFDocument.tsx:34 | after the colon, the pattern matches only at the end of the line |
| GptApi.BudgetLine | utils/gptApi.ts:20 | one row as `item: $amount` |
| GptApi.BudgetLines | utils/gptApi.ts:19-20 | one line per budget row, in order, each `item: $amount` |
| GptApi.BudgetBreakdownText | utils/gptApi.ts:19-21 | the breakdown block is empty exactly when there are no rows |
| GptApi.ReferenceLine | utils/gptApi.ts:24-30 | a link `v` as `Link: [v](v)`, an image `v` as `Image: v` |
| GptApi.ReferenceLines | utils/gptApi.ts:23-30 | one line per reference, in order: a link `v` as `Link: [v](v)`, an image `v` as `Image: v` |
| GptApi.ReferencesText | utils/gptApi.ts:23-31 | the references block is empty exactly when there are no references |
| GptApi.DeadlineText | utils/gptApi.ts:40 | the deadline, or `Not specified` when it is null or empty |
| GptApi.BudgetLineRoundTrip | utils/gptApi.ts:20 | a budget line reads back as its row whenever the amount has no colon |
| GptApi.ReferenceLineRoundTrip | utils/gptApi.ts:24-29 | every reference line reads back as its reference, kind and value |
| GptApi.BudgetBreakdownRecoverable | utils/gptApi.ts:19-21 | no rows give the empty string; otherwise the block has exactly one line per row, in order, and each line reads back as its row |
| GptApi.ReferencesRecoverable | utils/gptApi.ts:23-31 | no references give the empty string; otherwise the block has exactly one line per reference, in order, and each line reads back as its reference |
| GptApi.Prompt | utils/gptApi.ts:35-61 | the template's lines joined by line feeds: the fixed introduction, the interpolated field and block lines, the fixed guidelines |
| GptApi.PromptSplitsPartwise | utils/gptApi.ts:35-61 | for every record, the prompt's lines are the introduction's lines, then the lines of each interpolated template line in order, then the guidelines' lines: a field holding line feeds adds lines but never merges with its neighbours |
| GptApi.GoalsLines | utils/gptApi.ts:39 | the goals' first line follows their label; their further lines are prompt lines of their own, unindented |
| GptApi.PromptLines | utils/gptApi.ts:35-61 | when every field but the goals is one line, the prompt read line by line is the fixed introduction; then type and name; then the goals line by line after their label; then deadline and `$`-prefixed budget; then the breakdown and the references one per line; then the fixed guidelines |
| GptApi.DataPartsLines | utils/gptApi.ts:37-45 | when every field but the goals is one line, the interpolated template lines split into the labelled field lines, the goals' own lines after their label, and the two indented blocks |
| GptApi.IndentedBlockSplit | utils/gptApi.ts:43-45 | an interpolated block indents only its first line; an empty block is one line of indentation |
| GptApi.MessageText | utils/gptApi.ts:75 | the trimmed content, or `""` for a null content; never whitespace at either end |
| GptApi.ReadBrief | utils/gptApi.ts:74-85 | a reply with a first choice that has a message gives its trimmed content; no choices or no message gives the unexpected-structure error; a failed call's error is rethrown unchanged |
| GptApi.ReadSection | utils/gptApi.ts:101 | the same text as `generateBrief` for a well-formed reply; a type error when there is no first choice or no message; a failed call's error is rethrown |
| GptApi.ReadersAgree | utils/gptApi.ts:74-77 | both readers accept the same replies and give the same text |
| GptApi.BriefRequest | utils/gptApi.ts:66-70 | the request `generateBrief` sends: `gpt-4`, 1000 tokens, the prompt as the single user message |
| GptApi.GenerateBrief | utils/gptApi.ts:65-85 | one request (`BriefRequest`): `gpt-4`, 1000 tokens, with the prompt as the single user message; the result is that reply read by `ReadBrief`, and a brief never has whitespace at either end |
| GptApi.SectionRequest | utils/gptApi.ts:95-99 | the request `regenerateSection` sends: `gpt-4`, 500 tokens, the regeneration prompt as the single user message |
| GptApi.RegenerateSection | utils/gptApi.ts:88-101 | one request (`SectionRequest`): `gpt-4`, 500 tokens, with the regeneration prompt; the result is that reply read by `ReadSection`, with no whitespace at either end |
| GptApi.RegeneratePrompt | utils/gptApi.ts:89-93 | the regeneration prompt: the fixed lead, the quoted section name, the brief, and the quoted name again before the closing sentence |
| GptApi.RegeneratePromptEmbeds | utils/gptApi.ts:89-93 | the regeneration prompt holds the section name in double quotes, then the whole brief verbatim, then the quoted name again before its closing sentence |
| GptApi.RegeneratePromptDeterminesBrief | utils/gptApi.ts:89-93 | for one section name, different briefs give different prompts |
| GptApi.RegeneratePromptDeterminesSection | utils/gptApi.ts:89-93 | for one brief, different section names give different prompts |
| ProjectForm.RefEntry.constructor | app/components/ProjectForm.tsx:84 | a new reference entry holds the given kind and value |
| ProjectForm.Snapshot | app/components/ProjectForm.tsx:13 | the entries' kinds and values as plain references, entry by entry |
| ProjectForm.WithField | app/components/ProjectForm.tsx:35-41 | `{...prev, [name]: value}` sets the named text field and leaves every other field and both lists unchanged |
| ProjectForm.WithRowField | app/components/ProjectForm.tsx:46 | a row update sets the named field and keeps the other |
| ProjectForm.WithoutIndex | app/components/ProjectForm.tsx:61 | `filter((_, i) => i !== index)` drops exactly element `index` and keeps the rest in order; an index outside the list changes nothing |
| ProjectForm.SnapshotWithoutIndex | app/components/ProjectForm.tsx:97-102 | removing an entry removes its kind and value from the list's contents, at the same index |
| ProjectForm.DistinctWithoutIndex | app/components/ProjectForm.tsx:97-102 | removing an entry keeps the other entries distinct objects |
| ProjectForm.Form.constructor | app/components/ProjectForm.tsx:22-33 | without initial data: empty text fields, one blank row, no references; with it: its record as it is, with an empty list kept; not loading, no error, breakdown hidden |
| ProjectForm.Form.HandleInputChange | app/components/ProjectForm.tsx:35-41 | only the named text field changes |
| ProjectForm.Form.HandleBudgetBreakdownChange | app/components/ProjectForm.tsx:43-51 | only the named field of row `index` changes; the length and every other row are kept |
| ProjectForm.Form.AddBudgetBreakdownItem | app/components/ProjectForm.tsx:53-58 | exactly one blank row is appended; earlier rows are unchanged |
| ProjectForm.Form.RemoveBudgetBreakdownItem | app/components/ProjectForm.tsx:60-66 | exactly row `index` goes and the others keep their order; an index outside the list removes nothing |
| ProjectForm.Form.ToggleBudgetBreakdown | app/components/ProjectForm.tsx:186-190 | the breakdown's visibility flips and nothing else changes |
| ProjectForm.Form.HandleAddReference | app/components/ProjectForm.tsx:81-86 | a new entry of the given kind with an empty value is appended; earlier entries are the same objects |
| ProjectForm.Form.HandleReferenceChange | app/components/ProjectForm.tsx:88-95 | entry `index` itself is written: it takes the new value and keeps its kind; the list and every other entry are unchanged |
| ProjectForm.Form.HandleRemoveReference | app/components/ProjectForm.tsx:97-102 | exactly entry `index` goes and the others keep their order; an index outside the list removes nothing |
| ProjectForm.Form.HandleImageUpload | app/components/ProjectForm.tsx:104-122 | on success the old entry is written with the URL, then replaced in the list by a new image entry with that URL; other entries and fields are kept; a failed upload changes nothing |
| ProjectForm.Form.HandleSubmit | app/components/ProjectForm.tsx:68-79 | the record goes out with project type `design`; afterwards the form is not loading, and shows the error message exactly when the callback threw |
| Page.FormatDeadline | app/page.tsx:91 | no deadline (null or empty text) gives null; a date gives its formatted day; a text deadline gives what the date library makes of it, and formatting throws exactly when the library rejects it |
| Page.Formatted | app/page.tsx:89-92 | the record sent for generation carries the formatted deadline; every other field is kept |
| Page.BriefOutcome | app/page.tsx:93 | `generateBrief` on the formatted record gives a brief with no whitespace at either end, or an error |
| Page.IsoDeadline | app/page.tsx:102 | `toISOString` as written: no deadline gives null, a date its ISO text, and it throws exactly for a non-empty text deadline |
| Page.IntendedDeadlineText | app/page.tsx:91-102 | a deadline written out as intended, formatted for the request or as ISO text for storage: a text deadline is read as a date first, so it never throws; no deadline gives null |
| Page.SerializedAsWritten | app/page.tsx:100-103 | the record is serialised with its ISO deadline, and serialising fails exactly for a non-empty text deadline |
| Page.StorageAfterBrief | app/page.tsx:99-105 | after a brief the stored brief is it; with a serialised record, the record and the `false` flag are stored and the progress is gone; without one only the brief was written |
| Page.FlagAfterBrief | app/page.tsx:99-104 | after a brief the stored flag reads `false` exactly when the record was stored or it already read `false` |
| Page.TextDeadlineSkipsPersisting | app/page.tsx:99-105 | with a text deadline the stored record and progress stay as they were and a stored `true` flag stays `true` |
| Page.OrEmpty | app/page.tsx:200-201 | the record's field, or `""` when there is no record |
| Page.Home.constructor | app/page.tsx:28-36 | the initial state: no brief, form shown, not yet on the client, no record, no user, landing page shown; nothing is rendered |
| Page.Home.CurrentView | app/page.tsx:165-208 | nothing before the client flag is set; then the landing page while it is shown; then the form (with a cancel action exactly when a record exists) or the brief view |
| Page.Home.LoadPersistedState | app/page.tsx:52-74 | the brief is restored only from a non-empty stored brief; the record and the form flag come from storage; stored progress replaces the record and forces the form open; without progress a stored `true`/`false` flag makes the mirror hold |
| Page.Home.HandleFormSubmit | app/page.tsx:87-109 | as written: when formatting throws nothing changes; on a brief it is shown, the record kept and the form closed, storage is as `StorageAfterBrief` gives, and the stored flag mirrors the closed form exactly when the deadline is not text or the flag already read `false`; on an error nothing changes |
| Page.Home.HandleFormSubmitIntended | app/page.tsx:87-109 | as intended: on a brief it is shown, the record kept, the form closed, brief, record and `false` flag stored, the progress removed, and the stored flag mirrors the form; on an error nothing changes |
| Page.Home.PersistBrief | app/page.tsx:98-105 | the storage writes after a brief are exactly `StorageAfterBrief`; nothing else changes |
| Page.Home.HandleEditBrief | app/page.tsx:111-115 | the form opens and the stored flag says `true` |
| Page.Home.HandleCreateNewBrief | app/page.tsx:117-124 | the record is dropped and an empty form opens; the stored brief and record go and the flag says `true`; the in-memory brief is kept |
| Page.Home.HandleSaveBrief | app/page.tsx:126-131 | the brief and the stored brief both become the edited text |
| Page.Home.HandleSignInSuccess | app/page.tsx:133-141 | with a current user they are set; if the subscription check answers, the paid flag takes the answer and the landing page closes, and if it rejects, both stay as they were; without a user nothing changes |
| Page.Home.HandleSignOut | app/page.tsx:143-148 | after a successful sign-out there is no user, the paid flag is off and the landing page shows; a failing sign-out changes nothing |
| Page.Home.HandleCreateLink | app/page.tsx:150-153 | the link is kept and its dialog opens |
| Page.Home.CloseLinkModal | app/page.tsx:214 | the link dialog closes and nothing else changes |
| Page.Home.HandleCancelEdit | app/page.tsx:155-161 | the form closes, the stored flag says `false` and the progress key is removed |

## Left out

- The OpenAI client and its network call (utils/gptApi.ts:3-6, 66-70, 95-99) are a function parameter from request to reply. The reply the model produces is not modelled.
- Console logging, `alert`, and the `modal-open` class toggled on the document body (app/page.tsx:79-85) are not modelled.
- Date handling is passed in as parameters: `format(…, 'yyyy-MM-dd')` of a date and of text (which the date library may reject), `toISOString` of a date, and `new Date`. The same goes for `JSON.stringify`/`JSON.parse` of the stored record and progress.
- ProjectForm.Form.constructor: the form's deadline is text. A record revived from storage hands the form a `Date`, which it passes on unchanged until the field is edited. That case is modelled on the page side only (`Page.Deadline`).
- Page.Home.LoadPersistedState: stored progress is taken as a whole record. The spread `{...prevData, ...savedFormData}` that would keep fields missing from the progress is not modelled.
- The authentication subscription (app/page.tsx:40-49), Firebase, Firestore and the image storage wrappers are not modelled. The current user, the subscription answer (or its rejection), the sign-out outcome and the upload outcome are inputs.
- Page.Home.HandleSignInSuccess: a rejected subscription check is an unhandled rejection in the page. The model ends the handler there: the user is set, the landing page stays.
- Page.Home.HandleFormSubmit: the page's record holds value references, so its aliasing with the form's reference entries is not modelled.
- Each handler is one atomic step. The stale `formData` closures of `removeBudgetBreakdownItem`, `handleBudgetBreakdownChange`, `handleReferenceChange` (app/components/ProjectForm.tsx:89) and `handleImageUpload` are only visible under interleaving, which the model does not capture.
- ProjectForm.Form.HandleBudgetBreakdownChange: the index must be that of an existing row. The handler is only wired to rendered rows. An out-of-range index would write a new row past the end and leave a hole; that is not modelled.
- ProjectForm.Form.HandleReferenceChange: the index must be that of an existing entry. An out-of-range index reads `undefined` and throws a `TypeError`; that is not modelled.
- ProjectForm.Form.HandleImageUpload: the index must be that of an existing entry. Out of range, the inner `handleReferenceChange` throws, the handler's catch takes it, and the list is left unchanged; that is not modelled.
- GptApi.PromptLines: the line-by-line reading needs every field but the goals to be free of line feeds. Those fields come from single-line inputs, the fixed project type, or the budget and reference rows. `GptApi.PromptSplitsPartwise` holds for every record.
- GptApi.DataPartsLines: same assumption as `GptApi.PromptLines`.
- ProjectForm.Form.HandleSubmit: the awaited callback is reduced to whether it threw.
- GptApi.ReadBrief: a reply whose `choices` field is missing altogether is not modelled; the reply type always carries a list.
- JSX rendering, styling and the PDF page layout are not modelled. The props the page passes that the form does not declare (`onCancelEdit`) have no behaviour.

## Findings

| source | as written | input that shows it | evidently intended | confidence | as-written member | corrected member |
|---|---|---|---|---|---|---|
| app/page.tsx:100-105 | `data.deadline.toISOString()` is called on the deadline the form submits, which is the date input's text, not a `Date`. It throws after the brief is stored, and the handler's catch swallows it (`Page.Home.HandleFormSubmit`). If the date library rejects text instead, `format` throws first and the submit does nothing at all (`Page.FormatDeadline`). | a form record with deadline `"2024-05-01"`, a date library that formats that text, and a stored flag `"true"`: the brief is shown and stored and the form closes. But the record is not stored, the progress stays, and the flag still reads `"true"`. | the record with its ISO deadline, the `false` flag and the removal of the progress are all stored, so the flag mirrors the closed form | not executed | Page.TextDeadlineSkipsPersisting | Page.Home.HandleFormSubmitIntended |
