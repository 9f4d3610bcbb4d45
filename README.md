# Resume job predictor — a Dafny model

This project models the computing core of a résumé-analysis web application.

- **Backend classifier.** The backend service (`backend/app/main.py`) receives an uploaded PDF and extracts its text. A keyword heuristic over a fixed table of seven job categories (`CATEGORIES`) then guesses a job category, a confidence and a list of skills.
  - `predict_category` scores each category by counting its keywords that occur in the lower-cased text. It keeps the first category with the strictly highest score, derives the confidence from that score, and title-cases the matched keywords as skills.
  - `extract_skills` collects matched keywords across the whole table, without repeats.
- **Backend endpoints.** `/predict` checks the upload before this runs. `/chat` resolves the API key, picks a model and lays out the messages for a chat-completion service.
- **Browser pages.** Three pieces of the browser application are modelled as state machines next to the backend:
  - the upload page (`src/pages/Upload.tsx`): a PDF-only file gate, a busy flag, and the hand-off of the result to session storage;
  - the result view (`src/pages/Result.tsx`): percentage, three-tier label and colour, tip sentence, and a redirect when nothing is stored;
  - the chat widget (`src/components/OpenAIChat.tsx`): the transcript, the loading flag, the request layout, and the cached API key.

How the model is built:

- Confidence on the backend is an integer number of hundredths. The score is an integer and the service rounds to two places, so `conf100 = if score > 0 then min(95, 50 + 10 * score) else 50` says exactly the same thing.
- The browser reads the confidence as a real number. `EndToEnd.HeuristicLabel` connects the two.
- The loops of `predict_category` and `extract_skills` are Dafny methods with loop invariants. Each is proved equal to a specification function (`Classify`, `ExtractedKeywords`), and the promised properties are proved as lemmas about those functions.
- The upload page and the chat widget are classes whose fields are the component's state. Their browser storage is a map-valued field, and toasts and navigations are logged in sequence fields. The result view is a set of functions over a session-storage parameter. Network replies are parameters.
- Each `async` handler is split at its first `await` (the `fetch`) into a "begin" method, which returns the request it would send, and a "finish" method, which takes the reply. The later `await`s that read the response body (`response.json()`) are folded into that reply parameter: it holds what the body yields, or that reading it threw.

Modules: `Wrappers`, `Seqs`, `Text` (helpers); `Classifier` and `Endpoints` (backend/app/main.py); `Wire` and `Ui` (shared shapes); `UploadPage`, `ResultPage`, `ChatWidget` (the three frontend files); `EndToEnd` (facts that connect backend and frontend).

## Behaviour of the code worth knowing

These are places where the code differs from what one might expect, and the model follows the code each time:

- **The chat widget cannot read this repository's own `/chat` reply.** The widget reads `data.choices[0]?.message?.content`. The service's `/chat` returns `{ content }`, which has no `choices` field. Reading `choices[0]` of `undefined` throws, so every reply goes down the widget's error path and no assistant entry is ever appended (`EndToEnd.ServiceReplyTakesErrorPath`).
- **Enter can send while a request is outstanding.** The Send button is disabled while loading, but the Enter key calls `sendMessage` without that check (`ChatWidget.Widget.KeyPress`). A second request can therefore start while one is outstanding. `Receive` appends to whatever the transcript is by then, as the functional state update in the source does.
- **The upload handler does not clear the file after a successful analysis.** It only navigates away. The stored analysis is never cleared either, so the result view replays it on every visit (`ResultPage.OnMount` only reads the storage).
- **A key header that is non-empty but strips to nothing does not fall back to the environment key.** The header parameter of `Endpoints.ResolveApiKey` is the value after HTTP parsing, which already drops spaces and tabs around a field value (section 5.5 of RFC 9110), so a header of only spaces or tabs arrives empty and does fall back to `OPENAI_API_KEY`. Other whitespace, such as U+00A0 or U+0085, survives that parsing; `/chat` then uses the header because it is non-empty, it strips to nothing, and the result is a 500 rather than the environment key.
- **The upload page and `/predict` accept different content types.** The upload page accepts only `application/pdf`. `/predict` also accepts `application/octet-stream`. A zero-byte PDF passes the page and is rejected by `/predict` with "Empty file" (`EndToEnd.AcceptedUploadPassesTypeCheck`).

## Model

| member | source | states |
|---|---|---|
| Text.Lower | backend/app/main.py:100 | lower-casing keeps the length and lower-cases each character |
| Text.Title | backend/app/main.py:118 | `str.title()`: a letter that starts a word (first, or after a non-letter) is upper-cased, other letters lower-cased, other characters kept |
| Text.Occurs | backend/app/main.py:109 | `kw in text` holds exactly when `kw` occurs at some position of `text` |
| Text.Strip | backend/app/main.py:234 | strip/trim: empty exactly when every character is whitespace; otherwise it begins and ends with non-whitespace and is the slice of the input with only whitespace around it |
| Text.Join | src/pages/Result.tsx:181 | `join` of zero or one part gives nothing or that part; of two or more, the parts so far joined, the separator, then the last part |
| Text.StripIdempotent | backend/app/main.py:234 | stripping twice equals stripping once, so the resolved key is already stripped |
| Seqs.Take | backend/app/main.py:118 | `[:n]` is the prefix of length min(n, length) |
| Seqs.IndexOf | backend/app/main.py:128 | the first position holding the element |
| Seqs.DedupSpec | backend/app/main.py:126-129 | appending only elements not yet held keeps each element once, exactly the input's elements, in first-occurrence order |
| Classifier.MatchedMembers | backend/app/main.py:106-111 | a keyword is matched iff it is in the list and occurs in the text |
| Classifier.MatchedDistinct | backend/app/main.py:106-111 | distinct keywords give distinct matches |
| Classifier.MatchedInKeywordOrder | backend/app/main.py:100-111 | the matched list keeps keyword order, and its length (the score) is the number of the category's keywords that occur in the lower-cased text |
| Classifier.CategoryKeywordsDistinct | backend/app/main.py:72-80 | no category lists a keyword twice |
| Classifier.TableScoreCountsKeywords | backend/app/main.py:105-111 | on the real table a category's score is the number of its keywords that occur in the lower-cased text, and its matches keep keyword order |
| Classifier.FirstMaxSpec | backend/app/main.py:112-115 | the strict `>` scan picks the earliest maximal positive score, and nothing exactly when every score is 0 |
| Classifier.Conf100 | backend/app/main.py:117 | confidence is 0.50 iff the score is 0, otherwise min(0.95, 0.5 + score/10); always within [0.50, 0.95] |
| Classifier.ConfMonotone | backend/app/main.py:117 | confidence never decreases as the score grows |
| Classifier.TitleAll | backend/app/main.py:118 | the comprehension title-cases every element, keeping count and order |
| Classifier.SkillsDisplay | backend/app/main.py:118 | one to ten skills: the default pair when nothing matched, else the title-cased matches cut to ten |
| Classifier.ScoreKeywords | backend/app/main.py:106-111 | the inner loop computes the matched list and the score is its length |
| Classifier.ScanCategories | backend/app/main.py:101-118 | the scan over a table keeps the first strictly highest score and returns that pick's category, confidence and displayed skills |
| Classifier.PredictCategory | backend/app/main.py:99-120 | the heuristic branch on `CATEGORIES` returns exactly `Classify(text)` |
| Classifier.ClassifySpec | backend/app/main.py:101-118 | "General" with 0.50 and the default skills exactly when every score is 0; otherwise the earliest category with the maximal positive score, its confidence and its title-cased matches |
| Classifier.ClassifyBounds | backend/app/main.py:117-118 | confidence within [0.50, 0.95] and 0.50 iff "General"; one to ten skills; "General" has the default pair |
| Classifier.ExtractedKeywordsSpec | backend/app/main.py:123-129 | extracted keywords have no repeats, are exactly the table's keywords that occur, and follow first appearance across the table |
| Classifier.AddNewMatches | backend/app/main.py:127-129 | the inner loop appends exactly the new occurring keywords of one category |
| Classifier.CollectKeywords | backend/app/main.py:126-129 | the nested loops produce the deduplicated matches over the whole table |
| Classifier.ExtractSkills | backend/app/main.py:123-131 | `extract_skills` is the display of the extracted keywords |
| Classifier.ExtractSkillsDistinct | backend/app/main.py:123-131 | the returned skills contain no repeats: the table's keywords are lower case, so title-casing keeps distinct keywords distinct |
| Classifier.ExtractSkillsFallback | backend/app/main.py:130-131 | nothing extracted iff no keyword of the table occurs, and then the result is the default pair |
| Endpoints.CheckUpload | backend/app/main.py:141-146 | 400 "Only PDF files are supported" for any type but the two accepted ones, else 400 "Empty file" for a zero-length body, else accepted |
| Endpoints.Predict | backend/app/main.py:139-153 | a rejected upload returns its 400; an extraction failure returns 500 "Failed to parse PDF: …"; otherwise the heuristic classification of the text |
| Endpoints.ResolveApiKey | backend/app/main.py:234-236 | the key is the stripped header when a non-empty header is given, else the stripped environment key; 500 exactly when that is empty |
| Endpoints.ResolvedKeyIsStripped | backend/app/main.py:234 | an accepted key has no surrounding whitespace |
| Endpoints.ModelName | backend/app/main.py:239 | the requested model when one is named, else "gpt-4o-mini" |
| Endpoints.ForwardedMessages | backend/app/main.py:243-251 | one system message followed by the request messages unchanged and in order |
| Endpoints.PrepareChat | backend/app/main.py:230-255 | 500 without the client library, 500 without a key, otherwise a call with the key, model, forwarded messages, 800 tokens and temperature 0.7 |
| Endpoints.FinishChat | backend/app/main.py:256-259 | the reply content (empty when null), or 500 "OpenAI error: …" when the call raises |
| ResultPage.Percentage | src/pages/Result.tsx:43 | `Math.round(c*100)`: the integer nearest c·100, halves up |
| ResultPage.ConfidenceLevel | src/pages/Result.tsx:51-55 | "High" iff c ≥ 0.8, "Medium" iff 0.6 ≤ c < 0.8, "Low" iff c < 0.6 |
| ResultPage.ConfidenceColor | src/pages/Result.tsx:45-49 | the colour is always the one of the label's tier: green with High, yellow with Medium, orange with Low |
| ResultPage.TipSkills | src/pages/Result.tsx:181 | the tip names at most the first two skills, joined with " and " |
| ResultPage.Render | src/pages/Result.tsx:97-122 | the same percentage feeds the text and the progress bar; label and colour agree; the tip names the skills `TipSkills` picks |
| ResultPage.OnMount | src/pages/Result.tsx:29-41 | redirect to "/upload" (rendering nothing) iff nothing is stored, otherwise render the stored analysis |
| ResultPage.HundredthsView | src/pages/Result.tsx:43-55 | for a confidence of k hundredths the percentage is k and the tiers are 80 and 60 |
| UploadPage.FailureText | src/pages/Upload.tsx:71-90 | a non-ok reply shows the server's `detail`, or "Failed to analyze resume"; a thrown error shows its message or the generic text |
| UploadPage.Page.constructor | src/pages/Upload.tsx:11-13 | no file, not analyzing, no drag highlight |
| UploadPage.Page.DragOver | src/pages/Upload.tsx:17-20 | dragging over sets the highlight |
| UploadPage.Page.DragLeave | src/pages/Upload.tsx:22-25 | leaving clears the highlight |
| UploadPage.Page.Drop | src/pages/Upload.tsx:27-41 | dropping clears the highlight; a PDF becomes the selection, anything else keeps it and raises the invalid-type toast |
| UploadPage.Page.SelectFile | src/pages/Upload.tsx:43-54 | the picker applies the same PDF gate |
| UploadPage.Page.Accept | src/pages/Upload.tsx:31-40 | the shared gate; the selected file stays a PDF |
| UploadPage.Page.RemoveFile | src/pages/Upload.tsx:96-98 | the selection is cleared |
| UploadPage.Page.BeginAnalyze | src/pages/Upload.tsx:56-69 | a no-op without a file; otherwise busy, and the file is posted |
| UploadPage.Page.ClickAnalyze | src/pages/Upload.tsx:183-185 | while busy a click starts nothing |
| UploadPage.Page.FinishAnalyze | src/pages/Upload.tsx:71-93 | ok: stored under "analysisResult", success toast, navigate to "/result", and the result view then shows it; otherwise failure toast, nothing stored, no navigation; never busy afterwards; file untouched |
| UploadPage.AnalyzeOnce | src/pages/Upload.tsx:56-94 | the first click posts the file, a second click while busy returns nothing, and the cycle ends idle with the same file |
| ChatWidget.KeyHeader | src/components/OpenAIChat.tsx:38 | the key header is attached iff the trimmed key is non-empty, and carries the trimmed key |
| ChatWidget.ReplyText | src/components/OpenAIChat.tsx:54-55 | a body without `choices` throws; a present, non-empty first content is the reply; every other body gives the fallback text |
| ChatWidget.Widget.constructor | src/components/OpenAIChat.tsx:15-18 | the key is read from local storage (empty when absent); empty transcript and input |
| ChatWidget.Widget.EditApiKey | src/components/OpenAIChat.tsx:119-122 | state and local storage get the same key |
| ChatWidget.Widget.EditMessage | src/components/OpenAIChat.tsx:174 | the input holds the typed text |
| ChatWidget.Widget.Send | src/components/OpenAIChat.tsx:22-48 | blank input: nothing changes, nothing is sent; otherwise the input is cleared, the trimmed user entry appended, loading set, and the request holds the preamble, the prior transcript, then the user entry; with the key field in step with local storage, the header carries the stored key |
| ChatWidget.Widget.Receive | src/components/OpenAIChat.tsx:50-67 | a readable reply appends exactly one assistant entry; otherwise an error toast and an unchanged transcript; loading ends either way |
| ChatWidget.Widget.ClickSend | src/components/OpenAIChat.tsx:179-181 | a button disabled by loading or a blank input changes nothing and sends nothing; an enabled click sends exactly as `Send` does |
| ChatWidget.Widget.KeyPress | src/components/OpenAIChat.tsx:70-75 | Enter without Shift on a non-blank input sends exactly as `Send` does, even while loading; blank input or any other key changes nothing |
| ChatWidget.Exchange | src/components/OpenAIChat.tsx:22-67 | a successful exchange appends the user entry and then the assistant entry |
| EndToEnd.HeuristicLabel | backend/app/main.py:117 | for a heuristic prediction the page shows 50–95 %, "Low" when nothing matched, "Medium" for one or two keywords, "High" from three |
| EndToEnd.ConfidenceLabel | src/pages/Result.tsx:43-55 | a confidence derived from a best score is shown as its hundredths, "Low" for score 0, "Medium" for 1–2, "High" from 3 |
| EndToEnd.AcceptedUploadPassesTypeCheck | src/pages/Upload.tsx:32 | a file the page accepts passes the service's type check; only an empty body is still rejected |
| EndToEnd.WidgetRequestForwarded | backend/app/main.py:239-251 | the service forwards its own system message followed by the widget's messages, with the widget's model |
| EndToEnd.ServiceReplyTakesErrorPath | src/components/OpenAIChat.tsx:55 | no outcome of this service's `/chat` gives the widget an assistant entry |

## Left out

- Machine-learning branch of `predict_category` and its training (backend/app/main.py:86-97, 161-194): foreign library calls on floating-point probabilities. That branch would take its skills from `extract_skills` (backend/app/main.py:93), which is modelled. `Endpoints.Predict` models the service when no model is loaded.
- PDF text extraction with pdfplumber (backend/app/main.py:58-67): a foreign library. Its outcome for the uploaded bytes is a parameter of `Endpoints.Predict`.
- The completion-service client, `.env` loading, CORS, routing and `/health` (backend/app/main.py:30-55, 134-136, 197-211, 238-259): I/O and third-party code. The outcome of the completion call is a parameter of `Endpoints.FinishChat`.
- Letter case: `Text.Lower` and `Text.Title` change only ASCII letters; Python also re-cases other Unicode letters. Every keyword is ASCII, but Python's `lower()` maps some other characters onto ASCII letters, so matching can differ for such text: U+212A KELVIN SIGN lowers to "k" (so "Kafka" written with it matches `kafka` in Python and not in the model), and U+0130 lowers to "i" followed by U+0307.
- Floating point: confidences are exact (`conf100` hundredths on the backend, a `real` in the browser). Each confidence the heuristic produces is a two-place value, so the thresholds and rounding come out the same.
- JSON: session storage holds analysis values instead of their JSON text. A response `detail` is modelled as a string, empty when it is absent or falsy.
- `fetch`, toasts, `navigate`, `console.error` and the browser storages themselves: they are replaced by parameters, logged fields and map fields. Async interleaving is not modelled beyond splitting each handler at its `await`.
- Unmounting on navigation: navigating to "/result" leaves the upload route, so React discards the upload page and its selected file. The model's `UploadPage.Page` outlives the navigation.
- The settings-panel toggle, `isOpen`/`onClose`, JSX rendering, CSS classes and the file-size display (src/pages/Upload.tsx:169): presentation only.
- The `Home`, `About`, `Navbar` and `ChatbotIcon` components: static content, route highlighting and timer-driven UI.
- Classifier.ClassifyBounds: states only that "General" implies the default skills, not the converse. The converse holds only because no table keyword lower-cases to "communication" or "teamwork"; the source promises nothing about it, so it is not stated.
- Classifier.ExtractSkillsFallback: states the same one direction, for the same reason.
