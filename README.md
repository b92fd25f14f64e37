# Study assistant: client session, pages and AI processing

A model of the core of a study assistant. The browser client lets a user
sign up, log in and upload documents. From there the user can ask the
backend for a summary or a deck of flashcards, and step through the deck.
The backend produces summaries and flashcards by calling the `gemini`
command-line program. When that fails it falls back to local text models
that work on chunks of the document.

The model is split into modules:

- `Wrappers`: the shared `Option`.
- `Js`: JavaScript values, truthiness, string conversion, property reads that may throw, and `localStorage` as a class over a `map`.
- `PyStr`: the Python string operations the backend uses (`split()`, `strip()`, `split(sep)`, `split(sep, 1)`, `in`, `replace`), each with its characterising lemmas.
- `Api`: `apiService.js`. It covers:
  - the request builder with its token gate;
  - how a reply settles into a value or an exception;
  - `login`, `signup` and `uploadDocument`;
  - the per-endpoint routes.
- `Auth`: `AuthContext.jsx`, the session store. It is a class whose methods update `user`, `token`, `loading` and storage.
- `DashboardPage`: `Dashboard.jsx`, the document list page. It is a class over the page state, with one method per handler.
- `StudyPage`: `StudyView.jsx`, the study page. It covers:
  - document, summary and flashcard loading;
  - the card cursor, which wraps around in both directions;
  - flipping a card.
- `Ai`: `ai.py`. It covers:
  - `chunk_text`, as a loop proved against a recursive specification;
  - parsing of gemini and local-model output;
  - the two hybrid processing functions.
- `GeminiCli`: the shell command line built for flashcard generation. It holds the finding below.

Network replies, `gemini` runs and local-model outputs are parameters of
the operations that await them. The requests a handler sends are its
results. Each asynchronous handler runs as one step.

## Model

| member | source | states |
|---|---|---|
| Js.Property | frontend/src/services/apiService.js:31 | reading a key of a non-nullish value gives the object's entry, or `undefined` when there is none |
| Js.Get | frontend/src/pages/StudyView.jsx:46 | a property read throws exactly when the value is `null` or `undefined`; otherwise it gives the property |
| Js.MessageOr | frontend/src/pages/Dashboard.jsx:23 | `err.message \|\| fallback`: the message when it is non-empty, the fallback when it is empty, so never empty when the fallback is not |
| Js.LocalStorage.GetItem | frontend/src/services/apiService.js:10 | a stored key gives its value; a missing key gives nothing |
| Js.LocalStorage.SetItem | frontend/src/services/apiService.js:67 | the key maps to the new value and no other entry changes |
| Js.LocalStorage.RemoveItem | frontend/src/context/AuthContext.jsx:61 | the key is gone and no other entry changes |
| PyStr.Words | backend/core/ai.py:28 | `split()` yields only non-empty tokens without whitespace |
| PyStr.WordsEmptyIffBlank | backend/core/ai.py:28 | `split()` yields no tokens exactly when the text is all whitespace |
| PyStr.WordsOfJoin | backend/core/ai.py:33 | splitting tokens joined by single spaces gives back the same tokens |
| PyStr.LStripSpec | backend/core/ai.py:35 | left strip removes a whitespace prefix and leaves a suffix that is empty or starts with non-whitespace |
| PyStr.RStripSpec | backend/core/ai.py:35 | right strip removes a whitespace suffix and leaves a prefix that is empty or ends with non-whitespace |
| PyStr.StripSpec | backend/core/ai.py:35 | `strip()` keeps a contiguous piece with only whitespace cut off at both ends; it is empty exactly when the text is blank, and otherwise starts and ends with non-whitespace |
| PyStr.StripPiece | backend/core/ai.py:35 | the stripped text is a contiguous piece of the input followed only by whitespace |
| PyStr.StripEmpty | backend/core/ai.py:37-38 | the stripped text is empty exactly when the input is blank |
| PyStr.StripEdges | backend/core/ai.py:35 | a non-empty stripped text starts and ends with non-whitespace |
| PyStr.Find | backend/core/ai.py:78 | a found index is a position where the pattern occurs |
| PyStr.FindIsFirst | backend/core/ai.py:78 | a found index is the first occurrence; no index means no occurrence anywhere |
| PyStr.SplitFirst | backend/core/ai.py:79 | `split(sep, 1)` fails exactly when `sep` does not occur; otherwise the pieces rebuild the text around the first occurrence, which `Find` locates |
| PyStr.SplitOn | backend/core/ai.py:76 | `split(sep)` gives at least one piece; no piece contains `sep`; joining the pieces with `sep` gives back the text |
| PyStr.RemoveAll | backend/core/ai.py:108 | removing a pattern never lengthens the text and leaves a text without it unchanged |
| PyStr.RemoveAllJoinsSplit | backend/core/ai.py:108 | `s.replace(p, "")` is `"".join(s.split(p))`: exactly the occurrences that `split` cuts at, found left to right, are deleted and everything between them is kept in order |
| PyStr.BlankReplaceChar | backend/core/ai.py:28 | padding punctuation with a space keeps a text blank exactly when it was blank |
| Ai.FlatMapAppend | backend/core/ai.py:155-158 | extending a list chunk by chunk gives the cards of the first chunks followed by those of the rest |
| Ai.ChunkText | backend/core/ai.py:23-39 | the loop computes the recursive chunking; the chunks' tokens are exactly the padded text's tokens in order; no chunks exactly for blank text; every chunk of two or more tokens is shorter than the limit |
| Ai.ChunkerCovers | backend/core/ai.py:31-38 | from any current chunk, the emitted chunks hold the current tokens followed by all remaining tokens |
| Ai.ChunkerBounded | backend/core/ai.py:32-36 | a chunk of two or more tokens is always shorter than the limit |
| Ai.ChunkerNonEmpty | backend/core/ai.py:31-38 | once a token has been taken, at least one chunk is emitted and none of them is empty |
| Ai.ChunksCoverSentences | backend/core/ai.py:28-39 | the chunks' tokens, in order, are the tokens of the text after a space is put after each `.`, `?` and `!` |
| Ai.ChunksBounded | backend/core/ai.py:32-36 | only a single overlong token can make a chunk reach the limit |
| Ai.ChunksShape | backend/core/ai.py:29-39 | no chunks exactly when there are no tokens; the first chunk is empty exactly when the first token is not shorter than the limit; no later chunk is empty |
| Ai.ChunksEmptyIffBlank | backend/core/ai.py:28-39 | no chunks exactly when the text is all whitespace |
| Ai.SummaryWithGemini | backend/core/ai.py:42-56 | succeeds exactly when the CLI exits with 0, and then gives its stripped output |
| Ai.CardOfSplitsAtFirstAnswer | backend/core/ai.py:78-80 | a piece gives a card exactly when it contains `A: `; the question is the stripped text before the first `A: ` and the answer the stripped rest |
| Ai.CardList | backend/core/ai.py:78-80 | a piece gives at most one card |
| Ai.ParseGeminiCards | backend/core/ai.py:74-81 | the loop gives the cards of the pieces of the stripped output split at `Q: `, in order, and never more cards than pieces |
| Ai.AllAnsweredMeans | backend/core/ai.py:78 | every piece is answered exactly when each one contains `A: ` |
| Ai.CardsOfLength | backend/core/ai.py:76-80 | there are as many cards as pieces exactly when every piece contains `A: ` |
| Ai.FlashcardsWithGemini | backend/core/ai.py:58-81 | runs the command as written, which loses the prompt of a document containing `"` and carries it intact for a document without `"`, `\`, `$` or `` ` ``; the call succeeds exactly when the CLI exits with 0, and then gives the parsed cards of its output |
| Ai.ParseLocalCard | backend/core/ai.py:106-113 | a local-model output gives at most one card |
| Ai.LocalCardSplitsAtFirstAnswer | backend/core/ai.py:106-113 | no card exactly when `answer:` is missing; otherwise the question is the text before the first `answer:`, with `question:` removed and stripped, and the answer the stripped rest |
| Ai.LocalCards | backend/core/ai.py:101-113 | one chunk's local-model output gives at most one card, and none exactly when the output lacks `answer:` |
| Ai.FallbackCards | backend/core/ai.py:154-158 | the chunks' cards concatenated in chunk order give at most one card per chunk |
| Ai.CollectLocalCards | backend/core/ai.py:155-158 | the extend loop gives exactly the chunks' cards in chunk order, at most one per chunk |
| Ai.Summaries | backend/core/ai.py:133 | one summary per chunk, in chunk order |
| Ai.ProcessDocumentForSummary | backend/core/ai.py:116-136 | gemini's stripped output when it succeeds; otherwise an error if no local model loaded; otherwise the chunk summaries joined by spaces, which is empty for a blank document |
| Ai.ProcessDocumentForFlashcards | backend/core/ai.py:138-160 | runs the gemini command as written, with the same loss of a prompt containing `"`; the result is gemini's parsed cards when it succeeds; otherwise an error if no local model loaded; otherwise the chunks' cards in order, at most one per chunk |
| Api.BaseUrl | frontend/src/services/apiService.js:1 | a configured non-empty base URL wins; otherwise `http://localhost:8000` |
| Api.HasToken | frontend/src/services/apiService.js:10-11 | the gate is open exactly when `getItem('token')` gives a truthy string |
| Api.Settle | frontend/src/services/apiService.js:25-38 | a reply settles to its JSON body exactly when it is OK and parses; network and parse errors are re-thrown; a non-OK body throws its truthy `detail` or the fallback |
| Api.ErrorMessageChoice | frontend/src/services/apiService.js:29-32 | a non-OK body without `detail` throws the fallback; one with a non-empty string `detail` throws that |
| Api.Request | frontend/src/services/apiService.js:4-39 | a gated request without a stored token sends nothing and throws `Authentication token not found.`; otherwise it sends to base URL plus endpoint, with a JSON body only for truthy data and a Bearer header only when gated, and settles the reply |
| Api.LoginOutcome | frontend/src/services/apiService.js:57-74 | login succeeds exactly on an OK parsed reply whose body is not nullish, giving that body; a nullish body throws on the `access_token` read; every failure of the reply is thrown as is |
| Api.StoredToken | frontend/src/services/apiService.js:66-68 | a token is stored exactly when login succeeds with a truthy `access_token`, and the stored text is that token's string form |
| Api.Login | frontend/src/services/apiService.js:42-75 | sends the form-encoded credentials to `/auth/login`; storage changes only by the stored token |
| Api.UploadOutcome | frontend/src/services/apiService.js:89-113 | an upload without a token throws before sending; with one, the outcome is the reply settled with the fallback `Document upload failed.`, success and failure alike |
| Api.UploadDocument | frontend/src/services/apiService.js:83-114 | a request goes out exactly when a token is stored, as a multipart body with a Bearer header |
| Api.Route | frontend/src/services/apiService.js:77-135 | every endpoint except signup is gated; only signup carries a body, its email and password |
| Api.CallOutcome | frontend/src/services/apiService.js:4-39 | a gated call without a token throws the missing-token error; an ungated call, or a gated one with a token, has the reply settled with the request fallback as outcome, success and failure alike |
| Api.Invoke | frontend/src/services/apiService.js:77-135 | a request is sent exactly when the gate is open, to the route's path and verb, and the outcome is the call's outcome |
| Auth.LoginWithoutAccessToken | frontend/src/context/AuthContext.jsx:29-31 | a login reply without `access_token` stores the text `undefined`, which opens the request gate while the session is not authenticated |
| Auth.AuthProvider.IsAuthenticated | frontend/src/context/AuthContext.jsx:67 | authenticated exactly when the token is truthy; then a token is stored, and it opens the request gate unless it is an array |
| Auth.AuthProvider.constructor | frontend/src/context/AuthContext.jsx:7-11 | the token starts as the stored one or `null`; no user; loading |
| Auth.AuthProvider.Mount | frontend/src/context/AuthContext.jsx:13-23 | a non-empty stored token is adopted with the placeholder user; otherwise nothing changes; loading ends |
| Auth.AuthProvider.Login | frontend/src/context/AuthContext.jsx:25-42 | on success the reply's token goes to storage and state, the user is `{ email }` and the dashboard is shown; on failure the error is re-thrown and only loading changes |
| Auth.AuthProvider.Signup | frontend/src/context/AuthContext.jsx:44-58 | a JSON `POST /auth/signup` whose body holds the email and password; once that succeeds, exactly one more request, the form-encoded `POST /auth/login` with the same credentials, whether or not login then succeeds; a failure of either is re-thrown with session and storage unchanged |
| Auth.AuthProvider.Logout | frontend/src/context/AuthContext.jsx:60-65 | the token leaves storage and state, the user is cleared, the login page is shown, and the session is no longer authenticated |
| DashboardPage.Dashboard.UploadEnabled | frontend/src/pages/Dashboard.jsx:92 | upload is enabled exactly when a file is chosen and no upload is running |
| DashboardPage.Dashboard.constructor | frontend/src/pages/Dashboard.jsx:9-14 | empty list, loading, no errors, no file |
| DashboardPage.Dashboard.FetchDocuments | frontend/src/pages/Dashboard.jsx:16-27 | success replaces the list and clears the error; failure keeps the list and sets the error; loading ends |
| DashboardPage.Dashboard.HandleFileChange | frontend/src/pages/Dashboard.jsx:33-37 | the first chosen file becomes the selection; no file keeps the old one |
| DashboardPage.Dashboard.HandleUpload | frontend/src/pages/Dashboard.jsx:39-56 | without a file only the upload error is set; a successful upload clears the selection and refetches the list; a failed one keeps both and sets the upload error |
| DashboardPage.Dashboard.HandleDelete | frontend/src/pages/Dashboard.jsx:58-67 | unconfirmed does nothing; a successful delete sends `DELETE /documents/{id}` and refetches the list; a failure sets the list's error and keeps the list |
| StudyPage.DeckLength | frontend/src/pages/StudyView.jsx:144 | `flashcards.length`: the deck has cards exactly when it is a non-empty array or string, and an array's length is its number of cards |
| StudyPage.StudyView.CardShown | frontend/src/pages/StudyView.jsx:82-144 | a card is shown only when the document is loaded and the cursor points into a non-empty deck at a truthy card |
| StudyPage.StudyView.NavEnabled | frontend/src/pages/StudyView.jsx:167-173 | the previous and next buttons are enabled only for a shown card in a deck of two or more, and then each moves the cursor to another card |
| StudyPage.CardAt | frontend/src/pages/StudyView.jsx:99 | an index outside the deck reads `undefined`; inside an array deck, the card at that index |
| StudyPage.NextIndex | frontend/src/pages/StudyView.jsx:72 | the next index stays in the deck, moves forward by one, and wraps from the last card to the first |
| StudyPage.PrevIndex | frontend/src/pages/StudyView.jsx:79 | the previous index stays in the deck, moves back by one, and wraps from the first card to the last |
| StudyPage.PrevAfterNext | frontend/src/pages/StudyView.jsx:69-81 | previous after next returns to the same card |
| StudyPage.NextAfterPrev | frontend/src/pages/StudyView.jsx:69-81 | next after previous returns to the same card |
| StudyPage.Advance | frontend/src/pages/StudyView.jsx:72 | any positive number of next steps stays in the deck |
| StudyPage.AdvanceMoves | frontend/src/pages/StudyView.jsx:72 | up to a full round of next steps moves forward by that many cards, modulo the deck size |
| StudyPage.FullCycle | frontend/src/pages/StudyView.jsx:72 | a full round of next steps returns to the starting card |
| StudyPage.SummaryFrom | frontend/src/pages/StudyView.jsx:45-46 | a failed call passes through; a nullish body throws on the property read; otherwise the summary is the body's `summary` property |
| StudyPage.DeckFrom | frontend/src/pages/StudyView.jsx:58-59 | a failed call passes through; a nullish body throws; otherwise the deck is the body's `flashcards` when that is truthy and `[]` when it is not |
| StudyPage.SummaryTextIsNotRead | frontend/src/pages/StudyView.jsx:46 | a reply shaped like the backend's summary record, which holds `summary_text`, yields an `undefined` summary |
| StudyPage.BareCardListGivesEmptyDeck | frontend/src/pages/StudyView.jsx:59 | a reply that is a bare list of cards, as the backend sends, yields an empty deck |
| StudyPage.StudyView.constructor | frontend/src/pages/StudyView.jsx:7-21 | no document, loading it; no summary; an empty deck at card 0, not flipped; no errors |
| StudyPage.StudyView.FetchDocument | frontend/src/pages/StudyView.jsx:23-35 | a falsy id does nothing; otherwise `GET /documents/{id}` goes out when a token is stored, success stores the document and a failure keeps it and sets the error; loading ends |
| StudyPage.StudyView.ChangeDocument | frontend/src/pages/StudyView.jsx:37-39 | the same id sends nothing; a new truthy id fetches that document with the outcomes of FetchDocument; summary, deck, cursor and flip state are untouched |
| StudyPage.StudyView.HandleSummarize | frontend/src/pages/StudyView.jsx:41-52 | sends `POST /ai/summarize/{id}` exactly when a token is stored; success stores the summary, failure keeps it and sets the error |
| StudyPage.StudyView.HandleGenerateFlashcards | frontend/src/pages/StudyView.jsx:54-67 | sends `POST /ai/generate-flashcards/{id}` exactly when a token is stored; success installs the deck at card 0, unflipped; failure keeps deck and cursor and sets the error |
| StudyPage.StudyView.NextFlashcard | frontend/src/pages/StudyView.jsx:69-74 | the cursor moves to the next card, wrapping, and the card shows its question |
| StudyPage.StudyView.PrevFlashcard | frontend/src/pages/StudyView.jsx:76-81 | the cursor moves to the previous card, wrapping, and the card shows its question |
| StudyPage.StudyView.Flip | frontend/src/pages/StudyView.jsx:150 | flipping a shown card toggles between question and answer |
| GeminiCli.FlashcardCommandAsWritten | backend/core/ai.py:62-64 | the command as written is the prompt put between double quotes unchanged, because the `replace` replaces `"` by itself |
| GeminiCli.ReplaceCharBySelf | backend/core/ai.py:64 | replacing a character by itself leaves the text unchanged |
| GeminiCli.UnquoteShrinks | backend/core/ai.py:64 | the shell reading a double-quoted word needs a backslash for each `"` it keeps, so word, quotes and rest are shorter than the input |
| GeminiCli.AsWrittenLosesQuotedText | backend/core/ai.py:62-64 | with a `"` in the document, the command as written never hands `gemini` the prompt |
| GeminiCli.QuotedWordBreaksCommand | backend/core/ai.py:62-64 | the document `say "hi"` is one such input |
| GeminiCli.AsWrittenCarriesPlainText | backend/core/ai.py:62-64 | for a document without `"`, `\`, `$` or `` ` ``, the shell reading the command as written hands `gemini` the prompt intact |
| GeminiCli.UnquoteEscape | backend/core/ai.py:64 | the shell reads a prompt escaped for double quotes back exactly |
| GeminiCli.FlashcardCommandCarriesPrompt | backend/core/ai.py:62-64 | with the prompt escaped, `gemini` receives the whole prompt whatever the document holds |

## Left out

- The network, `fetch`, `response.json()`, environment variables and the local model pipelines are parameters. So are the `gemini` runs (exit status and output).
- Only integer JSON numbers are modelled. There is no floating point.
- `console.error`, Python logging and the stderr text in gemini error messages are left out.
- The Dashboard's DOM reset of the file input (frontend/src/pages/Dashboard.jsx:49) is not modelled.
- Concurrency is not modelled. Each async handler runs to completion as one step, so React state updates that interleave across awaits are not captured.
- React rendering is reduced to the guards the handlers and buttons depend on: shown card, navigation enabled, upload enabled.
- Routers, database models, the FastAPI backend and authentication on the server side are not part of this model. Only their reply shapes appear, as inputs.
- UTF-8 decoding of the CLI output is assumed to succeed. The text is a `string`.
- StudyPage.DeckLength: a deck that is an object is treated as length 0. A JavaScript object with a numeric `length` property is not modelled. A deck that is a string is measured and indexed by Unicode code points, whereas JavaScript counts UTF-16 code units, so a string deck holding characters outside the Basic Multilingual Plane would differ.
- GeminiCli.Unquote: every unescaped `$` is treated as the start of an expansion. The shell would keep a few literally, such as `$` before a space. This only makes the command as written fail on more inputs and does not affect the corrected command, which escapes every `$`.
- GeminiCli.Argument: a command in which more text follows the first unescaped closing quote gives no argument. The shell would join that text to the word, and split it at unquoted blanks. A prompt with `"` still does not arrive intact under that reading, because each `"` the shell keeps needs a backslash. The model does not prove this for the joined reading.
- The 150 ms `setTimeout` around the index change (frontend/src/pages/StudyView.jsx:71 and 78) is not modelled. NextFlashcard and PrevFlashcard unflip the card and move the index in one step.
- GeminiCli.AsWrittenCarriesPlainText: the model covers how the shell reads the quoted word, not process creation. A document holding a NUL character, or a prompt longer than the kernel allows for one argument, makes starting the process fail, and the code then falls back to the local model.
- `summarize_text_with_gemini` passes the text on stdin. Its command line is a constant and is not part of the shell model.
- Auth.AuthProvider.IsAuthenticated: for an array token the contract states only that a token is stored, not that it opens the request gate. The string form of an array of empty strings is empty.
- In these places the code as written does something a reader might not expect, and the model follows the code:
  - A non-OK reply whose body does not parse re-throws the parse error from `response.json()` rather than the fallback message, because the parse comes before the `ok` test (frontend/src/services/apiService.js:26-31).
  - A failed delete writes the list page's shared `error` slot, the same one the document fetch uses (frontend/src/pages/Dashboard.jsx:64).
  - Changing the document on the study page refetches the document only and does not reset the summary, deck or cursor (frontend/src/pages/StudyView.jsx:23-39).
  - `chunk_text` emits an empty first chunk when the first token is not shorter than the limit, because the empty current chunk is appended stripped (backend/core/ai.py:32-36).

## Findings

| source | as written | input that shows it | evidently intended | confidence | as-written member | corrected member |
|---|---|---|---|---|---|---|
| backend/core/ai.py:62-64 | `.replace('"', '\"')` replaces each `"` with the one-character string `"`, so the prompt goes into the double-quoted shell word unescaped | a document containing `"`, for instance `say "hi"` | the prompt is escaped for double quotes so that `gemini` receives it verbatim; unescaped, the same `"`, `$` and `` ` `` also let document text run shell commands of its own | high, not executed | GeminiCli.AsWrittenLosesQuotedText | GeminiCli.FlashcardCommandCarriesPrompt |
