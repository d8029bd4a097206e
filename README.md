# quizly quiz-generation core, in Dafny

This project models `quizzes/functions.py` of quizly, a Django service that
turns a YouTube video into a multiple-choice quiz. A request goes through
these steps:

1. yt-dlp downloads the audio track.
2. Whisper transcribes it, and the audio file is removed.
3. Gemini is asked for a quiz in JSON with a fixed prompt that ends in the
   transcript.
4. The answer is cleaned of markdown code fences, parsed, and has its
   question keys renamed to match the stored `Question` record.

The project is organised in modules:

- `Strings` (strings.dfy): the parts of Python's `str` the code relies on.
  These are `isspace` (its full character set), `strip`, `startswith`,
  `endswith` and the substring test `in`.
- `Results`, `Json` (results.dfy, json.dfy): exceptions as a `Result` value,
  and JSON values as `json.loads` returns them.
- `Fences` (fences.dfy): `clean_json_response`, with its round trip and its
  slice and whitespace properties.
- `Normalize` (normalize.dfy): `normalize_question_keys`. It is a
  specification function over every shape `json.loads` can return, plus the
  loop that computes it, proved against it.
- `Prompt` (prompt.dfy): the prompt builder and its helpers.
- `Download` (download.dfy): the yt-dlp options and the output template.
- `Pipeline` (pipeline.dfy): the control flow, in a class `Host`.
  - `files` is the set of paths on disk and `calls` the log of every
    outside call, in order.
  - yt-dlp, Whisper, the Gemini client and `json.loads` are fixed functions
    the host is given.
  - Each method states its result, the new file set and the calls it added.

A raised exception is an `Err` result. `ValueError`, `AttributeError` and
`TypeError` are those raised by Python itself. `ExternalError` stands for
whatever a library raises.

The docstring of `clean_json_response` (quizzes/functions.py:181) speaks of
removing markdown code blocks in general, but the code removes only a "```json" tag or a bare "```"; it does
not remove any language tag. After "```python" only the backticks go, and
"python" stays at the front of the text that is parsed
(`Fences.OtherLanguageTagKept`).

## Model

| member | source | states |
|---|---|---|
| `Strings.Strip` | quizzes/functions.py:189 | `str.strip()` leaves no whitespace at either end. |
| `Strings.StripIsSlice` | quizzes/functions.py:189 | The stripped text is a contiguous slice of its argument and never longer. |
| `Strings.StripPadded` | quizzes/functions.py:196 | Stripping whitespace padding around stripped text gives back exactly that text. |
| `Strings.StripStripped` | quizzes/functions.py:196 | Text with no whitespace at either end is a fixed point of `strip`. |
| `Fences.RemovePrefix` | quizzes/functions.py:190-193 | When the text starts with the marker, marker plus result is the text; otherwise the text is kept. Either way the result is a slice of the text. |
| `Fences.RemoveSuffix` | quizzes/functions.py:194-195 | When the text ends with the marker, result plus marker is the text; otherwise the text is kept. Either way the result is a slice of the text. |
| `Fences.CleanJsonResponse` | quizzes/functions.py:179-196 | The cleaned answer has no whitespace at either end. |
| `Fences.CleanJsonResponseIsSlice` | quizzes/functions.py:179-196 | The cleaned answer is a contiguous slice of the response, so never longer. |
| `Fences.UnfencedOnlyStripped` | quizzes/functions.py:189-196 | With no "```" at either end after stripping, cleaning only strips the whitespace. |
| `Fences.UnfencedStrippedUnchanged` | quizzes/functions.py:189-196 | Already-stripped text without fences comes back unchanged. |
| `Fences.JsonFenceRemoved` | quizzes/functions.py:190-196 | "```json", whitespace, text, "```": both markers go and the inside is stripped. |
| `Fences.TightJsonFenceRemoved` | quizzes/functions.py:190-196 | "```json" directly followed by a stripped body and "```" cleans to the body, when what follows the tag does not start with "```". |
| `Fences.CleanTightFencedObject` | quizzes/functions.py:189-196 | "```json{\"key\": \"value\"}```", with no newlines, cleans to the object. |
| `Fences.BareFenceRemoved` | quizzes/functions.py:192-196 | "```", text not starting with "j", "```": both markers go and the inside is stripped. |
| `Fences.FencedRoundTrip` | quizzes/functions.py:179-196 | Cleaning undoes wrapping stripped text in a "```json" or "```" fence with whitespace inside it. |
| `Fences.CleanFencedObject` | quizzes/tests.py:208-212 | The fenced one-pair object is cleaned to `{"key": "value"}` exactly. |
| `Fences.CleanUnfencedObject` | quizzes/tests.py:214-218 | The unfenced object is returned unchanged. |
| `Fences.OtherLanguageTagKept` | quizzes/functions.py:190-193 | A "```python" fence loses only its backticks; the tag stays in the text handed to the parser. |
| `Normalize.RenameKey` | quizzes/functions.py:210-213 | `d[to] = d.pop(from)`: the old key is gone, the new key holds its value, and every other key keeps its presence and value; without the old key nothing changes. |
| `Normalize.RenameQuestionKeys` | quizzes/functions.py:210-213 | Both renamings at once: "question_title" and "question_options" are gone, their values are under "question" and "options", and every other key is untouched. |
| `Normalize.NormalizedQuestion` | quizzes/functions.py:210-213 | The loop body on one element. A dict has its keys renamed. A str raises AttributeError when it contains a key name (`str.pop`) and is otherwise kept. A list raises TypeError when it holds a key name (`list.pop` with a str) and is otherwise kept. Any other value raises TypeError from `in`. |
| `Normalize.NormalizedQuestions` | quizzes/functions.py:209-213 | The loop over a questions list: every element normalised, in order, or the exception of the first element that raises. |
| `Normalize.NormalizedQuiz` | quizzes/functions.py:199-214 | The whole function on a parsed value. A non-dict raises AttributeError from `.get`. A dict without "questions" is returned as it is. A list of questions is normalised element by element. A str of questions is returned as it is. A dict of questions raises AttributeError when one of its keys mentions a renamed key. Any other value raises TypeError from iteration. |
| `Normalize.StrQuestionsOutcome` | quizzes/functions.py:209-213 | Looping over strs raises AttributeError exactly when one of them contains a key name, and otherwise leaves them all alone. |
| `Normalize.StrOfQuestionsUnchanged` | quizzes/functions.py:209-210 | Looping over the one-character strs of a str of questions changes nothing, which justifies the str case of `NormalizedQuiz`. |
| `Normalize.DictOfQuestionsAnyOrder` | quizzes/functions.py:209-210 | Looping over the keys of a dict of questions, in any order, gives exactly the outcome `NormalizedQuiz` gives for that dict. |
| `Normalize.NormalizeQuestionKeys` | quizzes/functions.py:199-214 | The loop over the questions returns exactly what the specification function `NormalizedQuiz` gives, errors included. |
| `Normalize.NormalizedQuestionsOk` | quizzes/functions.py:209-213 | A successful pass keeps the number and order of questions and normalises each one where it stands. |
| `Normalize.NormalizedQuestionsFirstError` | quizzes/functions.py:209-213 | The pass fails with the exception of the first question that raises. |
| `Normalize.QuestionKeysRenamed` | quizzes/tests.py:220-233 | Each question dict in the result is its renamed form, so "question" and "options" carry the old values and "question_title" is gone. |
| `Normalize.NormalizeChangesOnlyQuestionKeys` | quizzes/functions.py:209-214 | Top-level keys and values other than the questions are kept; the list keeps its length and order; non-dict questions and a quiz without a questions list come back unchanged. |
| `Normalize.CharacterQuestionsUnchanged` | quizzes/functions.py:209-210 | Iterating a str gives one-character strs, which never hold a key name, so nothing changes. |
| `Normalize.NonDictQuizRejected` | quizzes/functions.py:209 | A quiz that is not a dict has no `.get`, so the call raises AttributeError. |
| `Normalize.WellShapedQuizNormalizes` | quizzes/functions.py:199-214 | A dict whose questions, if present, are a list of dicts is always normalised without an exception. |
| `Normalize.RenameKeyInverse` | quizzes/functions.py:211 | Renaming a key back undoes the renaming when the new key was unused. |
| `Normalize.RenamedQuestionIsFixed` | quizzes/functions.py:210-213 | Renaming the keys of a renamed question changes nothing. |
| `Normalize.NormalizedQuestionsIdempotent` | quizzes/functions.py:209-213 | A second pass over a normalised questions list changes nothing. |
| `Normalize.NormalizeIdempotent` | quizzes/functions.py:199-214 | Normalising a normalised quiz gives the same quiz. |
| `Normalize.NormalizeExample` | quizzes/tests.py:220-233 | The test's own quiz, one question with a title and four options, comes back keyed "question" and "options", with "question_title" gone. |
| `Prompt.PromptHeader` | quizzes/functions.py:71-82 | The exact header literal. |
| `Prompt.QuizStructureDict` | quizzes/functions.py:85-107 | The exact example quiz dict: title, description, and one question with "question_title", four "question_options" and "answer". |
| `Prompt.PromptStructure` | quizzes/functions.py:110-121 | The exact `json.dumps(..., indent=2)` text of that dict, followed by "\n    ...\n    (exactly 10 questions)". |
| `Prompt.PromptRequirements` | quizzes/functions.py:124-139 | The exact requirements literal. |
| `Prompt.BuildGeminiPrompt` | quizzes/functions.py:160-176 | The f-string: header, blank line, structure, newline, requirements, blank line, "Transcript:\n", then the transcript. |
| `Prompt.HeaderAsksForJson` | quizzes/functions.py:71-82 | The header contains "JSON format". |
| `Prompt.StructureAsksForTenQuestions` | quizzes/functions.py:110-121 | The structure block contains "10 questions". |
| `Prompt.RequirementsAskForFourOptions` | quizzes/functions.py:124-139 | The requirements contain "exactly 4 distinct answer options". |
| `Prompt.SchemaNormalizesToPersistedKeys` | quizzes/functions.py:85-107 | Normalising the example quiz shown to the model gives one question keyed "question", "options", "answer". |
| `Prompt.AssembleJoined` | quizzes/functions.py:173-175 | Joining header, blank line, structure, newline, requirements, blank line and "Transcript:\n" gives the f-string layout. |
| `Prompt.AssembleKeepsParts` | quizzes/functions.py:173-175 | Whatever a part contains, the assembled text contains too, and it ends with "Transcript:\n". |
| `Prompt.PreambleContents` | quizzes/functions.py:170-175 | The text before the transcript contains "JSON format", "10 questions" and "exactly 4 distinct answer options", and ends with "Transcript:\n". |
| `Prompt.PromptContents` | quizzes/functions.py:160-176 | The prompt ends with "Transcript:\n" and the transcript verbatim, contains the transcript, and contains "JSON format", "10 questions" and "exactly 4 distinct answer options". |
| `Prompt.TranscriptRecoverable` | quizzes/functions.py:173-176 | The prompt is the fixed preamble followed by the transcript, which can be read back from it. |
| `Prompt.PromptDeterminesTranscript` | quizzes/functions.py:173-176 | Equal prompts come from equal transcripts. |
| `Download.YoutubeDownloadOpts` | quizzes/functions.py:16-35 | Exactly eight keys: format "bestaudio/best", "outtmpl" the given path, the five quiet/single-video flags true, and "logger" None. |
| `Download.OptsDependOnlyOnPath` | quizzes/functions.py:26-35 | Two option sets are equal if and only if their paths are, and they differ in "outtmpl" alone. |
| `Download.OptsForFixturePath` | quizzes/tests.py:201-206 | For "/path/to/output" the options say best audio, that path, and quiet. |
| `Download.OutputTemplate` | quizzes/functions.py:48-50 | The template is the media root, then "/temp_audio/%(id)s.%(ext)s". |
| `Pipeline.DownloadOpts` | quizzes/functions.py:48-52 | The options `download_youtube_audio` hands to yt-dlp carry its output template. |
| `Pipeline.ParsedQuiz` | quizzes/functions.py:254-255 | A parse error is the result; any quiz returned is already normalised. |
| `Pipeline.QuizFromResponse` | quizzes/functions.py:253-255 | The answer is cleaned before it is parsed; a parse error is the result; any quiz returned is normalised. |
| `Pipeline.QuizFromPrompt` | quizzes/functions.py:252-257 | A Gemini error is the result; otherwise the result is clean, then parse, then normalise of Gemini's answer for the fixed model, and it is normalised. |
| `Pipeline.GeneratedQuiz` | quizzes/functions.py:235-257 | `generate_quiz_with_gemini` on values: ValueError("GEMINI_API_KEY is not set") for an empty key, otherwise Gemini's answer to the prompt for the transcript, cleaned, parsed and normalised. |
| `Pipeline.GenerationCalls` | quizzes/functions.py:248-252 | The outside calls it makes: none for an empty key, otherwise one request to "gemini-2.5-flash" with that prompt. |
| `Pipeline.GeneratedQuizOutcome` | quizzes/functions.py:248-249 | With an empty key the result is ValueError("GEMINI_API_KEY is not set") and no call is made; any quiz returned is normalised. |
| `Pipeline.FencedAnswerParsedInside` | quizzes/functions.py:253-254 | A fenced answer is parsed from the text inside the fence. |
| `Pipeline.UnfencedAnswerParsedStripped` | quizzes/functions.py:253-254 | An unfenced answer is parsed once stripped. |
| `Pipeline.GeneratedFromFencedAnswer` | quizzes/functions.py:248-257 | With a key and a "```json"-fenced answer, the quiz is the parse and normalise of the text inside the fence. |
| `Pipeline.Host.CleanupAudioFile` | quizzes/functions.py:60-68 | The path is absent afterwards and no other file changes; `os.remove` is called only if the path was on disk. |
| `Pipeline.Host.DownloadYoutubeAudio` | quizzes/functions.py:38-57 | One download with the fixed options; its outcome is returned, and on success the file is on disk. |
| `Pipeline.Host.TranscribeAudio` | quizzes/functions.py:142-157 | Whisper's outcome is returned; cleanup runs exactly once, after transcription, on success and on failure, and the file is gone. |
| `Pipeline.Host.CallGeminiApi` | quizzes/functions.py:217-232 | One request to "gemini-2.5-flash" with the prompt and the configured key; its answer is returned. |
| `Pipeline.Host.QuizForPrompt` | quizzes/functions.py:252-257 | One Gemini call, then clean, parse and normalise through the loop; the result is `QuizFromPrompt`'s and no file changes. |
| `Pipeline.Host.GenerateQuizWithGemini` | quizzes/functions.py:235-257 | Without a key: ValueError and no call. Otherwise one Gemini call with the prompt for the transcript, and the quiz the composed stages give. No file changes. |
| `Pipeline.Host.DownloadAndTranscribe` | quizzes/functions.py:271-272 | Download, then transcription of the downloaded file; the first failure ends it, and the downloaded file is gone afterwards. |
| `Pipeline.Host.CreateQuizFromUrl` | quizzes/functions.py:260-274 | Download, transcribe and generate run at most once each, in that order, each fed the previous result. The first failure is returned. Generate's result is returned unchanged. The audio file is gone afterwards. |

## Left out

- Dict key order: JSON objects are maps, so the move of a renamed key to
  the end of the dict is not modelled.
- Object identity: `normalize_question_keys` mutates the parsed dicts in
  place and returns the same object. The model returns a new value equal
  to the mutated one, so aliasing is not captured.
- `json.dumps(..., indent=2)` of the schema dict is written out as a string
  constant (`Prompt.StructureJson`), not computed.
- yt-dlp (`extract_info` with `prepare_filename`), Whisper (including the
  `"text"` lookup), the Gemini client and `json.loads` are given functions
  of the host. Their internals, and their use of the network, are not
  modelled.
- Loading the Whisper model at import time is not modelled.
- `mkdir` of the output directory, and `pathlib` joining beyond plain "/"
  concatenation, are not modelled.
- The API key is a string and the empty string stands for "not set"; a
  `None` key is not modelled.
- Floating-point JSON numbers are not modelled; numbers are integers.
- The unused `user` parameter of `create_quiz_from_url` is dropped.
- An exception from `os.path.exists` or `os.remove` is not modelled.
- A partial file that yt-dlp might leave behind when it fails is not
  modelled.
- Concurrency is left out; the source is single-threaded per request.
- Django views, serializers, the ORM, authentication and the Whisper
  download command are not part of this model.
- Prompt.PromptDeterminesTranscript: states only that equal prompts come
  from equal transcripts. The converse is plain substitution.
