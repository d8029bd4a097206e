/**
 * The quiz generation pipeline: download the audio of a video, transcribe it,
 * remove the audio file, ask Gemini for a quiz, then clean, parse and
 * normalise the answer.
 *
 * yt-dlp, Whisper, the Gemini client and `json.loads` are outside the model:
 * a `Host` carries each of them as a function, and records every call it
 * makes to them (and every file it removes) in `calls`.
 */
module Pipeline {
  import opened Results
  import opened Json
  import opened Strings
  import opened Fences
  import opened Prompt
  import Download
  import Normalize

  const GeminiModel: string := "gemini-2.5-flash"
  const MissingKeyMessage: string := "GEMINI_API_KEY is not set"

  /** One observable step of the pipeline. */
  datatype Call =
    | ExtractInfo(url: string, opts: Value)           // yt-dlp download
    | Transcribe(path: string)                        // Whisper
    | Cleanup(path: string)                           // entry to `cleanup_audio_file`
    | Remove(path: string)                            // `os.remove`
    | GenerateContent(model: string, prompt: string)  // Gemini

  /** The options `download_youtube_audio` hands to yt-dlp. */
  function DownloadOpts(mediaRoot: string): (r: Value)
    ensures r.Obj? && Download.TemplateKey in r.fields && r.fields[Download.TemplateKey] == Str(Download.OutputTemplate(mediaRoot))
  {
    Download.YoutubeDownloadOpts(Download.OutputTemplate(mediaRoot))
  }

  /** `json.loads` followed by `normalize_question_keys`. The result, when
      there is one, is already normalised. */
  function ParsedQuiz(text: string, parse: string -> Result<Value>): (r: Result<Value>)
    ensures parse(text).Err? ==> r == parse(text)
    ensures r.Ok? ==> Normalize.NormalizedQuiz(r.value) == r
  {
    var parsed :- parse(text);
    var quiz := Normalize.NormalizedQuiz(parsed);
    if quiz.Ok? then Normalize.NormalizeIdempotent(parsed); quiz else quiz
  }

  /** What `generate_quiz_with_gemini` makes of Gemini's raw answer: the fence
      is removed before the rest is parsed and normalised. */
  function QuizFromResponse(response: string, parse: string -> Result<Value>): (r: Result<Value>)
    ensures parse(CleanJsonResponse(response)).Err? ==> r == parse(CleanJsonResponse(response))
    ensures r.Ok? ==> Normalize.NormalizedQuiz(r.value) == r
  {
    ParsedQuiz(CleanJsonResponse(response), parse)
  }

  /** The steps of `generate_quiz_with_gemini` once the prompt is built:
      Gemini is asked, and its answer goes through `QuizFromResponse`. */
  function QuizFromPrompt(apiKey: string, gemini: (string, string, string) -> Result<string>,
                          parse: string -> Result<Value>, prompt: string): (r: Result<Value>)
    ensures gemini(apiKey, GeminiModel, prompt).Err? ==> r == Err(gemini(apiKey, GeminiModel, prompt).error)
    ensures gemini(apiKey, GeminiModel, prompt).Ok? ==>
              r == QuizFromResponse(gemini(apiKey, GeminiModel, prompt).value, parse)
    ensures r.Ok? ==> Normalize.NormalizedQuiz(r.value) == r
  {
    var response := gemini(apiKey, GeminiModel, prompt);
    if response.Err? then Err(response.error) else QuizFromResponse(response.value, parse)
  }

  /** `generate_quiz_with_gemini(transcript)` on values: without an API key it
      fails before any prompt is built. */
  function GeneratedQuiz(apiKey: string, gemini: (string, string, string) -> Result<string>,
                         parse: string -> Result<Value>, transcript: string): Result<Value>
  {
    if apiKey == "" then Err(ValueError(MissingKeyMessage))
    else QuizFromPrompt(apiKey, gemini, parse, BuildGeminiPrompt(transcript))
  }

  /** The calls `generate_quiz_with_gemini(transcript)` makes: none without
      a key, otherwise one request to the fixed model with the prompt for
      the transcript. */
  function GenerationCalls(apiKey: string, transcript: string): seq<Call>
  {
    if apiKey == "" then [] else [GenerateContent(GeminiModel, BuildGeminiPrompt(transcript))]
  }

  /** A missing key is reported as `generate_quiz_with_gemini` raises it,
      and any quiz that is returned is already normalised. */
  lemma GeneratedQuizOutcome(apiKey: string, gemini: (string, string, string) -> Result<string>,
                             parse: string -> Result<Value>, transcript: string)
    ensures apiKey == "" ==> GeneratedQuiz(apiKey, gemini, parse, transcript) == Err(ValueError(MissingKeyMessage))
    ensures apiKey == "" ==> GenerationCalls(apiKey, transcript) == []
    ensures GeneratedQuiz(apiKey, gemini, parse, transcript).Ok? ==>
              Normalize.NormalizedQuiz(GeneratedQuiz(apiKey, gemini, parse, transcript).value)
              == GeneratedQuiz(apiKey, gemini, parse, transcript)
  {
  }

  /** A fenced answer is parsed from the text inside the fence, so Gemini's
      habit of wrapping its JSON in a "```json" block makes no difference. */
  lemma FencedAnswerParsedInside(parse: string -> Result<Value>, opening: string,
                                 w1: string, body: string, w2: string)
    requires opening == JsonFence || opening == Fence
    requires AllSpace(w1) && |w1| > 0 && AllSpace(w2)
    requires IsStripped(body)
    ensures QuizFromResponse(opening + (w1 + body + w2) + Fence, parse) == ParsedQuiz(body, parse)
  {
    FencedRoundTrip(opening, w1, body, w2);
  }

  /** An unfenced answer is parsed after its surrounding whitespace goes. */
  lemma UnfencedAnswerParsedStripped(parse: string -> Result<Value>, response: string)
    requires !StartsWith(Strip(response), Fence) && !EndsWith(Strip(response), Fence)
    ensures QuizFromResponse(response, parse) == ParsedQuiz(Strip(response), parse)
  {
    UnfencedOnlyStripped(response);
  }

  /** With a key, the quiz is whatever parsing and normalising the text
      inside Gemini's fenced answer gives. */
  lemma GeneratedFromFencedAnswer(apiKey: string, gemini: (string, string, string) -> Result<string>,
                                  parse: string -> Result<Value>, transcript: string,
                                  w1: string, body: string, w2: string)
    requires apiKey != ""
    requires AllSpace(w1) && |w1| > 0 && AllSpace(w2)
    requires IsStripped(body)
    requires gemini(apiKey, GeminiModel, BuildGeminiPrompt(transcript)) == Ok(JsonFence + (w1 + body + w2) + Fence)
    ensures GeneratedQuiz(apiKey, gemini, parse, transcript) == ParsedQuiz(body, parse)
  {
    FencedAnswerParsedInside(parse, JsonFence, w1, body, w2);
  }

  class Host {
    /** The paths present on disk. */
    var files: set<string>
    /** Every call to the outside world, oldest first. */
    var calls: seq<Call>

    /** `settings.GEMINI_API_KEY`; the empty string is the unset key. */
    const apiKey: string
    /** `settings.MEDIA_ROOT` */
    const mediaRoot: string
    /** yt-dlp: the path of the file it downloads for a URL, or its error. */
    const extract: (string, Value) -> Result<string>
    /** Whisper: the `"text"` of the transcription of a file, or its error. */
    const whisper: string -> Result<string>
    /** The Gemini client: the response text for an API key, model and prompt. */
    const gemini: (string, string, string) -> Result<string>
    /** `json.loads` */
    const parse: string -> Result<Value>

    constructor (files: set<string>, apiKey: string, mediaRoot: string,
                 extract: (string, Value) -> Result<string>, whisper: string -> Result<string>,
                 gemini: (string, string, string) -> Result<string>, parse: string -> Result<Value>)
      ensures this.files == files && calls == []
      ensures this.apiKey == apiKey && this.mediaRoot == mediaRoot
      ensures this.extract == extract && this.whisper == whisper
      ensures this.gemini == gemini && this.parse == parse
    {
      this.files := files;
      this.calls := [];
      this.apiKey := apiKey;
      this.mediaRoot := mediaRoot;
      this.extract := extract;
      this.whisper := whisper;
      this.gemini := gemini;
      this.parse := parse;
    }

    /** `cleanup_audio_file(path)`: the file is removed if it exists, and
        nothing else on disk changes. */
    method CleanupAudioFile(path: string)
      modifies this
      ensures files == old(files) - {path}
      ensures calls == old(calls) + [Cleanup(path)] + (if path in old(files) then [Remove(path)] else [])
    {
      calls := calls + [Cleanup(path)];
      if path in files {
        calls := calls + [Remove(path)];
        files := files - {path};
      }
    }

    /** `download_youtube_audio(url)`: one download with the fixed options;
        on success the returned path is on disk. */
    method DownloadYoutubeAudio(url: string) returns (r: Result<string>)
      modifies this
      ensures r == extract(url, DownloadOpts(mediaRoot))
      ensures calls == old(calls) + [ExtractInfo(url, DownloadOpts(mediaRoot))]
      ensures files == if r.Ok? then old(files) + {r.value} else old(files)
    {
      var opts := DownloadOpts(mediaRoot);
      calls := calls + [ExtractInfo(url, opts)];
      r := extract(url, opts);
      if r.Ok? {
        files := files + {r.value};
      }
    }

    /** `transcribe_audio(path)`: the transcription's outcome is returned, and
        the audio file is cleaned up exactly once whether it succeeded or not. */
    method TranscribeAudio(path: string) returns (r: Result<string>)
      modifies this
      ensures r == whisper(path)
      ensures files == old(files) - {path}
      ensures calls == old(calls) + [Transcribe(path), Cleanup(path)]
                       + (if path in old(files) then [Remove(path)] else [])
    {
      calls := calls + [Transcribe(path)];
      r := whisper(path);
      CleanupAudioFile(path);
    }

    /** `call_gemini_api(prompt)` */
    method CallGeminiApi(prompt: string) returns (r: Result<string>)
      modifies this
      ensures r == gemini(apiKey, GeminiModel, prompt)
      ensures calls == old(calls) + [GenerateContent(GeminiModel, prompt)]
      ensures files == old(files)
    {
      calls := calls + [GenerateContent(GeminiModel, prompt)];
      r := gemini(apiKey, GeminiModel, prompt);
    }

    /** The part of `generate_quiz_with_gemini` after the prompt is built. */
    method QuizForPrompt(prompt: string) returns (r: Result<Value>)
      modifies this
      ensures r == QuizFromPrompt(apiKey, gemini, parse, prompt)
      ensures calls == old(calls) + [GenerateContent(GeminiModel, prompt)]
      ensures files == old(files)
    {
      var response := CallGeminiApi(prompt);
      if response.Err? {
        return Err(response.error);
      }
      var cleaned := CleanJsonResponse(response.value);
      var parsed := parse(cleaned);
      if parsed.Err? {
        return Err(parsed.error);
      }
      r := Normalize.NormalizeQuestionKeys(parsed.value);
    }

    /** `generate_quiz_with_gemini(transcript)`: without a key nothing is
        called at all; otherwise Gemini is called once with the prompt for
        the transcript. */
    method GenerateQuizWithGemini(transcript: string) returns (r: Result<Value>)
      modifies this
      ensures r == GeneratedQuiz(apiKey, gemini, parse, transcript)
      ensures files == old(files)
      ensures calls == old(calls) + GenerationCalls(apiKey, transcript)
    {
      if apiKey == "" {
        return Err(ValueError(MissingKeyMessage));
      }
      var prompt := BuildGeminiPrompt(transcript);
      r := QuizForPrompt(prompt);
    }

    /** What yt-dlp hands back for `url` with the fixed options. */
    function Downloaded(url: string): Result<string>
    {
      extract(url, DownloadOpts(mediaRoot))
    }

    /** The file the download leaves on disk, if any. */
    function DownloadedPaths(url: string): set<string>
    {
      if Downloaded(url).Ok? then {Downloaded(url).value} else {}
    }

    /** The transcript obtained for `url`: the download's error, or what
        Whisper makes of the downloaded file. */
    function TranscriptFor(url: string): Result<string>
    {
      if Downloaded(url).Err? then Err(Downloaded(url).error) else whisper(Downloaded(url).value)
    }

    /** The calls made while obtaining it: the download, then, if there is a
        file, its transcription and its removal. */
    function AudioCalls(url: string): seq<Call>
    {
      var opts := DownloadOpts(mediaRoot);
      if Downloaded(url).Err? then [ExtractInfo(url, opts)]
      else
        var path := Downloaded(url).value;
        [ExtractInfo(url, opts), Transcribe(path), Cleanup(path), Remove(path)]
    }

    /** The first two steps of `create_quiz_from_url`. The downloaded file
        is gone afterwards, whether transcription worked or not. */
    method DownloadAndTranscribe(url: string) returns (r: Result<string>)
      modifies this
      ensures r == TranscriptFor(url)
      ensures calls == old(calls) + AudioCalls(url)
      ensures files == old(files) - DownloadedPaths(url)
    {
      var audio := DownloadYoutubeAudio(url);
      if audio.Err? {
        return Err(audio.error);
      }
      r := TranscribeAudio(audio.value);
    }

    /** `create_quiz_from_url(url, user)`: download, transcribe and generate,
        each once and in that order, each fed the previous one's result; the
        first failure ends the pipeline, and the quiz is returned as
        generated. The downloaded file is gone afterwards. */
    method CreateQuizFromUrl(url: string) returns (r: Result<Value>)
      modifies this
      ensures files == old(files) - DownloadedPaths(url)
      ensures TranscriptFor(url).Err? ==>
                r == Err(TranscriptFor(url).error) && calls == old(calls) + AudioCalls(url)
      ensures TranscriptFor(url).Ok? ==>
                && r == GeneratedQuiz(apiKey, gemini, parse, TranscriptFor(url).value)
                && calls == old(calls) + AudioCalls(url) + GenerationCalls(apiKey, TranscriptFor(url).value)
    {
      var transcript := DownloadAndTranscribe(url);
      if transcript.Err? {
        return Err(transcript.error);
      }
      r := GenerateQuizWithGemini(transcript.value);
    }
  }
}
