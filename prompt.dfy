/**
 * The instruction prompt sent to Gemini: a header, the JSON schema the quiz
 * must follow, a block of requirements, and the transcript at the end.
 */
module Prompt {
  import opened Json
  import opened Strings
  import Normalize

  /** `get_prompt_header()` */
  function PromptHeader(): string
  {
    "Based on the following transcript, generate a quiz in valid "
      + "JSON format"
      + ".\n\nThe quiz must follow this exact structure:"
  }

  /** The header asks for JSON. */
  lemma HeaderAsksForJson()
    ensures Contains(PromptHeader(), "JSON format")
  {
    ContainsMiddle("Based on the following transcript, generate a quiz in valid ",
                   "JSON format", ".\n\nThe quiz must follow this exact structure:");
  }

  /** `get_quiz_structure_dict()`: the example quiz shown to the model. */
  function QuizStructureDict(): Value
  {
    Obj(map[
      "title" := Str("Create a concise quiz title based on the topic of the transcript."),
      "description" := Str("Summarize the transcript in no more than 150 characters."),
      "questions" := Arr([Obj(map[
        "question_title" := Str("The question goes here."),
        "question_options" := Arr([Str("Option A"), Str("Option B"), Str("Option C"), Str("Option D")]),
        "answer" := Str("The correct answer from the above options")])])])
  }

  /** `json.dumps(get_quiz_structure_dict(), indent=2)`, written out: keys in
      insertion order, two spaces per level, ", " replaced by ",\n". */
  const StructureJson: string :=
    "{\n"
      + "  \"title\": \"Create a concise quiz title based on the topic of the transcript.\",\n"
      + "  \"description\": \"Summarize the transcript in no more than 150 characters.\",\n"
      + "  \"questions\": [\n"
      + "    {\n"
      + "      \"question_title\": \"The question goes here.\",\n"
      + "      \"question_options\": [\n"
      + "        \"Option A\",\n"
      + "        \"Option B\",\n"
      + "        \"Option C\",\n"
      + "        \"Option D\"\n"
      + "      ],\n"
      + "      \"answer\": \"The correct answer from the above options\"\n"
      + "    }\n"
      + "  ]\n"
      + "}"

  /** `get_prompt_structure()` */
  function PromptStructure(): string
  {
    StructureJson + ("\n    ...\n    (exactly " + "10 questions" + ")")
  }

  /** The schema is followed by the number of questions wanted. */
  lemma StructureAsksForTenQuestions()
    ensures Contains(PromptStructure(), "10 questions")
  {
    ContainsMiddle("\n    ...\n    (exactly ", "10 questions", ")");
    ContainsRight(StructureJson, "\n    ...\n    (exactly " + "10 questions" + ")", "10 questions");
  }

  /** `get_prompt_requirements()` */
  function PromptRequirements(): string
  {
    "\nRequirements:\n- Each question must have "
      + "exactly 4 distinct answer options"
      + RequirementsRest
  }

  const RequirementsRest: string :=
    ".\n"
      + "- Only one correct answer is allowed per question, and it must be\n"
      + "  present in 'question_options'.\n"
      + "- The output must be valid JSON and parsable as-is\n"
      + "  (e.g., using Python's json.loads).\n"
      + "- Do not include explanations, comments, or any text outside the\n"
      + "  JSON."

  /** The requirements fix the number of answer options. */
  lemma RequirementsAskForFourOptions()
    ensures Contains(PromptRequirements(), "exactly 4 distinct answer options")
  {
    ContainsMiddle("\nRequirements:\n- Each question must have ",
                   "exactly 4 distinct answer options", RequirementsRest);
  }

  /** The layout of the prompt before the transcript: header, schema and
      requirements separated by blank lines, then the "Transcript:" tail on
      a line of its own. */
  function Assemble(header: string, structure: string, requirements: string): string
  {
    header + "\n\n" + structure + "\n" + requirements + "\n\n" + "Transcript:\n"
  }

  /** Joining the pieces of the layout gives the layout. */
  lemma AssembleJoined(header: string, structure: string, requirements: string)
    ensures Concat([header, "\n\n", structure, "\n", requirements, "\n\n", "Transcript:\n"])
         == Assemble(header, structure, requirements)
  {
    var pieces := [header, "\n\n", structure, "\n", requirements, "\n\n", "Transcript:\n"];
    ConcatSplit(pieces[..6], ["Transcript:\n"]);
    ConcatSplit(pieces[..5], ["\n\n"]);
    ConcatSplit(pieces[..4], [requirements]);
    ConcatSplit(pieces[..3], ["\n"]);
    ConcatSplit(pieces[..2], [structure]);
    ConcatSplit(pieces[..1], ["\n\n"]);
    assert pieces[..1] + ["\n\n"] == pieces[..2];
    assert pieces[..2] + [structure] == pieces[..3];
    assert pieces[..3] + ["\n"] == pieces[..4];
    assert pieces[..4] + [requirements] == pieces[..5];
    assert pieces[..5] + ["\n\n"] == pieces[..6];
    assert pieces[..6] + ["Transcript:\n"] == pieces;
  }

  /** Assembling keeps each part whole and ends with the tail. */
  lemma AssembleKeepsParts(header: string, structure: string, requirements: string, p: string)
    ensures Contains(header, p) ==> Contains(Assemble(header, structure, requirements), p)
    ensures Contains(structure, p) ==> Contains(Assemble(header, structure, requirements), p)
    ensures Contains(requirements, p) ==> Contains(Assemble(header, structure, requirements), p)
    ensures EndsWith(Assemble(header, structure, requirements), "Transcript:\n")
  {
    var tail := "\n\n" + "Transcript:\n";
    var r := Assemble(header, structure, requirements);
    assert r == header + ("\n\n" + structure + "\n" + requirements + tail);
    assert r == (header + "\n\n") + structure + ("\n" + requirements + tail);
    assert r == (header + "\n\n" + structure + "\n") + requirements + tail;
    if Contains(header, p) {
      ContainsLeft(header, "\n\n" + structure + "\n" + requirements + tail, p);
    }
    if Contains(structure, p) {
      ContainsSelf(structure);
      ContainsMiddle(header + "\n\n", structure, "\n" + requirements + tail);
      ContainsTransitive(r, structure, p);
    }
    if Contains(requirements, p) {
      ContainsSelf(requirements);
      ContainsMiddle(header + "\n\n" + structure + "\n", requirements, tail);
      ContainsTransitive(r, requirements, p);
    }
    assert r[|r| - |"Transcript:\n"|..] == "Transcript:\n";
  }

  /** Everything in the prompt that comes before the transcript. */
  function PromptPreamble(): string
  {
    Concat([PromptHeader(), "\n\n", PromptStructure(), "\n", PromptRequirements(), "\n\n", "Transcript:\n"])
  }

  /** `build_gemini_prompt(transcript)`: the transcript is appended, verbatim,
      after the fixed preamble. */
  function BuildGeminiPrompt(transcript: string): string
  {
    PromptPreamble() + transcript
  }

  /** The fixed part asks for JSON, for ten questions of four options each,
      and ends with the transcript label. */
  lemma PreambleContents()
    ensures Contains(PromptPreamble(), "JSON format")
    ensures Contains(PromptPreamble(), "10 questions")
    ensures Contains(PromptPreamble(), "exactly 4 distinct answer options")
    ensures EndsWith(PromptPreamble(), "Transcript:\n")
  {
    var header, structure, requirements := PromptHeader(), PromptStructure(), PromptRequirements();
    AssembleJoined(header, structure, requirements);
    HeaderAsksForJson();
    StructureAsksForTenQuestions();
    RequirementsAskForFourOptions();
    AssembleKeepsParts(header, structure, requirements, "JSON format");
    AssembleKeepsParts(header, structure, requirements, "10 questions");
    AssembleKeepsParts(header, structure, requirements, "exactly 4 distinct answer options");
  }

  /** The prompt asks for JSON, for ten questions of four options each, and
      ends with the transcript under its label. */
  lemma PromptContents(transcript: string)
    ensures EndsWith(BuildGeminiPrompt(transcript), "Transcript:\n" + transcript)
    ensures Contains(BuildGeminiPrompt(transcript), "JSON format")
    ensures Contains(BuildGeminiPrompt(transcript), "10 questions")
    ensures Contains(BuildGeminiPrompt(transcript), "exactly 4 distinct answer options")
    ensures Contains(BuildGeminiPrompt(transcript), transcript)
  {
    PreambleContents();
    AppendKeeps(PromptPreamble(), transcript, "JSON format", "10 questions", "exactly 4 distinct answer options");
    EndsWithAppend(PromptPreamble(), "Transcript:\n", transcript);
  }

  /** Appending text after a string keeps what it contained, and the
      appended text is contained too. */
  lemma AppendKeeps(s: string, t: string, p1: string, p2: string, p3: string)
    requires Contains(s, p1) && Contains(s, p2) && Contains(s, p3)
    ensures Contains(s + t, p1) && Contains(s + t, p2) && Contains(s + t, p3)
    ensures Contains(s + t, t)
  {
    ContainsLeft(s, t, p1);
    ContainsLeft(s, t, p2);
    ContainsLeft(s, t, p3);
    ContainsSelf(t);
    ContainsRight(s, t, t);
  }

  /** The prompt is the fixed preamble followed by the transcript verbatim, so
      the transcript can be read back from it. */
  lemma TranscriptRecoverable(transcript: string)
    ensures BuildGeminiPrompt(transcript) == PromptPreamble() + transcript
    ensures BuildGeminiPrompt(transcript)[|PromptPreamble()|..] == transcript
  {
  }

  /** Different transcripts give different prompts. */
  lemma PromptDeterminesTranscript(t1: string, t2: string)
    ensures BuildGeminiPrompt(t1) == BuildGeminiPrompt(t2) ==> t1 == t2
  {
    if BuildGeminiPrompt(t1) == BuildGeminiPrompt(t2) {
      TranscriptRecoverable(t1);
      TranscriptRecoverable(t2);
    }
  }

  /** The schema shown to the model names exactly the keys the normaliser
      renames: normalising the example quiz yields a question with the
      persisted keys "question", "options" and "answer". */
  lemma SchemaNormalizesToPersistedKeys()
    ensures Normalize.NormalizedQuiz(QuizStructureDict()).Ok?
    ensures var quiz := Normalize.NormalizedQuiz(QuizStructureDict()).value;
            && quiz.Obj? && "questions" in quiz.fields
            && quiz.fields["questions"] == Arr([Obj(map[
                 "question" := Str("The question goes here."),
                 "options" := Arr([Str("Option A"), Str("Option B"), Str("Option C"), Str("Option D")]),
                 "answer" := Str("The correct answer from the above options")])])
  {
    var question := map[
      "question_title" := Str("The question goes here."),
      "question_options" := Arr([Str("Option A"), Str("Option B"), Str("Option C"), Str("Option D")]),
      "answer" := Str("The correct answer from the above options")];
    var renamed := map[
      "question" := Str("The question goes here."),
      "options" := Arr([Str("Option A"), Str("Option B"), Str("Option C"), Str("Option D")]),
      "answer" := Str("The correct answer from the above options")];
    assert Normalize.RenameQuestionKeys(question) == renamed;
    Normalize.NormalizedQuestionsAllOk([Obj(question)], [Obj(renamed)]);
  }
}
