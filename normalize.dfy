/**
 * Renaming of the question keys in the quiz that Gemini returns
 * ("question_title" to "question", "question_options" to "options") so that
 * each question matches the persisted Question record.
 *
 * The quiz is the value json.loads produced. Python's dynamic behaviour on
 * other shapes is kept: `.get` on a non-dict quiz, iteration over a str or a
 * dict of questions, and `in`/`.pop` on questions that are not dicts.
 */
module Normalize {
  import opened Results
  import opened Json
  import opened Strings

  const QuestionsKey: string := "questions"
  const TitleKey: string := "question_title"
  const QuestionKey: string := "question"
  const OptionsKey: string := "question_options"
  const RenamedOptionsKey: string := "options"

  /** `d[to] = d.pop(from)` when `from in d`: the value moves to the new key,
      replacing whatever `to` held. */
  function RenameKey(d: map<string, Value>, from: string, to: string): (r: map<string, Value>)
    requires from != to
    ensures from !in r
    ensures from in d ==> to in r && r[to] == d[from]
    ensures from !in d ==> r == d
    ensures forall k :: k != from && k != to ==> (k in r <==> k in d)
    ensures forall k :: k != from && k != to && k in d ==> r[k] == d[k]
  {
    if from in d then (d - {from})[to := d[from]] else d
  }

  /** Both renamings, in the order the loop body performs them. */
  function RenameQuestionKeys(d: map<string, Value>): (r: map<string, Value>)
    ensures TitleKey !in r && OptionsKey !in r
    ensures TitleKey in d ==> QuestionKey in r && r[QuestionKey] == d[TitleKey]
    ensures TitleKey !in d ==> (QuestionKey in r <==> QuestionKey in d)
    ensures TitleKey !in d && QuestionKey in d ==> r[QuestionKey] == d[QuestionKey]
    ensures OptionsKey in d ==> RenamedOptionsKey in r && r[RenamedOptionsKey] == d[OptionsKey]
    ensures OptionsKey !in d ==> (RenamedOptionsKey in r <==> RenamedOptionsKey in d)
    ensures OptionsKey !in d && RenamedOptionsKey in d ==> r[RenamedOptionsKey] == d[RenamedOptionsKey]
    ensures forall k :: k !in {TitleKey, QuestionKey, OptionsKey, RenamedOptionsKey} ==>
              (k in r <==> k in d) && (k in d ==> r[k] == d[k])
  {
    RenameKey(RenameKey(d, TitleKey, QuestionKey), OptionsKey, RenamedOptionsKey)
  }

  /** `'question_title' in s or 'question_options' in s` for a str `s`. */
  predicate MentionsRenamedKey(s: string) {
    Contains(s, TitleKey) || Contains(s, OptionsKey)
  }

  /** The loop body for one element of the questions list.
      A dict has its keys renamed. On a str, `in` is a substring test, and if
      it succeeds `str.pop` raises AttributeError. On a list, `in` compares
      elements, and if it succeeds `list.pop("...")` raises TypeError. On a
      number, boolean or None, `in` raises TypeError. */
  function NormalizedQuestion(question: Value): Result<Value>
  {
    match question
    case Obj(d) => Ok(Obj(RenameQuestionKeys(d)))
    case Str(s) =>
      if MentionsRenamedKey(s) then Err(AttributeError) else Ok(question)
    case Arr(a) =>
      if Str(TitleKey) in a || Str(OptionsKey) in a then Err(TypeError) else Ok(question)
    case _ => Err(TypeError)
  }

  /** The loop over a questions list: every question normalised, or the
      exception of the first one that raises. */
  function NormalizedQuestions(questions: seq<Value>): Result<seq<Value>>
  {
    if questions == [] then Ok([])
    else
      var first :- NormalizedQuestion(questions[0]);
      var rest :- NormalizedQuestions(questions[1..]);
      Ok([first] + rest)
  }

  /** Iterating a dict visits its keys, each a str; the loop body raises
      AttributeError on the first key that contains a renamed key name. */
  predicate SomeKeyMentionsRenamedKey(d: map<string, Value>) {
    exists k :: k in d && MentionsRenamedKey(k)
  }

  /** `normalize_question_keys(quiz_data)`, as a value: what the quiz looks
      like afterwards, or the exception it raises. */
  function NormalizedQuiz(quiz: Value): Result<Value>
  {
    if !quiz.Obj? then Err(AttributeError)
    else if QuestionsKey !in quiz.fields then Ok(quiz)
    else
      match quiz.fields[QuestionsKey]
      case Arr(questions) =>
        var normalized :- NormalizedQuestions(questions);
        Ok(Obj(quiz.fields[QuestionsKey := Arr(normalized)]))
      // each element of a str is a one-character str, too short to hold a key name
      case Str(_) => Ok(quiz)
      case Obj(keys) => if SomeKeyMentionsRenamedKey(keys) then Err(AttributeError) else Ok(quiz)
      case _ => Err(TypeError)
  }

  lemma {:induction false} NormalizedQuestionsAllOk(questions: seq<Value>, normalized: seq<Value>)
    requires |normalized| == |questions|
    requires forall j :: 0 <= j < |questions| ==> NormalizedQuestion(questions[j]) == Ok(normalized[j])
    ensures NormalizedQuestions(questions) == Ok(normalized)
  {
    if questions != [] {
      NormalizedQuestionsAllOk(questions[1..], normalized[1..]);
      assert normalized == [normalized[0]] + normalized[1..];
    }
  }

  lemma {:induction false} NormalizedQuestionsFirstError(questions: seq<Value>, i: nat)
    requires i < |questions|
    requires forall j :: 0 <= j < i ==> NormalizedQuestion(questions[j]).Ok?
    requires NormalizedQuestion(questions[i]).Err?
    ensures NormalizedQuestions(questions) == Err(NormalizedQuestion(questions[i]).error)
  {
    if i > 0 {
      NormalizedQuestionsFirstError(questions[1..], i - 1);
    }
  }

  /** A successful run normalises every question, in place and in order. */
  lemma {:induction false} NormalizedQuestionsOk(questions: seq<Value>)
    requires NormalizedQuestions(questions).Ok?
    ensures |NormalizedQuestions(questions).value| == |questions|
    ensures forall j :: 0 <= j < |questions| ==>
              NormalizedQuestion(questions[j]) == Ok(NormalizedQuestions(questions).value[j])
  {
    if questions != [] {
      NormalizedQuestionsOk(questions[1..]);
      var rest := NormalizedQuestions(questions[1..]).value;
      forall j | 1 <= j < |questions|
        ensures NormalizedQuestion(questions[j]) == Ok(NormalizedQuestions(questions).value[j])
      {
        assert questions[1..][j - 1] == questions[j];
      }
    }
  }

  /** `normalize_question_keys`: walks the questions list and replaces each
      question by its renamed form, as the source mutates each dict in turn. */
  method NormalizeQuestionKeys(quizData: Value) returns (r: Result<Value>)
    ensures r == NormalizedQuiz(quizData)
  {
    if !quizData.Obj? {
      return Err(AttributeError);
    }
    var d := quizData.fields;
    if QuestionsKey !in d {
      return Ok(quizData);
    }
    match d[QuestionsKey]
    case Arr(original) =>
      var questions := original;
      var i := 0;
      while i < |questions|
        invariant 0 <= i <= |questions| == |original|
        invariant questions[i..] == original[i..]
        invariant forall j :: 0 <= j < i ==> NormalizedQuestion(original[j]) == Ok(questions[j])
      {
        var question := NormalizedQuestion(questions[i]);
        if question.Err? {
          NormalizedQuestionsFirstError(original, i);
          return Err(question.error);
        }
        questions := questions[i := question.value];
        i := i + 1;
      }
      NormalizedQuestionsAllOk(original, questions);
      return Ok(Obj(d[QuestionsKey := Arr(questions)]));
    case Str(_) =>
      return Ok(quizData);
    case Obj(keys) =>
      if SomeKeyMentionsRenamedKey(keys) {
        return Err(AttributeError);
      }
      return Ok(quizData);
    case _ =>
      return Err(TypeError);
  }

  /** Iterating a str yields one-character strs, none of which can contain a
      key name, so a str of questions is left alone. */
  lemma CharacterQuestionsUnchanged(c: char)
    ensures NormalizedQuestion(Str([c])) == Ok(Str([c]))
  {
    NotContainsLonger([c], TitleKey);
    NotContainsLonger([c], OptionsKey);
  }

  /** The strs a loop visits, one per element of `order`. */
  function StrQuestions(order: seq<string>): seq<Value>
  {
    seq(|order|, i requires 0 <= i < |order| => Str(order[i]))
  }

  /** Looping over strs raises AttributeError as soon as one of them mentions
      a renamed key, and otherwise leaves every one of them alone. */
  lemma {:induction false} StrQuestionsOutcome(order: seq<string>)
    ensures NormalizedQuestions(StrQuestions(order))
         == if exists i :: 0 <= i < |order| && MentionsRenamedKey(order[i])
            then Err(AttributeError) else Ok(StrQuestions(order))
  {
    if order != [] {
      var strs := StrQuestions(order);
      StrQuestionsOutcome(order[1..]);
      assert strs[1..] == StrQuestions(order[1..]);
      assert strs == [strs[0]] + strs[1..];
      if exists i :: 1 <= i < |order| && MentionsRenamedKey(order[i]) {
        var i :| 1 <= i < |order| && MentionsRenamedKey(order[i]);
        assert order[1..][i - 1] == order[i];
      }
      if exists i :: 0 <= i < |order[1..]| && MentionsRenamedKey(order[1..][i]) {
        var i :| 0 <= i < |order[1..]| && MentionsRenamedKey(order[1..][i]);
        assert order[i + 1] == order[1..][i];
      }
    }
  }

  /** A str of questions is iterated character by character; the loop over
      those one-character strs changes nothing, which is why `NormalizedQuiz`
      returns such a quiz as it is. */
  lemma StrOfQuestionsUnchanged(s: string)
    ensures var chars := seq(|s|, i requires 0 <= i < |s| => [s[i]]);
            NormalizedQuestions(StrQuestions(chars)) == Ok(StrQuestions(chars))
  {
    var chars := seq(|s|, i requires 0 <= i < |s| => [s[i]]);
    StrQuestionsOutcome(chars);
    forall i | 0 <= i < |chars|
      ensures !MentionsRenamedKey(chars[i])
    {
      NotContainsLonger(chars[i], TitleKey);
      NotContainsLonger(chars[i], OptionsKey);
    }
  }

  /** A dict of questions is iterated over its keys, in whatever order. Every
      order gives the same outcome: AttributeError when some key mentions a
      renamed key, otherwise every key left alone. This is the outcome
      `NormalizedQuiz` gives through `SomeKeyMentionsRenamedKey`. */
  lemma DictOfQuestionsAnyOrder(keys: map<string, Value>, order: seq<string>)
    requires forall k :: k in order <==> k in keys
    ensures NormalizedQuestions(StrQuestions(order))
         == if SomeKeyMentionsRenamedKey(keys) then Err(AttributeError) else Ok(StrQuestions(order))
  {
    StrQuestionsOutcome(order);
    if SomeKeyMentionsRenamedKey(keys) {
      var k :| k in keys && MentionsRenamedKey(k);
      var i :| 0 <= i < |order| && order[i] == k;
    }
    if exists i :: 0 <= i < |order| && MentionsRenamedKey(order[i]) {
      var i :| 0 <= i < |order| && MentionsRenamedKey(order[i]);
      assert order[i] in keys;
    }
  }

  /** Every question dict that had "question_title" now has "question" with
      the same value and no "question_title"; likewise "question_options"
      becomes "options". Keys other than these four keep their presence and
      their value, so "answer" is untouched. */
  lemma QuestionKeysRenamed(quiz: Value, j: nat)
    requires quiz.Obj? && QuestionsKey in quiz.fields && quiz.fields[QuestionsKey].Arr?
    requires j < |quiz.fields[QuestionsKey].elems| && quiz.fields[QuestionsKey].elems[j].Obj?
    requires NormalizedQuiz(quiz).Ok?
    ensures var before := quiz.fields[QuestionsKey].elems[j].fields;
            var result := NormalizedQuiz(quiz).value;
            && result.Obj? && QuestionsKey in result.fields && result.fields[QuestionsKey].Arr?
            && j < |result.fields[QuestionsKey].elems|
            && result.fields[QuestionsKey].elems[j] == Obj(RenameQuestionKeys(before))
  {
    NormalizedQuestionsOk(quiz.fields[QuestionsKey].elems);
  }

  /** Nothing outside the question dicts changes: the quiz keeps its keys and
      every top-level value other than the questions list (title,
      description, ...); the list keeps its length and order; questions that
      are not dicts are kept as they are; a quiz without questions, or whose
      questions are not a list, comes back unchanged. */
  lemma NormalizeChangesOnlyQuestionKeys(quiz: Value)
    requires NormalizedQuiz(quiz).Ok?
    ensures var result := NormalizedQuiz(quiz).value;
            && quiz.Obj? && result.Obj?
            && result.fields.Keys == quiz.fields.Keys
            && (forall k :: k in quiz.fields && k != QuestionsKey ==> result.fields[k] == quiz.fields[k])
    ensures quiz.Obj? && QuestionsKey !in quiz.fields ==> NormalizedQuiz(quiz) == Ok(quiz)
    ensures quiz.Obj? && QuestionsKey in quiz.fields && !quiz.fields[QuestionsKey].Arr? ==> NormalizedQuiz(quiz) == Ok(quiz)
    ensures quiz.Obj? && QuestionsKey in quiz.fields && quiz.fields[QuestionsKey].Arr? ==>
              var before := quiz.fields[QuestionsKey].elems;
              var after := NormalizedQuiz(quiz).value.fields[QuestionsKey];
              && after.Arr? && |after.elems| == |before|
              && forall j :: 0 <= j < |before| ==>
                   after.elems[j] == if before[j].Obj? then Obj(RenameQuestionKeys(before[j].fields)) else before[j]
  {
    if QuestionsKey in quiz.fields && quiz.fields[QuestionsKey].Arr? {
      var before := quiz.fields[QuestionsKey].elems;
      NormalizedQuestionsOk(before);
    }
  }

  /** A quiz that is not a dict has no `.get`: AttributeError. */
  lemma NonDictQuizRejected(quiz: Value)
    requires !quiz.Obj?
    ensures NormalizedQuiz(quiz) == Err(AttributeError)
  {
  }

  /** The shape Gemini is asked for (a dict whose questions, if any, are a
      list of dicts) is always normalised without an exception. */
  lemma WellShapedQuizNormalizes(quiz: Value)
    requires quiz.Obj?
    requires QuestionsKey in quiz.fields ==>
               && quiz.fields[QuestionsKey].Arr?
               && forall q :: q in quiz.fields[QuestionsKey].elems ==> q.Obj?
    ensures NormalizedQuiz(quiz).Ok?
  {
    if QuestionsKey in quiz.fields {
      var questions := quiz.fields[QuestionsKey].elems;
      assert forall j :: 0 <= j < |questions| ==> questions[j] in questions;
      var normalized := seq(|questions|, j requires 0 <= j < |questions| => Obj(RenameQuestionKeys(questions[j].fields)));
      NormalizedQuestionsAllOk(questions, normalized);
    }
  }

  /** Renaming a key is undone by renaming it back, provided the new key was
      not already in use. */
  lemma RenameKeyInverse(d: map<string, Value>, from: string, to: string)
    requires from != to && to !in d
    ensures RenameKey(RenameKey(d, from, to), to, from) == d
  {
  }

  lemma RenamedQuestionIsFixed(d: map<string, Value>)
    ensures RenameQuestionKeys(RenameQuestionKeys(d)) == RenameQuestionKeys(d)
  {
  }

  lemma {:induction false} NormalizedQuestionsIdempotent(questions: seq<Value>)
    requires NormalizedQuestions(questions).Ok?
    ensures NormalizedQuestions(NormalizedQuestions(questions).value) == NormalizedQuestions(questions)
  {
    var normalized := NormalizedQuestions(questions).value;
    NormalizedQuestionsOk(questions);
    forall j | 0 <= j < |normalized|
      ensures NormalizedQuestion(normalized[j]) == Ok(normalized[j])
    {
      if questions[j].Obj? {
        RenamedQuestionIsFixed(questions[j].fields);
      }
    }
    NormalizedQuestionsAllOk(normalized, normalized);
  }

  /** Normalising an already normalised quiz changes nothing. */
  lemma NormalizeIdempotent(quiz: Value)
    requires NormalizedQuiz(quiz).Ok?
    ensures NormalizedQuiz(NormalizedQuiz(quiz).value) == NormalizedQuiz(quiz)
  {
    assert quiz.Obj?;
    var d := quiz.fields;
    if QuestionsKey in d && d[QuestionsKey].Arr? {
      var questions := d[QuestionsKey].elems;
      NormalizedQuestionsIdempotent(questions);
      var normalized := NormalizedQuestions(questions).value;
      var result := d[QuestionsKey := Arr(normalized)];
      assert NormalizedQuiz(quiz) == Ok(Obj(result));
      assert result[QuestionsKey := Arr(normalized)] == result;
    }
  }

  /** The fixture of the key-normalisation test: one question with a title
      and four options comes back keyed "question" and "options". */
  lemma NormalizeExample()
    ensures NormalizedQuiz(Obj(map[
              "questions" := Arr([Obj(map[
                "question_title" := Str("Q1"),
                "question_options" := Arr([Str("A"), Str("B"), Str("C"), Str("D")])])])]))
         == Ok(Obj(map[
              "questions" := Arr([Obj(map[
                "question" := Str("Q1"),
                "options" := Arr([Str("A"), Str("B"), Str("C"), Str("D")])])])]))
  {
    var before := map[
      "question_title" := Str("Q1"),
      "question_options" := Arr([Str("A"), Str("B"), Str("C"), Str("D")])];
    var after := map[
      "question" := Str("Q1"),
      "options" := Arr([Str("A"), Str("B"), Str("C"), Str("D")])];
    assert RenameQuestionKeys(before) == after;
    NormalizedQuestionsAllOk([Obj(before)], [Obj(after)]);
    var quiz := map["questions" := Arr([Obj(before)])];
    assert quiz[QuestionsKey := Arr([Obj(after)])] == map["questions" := Arr([Obj(after)])];
  }
}
