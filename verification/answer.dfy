/** The answer checker of the store (`checkAnswer`) and JavaScript's `String(...)` of answers. */
module Answer {
  import opened Wrappers
  import opened Text
  import opened Types

  /** `String(v)` for a `string | number`. */
  function Render(v: Value): string
  {
    match v
    case Num(n) => IntToString(n)
    case Str(s) => s
  }

  /** `String(slot)` for an answer slot; an unanswered slot holds `null`. */
  function RenderSlot(slot: Option<Value>): string
  {
    match slot
    case None => "null"
    case Some(v) => Render(v)
  }

  /**
   * `checkAnswer`: numbers compare numerically, two strings compare without
   * regard to case, and anything else compares by its string form.
   */
  function CheckAnswer(q: Question, answer: Value): (ok: bool)
    ensures CorrectAnswer(q.content).Num? && answer.Num? ==>
              (ok <==> CorrectAnswer(q.content).n == answer.n)
    ensures CorrectAnswer(q.content).Str? && answer.Str? ==>
              (ok <==> Lower(CorrectAnswer(q.content).s) == Lower(answer.s))
    ensures CorrectAnswer(q.content).Num? != answer.Num? ==>
              (ok <==> Render(CorrectAnswer(q.content)) == Render(answer))
  {
    var correctAnswer := CorrectAnswer(q.content);
    if correctAnswer.Num? && answer.Num? then correctAnswer.n == answer.n
    else if correctAnswer.Str? && answer.Str? then Lower(correctAnswer.s) == Lower(answer.s)
    else Render(correctAnswer) == Render(answer)
  }

  /** An answer whose string form equals the correct answer's is always accepted. */
  lemma SameTextIsCorrect(q: Question, answer: Value)
    ensures Render(CorrectAnswer(q.content)) == Render(answer) ==> CheckAnswer(q, answer)
  {
    var c := CorrectAnswer(q.content);
    if c.Num? && answer.Num? {
      IntToStringInjective(c.n, answer.n);
    }
  }

  /** A numeric correct answer accepts a string exactly when it is the number's numeral. */
  lemma NumberAgainstText(q: Question, text: string)
    requires CorrectAnswer(q.content).Num?
    ensures CheckAnswer(q, Str(text)) <==> text == IntToString(CorrectAnswer(q.content).n)
  {
  }

  /** The number 13 matches the string "13". */
  lemma ThirteenMatchesItsNumeral(q: Question)
    requires CorrectAnswer(q.content) == Num(13)
    ensures CheckAnswer(q, Str("13"))
    ensures !CheckAnswer(q, Str("013"))
  {
    assert IntToString(13) == "13";
  }

  /** Text answers that differ only in letter case get the same verdict. */
  lemma CaseDoesNotMatter(q: Question, a: string, b: string)
    requires CorrectAnswer(q.content).Str?
    requires Lower(a) == Lower(b)
    ensures CheckAnswer(q, Str(a)) == CheckAnswer(q, Str(b))
  {
  }

  lemma TigerInAnyCase(q: Question)
    requires CorrectAnswer(q.content) == Str("Tiger")
    ensures CheckAnswer(q, Str("Tiger")) && CheckAnswer(q, Str("TIGER")) && CheckAnswer(q, Str("tiger"))
  {
    assert Lower("Tiger") == "tiger";
    assert Lower("TIGER") == "tiger";
    assert Lower("tiger") == "tiger";
  }

  /** The empty submission a timer sends is wrong unless the correct answer is itself empty. */
  lemma EmptySubmissionIsWrong(q: Question)
    requires CorrectAnswer(q.content) != Str("")
    ensures !CheckAnswer(q, Str(""))
  {
  }
}
