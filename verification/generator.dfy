/**
 * The question generators of the store: procedural math questions and the
 * quiz and guess questions drawn from the banks. Randomness, fresh ids and
 * the bound on the options loop come from an injected environment.
 */
module Generator {
  import opened Wrappers
  import opened Text
  import opened Random
  import opened Types
  import opened Collections
  import opened Banks
  import Answer

  /**
   * Why a generation produced no questions: the options loop ran through the
   * draws it was allowed, or a draw chose an operation with a non-integer
   * answer, which this model does not cover.
   */
  datatype GenError = OutOfFuel | FloatingPoint(op: Operation)

  /** The injected sources of a generation. */
  datatype Env = Env(rand: Rand, ids: nat -> string, fuel: nat)

  // ---------------------------------------------------------------------------
  // What every generated question carries

  function Points(d: Difficulty): int
  {
    match d
    case Easy => 5
    case Medium => 10
    case Hard => 15
  }

  function TimeLimit(d: Difficulty): int
  {
    match d
    case Easy => 30
    case Medium => 45
    case Hard => 60
  }

  /** The choices a question offers, when it offers any. */
  function OfferedChoices(c: Content): Option<seq<string>>
  {
    match c
    case MathContent(_, options, _, _) => options
    case QuizContent(_, choices, _, _, _, _) => Some(choices)
    case GuessContent(_, options, _, _, _) => options
  }

  /**
   * The question invariant: the content matches the declared topic, the points
   * are not negative, and when choices are offered the correct answer is one
   * of them.
   */
  predicate WellFormed(q: Question)
  {
    && q.points >= 0
    && (q.qtype == MathType <==> q.content.MathContent?)
    && (q.qtype == QuizType <==> q.content.QuizContent?)
    && (q.qtype == GuessType <==> q.content.GuessContent?)
    && (OfferedChoices(q.content).Some? ==>
          Answer.Render(CorrectAnswer(q.content)) in OfferedChoices(q.content).value)
  }

  /** A well-formed question of topic `t` and difficulty `d`, with the points and time limit `d` assigns. */
  predicate GeneratedAs(q: Question, t: QuestionType, d: Difficulty)
  {
    && WellFormed(q)
    && q.qtype == t
    && q.difficulty == d
    && q.points == Points(d)
    && q.timeLimit == Some(TimeLimit(d))
  }

  // ---------------------------------------------------------------------------
  // Math

  const Operations: seq<Operation> :=
    [Addition, Subtraction, Multiplication, Division, Sequence, Fractions, Decimals, Percentages]

  /** Easy questions choose among the first five operations, the others among all eight. */
  function OperationCount(d: Difficulty): nat
  {
    if d == Easy then 5 else 8
  }

  predicate OperandsInRange(d: Difficulty, num1: int, num2: int)
  {
    match d
    case Easy => 1 <= num1 <= 10 && 1 <= num2 <= 10
    case Medium => 10 <= num1 <= 59 && 5 <= num2 <= 24
    case Hard => 20 <= num1 <= 119 && 10 <= num2 <= 59
  }

  /** The two operands every math question draws, scaled by difficulty. */
  function DrawOperands(d: Difficulty, rand: Rand, pos: nat): (r: Gen<(int, int)>)
    ensures OperandsInRange(d, r.value.0, r.value.1)
    ensures r.next == pos + 2
  {
    var (span1, low1, span2, low2) :=
      match d
      case Easy => (10, 1, 10, 1)
      case Medium => (50, 10, 20, 5)
      case Hard => (100, 20, 50, 10);
    Gen((Below(rand, pos, span1).value + low1, Below(rand, pos + 1, span2).value + low2), pos + 2)
  }

  /** A math problem: the numbers its text shows, in order, and its answer. */
  datatype Problem = Problem(shown: seq<int>, answer: int)

  function SequenceStep(d: Difficulty): int
  {
    match d
    case Easy => 2
    case Medium => 3
    case Hard => 5
  }

  function SequenceStart(d: Difficulty, num1: int): int
  {
    match d
    case Easy => num1
    case Medium => num1 * 2
    case Hard => num1 * 3
  }

  /** `numbers.join(', ')`. */
  function JoinNumbers(xs: seq<int>): string
  {
    if |xs| == 0 then ""
    else if |xs| == 1 then IntToString(xs[0])
    else JoinNumbers(xs[..|xs| - 1]) + ", " + IntToString(xs[|xs| - 1])
  }

  function Equation(a: int, symbol: string, b: int): string
  {
    IntToString(a) + " " + symbol + " " + IntToString(b) + " = ?"
  }

  /** `num1 - num2` with the larger operand first, so the difference is not negative. */
  function Subtract(num1: int, num2: int): (p: Problem)
    ensures |p.shown| == 2
    ensures multiset(p.shown) == multiset{num1, num2}
    ensures p.shown[0] >= p.shown[1]
    ensures p.answer == p.shown[0] - p.shown[1]
  {
    var (a, b) := if num1 < num2 then (num2, num1) else (num1, num2);
    Problem([a, b], a - b)
  }

  /**
   * Division as the source writes it: the text asks for the product of the
   * operands divided by the second operand, but the answer recorded is the
   * second operand (the divisor) rather than the quotient.
   */
  function DivideAsWritten(num1: int, num2: int): (p: Problem)
    ensures p.shown == [num1 * num2, num2]
    ensures p.answer == num2
  {
    Problem([num1 * num2, num2], num2)
  }

  /** "12 ÷ 4 = ?" is recorded with the answer 4, although 4 × 4 is not 12. */
  lemma DivideAsWrittenCounterexample()
    ensures DivideAsWritten(3, 4).shown == [12, 4]
    ensures DivideAsWritten(3, 4).answer == 4
    ensures DivideAsWritten(3, 4).shown[0] != DivideAsWritten(3, 4).answer * DivideAsWritten(3, 4).shown[1]
  {
  }

  /** The recorded answer is the true quotient only when the two operands are equal. */
  lemma DivideAsWrittenRightOnlyForSquares(num1: int, num2: int)
    requires num2 != 0
    ensures DivideAsWritten(num1, num2).shown[0] == DivideAsWritten(num1, num2).answer * num2
            <==> num1 == num2
  {
    if num1 * num2 == num2 * num2 {
      CancelFactor(num1, num2, num2);
    }
  }

  lemma CancelFactor(a: int, b: int, c: int)
    requires c != 0 && a * c == b * c
    ensures a == b
  {
    assert (a - b) * c == a * c - b * c;
    NonZeroFactor(a - b, c);
  }

  lemma NonZeroFactor(a: int, b: int)
    requires a * b == 0 && b != 0
    ensures a == 0
  {
  }

  /**
   * Division as intended: the same text, with the quotient as the answer, so
   * the dividend is exactly the answer times the divisor.
   */
  function Divide(num1: int, num2: int): (p: Problem)
    ensures p.shown == [num1 * num2, num2]
    ensures p.answer == num1
    ensures p.shown[0] == p.answer * p.shown[1]
  {
    Problem([num1 * num2, num2], num1)
  }

  /** Four terms of an arithmetic progression; the answer is the fifth. */
  function ContinueSequence(d: Difficulty, num1: int): (p: Problem)
    ensures |p.shown| == 4
    ensures p.shown[0] == SequenceStart(d, num1)
    ensures forall i :: 0 <= i < 3 ==> p.shown[i + 1] == p.shown[i] + SequenceStep(d)
    ensures p.answer == p.shown[3] + SequenceStep(d)
  {
    var step := SequenceStep(d);
    var start := SequenceStart(d, num1);
    var terms := [start, start + step, start + 2 * step, start + 3 * step];
    Problem(terms, start + 4 * step)
  }

  /** The operations whose answers are integers: the five an easy question chooses from. */
  predicate Integral(op: Operation)
  {
    !(op.Fractions? || op.Decimals? || op.Percentages?)
  }

  /**
   * The problem an operation builds from the two operands; the operations with
   * non-integer answers are outside the model.
   */
  function Solve(op: Operation, d: Difficulty, num1: int, num2: int): (r: Result<Problem, GenError>)
    ensures r.Err? <==> !Integral(op)
    ensures r.Ok? ==> |r.value.shown| == if op == Sequence then 4 else 2
    ensures r.Ok? && op == Addition ==> r.value.shown == [num1, num2] && r.value.answer == num1 + num2
    ensures r.Ok? && op == Multiplication ==> r.value.shown == [num1, num2] && r.value.answer == num1 * num2
  {
    match op
    case Addition => Ok(Problem([num1, num2], num1 + num2))
    case Subtraction => Ok(Subtract(num1, num2))
    case Multiplication => Ok(Problem([num1, num2], num1 * num2))
    case Division => Ok(DivideAsWritten(num1, num2))
    case Sequence => Ok(ContinueSequence(d, num1))
    case Fractions => Err(FloatingPoint(op))
    case Decimals => Err(FloatingPoint(op))
    case Percentages => Err(FloatingPoint(op))
  }

  /**
   * The other integral operations: subtraction shows the operands larger first
   * and answers their difference; division shows the product over the second
   * operand and answers that second operand, the divisor (see
   * `DivideAsWritten`); a sequence shows four terms a step apart
   * and answers the fifth.
   */
  lemma SolveMeaning(op: Operation, d: Difficulty, num1: int, num2: int)
    ensures var r := Solve(op, d, num1, num2);
            op == Subtraction ==>
              && multiset(r.value.shown) == multiset{num1, num2}
              && r.value.shown[0] >= r.value.shown[1] && r.value.answer == r.value.shown[0] - r.value.shown[1]
    ensures var r := Solve(op, d, num1, num2);
            op == Division ==>
              && r.value.shown == [num1 * num2, num2] && r.value.answer == num2
              && r.value.shown[0] == num1 * r.value.answer
    ensures var r := Solve(op, d, num1, num2);
            op == Sequence ==>
              && r.value.shown[0] == SequenceStart(d, num1)
              && (forall i :: 0 <= i < 3 ==> r.value.shown[i + 1] == r.value.shown[i] + SequenceStep(d))
              && r.value.answer == r.value.shown[3] + SequenceStep(d)
  {
    match op
    case Subtraction => assert Solve(op, d, num1, num2).value == Subtract(num1, num2);
    case Division => assert Solve(op, d, num1, num2).value == DivideAsWritten(num1, num2);
    case Sequence => assert Solve(op, d, num1, num2).value == ContinueSequence(d, num1);
    case _ =>
  }

  /** Operands that are not negative give an answer that is not negative. */
  lemma SolvedAnswerNonNegative(op: Operation, d: Difficulty, num1: int, num2: int)
    requires 0 <= num1 && 0 <= num2
    requires Solve(op, d, num1, num2).Ok?
    ensures Solve(op, d, num1, num2).value.answer >= 0
  {
    match op
    case Addition =>
    case Subtraction =>
      assert Solve(op, d, num1, num2).value == Subtract(num1, num2);
    case Multiplication =>
      NonNegativeProduct(num1, num2);
    case Division =>
      assert Solve(op, d, num1, num2).value == DivideAsWritten(num1, num2);
    case Sequence =>
      assert Solve(op, d, num1, num2).value == ContinueSequence(d, num1);
      assert SequenceStart(d, num1) >= 0;
  }

  lemma NonNegativeProduct(a: int, b: int)
    requires 0 <= a && 0 <= b
    ensures 0 <= a * b
  {
  }

  /** The text of the question about a problem's shown numbers. */
  function Prompt(op: Operation, shown: seq<int>): string
    requires Integral(op)
    requires |shown| == if op == Sequence then 4 else 2
  {
    match op
    case Addition => Equation(shown[0], "+", shown[1])
    case Subtraction => Equation(shown[0], "-", shown[1])
    case Multiplication => Equation(shown[0], "×", shown[1])
    case Division => Equation(shown[0], "÷", shown[1])
    case Sequence => "What comes next in the sequence? " + JoinNumbers(shown) + ", ?"
  }

  /** How far the wrong choices may stray from the answer. */
  function OptionRange(d: Difficulty): nat
  {
    match d
    case Easy => 5
    case Medium => 10
    case Hard => 20
  }

  /** A candidate the options loop accepts: non-negative and within the range of the answer. */
  predicate Near(answer: int, range: int, x: int)
  {
    0 <= x && answer - range <= x < answer + range
  }

  /**
   * The rejection loop of `generateOptions`: draw `answer + k - range` with
   * `0 <= k < 2 * range` until four distinct non-negative values are held.
   * Each round uses one draw; `fuel` bounds the rounds.
   */
  function CollectOptions(answer: int, range: nat, options: seq<int>, rand: Rand, pos: nat, fuel: nat)
    : (r: Result<Gen<seq<int>>, GenError>)
    requires 0 < range
    requires 1 <= |options| <= 4 && options[0] == answer && Distinct(options)
    requires forall i :: 1 <= i < |options| ==> Near(answer, range, options[i])
    ensures r.Ok? ==> |r.value.value| == 4 && r.value.value[0] == answer && Distinct(r.value.value)
    ensures r.Ok? ==> forall i :: 1 <= i < 4 ==> Near(answer, range, r.value.value[i])
    ensures r.Err? ==> r.error == OutOfFuel
    decreases fuel
  {
    if |options| >= 4 then Ok(Gen(options, pos))
    else if fuel == 0 then Err(OutOfFuel)
    else
      var option := answer + Below(rand, pos, range * 2).value - range;
      if option !in options && option >= 0 then
        DistinctSnoc(options, option);
        CollectOptions(answer, range, options + [option], rand, pos + 1, fuel - 1)
      else
        CollectOptions(answer, range, options, rand, pos + 1, fuel - 1)
  }

  /** `options.map(String)`. */
  function RenderAll(xs: seq<int>): (r: seq<string>)
    ensures |r| == |xs|
    ensures forall i :: 0 <= i < |xs| ==> r[i] == IntToString(xs[i])
  {
    seq(|xs|, i requires 0 <= i < |xs| => IntToString(xs[i]))
  }

  lemma RenderAllKeepsDistinct(xs: seq<int>)
    requires Distinct(xs)
    ensures Distinct(RenderAll(xs))
  {
    forall i, j | 0 <= i < j < |xs|
      ensures RenderAll(xs)[i] != RenderAll(xs)[j]
    {
      IntToStringInjective(xs[i], xs[j]);
    }
  }

  /**
   * `generateOptions`: four distinct numerals, one of them the answer's, the
   * others non-negative and within the difficulty's range of it, shuffled.
   */
  function GenerateOptions(answer: int, d: Difficulty, rand: Rand, pos: nat, fuel: nat)
    : (r: Result<Gen<seq<string>>, GenError>)
    ensures r.Ok? ==> |r.value.value| == 4 && Distinct(r.value.value)
    ensures r.Ok? ==> IntToString(answer) in r.value.value
    ensures r.Ok? ==> forall o :: o in r.value.value ==>
              o == IntToString(answer) ||
              exists x :: Near(answer, OptionRange(d), x) && x != answer && o == IntToString(x)
    ensures r.Err? ==> r.error == OutOfFuel
  {
    var range := OptionRange(d);
    var collected :- CollectOptions(answer, range, [answer], rand, pos, fuel);
    var shuffled := Permute(collected.value, rand, collected.next);
    PermuteIsPermutation(collected.value, rand, collected.next);
    PermuteKeepsDistinct(collected.value, rand, collected.next);
    RenderAllKeepsDistinct(shuffled.value);
    GenerateOptionsFacts(answer, range, collected.value, shuffled.value);
    Ok(Gen(RenderAll(shuffled.value), shuffled.next))
  }

  lemma GenerateOptionsFacts(answer: int, range: int, collected: seq<int>, shuffled: seq<int>)
    requires |collected| == 4 && collected[0] == answer
    requires forall i :: 1 <= i < 4 ==> Near(answer, range, collected[i])
    requires Distinct(collected)
    requires multiset(shuffled) == multiset(collected)
    ensures IntToString(answer) in RenderAll(shuffled)
    ensures forall o :: o in RenderAll(shuffled) ==>
              o == IntToString(answer) ||
              exists x :: Near(answer, range, x) && x != answer && o == IntToString(x)
  {
    assert answer in multiset(shuffled);
    var k :| 0 <= k < |shuffled| && shuffled[k] == answer;
    assert RenderAll(shuffled)[k] == IntToString(answer);
    forall o | o in RenderAll(shuffled)
      ensures o == IntToString(answer) ||
              exists x :: Near(answer, range, x) && x != answer && o == IntToString(x)
    {
      var i :| 0 <= i < |shuffled| && RenderAll(shuffled)[i] == o;
      var x := shuffled[i];
      assert x in multiset(collected);
      var j :| 0 <= j < 4 && collected[j] == x;
      if j != 0 {
        assert collected[j] != collected[0];
        assert Near(answer, range, x) && x != answer && o == IntToString(x);
      }
    }
  }

  /** Every operation an easy question can draw has an integer answer. */
  lemma EasyDrawsIntegral(k: nat)
    requires k < OperationCount(Easy)
    ensures Integral(Operations[k])
  {
  }

  /** The content poses the problem `p`: its text is the problem's prompt and its answer the problem's. */
  predicate PosedAs(c: Content, p: Result<Problem, GenError>)
  {
    && c.MathContent? && p.Ok? && Integral(c.operation)
    && |p.value.shown| == (if c.operation == Sequence then 4 else 2)
    && c.question == Prompt(c.operation, p.value.shown)
    && c.correctAnswer == Num(p.value.answer)
  }

  /**
   * What a generated math question promises at difficulty `d`: an operation
   * the difficulty draws from; operands in the difficulty's ranges that the
   * operation turns into the question's text and answer; and four distinct
   * options, the answer's numeral among them and every other one the numeral
   * of a non-negative value near the answer.
   */
  ghost predicate SolvedMath(c: Content, d: Difficulty)
  {
    && c.MathContent?
    && c.operation in Operations[..OperationCount(d)]
    && (exists num1, num2 :: OperandsInRange(d, num1, num2) && PosedAs(c, Solve(c.operation, d, num1, num2)))
    && c.correctAnswer.Num? && c.correctAnswer.n >= 0
    && c.options.Some? && |c.options.value| == 4 && Distinct(c.options.value)
    && IntToString(c.correctAnswer.n) in c.options.value
    && (forall o :: o in c.options.value ==>
          o == IntToString(c.correctAnswer.n) ||
          exists x :: Near(c.correctAnswer.n, OptionRange(d), x) && x != c.correctAnswer.n && o == IntToString(x))
  }

  /**
   * One math question for slot `slot`: an operation draw, two operand draws,
   * the problem, and its four options.
   */
  method MathQuestion(d: Difficulty, env: Env, slot: nat, pos: nat) returns (r: Result<Gen<Question>, GenError>)
    ensures r.Ok? ==> GeneratedAs(r.value.value, MathType, d) && r.value.value.id == env.ids(slot)
    ensures r.Ok? ==> SolvedMath(r.value.value.content, d)
    ensures r.Err? && d == Easy ==> r.error == OutOfFuel
  {
    var opDraw := Below(env.rand, pos, OperationCount(d));
    var op := Operations[opDraw.value];
    var operands := DrawOperands(d, env.rand, opDraw.next);
    var problem :- Solve(op, d, operands.value.0, operands.value.1);
    SolvedAnswerNonNegative(op, d, operands.value.0, operands.value.1);
    var options :- GenerateOptions(problem.answer, d, env.rand, operands.next, env.fuel);
    var q := Question(env.ids(slot), MathType, d, Points(d), Some(TimeLimit(d)),
                      MathContent(Prompt(op, problem.shown), Some(options.value), Num(problem.answer), op));
    assert Answer.Render(CorrectAnswer(q.content)) == IntToString(problem.answer);
    assert PosedAs(q.content, Solve(op, d, operands.value.0, operands.value.1));
    return Ok(Gen(q, options.next));
  }

  /** A math question of difficulty `d` with id `id`, posing a problem the operands of `d` solve. */
  ghost predicate MathRound(q: Question, d: Difficulty, id: string)
  {
    GeneratedAs(q, MathType, d) && q.id == id && SolvedMath(q.content, d)
  }

  /** Appending a round's question to rounds already played keeps every round well posed. */
  lemma MathRoundsGrow(qs: seq<Question>, q: Question, d: Difficulty, ids: nat -> string)
    requires forall k :: 0 <= k < |qs| ==> MathRound(qs[k], d, ids(k))
    requires MathRound(q, d, ids(|qs|))
    ensures forall k :: 0 <= k < |qs + [q]| ==> MathRound((qs + [q])[k], d, ids(k))
  {
  }

  /**
   * `generateMathQuestions`: one question per round of `for (i = 0; i < count; i++)`,
   * so a count that is not positive gives none.
   */
  method GenerateMath(d: Difficulty, count: int, env: Env, pos: nat) returns (r: Result<Gen<seq<Question>>, GenError>)
    ensures r.Ok? ==> |r.value.value| == if count > 0 then count else 0
    ensures r.Ok? ==> forall i :: 0 <= i < |r.value.value| ==> MathRound(r.value.value[i], d, env.ids(i))
    ensures r.Err? && d == Easy ==> r.error == OutOfFuel
  {
    var rounds := if count > 0 then count else 0;
    var questions: seq<Question> := [];
    var cursor := pos;
    for i := 0 to rounds
      invariant |questions| == i
      invariant forall k :: 0 <= k < i ==> MathRound(questions[k], d, env.ids(k))
    {
      var q :- MathQuestion(d, env, i, cursor);
      MathRoundsGrow(questions, q.value, d, env.ids);
      questions := questions + [q.value];
      cursor := q.next;
    }
    return Ok(Gen(questions, cursor));
  }

  // ---------------------------------------------------------------------------
  // Quiz and guess

  /** Where `slice(0, count)` ends on a list of `len` items: a negative count counts back from the end. */
  function SliceEnd(len: nat, count: int): (e: nat)
    ensures e <= len
    ensures 0 <= count ==> e == Min(count, len)
    ensures count < 0 ==> e + Min(-count, len) == len
  {
    if count >= 0 then Min(count, len)
    else if len + count > 0 then len + count
    else 0
  }

  /**
   * `pool.sort(() => 0.5 - Math.random()).slice(0, count)`: a random selection
   * of the pool's items, as many as `slice` keeps.
   */
  function Select<T>(pool: seq<T>, count: int, rand: Rand, pos: nat): (r: Gen<seq<T>>)
    ensures |r.value| == SliceEnd(|pool|, count)
    ensures forall x :: x in r.value ==> x in pool
    ensures Distinct(pool) ==> Distinct(r.value)
  {
    var shuffled := Permute(pool, rand, pos);
    PermuteIsPermutation(pool, rand, pos);
    var n := SliceEnd(|pool|, count);
    assert forall x :: x in shuffled.value[..n] ==> x in multiset(pool);
    ShuffledPrefixDistinct(pool, rand, pos, n);
    Gen(shuffled.value[..n], shuffled.next)
  }

  lemma ShuffledPrefixDistinct<T>(pool: seq<T>, rand: Rand, pos: nat, n: nat)
    requires n <= |pool|
    ensures Distinct(pool) ==> Distinct(Permute(pool, rand, pos).value[..n])
  {
    if Distinct(pool) {
      PermuteKeepsDistinct(pool, rand, pos);
      PrefixKeepsDistinct(Permute(pool, rand, pos).value, n);
    }
  }

  /**
   * The content `c` carries bank item `item`: every field of a quiz item, or
   * the hint, answer, image and category of a guess item (whose options are
   * drawn afresh).
   */
  predicate BuiltFrom(c: Content, item: BankItem)
  {
    match item
    case QuizItem(question, options, answer, category, photo, explanation) =>
      c == QuizContent(question, options, answer, category, Some(explanation), Some(photo))
    case GuessItem(hint, answer, photo, category) =>
      && c.GuessContent? && c.hint == Some(hint) && c.guessAnswer == answer
      && c.image == photo && c.category == category
  }

  /** A question's content carries at most one bank item. */
  lemma BuiltFromOneItem(c: Content, a: BankItem, b: BankItem)
    requires BuiltFrom(c, a) && BuiltFrom(c, b)
    ensures a == b
  {
  }

  /** The question carries an item of `pool`. */
  ghost predicate CarriesItemOf(q: Question, pool: seq<BankItem>)
  {
    exists item :: item in pool && BuiltFrom(q.content, item)
  }

  /** Every question carries an item of `pool`. */
  ghost predicate FromPool(qs: seq<Question>, pool: seq<BankItem>)
  {
    forall i :: 0 <= i < |qs| ==> CarriesItemOf(qs[i], pool)
  }

  /** No two questions carry the same item. */
  ghost predicate NoItemTwice(qs: seq<Question>)
  {
    forall i, j, item :: 0 <= i < j < |qs| && BuiltFrom(qs[i].content, item) ==> !BuiltFrom(qs[j].content, item)
  }

  /** Questions built one per item, in turn, from items of `pool` carry items of the pool, distinct when the items are. */
  lemma BuiltFromItems(qs: seq<Question>, items: seq<BankItem>, pool: seq<BankItem>)
    requires |qs| == |items|
    requires forall i :: 0 <= i < |qs| ==> BuiltFrom(qs[i].content, items[i])
    requires forall x :: x in items ==> x in pool
    ensures FromPool(qs, pool)
    ensures Distinct(items) ==> NoItemTwice(qs)
  {
    BuiltFromPool(qs, items, pool);
    if Distinct(items) {
      BuiltFromDistinct(qs, items);
    }
  }

  lemma BuiltFromPool(qs: seq<Question>, items: seq<BankItem>, pool: seq<BankItem>)
    requires |qs| == |items|
    requires forall i :: 0 <= i < |qs| ==> BuiltFrom(qs[i].content, items[i])
    requires forall x :: x in items ==> x in pool
    ensures FromPool(qs, pool)
  {
    forall i | 0 <= i < |qs|
      ensures CarriesItemOf(qs[i], pool)
    {
      assert items[i] in items;
      assert items[i] in pool && BuiltFrom(qs[i].content, items[i]);
    }
  }

  lemma BuiltFromDistinct(qs: seq<Question>, items: seq<BankItem>)
    requires |qs| == |items| && Distinct(items)
    requires forall i :: 0 <= i < |qs| ==> BuiltFrom(qs[i].content, items[i])
    ensures NoItemTwice(qs)
  {
    forall i, j, item | 0 <= i < j < |qs| && BuiltFrom(qs[i].content, item)
      ensures !BuiltFrom(qs[j].content, item)
    {
      BuiltFromOneItem(qs[i].content, item, items[i]);
      if BuiltFrom(qs[j].content, item) {
        BuiltFromOneItem(qs[j].content, item, items[j]);
      }
    }
  }

  /** The question a quiz item becomes. */
  function QuizQuestionOf(item: BankItem, d: Difficulty, id: string): (q: Question)
    requires QuizItemOk(item)
    ensures GeneratedAs(q, QuizType, d) && q.id == id
    ensures BuiltFrom(q.content, item)
    ensures CorrectAnswer(q.content) == Str(item.correctAnswer) && q.content.category == item.category
  {
    Question(id, QuizType, d, Points(d), Some(TimeLimit(d)),
             QuizContent(item.question, item.options, item.correctAnswer, item.category,
                         Some(item.explanation), Some(item.photo)))
  }

  /** The selected quiz items as questions, the `i`-th with id `ids(i)`. */
  function QuizQuestions(items: seq<BankItem>, d: Difficulty, ids: nat -> string): (r: seq<Question>)
    requires IsQuizBank(items)
    ensures |r| == |items|
    ensures forall i :: 0 <= i < |items| ==>
              && GeneratedAs(r[i], QuizType, d) && r[i].id == ids(i)
              && BuiltFrom(r[i].content, items[i])
              && CorrectAnswer(r[i].content) == Str(items[i].correctAnswer)
              && r[i].content.category == items[i].category
  {
    var r := seq(|items|, i requires 0 <= i < |items| => QuizQuestionOf(items[i], d, ids(i)));
    assert forall i :: 0 <= i < |items| ==> r[i] == QuizQuestionOf(items[i], d, ids(i));
    r
  }

  /**
   * `generateQuizQuestions` over a bank: the items of the difficulty's
   * categories, shuffled, cut to `count`, each given the next id.
   */
  function GenerateQuizFrom(bank: seq<BankItem>, d: Difficulty, count: int, env: Env, pos: nat)
    : (r: Gen<seq<Question>>)
    requires IsQuizBank(bank)
    ensures |r.value| == SliceEnd(|InCategories(bank, QuizCategories(d))|, count)
    ensures forall i :: 0 <= i < |r.value| ==>
              && GeneratedAs(r.value[i], QuizType, d) && r.value[i].id == env.ids(i)
              && r.value[i].content.category in QuizCategories(d)
    ensures FromPool(r.value, InCategories(bank, QuizCategories(d)))
    ensures Distinct(bank) ==> NoItemTwice(r.value)
  {
    var pool := InCategories(bank, QuizCategories(d));
    var selected := Select(pool, count, env.rand, pos);
    var questions := QuizQuestions(selected.value, d, env.ids);
    BuiltFromItems(questions, selected.value, pool);
    Gen(questions, selected.next)
  }

  /** `generateQuizQuestions`. */
  method GenerateQuiz(d: Difficulty, count: int, env: Env, pos: nat) returns (r: Gen<seq<Question>>)
    ensures |r.value| == SliceEnd(4, count)
    ensures forall i :: 0 <= i < |r.value| ==>
              && GeneratedAs(r.value[i], QuizType, d) && r.value[i].id == env.ids(i)
              && r.value[i].content.category in QuizCategories(d)
    ensures FromPool(r.value, InCategories(QuizBank, QuizCategories(d)))
    ensures NoItemTwice(r.value)
  {
    QuizBankWellFormed();
    QuizBankDistinct();
    PoolsHoldFour(d);
    r := GenerateQuizFrom(QuizBank, d, count, env, pos);
  }

  /** `optionsByCategory[category] || optionsByCategory.monuments`. */
  function CategoryOptions(category: string): (r: seq<string>)
    ensures |r| == 8 && Distinct(r)
  {
    CategoryListsWellFormed();
    if category in OptionsByCategory then OptionsByCategory[category] else OptionsByCategory["monuments"]
  }

  /** A known category has its own candidates; any other string falls back to the monuments. */
  lemma CategoryOptionsFallback(category: string)
    ensures category in OptionsByCategory ==> CategoryOptions(category) == OptionsByCategory[category]
    ensures category !in OptionsByCategory ==> CategoryOptions(category) == CategoryOptions("monuments")
  {
  }

  /** Three of the candidates other than the answer, chosen at random. */
  function PickOthers(answer: string, candidates: seq<string>, rand: Rand, pos: nat): (r: Gen<seq<string>>)
    requires |candidates| >= 4 && Distinct(candidates)
    ensures |r.value| == 3 && Distinct(r.value)
    ensures answer !in r.value
    ensures forall o :: o in r.value ==> o in candidates
  {
    var others := Without(candidates, answer);
    DistinctCountAtMostOne(candidates, answer);
    var shuffled := Permute(others, rand, pos);
    PermuteIsPermutation(others, rand, pos);
    ShuffledPrefixDistinct(others, rand, pos, 3);
    assert forall o :: o in shuffled.value[..3] ==> o in multiset(others);
    Gen(shuffled.value[..3], shuffled.next)
  }

  /**
   * `generateGuessOptions` over a category's candidates: three candidates other
   * than the answer, chosen at random, and the answer, in random order.
   */
  function GuessOptionsFrom(answer: string, candidates: seq<string>, rand: Rand, pos: nat): (r: Gen<seq<string>>)
    requires |candidates| >= 4 && Distinct(candidates)
    ensures |r.value| == 4 && Distinct(r.value)
    ensures answer in r.value
    ensures forall o :: o in r.value && o != answer ==> o in candidates
  {
    var others := PickOthers(answer, candidates, rand, pos);
    var offered := others.value + [answer];
    DistinctSnoc(others.value, answer);
    var shuffled := Permute(offered, rand, others.next);
    PermuteIsPermutation(offered, rand, others.next);
    PermuteKeepsDistinct(offered, rand, others.next);
    assert answer in multiset(shuffled.value);
    assert forall o :: o in shuffled.value ==> o in multiset(offered);
    shuffled
  }

  /** `generateGuessOptions`. */
  method GenerateGuessOptions(answer: string, category: string, rand: Rand, pos: nat) returns (r: Gen<seq<string>>)
    ensures |r.value| == 4 && Distinct(r.value)
    ensures answer in r.value
    ensures forall o :: o in r.value && o != answer ==> o in CategoryOptions(category)
  {
    r := GuessOptionsFrom(answer, CategoryOptions(category), rand, pos);
  }

  /**
   * The options of a guess question: four distinct names, its answer among
   * them and the others from its category's candidates.
   */
  predicate OffersFourFromCategory(c: Content)
  {
    && c.GuessContent? && c.guessOptions.Some?
    && |c.guessOptions.value| == 4 && Distinct(c.guessOptions.value)
    && c.guessAnswer in c.guessOptions.value
    && (forall o :: o in c.guessOptions.value && o != c.guessAnswer ==> o in CategoryOptions(c.category))
  }

  /** A guess question of difficulty `d` with id `id`, built from `item` with four options. */
  predicate GuessRound(q: Question, d: Difficulty, id: string, item: BankItem)
  {
    && GeneratedAs(q, GuessType, d) && q.id == id
    && q.content.category in GuessCategories(d)
    && OffersFourFromCategory(q.content)
    && BuiltFrom(q.content, item)
  }

  /** Appending the next item's question to the rounds built so far keeps each built from its item. */
  lemma GuessRoundsGrow(qs: seq<Question>, q: Question, d: Difficulty, ids: nat -> string, items: seq<BankItem>)
    requires |qs| < |items|
    requires forall k :: 0 <= k < |qs| ==> GuessRound(qs[k], d, ids(k), items[k])
    requires GuessRound(q, d, ids(|qs|), items[|qs|])
    ensures forall k :: 0 <= k < |qs + [q]| ==> GuessRound((qs + [q])[k], d, ids(k), items[k])
  {
  }

  /**
   * `generateGuessQuestions` over a bank: like the quiz, but each selected item
   * also draws its options, in turn.
   */
  method GenerateGuessFrom(bank: seq<BankItem>, d: Difficulty, count: int, env: Env, pos: nat)
    returns (r: Gen<seq<Question>>)
    requires IsGuessBank(bank)
    ensures |r.value| == SliceEnd(|InCategories(bank, GuessCategories(d))|, count)
    ensures forall i :: 0 <= i < |r.value| ==>
              && GeneratedAs(r.value[i], GuessType, d) && r.value[i].id == env.ids(i)
              && r.value[i].content.category in GuessCategories(d)
              && OffersFourFromCategory(r.value[i].content)
    ensures FromPool(r.value, InCategories(bank, GuessCategories(d)))
    ensures Distinct(bank) ==> NoItemTwice(r.value)
  {
    var pool := InCategories(bank, GuessCategories(d));
    var selected := Select(pool, count, env.rand, pos);
    var items := selected.value;
    var questions: seq<Question> := [];
    var cursor := selected.next;
    for i := 0 to |items|
      invariant |questions| == i
      invariant forall k :: 0 <= k < i ==> GuessRound(questions[k], d, env.ids(k), items[k])
    {
      var item := items[i];
      assert item in bank;
      var options := GenerateGuessOptions(item.correctAnswer, item.category, env.rand, cursor);
      var q := Question(env.ids(i), GuessType, d, Points(d), Some(TimeLimit(d)),
                        GuessContent(Some(item.hint), Some(options.value), item.correctAnswer, item.photo, item.category));
      assert GuessRound(q, d, env.ids(i), item);
      GuessRoundsGrow(questions, q, d, env.ids, items);
      questions := questions + [q];
      cursor := options.next;
    }
    BuiltFromItems(questions, items, pool);
    r := Gen(questions, cursor);
  }

  /** `generateGuessQuestions`. */
  method GenerateGuess(d: Difficulty, count: int, env: Env, pos: nat) returns (r: Gen<seq<Question>>)
    ensures |r.value| == SliceEnd(4, count)
    ensures forall i :: 0 <= i < |r.value| ==>
              && GeneratedAs(r.value[i], GuessType, d) && r.value[i].id == env.ids(i)
              && r.value[i].content.category in GuessCategories(d)
              && OffersFourFromCategory(r.value[i].content)
    ensures FromPool(r.value, InCategories(GuessBank, GuessCategories(d)))
    ensures NoItemTwice(r.value)
  {
    GuessBankWellFormed();
    GuessBankDistinct();
    PoolsHoldFour(d);
    r := GenerateGuessFrom(GuessBank, d, count, env, pos);
  }

  // ---------------------------------------------------------------------------
  // Dispatch

  /** The topic a route parameter names, if any. */
  function TopicOf(topic: string): (t: Option<QuestionType>)
    ensures t == Some(MathType) <==> topic == "math"
    ensures t == Some(QuizType) <==> topic == "quiz"
    ensures t == Some(GuessType) <==> topic == "guess"
  {
    if topic == "math" then Some(MathType)
    else if topic == "quiz" then Some(QuizType)
    else if topic == "guess" then Some(GuessType)
    else None
  }

  /**
   * `generateQuestions`: the generator of the named topic; a topic that is none
   * of the three gives no questions.
   */
  method GenerateQuestions(topic: string, d: Difficulty, count: int, env: Env, pos: nat)
    returns (r: Result<Gen<seq<Question>>, GenError>)
    ensures r.Ok? ==> forall q :: q in r.value.value ==>
              TopicOf(topic) == Some(q.qtype) && GeneratedAs(q, q.qtype, d)
    ensures r.Ok? && 0 <= count ==> |r.value.value| <= count
    ensures r.Err? ==> topic == "math"
    ensures r.Ok? && topic == "math" ==> |r.value.value| == if count > 0 then count else 0
    ensures topic == "quiz" || topic == "guess" ==> r.Ok? && |r.value.value| == SliceEnd(4, count)
    ensures TopicOf(topic).None? ==> r.Ok? && r.value.value == []
  {
    match TopicOf(topic)
    case Some(MathType) =>
      r := GenerateMath(d, count, env, pos);
    case Some(QuizType) =>
      var quiz := GenerateQuiz(d, count, env, pos);
      r := Ok(quiz);
    case Some(GuessType) =>
      var guess := GenerateGuess(d, count, env, pos);
      r := Ok(guess);
    case None =>
      r := Ok(Gen([], pos));
  }
}
