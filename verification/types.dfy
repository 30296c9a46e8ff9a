/** The records of the game: questions, sessions, badges and the learner's profile. */
module Types {
  import opened Wrappers

  datatype Difficulty = Easy | Medium | Hard

  datatype QuestionType = MathType | QuizType | GuessType

  datatype GameMode = Practice | Challenge | Multiplayer

  datatype Language = English | Hindi | Marathi | Tamil | Bengali {
    /** The string the program uses for the language. */
    function Name(): string
    {
      match this
      case English => "english"
      case Hindi => "hindi"
      case Marathi => "marathi"
      case Tamil => "tamil"
      case Bengali => "bengali"
    }
  }

  /** The arithmetic operations a math question can be built from. */
  datatype Operation =
    | Addition | Subtraction | Multiplication | Division | Sequence
    | Fractions | Decimals | Percentages

  /**
   * A value of type `string | number`: a correct answer or a submitted one.
   * Numbers are integers in this model.
   */
  datatype Value = Num(n: int) | Str(s: string)

  /** The topic-specific payload of a question. */
  datatype Content =
    | MathContent(question: string, options: Option<seq<string>>, correctAnswer: Value, operation: Operation)
    | QuizContent(question: string, choices: seq<string>, answerText: string, category: string,
                  explanation: Option<string>, imagePhoto: Option<string>)
    | GuessContent(hint: Option<string>, guessOptions: Option<seq<string>>, guessAnswer: string,
                   image: string, category: string)

  datatype Question = Question(
    id: string,
    qtype: QuestionType,
    difficulty: Difficulty,
    points: int,
    timeLimit: Option<int>,
    content: Content)

  /** `question.content.correctAnswer`, whatever the topic. */
  function CorrectAnswer(c: Content): Value
  {
    match c
    case MathContent(_, _, a, _) => a
    case QuizContent(_, _, a, _, _, _) => Str(a)
    case GuessContent(_, _, a, _, _) => Str(a)
  }

  /** Remaining lives: a count in challenge mode, `Infinity` otherwise. */
  datatype Lives = Finite(n: int) | Unbounded {
    /** `lives - 1`; `Infinity - 1` is still `Infinity`. */
    function Dec(): Lives
    {
      match this
      case Finite(n) => Finite(n - 1)
      case Unbounded => Unbounded
    }

    /** `lives <= 0`. */
    predicate Exhausted()
    {
      Finite? && n <= 0
    }
  }

  /** The state of one play-through (the source's `GameState`). */
  datatype Session = Session(
    currentQuestion: nat,
    score: int,
    lives: Lives,
    gameMode: GameMode,
    questions: seq<Question>,
    answers: seq<Option<Value>>,
    isComplete: bool)

  /** A badge; `unlockedAt` is an opaque timestamp. */
  datatype Badge = Badge(
    id: string,
    name: string,
    description: string,
    icon: string,
    unlocked: bool,
    unlockedAt: Option<nat>)

  datatype Preferences = Preferences(language: Language, voiceEnabled: bool, soundEffects: bool)

  datatype Progress = Progress(mathCompleted: int, quizCompleted: int, guessCompleted: int)

  datatype User = User(
    id: string,
    name: string,
    avatar: string,
    xp: int,
    level: int,
    badges: seq<Badge>,
    preferences: Preferences,
    progress: Progress)
}
