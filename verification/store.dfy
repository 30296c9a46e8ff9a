/**
 * The application store: the profile, the current session and the settings,
 * and the actions that move between states. Every action is a function from
 * the state before to the state after; the time stamp and the fresh user id
 * the source reads from the clock and its id generator are parameters.
 */
module Store {
  import opened Wrappers
  import opened Types
  import opened Random
  import Answer
  import Generator
  import Profile

  datatype AppState = AppState(
    user: Option<User>,
    game: Option<Session>,
    isLoading: bool,
    isAuthenticated: bool,
    currentLanguage: Language,
    soundEnabled: bool,
    voiceEnabled: bool)

  /** What reading a question past the end of the session (`undefined.content`) raises. */
  datatype StoreError = MissingQuestion(index: nat)

  /** The store before any action: no profile, no session, English, sound and voice on. */
  const Initial: AppState := AppState(None, None, false, false, English, true, true)

  // ---------------------------------------------------------------------------
  // Sessions

  /**
   * The session invariant: one answer slot per question, the index inside the
   * session, a non-negative score from non-negative points, lives counted
   * exactly in challenge mode and between zero and three, a running session not out
   * of lives, every question before the index answered and, while the session
   * runs, none from the index on.
   */
  predicate Inv(g: Session)
  {
    && |g.answers| == |g.questions|
    && (if |g.questions| == 0 then g.currentQuestion == 0 else g.currentQuestion < |g.questions|)
    && g.score >= 0
    && (forall q :: q in g.questions ==> q.points >= 0)
    && (g.gameMode == Challenge <==> g.lives.Finite?)
    && (g.lives.Finite? ==> 0 <= g.lives.n <= 3)
    && (!g.isComplete ==> !g.lives.Exhausted())
    && (forall k :: 0 <= k < g.currentQuestion && k < |g.answers| ==> g.answers[k].Some?)
    && (!g.isComplete ==> forall k :: g.currentQuestion <= k < |g.answers| ==> g.answers[k].None?)
  }

  /** The lives a session starts with: three in challenge mode, `Infinity` otherwise. */
  function StartingLives(mode: GameMode): (l: Lives)
    ensures l.Finite? <==> mode == Challenge
    ensures l.Finite? ==> l.n == 3
  {
    if mode == Challenge then Finite(3) else Unbounded
  }

  /** The session `startGame` opens over `questions`. */
  function NewSession(mode: GameMode, questions: seq<Question>): (g: Session)
    requires forall q :: q in questions ==> q.points >= 0
    ensures Inv(g)
    ensures g.currentQuestion == 0 && g.score == 0 && !g.isComplete
    ensures g.gameMode == mode && g.questions == questions && g.lives == StartingLives(mode)
    ensures forall k :: 0 <= k < |g.answers| ==> g.answers[k].None?
  {
    Session(0, 0, StartingLives(mode), mode, questions, seq(|questions|, _ => None), false)
  }

  /** The factor a correct answer's points are multiplied by. */
  function Multiplier(d: Difficulty): (m: int)
    ensures 1 <= m <= 3
    ensures m == 1 <==> d == Easy
    ensures m == 3 <==> d == Hard
  {
    match d
    case Easy => 1
    case Medium => 2
    case Hard => 3
  }

  /**
   * `newAnswers[idx] = answer`: the slot at `idx` holds `v`, the others are
   * kept, and an index past the end grows the array with empty slots.
   */
  function SetSlot(answers: seq<Option<Value>>, idx: nat, v: Option<Value>): (r: seq<Option<Value>>)
    ensures |r| == if idx < |answers| then |answers| else idx + 1
    ensures r[idx] == v
    ensures forall k :: 0 <= k < |answers| && k != idx ==> r[k] == answers[k]
    ensures forall k :: |answers| <= k < idx ==> r[k].None?
  {
    if idx < |answers| then answers[idx := v]
    else answers + seq(idx - |answers|, _ => None) + [v]
  }

  /**
   * One answer to the current question of a running session: the answer is
   * recorded; a correct one scores the question's points times the difficulty
   * multiplier, a wrong one costs a life in challenge mode; the session ends on
   * its last question or when the lives run out, and otherwise moves on.
   */
  function Step(g: Session, answer: Value): (r: Session)
    requires g.currentQuestion < |g.questions|
    ensures r.questions == g.questions && r.gameMode == g.gameMode
    ensures var q := g.questions[g.currentQuestion];
            if Answer.CheckAnswer(q, answer) then r.score == g.score + q.points * Multiplier(q.difficulty)
            else r.score == g.score
    ensures r.lives == if !Answer.CheckAnswer(g.questions[g.currentQuestion], answer) && g.gameMode == Challenge
                       then g.lives.Dec() else g.lives
    ensures r.answers == SetSlot(g.answers, g.currentQuestion, Some(answer))
    ensures r.isComplete <==> g.currentQuestion == |g.questions| - 1 || r.lives.Exhausted()
    ensures r.currentQuestion == if r.isComplete then g.currentQuestion else g.currentQuestion + 1
  {
    var idx := g.currentQuestion;
    var q := g.questions[idx];
    var correct := Answer.CheckAnswer(q, answer);
    var score := if correct then g.score + q.points * Multiplier(q.difficulty) else g.score;
    var lives := if !correct && g.gameMode == Challenge then g.lives.Dec() else g.lives;
    var done := idx == |g.questions| - 1 || lives.Exhausted();
    Session(if done then idx else idx + 1, score, lives, g.gameMode, g.questions,
            SetSlot(g.answers, idx, Some(answer)), done)
  }

  /** An answer to a running session keeps the invariant and never lowers the score. */
  lemma StepKeepsInv(g: Session, answer: Value)
    requires Inv(g) && !g.isComplete && g.currentQuestion < |g.questions|
    ensures Inv(Step(g, answer))
    ensures Step(g, answer).score >= g.score
  {
    var q := g.questions[g.currentQuestion];
    assert q in g.questions;
    assert q.points * Multiplier(q.difficulty) >= 0;
    SlotsStayOrdered(g.answers, g.currentQuestion, Some(answer));
  }

  /**
   * Filling the first empty slot of answers that are filled before `idx` and
   * empty from it on leaves them filled up to `idx` and empty after it.
   */
  lemma SlotsStayOrdered(answers: seq<Option<Value>>, idx: nat, v: Option<Value>)
    requires idx < |answers| && v.Some?
    requires forall k :: 0 <= k < idx ==> answers[k].Some?
    requires forall k :: idx <= k < |answers| ==> answers[k].None?
    ensures |SetSlot(answers, idx, v)| == |answers|
    ensures forall k :: 0 <= k <= idx ==> SetSlot(answers, idx, v)[k].Some?
    ensures forall k :: idx < k < |answers| ==> SetSlot(answers, idx, v)[k].None?
  {
    var r := SetSlot(answers, idx, v);
    assert forall k :: 0 <= k < |answers| && k != idx ==> r[k] == answers[k];
  }

  /** The answers `xs` given in turn, stopping once the session ends. */
  function Play(g: Session, xs: seq<Value>): Session
    decreases |xs|
  {
    if |xs| == 0 || g.isComplete || g.currentQuestion >= |g.questions| then g
    else Play(Step(g, xs[0]), xs[1..])
  }

  /** Any run of answers keeps the invariant and never lowers the score. */
  lemma {:induction false} PlayKeepsInv(g: Session, xs: seq<Value>)
    requires Inv(g)
    ensures Inv(Play(g, xs))
    ensures Play(g, xs).score >= g.score
    ensures Play(g, xs).questions == g.questions
    decreases |xs|
  {
    if |xs| == 0 || g.isComplete || g.currentQuestion >= |g.questions| {
    } else {
      StepKeepsInv(g, xs[0]);
      PlayKeepsInv(Step(g, xs[0]), xs[1..]);
    }
  }

  /**
   * A running session over at least one question is over after as many
   * answers as it has questions left, whatever they are.
   */
  lemma {:induction false} PlayCompletes(g: Session, xs: seq<Value>)
    requires Inv(g) && |g.questions| > 0
    requires |xs| >= |g.questions| - g.currentQuestion
    ensures Play(g, xs).isComplete
    decreases |xs|
  {
    if g.isComplete {
    } else {
      StepKeepsInv(g, xs[0]);
      var next := Step(g, xs[0]);
      if !next.isComplete {
        PlayCompletes(next, xs[1..]);
      }
    }
  }

  /** A practice session cannot be lost: it ends only on its last question. */
  lemma PracticeEndsOnLastQuestion(g: Session, answer: Value)
    requires Inv(g) && !g.isComplete && g.currentQuestion < |g.questions| && g.gameMode != Challenge
    ensures Step(g, answer).isComplete <==> g.currentQuestion == |g.questions| - 1
  {
  }

  /**
   * Three wrong answers end a challenge session, however many questions remain;
   * when the questions last that long, the session ends with no lives left.
   */
  lemma {:induction false} ChallengeEndsAfterThreeMistakes(g: Session, xs: seq<Value>)
    requires Inv(g) && g.gameMode == Challenge && |g.questions| > 0
    requires |xs| >= g.lives.n
    requires forall k :: 0 <= k < |xs| ==>
               g.currentQuestion + k < |g.questions| ==>
               !Answer.CheckAnswer(g.questions[g.currentQuestion + k], xs[k])
    ensures Play(g, xs).isComplete
    ensures !g.isComplete && g.currentQuestion + g.lives.n <= |g.questions| ==> Play(g, xs).lives == Finite(0)
    decreases |xs|
  {
    if g.isComplete {
    } else {
      StepKeepsInv(g, xs[0]);
      var next := Step(g, xs[0]);
      assert next.lives.n == g.lives.n - 1;
      if !next.isComplete {
        assert next.currentQuestion == g.currentQuestion + 1;
        forall k | 0 <= k < |xs[1..]| && next.currentQuestion + k < |next.questions|
          ensures !Answer.CheckAnswer(next.questions[next.currentQuestion + k], xs[1..][k])
        {
          assert xs[1..][k] == xs[k + 1];
        }
        ChallengeEndsAfterThreeMistakes(next, xs[1..]);
      }
    }
  }

  // ---------------------------------------------------------------------------
  // Actions

  /** `initializeUser`: a fresh profile under the generated id, and the learner signed in. */
  function InitializeUser(s: AppState, id: string, name: string, avatar: string): (r: AppState)
    ensures r.user == Some(Profile.NewUser(id, name, avatar)) && r.isAuthenticated
    ensures Profile.Consistent(r.user.value)
    ensures r == s.(user := r.user, isAuthenticated := true)
  {
    s.(user := Some(Profile.NewUser(id, name, avatar)), isAuthenticated := true)
  }

  /** `updateUser`: merges the patch into the profile; without a profile nothing happens. */
  function UpdateUser(s: AppState, p: Profile.UserPatch): (r: AppState)
    ensures s.user.None? ==> r == s
    ensures s.user.Some? ==> r == s.(user := Some(Profile.Merge(s.user.value, p)))
  {
    match s.user
    case None => s
    case Some(u) => s.(user := Some(Profile.Merge(u, p)))
  }

  /**
   * `startGame`: generates the questions and opens a fresh session over them;
   * nothing else in the store changes.
   */
  method StartGame(s: AppState, mode: GameMode, topic: string, d: Difficulty, count: int,
                   env: Generator.Env, pos: nat)
    returns (r: Result<Gen<AppState>, Generator.GenError>)
    ensures r.Ok? ==> r.value.value == s.(game := r.value.value.game) && r.value.value.game.Some?
    ensures r.Ok? ==> var g := r.value.value.game.value;
              && Inv(g) && g.currentQuestion == 0 && g.score == 0 && !g.isComplete
              && g.gameMode == mode && g.lives == StartingLives(mode)
              && (forall k :: 0 <= k < |g.answers| ==> g.answers[k].None?)
              && (forall q :: q in g.questions ==>
                    Generator.TopicOf(topic) == Some(q.qtype) && Generator.GeneratedAs(q, q.qtype, d))
    ensures r.Ok? && topic == "math" ==> |r.value.value.game.value.questions| == if count > 0 then count else 0
    ensures topic == "quiz" || topic == "guess" ==>
              r.Ok? && |r.value.value.game.value.questions| == Generator.SliceEnd(4, count)
    ensures Generator.TopicOf(topic).None? ==> r.Ok? && r.value.value.game.value.questions == []
    ensures r.Err? ==> topic == "math"
  {
    var generated :- Generator.GenerateQuestions(topic, d, count, env, pos);
    var questions := generated.value;
    assert forall q :: q in questions ==> Generator.WellFormed(q);
    var g := NewSession(mode, questions);
    r := Ok(Gen(s.(game := Some(g)), generated.next));
  }

  /**
   * `answerQuestion`: without a running session nothing happens; an index past
   * the last question fails; otherwise the session takes one step, and if that
   * step ends it the profile is rewarded with the topic's counter and the score
   * as experience.
   */
  function AnswerQuestion(s: AppState, answer: Value, now: nat): (r: Result<AppState, StoreError>)
    ensures s.game.None? || s.game.value.isComplete ==> r == Ok(s)
    ensures r.Err? <==> s.game.Some? && !s.game.value.isComplete &&
                        s.game.value.currentQuestion >= |s.game.value.questions|
    ensures r.Ok? && s.game.Some? && !s.game.value.isComplete ==>
              var g := s.game.value;
              var next := Step(g, answer);
              && r.value.game == Some(next)
              && r.value == s.(game := r.value.game, user := r.value.user)
              && (next.isComplete && s.user.Some? ==>
                    r.value.user == Some(Profile.Reward(s.user.value, g.questions[g.currentQuestion].qtype,
                                                        next.score, now)))
              && (!next.isComplete || s.user.None? ==> r.value.user == s.user)
  {
    match s.game
    case None => Ok(s)
    case Some(g) =>
      if g.isComplete then Ok(s)
      else if g.currentQuestion >= |g.questions| then Err(MissingQuestion(g.currentQuestion))
      else
        var next := Step(g, answer);
        var user :=
          if next.isComplete && s.user.Some?
          then Some(Profile.Reward(s.user.value, g.questions[g.currentQuestion].qtype, next.score, now))
          else s.user;
        Ok(s.(game := Some(next), user := user))
  }

  /** Finishing a session hands its score to the profile as experience. */
  lemma FinishingRewardsScore(s: AppState, answer: Value, now: nat)
    requires s.game.Some? && s.user.Some? && Inv(s.game.value) && !s.game.value.isComplete
    requires |s.game.value.questions| > 0
    requires s.game.value.currentQuestion == |s.game.value.questions| - 1
    ensures AnswerQuestion(s, answer, now).Ok?
    ensures var r := AnswerQuestion(s, answer, now).value;
            && r.game.value.isComplete
            && r.user.value.xp == s.user.value.xp + r.game.value.score
            && r.user.value.level == 1 + r.user.value.xp / 100
  {
  }

  /** `completeGame`: marks the session finished. */
  function CompleteGame(s: AppState): (r: AppState)
    ensures s.game.None? ==> r == s
    ensures s.game.Some? ==> r.game == Some(s.game.value.(isComplete := true))
    ensures r == s.(game := r.game)
    ensures s.game.Some? && Inv(s.game.value) ==> Inv(r.game.value)
  {
    match s.game
    case None => s
    case Some(g) => s.(game := Some(g.(isComplete := true)))
  }

  /** A finished session ignores further answers. */
  lemma CompletedIgnoresAnswers(s: AppState, answer: Value, now: nat)
    requires s.game.Some?
    ensures AnswerQuestion(CompleteGame(s), answer, now) == Ok(CompleteGame(s))
  {
  }

  /** `resetGame`: drops the session. */
  function ResetGame(s: AppState): (r: AppState)
    ensures r.game.None? && r == s.(game := None)
  {
    s.(game := None)
  }

  /** The profile's sound preference agrees with the store's flag (or there is no profile). */
  predicate SoundMirrored(s: AppState)
  {
    s.user.Some? ==> s.user.value.preferences.soundEffects == s.soundEnabled
  }

  /** The profile's voice preference agrees with the store's flag (or there is no profile). */
  predicate VoiceMirrored(s: AppState)
  {
    s.user.Some? ==> s.user.value.preferences.voiceEnabled == s.voiceEnabled
  }

  /** `toggleSound`: flips the flag and writes the new value into the profile's preferences. */
  function ToggleSound(s: AppState): (r: AppState)
    ensures r.soundEnabled == !s.soundEnabled
    ensures r == s.(soundEnabled := r.soundEnabled, user := r.user)
    ensures r.user.None? <==> s.user.None?
    ensures SoundMirrored(r)
    ensures s.user.Some? ==> r.user.value == s.user.value.(preferences := r.user.value.preferences)
    ensures s.user.Some? ==>
              r.user.value.preferences == s.user.value.preferences.(soundEffects := r.soundEnabled)
  {
    var flag := !s.soundEnabled;
    var t := s.(soundEnabled := flag);
    match s.user
    case None => t
    case Some(u) => UpdateUser(t, Profile.NoChange.(preferences := Some(u.preferences.(soundEffects := flag))))
  }

  /** `toggleVoice`: flips the flag and writes the new value into the profile's preferences. */
  function ToggleVoice(s: AppState): (r: AppState)
    ensures r.voiceEnabled == !s.voiceEnabled
    ensures r == s.(voiceEnabled := r.voiceEnabled, user := r.user)
    ensures r.user.None? <==> s.user.None?
    ensures VoiceMirrored(r)
    ensures s.user.Some? ==> r.user.value == s.user.value.(preferences := r.user.value.preferences)
    ensures s.user.Some? ==>
              r.user.value.preferences == s.user.value.preferences.(voiceEnabled := r.voiceEnabled)
  {
    var flag := !s.voiceEnabled;
    var t := s.(voiceEnabled := flag);
    match s.user
    case None => t
    case Some(u) => UpdateUser(t, Profile.NoChange.(preferences := Some(u.preferences.(voiceEnabled := flag))))
  }

  /** Toggling twice restores the store exactly when the profile agreed with the flag beforehand. */
  lemma ToggleTwice(s: AppState)
    ensures ToggleSound(ToggleSound(s)) == s <==> SoundMirrored(s)
    ensures ToggleVoice(ToggleVoice(s)) == s <==> VoiceMirrored(s)
  {
    if s.user.Some? {
      var u := s.user.value;
      if ToggleSound(ToggleSound(s)) == s {
        assert ToggleSound(ToggleSound(s)).user.value.preferences.soundEffects == u.preferences.soundEffects;
      }
      if ToggleVoice(ToggleVoice(s)) == s {
        assert ToggleVoice(ToggleVoice(s)).user.value.preferences.voiceEnabled == u.preferences.voiceEnabled;
      }
    }
  }

  /** `changeLanguage`: sets the store's language and the profile's preference. */
  function ChangeLanguage(s: AppState, language: Language): (r: AppState)
    ensures r.currentLanguage == language
    ensures s.user.Some? ==>
              r.user == Some(s.user.value.(preferences := s.user.value.preferences.(language := language)))
    ensures r == s.(currentLanguage := language, user := r.user)
    ensures r.user.None? <==> s.user.None?
  {
    var t := s.(currentLanguage := language);
    match s.user
    case None => t
    case Some(u) => UpdateUser(t, Profile.NoChange.(preferences := Some(u.preferences.(language := language))))
  }

  /** The last language chosen is the one that counts. */
  lemma ChangeLanguageLastWins(s: AppState, first: Language, second: Language)
    ensures ChangeLanguage(ChangeLanguage(s, first), second) == ChangeLanguage(s, second)
  {
  }

  /** `awardBadge` on the store's profile; without a profile nothing happens. */
  function AwardBadge(s: AppState, id: string, now: nat): (r: AppState)
    ensures s.user.None? ==> r == s
    ensures s.user.Some? ==> r == s.(user := Some(Profile.AwardBadgeTo(s.user.value, id, now)))
    ensures s.user.Some? && Profile.Consistent(s.user.value) ==> Profile.Consistent(r.user.value)
  {
    match s.user
    case None => s
    case Some(u) => s.(user := Some(Profile.AwardBadgeTo(u, id, now)))
  }

  /** `addXp` on the store's profile; without a profile nothing happens. */
  function AddXp(s: AppState, amount: int, now: nat): (r: AppState)
    ensures s.user.None? ==> r == s
    ensures s.user.Some? ==> r == s.(user := Some(Profile.AddXpTo(s.user.value, amount, now)))
    ensures s.user.Some? && Profile.Consistent(s.user.value) ==> Profile.Consistent(r.user.value)
  {
    match s.user
    case None => s
    case Some(u) => s.(user := Some(Profile.AddXpTo(u, amount, now)))
  }

  // ---------------------------------------------------------------------------
  // Persistence

  /** The part of the store that is saved between visits. */
  datatype Saved = Saved(user: Option<User>, currentLanguage: Language, soundEnabled: bool, voiceEnabled: bool)

  /** What is saved: the profile and the settings, never the session or the flags of the moment. */
  function Save(s: AppState): (p: Saved)
    ensures p.user == s.user && p.currentLanguage == s.currentLanguage
    ensures p.soundEnabled == s.soundEnabled && p.voiceEnabled == s.voiceEnabled
  {
    Saved(s.user, s.currentLanguage, s.soundEnabled, s.voiceEnabled)
  }

  /** A fresh store with the saved part laid over the initial state. */
  function Restore(p: Saved): (s: AppState)
    ensures s.game.None? && !s.isLoading && !s.isAuthenticated
  {
    Initial.(user := p.user, currentLanguage := p.currentLanguage,
             soundEnabled := p.soundEnabled, voiceEnabled := p.voiceEnabled)
  }

  /** Saving a restored store gives back what was saved; restoring a saved store loses only the session and the flags. */
  lemma SaveRestoreRoundTrip(p: Saved, s: AppState)
    ensures Save(Restore(p)) == p
    ensures Restore(Save(s)) == s.(game := None, isLoading := false, isAuthenticated := false)
  {
  }
}
