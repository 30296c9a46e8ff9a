/**
 * The learner's profile and the store actions that change it: the new
 * profile, the field merge of `updateUser`, badges, experience and the
 * per-topic completion counters.
 */
module Profile {
  import opened Wrappers
  import opened Text
  import opened Types
  import Helpers

  // ---------------------------------------------------------------------------
  // Consistency

  /** No two badges share an id. */
  predicate UniqueIds(badges: seq<Badge>)
  {
    forall i, j :: 0 <= i < j < |badges| ==> badges[i].id != badges[j].id
  }

  /** The profile invariant: the level is the one the experience earns, and badge ids are unique. */
  predicate Consistent(u: User)
  {
    u.level == Helpers.CalculateLevel(u.xp) && UniqueIds(u.badges)
  }

  /** `initializeUser`'s profile: no experience, level 1, no badges, English with voice and sound. */
  function NewUser(id: string, name: string, avatar: string): (u: User)
    ensures Consistent(u)
    ensures u.id == id && u.name == name && u.avatar == avatar
    ensures u.xp == 0 && u.level == 1 && u.badges == []
    ensures u.preferences.language == English && u.preferences.voiceEnabled && u.preferences.soundEffects
    ensures u.progress == Progress(0, 0, 0)
  {
    User(id, name, avatar, 0, 1, [], Preferences(English, true, true), Progress(0, 0, 0))
  }

  // ---------------------------------------------------------------------------
  // updateUser

  /** A `Partial<User>`: the fields an update sets. */
  datatype UserPatch = UserPatch(
    id: Option<string>,
    name: Option<string>,
    avatar: Option<string>,
    xp: Option<int>,
    level: Option<int>,
    badges: Option<seq<Badge>>,
    preferences: Option<Preferences>,
    progress: Option<Progress>)

  const NoChange: UserPatch := UserPatch(None, None, None, None, None, None, None, None)

  function Pick<T>(update: Option<T>, current: T): T
  {
    if update.Some? then update.value else current
  }

  /** `{ ...user, ...patch }`: each field the patch sets replaces the user's; the rest stay. */
  function Merge(u: User, p: UserPatch): (r: User)
    ensures p.id.Some? ==> r.id == p.id.value
    ensures p.id.None? ==> r.id == u.id
    ensures p.name.Some? ==> r.name == p.name.value
    ensures p.name.None? ==> r.name == u.name
    ensures p.avatar.Some? ==> r.avatar == p.avatar.value
    ensures p.avatar.None? ==> r.avatar == u.avatar
    ensures p.xp.Some? ==> r.xp == p.xp.value
    ensures p.xp.None? ==> r.xp == u.xp
    ensures p.level.Some? ==> r.level == p.level.value
    ensures p.level.None? ==> r.level == u.level
    ensures p.badges.Some? ==> r.badges == p.badges.value
    ensures p.badges.None? ==> r.badges == u.badges
    ensures p.preferences.Some? ==> r.preferences == p.preferences.value
    ensures p.preferences.None? ==> r.preferences == u.preferences
    ensures p.progress.Some? ==> r.progress == p.progress.value
    ensures p.progress.None? ==> r.progress == u.progress
  {
    User(Pick(p.id, u.id), Pick(p.name, u.name), Pick(p.avatar, u.avatar), Pick(p.xp, u.xp),
         Pick(p.level, u.level), Pick(p.badges, u.badges), Pick(p.preferences, u.preferences),
         Pick(p.progress, u.progress))
  }

  /** The empty update changes nothing, and applying an update twice is applying it once. */
  lemma MergeLaws(u: User, p: UserPatch)
    ensures Merge(u, NoChange) == u
    ensures Merge(Merge(u, p), p) == Merge(u, p)
  {
  }

  // ---------------------------------------------------------------------------
  // awardBadge

  /** The position of the first badge with id `id`, as `badges.find(...)` finds it. */
  function FindBadge(badges: seq<Badge>, id: string): (r: Option<nat>)
    ensures r.Some? ==> r.value < |badges| && badges[r.value].id == id
    ensures r.Some? ==> forall k :: 0 <= k < r.value ==> badges[k].id != id
    ensures r.None? ==> forall k :: 0 <= k < |badges| ==> badges[k].id != id
    decreases |badges|
  {
    if |badges| == 0 then None
    else if badges[0].id == id then Some(0)
    else
      match FindBadge(badges[1..], id)
      case None => None
      case Some(k) => Some(k + 1)
  }

  /** The badge `awardBadge` creates for an id it has not seen. */
  function FreshBadge(id: string, now: nat): Badge
  {
    Badge(id, "New Badge", "You earned a new badge!", "🏆", true, Some(now))
  }

  /** Every badge with id `id` unlocked at `now`; the others as they were. */
  function UnlockAll(badges: seq<Badge>, id: string, now: nat): (r: seq<Badge>)
    ensures |r| == |badges|
    ensures forall k :: 0 <= k < |badges| && badges[k].id != id ==> r[k] == badges[k]
    ensures forall k :: 0 <= k < |badges| && badges[k].id == id ==>
              r[k] == badges[k].(unlocked := true, unlockedAt := Some(now))
  {
    seq(|badges|, k requires 0 <= k < |badges| =>
      if badges[k].id == id then badges[k].(unlocked := true, unlockedAt := Some(now)) else badges[k])
  }

  /**
   * `awardBadge` on a profile: the first badge with the id decides. If it is
   * locked, every badge with the id is unlocked; if there is none, a new
   * unlocked badge is appended; if it is already unlocked, nothing changes.
   */
  function AwardBadgeTo(u: User, id: string, now: nat): (r: User)
    ensures r == u.(badges := r.badges)
    ensures exists k :: 0 <= k < |r.badges| && r.badges[k].id == id && r.badges[k].unlocked
    ensures FindBadge(u.badges, id).None? ==> r.badges == u.badges + [FreshBadge(id, now)]
    ensures FindBadge(u.badges, id).Some? && u.badges[FindBadge(u.badges, id).value].unlocked ==> r == u
    ensures FindBadge(u.badges, id).Some? ==> |r.badges| == |u.badges|
    ensures forall k :: 0 <= k < |u.badges| && u.badges[k].id != id ==> r.badges[k] == u.badges[k]
    ensures UniqueIds(u.badges) ==> UniqueIds(r.badges)
  {
    match FindBadge(u.badges, id)
    case Some(k) =>
      if !u.badges[k].unlocked then
        var badges := UnlockAll(u.badges, id, now);
        assert badges[k].id == id && badges[k].unlocked;
        u.(badges := badges)
      else
        u
    case None =>
      var badges := u.badges + [FreshBadge(id, now)];
      assert badges[|u.badges|].id == id;
      u.(badges := badges)
  }

  /** Awarding the same badge again changes nothing. */
  lemma AwardBadgeIdempotent(u: User, id: string, now: nat, later: nat)
    ensures AwardBadgeTo(AwardBadgeTo(u, id, now), id, later) == AwardBadgeTo(u, id, now)
  {
    var once := AwardBadgeTo(u, id, now);
    var k := FindBadge(u.badges, id);
    var j := FindBadge(once.badges, id);
    if k.None? {
      assert once.badges[|u.badges|].id == id;
      assert j.Some? && j.value == |u.badges|;
    } else if !u.badges[k.value].unlocked {
      assert j.Some? && j.value == k.value;
    }
  }

  // ---------------------------------------------------------------------------
  // addXp

  /** The id of the badge for reaching `level`. */
  function LevelBadgeId(level: int): string
  {
    "level-" + IntToString(level)
  }

  /**
   * `addXp` on a profile: the experience grows by `amount`, the level is
   * recomputed from it, and a rise in level awards that level's badge.
   */
  function AddXpTo(u: User, amount: int, now: nat): (r: User)
    ensures r.xp == u.xp + amount
    ensures r.level == Helpers.CalculateLevel(r.xp)
    ensures r == u.(xp := r.xp, level := r.level, badges := r.badges)
    ensures r.level > u.level ==> r == AwardBadgeTo(u.(xp := r.xp, level := r.level), LevelBadgeId(r.level), now)
    ensures r.level <= u.level ==> r.badges == u.badges
    ensures UniqueIds(u.badges) ==> Consistent(r)
  {
    var newXp := u.xp + amount;
    var newLevel := 1 + newXp / 100;
    var updated := u.(xp := newXp, level := newLevel);
    if newLevel > u.level then AwardBadgeTo(updated, LevelBadgeId(newLevel), now) else updated
  }

  /** Reaching a new level leaves that level's badge unlocked. */
  lemma LevelUpUnlocksBadge(u: User, amount: int, now: nat)
    requires Helpers.CalculateLevel(u.xp + amount) > u.level
    ensures var r := AddXpTo(u, amount, now);
            exists k :: 0 <= k < |r.badges| && r.badges[k].id == LevelBadgeId(r.level) && r.badges[k].unlocked
  {
    var r := AddXpTo(u, amount, now);
    var raised := u.(xp := r.xp, level := r.level);
    assert r == AwardBadgeTo(raised, LevelBadgeId(r.level), now);
  }

  /** Experience that stays within the current level awards nothing. */
  lemma NoLevelUpNoBadge(u: User, amount: int, now: nat)
    requires Consistent(u) && 0 <= amount && u.xp % 100 + amount < 100
    ensures AddXpTo(u, amount, now).level == u.level
    ensures AddXpTo(u, amount, now).badges == u.badges
  {
  }

  // ---------------------------------------------------------------------------
  // Completion counters

  /** The counter of finished sessions of topic `t`: `progress[`${t}Completed`]`. */
  function Completed(p: Progress, t: QuestionType): int
  {
    match t
    case MathType => p.mathCompleted
    case QuizType => p.quizCompleted
    case GuessType => p.guessCompleted
  }

  /** The counter of topic `t` rises by one; the other two stay. */
  function BumpProgress(p: Progress, t: QuestionType): (r: Progress)
    ensures Completed(r, t) == Completed(p, t) + 1
    ensures forall other :: other != t ==> Completed(r, other) == Completed(p, other)
  {
    match t
    case MathType => p.(mathCompleted := p.mathCompleted + 1)
    case QuizType => p.(quizCompleted := p.quizCompleted + 1)
    case GuessType => p.(guessCompleted := p.guessCompleted + 1)
  }

  /**
   * What finishing a session of topic `t` with score `score` does to the
   * profile: the topic's counter rises, then the score is added as experience.
   */
  function Reward(u: User, t: QuestionType, score: int, now: nat): (r: User)
    ensures Completed(r.progress, t) == Completed(u.progress, t) + 1
    ensures forall other :: other != t ==> Completed(r.progress, other) == Completed(u.progress, other)
    ensures r.xp == u.xp + score
    ensures r.level == Helpers.CalculateLevel(r.xp)
    ensures r.id == u.id && r.name == u.name && r.avatar == u.avatar && r.preferences == u.preferences
    ensures UniqueIds(u.badges) ==> Consistent(r)
  {
    AddXpTo(Merge(u, NoChange.(progress := Some(BumpProgress(u.progress, t)))), score, now)
  }
}
