/**
 * The progress store: `userSessions`, a dictionary from a user id to that user's
 * progress, read by GET /progress/:userId and updated by POST /progress/:userId.
 */
module ProgressStore {
  import opened Wrappers
  import opened Records

  type Sessions = map<UserId, UserProgress>

  /** The record a user has before any update. */
  const ZERO := UserProgress(0, 0)

  /** JavaScript `v || 0` on a number that may be missing: missing and 0 both give 0. */
  function OrZero(v: Option<int>): int {
    match v
    case None => 0
    case Some(n) => n
  }

  function Max(a: int, b: int): int {
    if a >= b then a else b
  }

  /** GET /progress/:userId: the stored record, or the zero record when there is none. */
  function Get(sessions: Sessions, user: UserId): (p: UserProgress)
    ensures user in sessions ==> p == sessions[user]
    ensures user !in sessions ==> p == ZERO
  {
    if user in sessions then sessions[user] else ZERO
  }

  /**
   * The record after one POST: the level delta is added (no clamping, so a negative
   * delta lowers the count) and the accuracy becomes the larger of the two.
   */
  function Update(p: UserProgress, levels: Option<int>, accuracy: Option<int>): (q: UserProgress)
    ensures q.levelsCompleted - p.levelsCompleted == OrZero(levels)
    ensures q.accuracy >= p.accuracy && q.accuracy >= OrZero(accuracy)
    ensures q.accuracy == p.accuracy || q.accuracy == OrZero(accuracy)
  {
    UserProgress(p.levelsCompleted + OrZero(levels), Max(p.accuracy, OrZero(accuracy)))
  }

  /**
   * The whole store after POST /progress/:userId: the user's entry is created if
   * missing and updated; every other entry is left as it was.
   */
  function Post(sessions: Sessions, user: UserId, levels: Option<int>, accuracy: Option<int>): (s': Sessions)
    ensures s'.Keys == sessions.Keys + {user}
    ensures s'[user] == Update(Get(sessions, user), levels, accuracy)
    ensures forall v :: v in sessions && v != user ==> v in s' && s'[v] == sessions[v]
  {
    sessions[user := Update(Get(sessions, user), levels, accuracy)]
  }

  /** Every stored accuracy is at least 0: each entry starts at 0 and only grows. */
  ghost predicate AccuracyNonNegative(sessions: Sessions) {
    forall u :: u in sessions ==> sessions[u].accuracy >= 0
  }

  lemma PostKeepsAccuracyNonNegative(sessions: Sessions, user: UserId, levels: Option<int>, accuracy: Option<int>)
    requires AccuracyNonNegative(sessions)
    ensures AccuracyNonNegative(Post(sessions, user, levels, accuracy))
    ensures Get(Post(sessions, user, levels, accuracy), user).accuracy >= Get(sessions, user).accuracy >= 0
  {
  }

  /** One POST request's parameters. */
  datatype ProgressPost = ProgressPost(user: UserId, levels: Option<int>, accuracy: Option<int>)

  /** The store after a series of POST requests, applied in order. */
  function PostAll(sessions: Sessions, posts: seq<ProgressPost>): Sessions
    decreases |posts|
  {
    if posts == [] then sessions
    else PostAll(Post(sessions, posts[0].user, posts[0].levels, posts[0].accuracy), posts[1..])
  }

  /** Whether some request in `posts` is for `user`. */
  predicate Mentions(posts: seq<ProgressPost>, user: UserId) {
    exists i :: 0 <= i < |posts| && posts[i].user == user
  }

  /** The sum of the level deltas sent for `user`, a missing delta counting as 0. */
  function LevelsSent(posts: seq<ProgressPost>, user: UserId): int
    decreases |posts|
  {
    if posts == [] then 0
    else (if posts[0].user == user then OrZero(posts[0].levels) else 0) + LevelsSent(posts[1..], user)
  }

  /** The largest accuracy sent for `user`, and 0 when none is larger. */
  function BestAccuracySent(posts: seq<ProgressPost>, user: UserId): int
    decreases |posts|
  {
    if posts == [] then 0
    else if posts[0].user == user then Max(OrZero(posts[0].accuracy), BestAccuracySent(posts[1..], user))
    else BestAccuracySent(posts[1..], user)
  }

  /**
   * After any series of POST requests, a user's record is the earlier record with the
   * sum of that user's deltas added and the best of that user's accuracies kept;
   * requests for other users do not touch it, and the entry exists exactly when it
   * did before or some request named the user.
   */
  lemma {:induction false} PostAllPerUser(sessions: Sessions, posts: seq<ProgressPost>, user: UserId)
    requires AccuracyNonNegative(sessions)
    ensures AccuracyNonNegative(PostAll(sessions, posts))
    ensures user in PostAll(sessions, posts) <==> user in sessions || Mentions(posts, user)
    ensures Get(PostAll(sessions, posts), user).levelsCompleted
            == Get(sessions, user).levelsCompleted + LevelsSent(posts, user)
    ensures Get(PostAll(sessions, posts), user).accuracy
            == Max(Get(sessions, user).accuracy, BestAccuracySent(posts, user))
    decreases |posts|
  {
    if posts != [] {
      var p := posts[0];
      var next := Post(sessions, p.user, p.levels, p.accuracy);
      PostKeepsAccuracyNonNegative(sessions, p.user, p.levels, p.accuracy);
      PostAllPerUser(next, posts[1..], user);
      if Mentions(posts, user) && !(user in sessions) && p.user != user {
        var i :| 0 <= i < |posts| && posts[i].user == user;
        assert posts[1..][i - 1].user == user;
      }
      if Mentions(posts[1..], user) {
        var i :| 0 <= i < |posts[1..]| && posts[1..][i].user == user;
        assert posts[i + 1].user == user;
      }
    }
  }

  /** Accuracy never goes down, whatever a series of requests sends. */
  lemma AccuracyNeverDecreases(sessions: Sessions, posts: seq<ProgressPost>, user: UserId)
    requires AccuracyNonNegative(sessions)
    ensures Get(PostAll(sessions, posts), user).accuracy >= Get(sessions, user).accuracy >= 0
  {
    PostAllPerUser(sessions, posts, user);
  }

  /** The levels count is not monotone: a negative delta is added as it is. */
  lemma NegativeDeltaLowersLevels(sessions: Sessions, user: UserId)
    ensures Get(Post(sessions, user, Some(-3), None), user).levelsCompleted
            == Get(sessions, user).levelsCompleted - 3
  {
  }

  /** Two requests (u1, 2, 80) then (u1, 3, 60) on an empty store leave {5, 80}. */
  lemma TwoPostsScenario()
    ensures Get(PostAll(map[], [ProgressPost("u1", Some(2), Some(80)), ProgressPost("u1", Some(3), Some(60))]), "u1")
            == UserProgress(5, 80)
  {
    var posts := [ProgressPost("u1", Some(2), Some(80)), ProgressPost("u1", Some(3), Some(60))];
    PostAllPerUser(map[], posts, "u1");
  }
}
