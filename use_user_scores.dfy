/** The scores hook (src/hooks/useUserScores.tsx): the two level ladders a
    score is classified on, and the `scores`/`badges`/`loading` state the hook
    keeps. */
module UseUserScores {
  import opened Wrappers
  import opened Seqs
  import opened Ledger

  /** A `user_scores` row, with the counters the model uses. */
  datatype UserScores = UserScores(id: string, userId: string, cribnScore: int, runnerScore: int, errandsCompleted: int)

  /** A `user_badges` row. */
  datatype UserBadge = UserBadge(id: string, userId: string, badgeName: string,
                                 badgeDescription: Option<string>, badgeIcon: Option<string>)

  /** The `{ level, color }` pair a classifier returns. */
  datatype Level = Level(level: string, color: string)

  /** Both ladders have five rungs and share their colours, rung 0 lowest. */
  const RungColors: seq<string> := ["text-gray-500", "text-yellow-500", "text-green-500", "text-blue-500", "text-purple-500"]
  const CribnNames: seq<string> := ["Newbie", "Beginner", "Intermediate", "Advanced", "Expert"]
  const RunnerNames: seq<string> := ["Inactive", "New Runner", "Active Runner", "Pro Runner", "Super Runner"]

  /** How many of four ascending thresholds a score has reached. */
  function Reached(score: int, t1: int, t2: int, t3: int, t4: int): (rung: nat)
    requires t1 <= t2 <= t3 <= t4
    ensures rung <= 4
    ensures rung == 0 <==> score < t1
    ensures rung == 4 <==> t4 <= score
  {
    (if score >= t1 then 1 else 0) + (if score >= t2 then 1 else 0)
    + (if score >= t3 then 1 else 0) + (if score >= t4 then 1 else 0)
  }

  function CribnRung(score: int): (rung: nat)
    ensures rung <= 4
  {
    Reached(score, 50, 200, 500, 1000)
  }

  function RunnerRung(score: int): (rung: nat)
    ensures rung <= 4
  {
    Reached(score, 100, 500, 1000, 2000)
  }

  /** `getCribnLevel`: the level is the rung of thresholds 50, 200, 500 and
      1000 the score has reached, with that rung's colour. */
  function GetCribnLevel(score: int): (l: Level)
    ensures l == Level(CribnNames[CribnRung(score)], RungColors[CribnRung(score)])
  {
    if score >= 1000 then Level("Expert", "text-purple-500")
    else if score >= 500 then Level("Advanced", "text-blue-500")
    else if score >= 200 then Level("Intermediate", "text-green-500")
    else if score >= 50 then Level("Beginner", "text-yellow-500")
    else Level("Newbie", "text-gray-500")
  }

  /** `getRunnerLevel`: the same over thresholds 100, 500, 1000 and 2000. */
  function GetRunnerLevel(score: int): (l: Level)
    ensures l == Level(RunnerNames[RunnerRung(score)], RungColors[RunnerRung(score)])
  {
    if score >= 2000 then Level("Super Runner", "text-purple-500")
    else if score >= 1000 then Level("Pro Runner", "text-blue-500")
    else if score >= 500 then Level("Active Runner", "text-green-500")
    else if score >= 100 then Level("New Runner", "text-yellow-500")
    else Level("Inactive", "text-gray-500")
  }

  /** A higher score never gives a lower level on either ladder. */
  lemma LevelsMonotone(s1: int, s2: int)
    requires s1 <= s2
    ensures CribnRung(s1) <= CribnRung(s2)
    ensures RunnerRung(s1) <= RunnerRung(s2)
  {
  }

  /** Each level name has one colour, and the names of a ladder are distinct,
      so the level names a rung exactly. */
  lemma LevelNamesDetermineRung(s1: int, s2: int)
    ensures GetCribnLevel(s1).level == GetCribnLevel(s2).level <==> CribnRung(s1) == CribnRung(s2)
    ensures GetRunnerLevel(s1).level == GetRunnerLevel(s2).level <==> RunnerRung(s1) == RunnerRung(s2)
    ensures GetCribnLevel(s1).level == GetCribnLevel(s2).level ==> GetCribnLevel(s1).color == GetCribnLevel(s2).color
    ensures GetRunnerLevel(s1).level == GetRunnerLevel(s2).level ==> GetRunnerLevel(s1).color == GetRunnerLevel(s2).color
  {
  }

  /** The boundaries of the lowest rungs. */
  lemma LowestBoundaries()
    ensures GetCribnLevel(49).level == "Newbie" && GetCribnLevel(50).level == "Beginner"
    ensures GetRunnerLevel(99).level == "Inactive" && GetRunnerLevel(100).level == "New Runner"
  {
  }

  class ScoresHook {
    const user: Option<AuthUser>
    var scores: Option<UserScores>
    var badges: seq<UserBadge>
    var loading: bool

    constructor (user: Option<AuthUser>)
      ensures this.user == user && scores.None? && badges == [] && loading
    {
      this.user := user;
      scores := None;
      badges := [];
      loading := true;
    }

    /** `fetchScores`: nothing without a user; `.single()` succeeds only when
        the store answers (`querySucceeds`, false on a network or access
        error) and the user has exactly one scores row, and an error leaves
        the state as it was. `loading` is not touched. */
    method FetchScores(scoresTable: seq<UserScores>, querySucceeds: bool)
      modifies this`scores
      ensures user.None? ==> scores == old(scores)
      ensures user.Some? ==>
        var mine := Filter(scoresTable, (s: UserScores) => s.userId == user.value.id);
        scores == if querySucceeds && |mine| == 1 then Some(mine[0]) else old(scores)
    {
      if user.None? || !querySucceeds {
        return;
      }
      var mine := Filter(scoresTable, (s: UserScores) => s.userId == user.value.id);
      if |mine| == 1 {
        scores := Some(mine[0]);
      }
    }

    /** `fetchBadges`: nothing without a user; otherwise the user's badges on
        success, and `loading` cleared in every case. */
    method FetchBadges(badgeTable: seq<UserBadge>, querySucceeds: bool)
      modifies this`badges, this`loading
      ensures user.None? ==> badges == old(badges) && loading == old(loading)
      ensures user.Some? ==> !loading
      ensures user.Some? ==>
        badges == if querySucceeds then Filter(badgeTable, (b: UserBadge) => b.userId == user.value.id) else old(badges)
    {
      if user.None? {
        return;
      }
      if querySucceeds {
        badges := Filter(badgeTable, (b: UserBadge) => b.userId == user.value.id);
      }
      loading := false;
    }
  }
}
