/** The server-rendered profile page (app/profile/page.tsx): the sign-in
    guard and the statistics handed to the badge panel. The three queries
    are parameters: each is the rows the database returned for the signed-in
    user, or `None` when it returned no data. */
module ProfilePage {
  import opened Rows

  /** A badge row; only the number of badges is read. */
  datatype Badge = Badge(id: string)

  /** A JavaScript number as `Math.max` can return it for integer inputs. */
  datatype ExtInt = NegInfinity | Finite(n: int)

  function ExtMax(a: ExtInt, b: ExtInt): ExtInt {
    match (a, b)
    case (NegInfinity, _) => b
    case (_, NegInfinity) => a
    case (Finite(x), Finite(y)) => if x >= y then a else b
  }

  /** `Math.max(...xs)`: a fold from -Infinity, so an empty list gives -Infinity. */
  function MaxAsWritten(xs: seq<int>): (m: ExtInt)
    ensures m == NegInfinity <==> |xs| == 0
  {
    if |xs| == 0 then NegInfinity else ExtMax(MaxAsWritten(xs[..|xs| - 1]), Finite(xs[|xs| - 1]))
  }

  /** The largest element of a non-empty list. */
  function MaxOf(xs: seq<int>): (m: int)
    requires |xs| > 0
    ensures forall i :: 0 <= i < |xs| ==> xs[i] <= m
    ensures m in xs
  {
    if |xs| == 1 then xs[0]
    else
      var m' := MaxOf(xs[..|xs| - 1]);
      assert m' in xs[..|xs| - 1];
      if m' >= xs[|xs| - 1] then m' else xs[|xs| - 1]
  }

  /** On a non-empty list `Math.max` is the largest element. */
  lemma {:induction false} MaxAsWrittenNonEmpty(xs: seq<int>)
    requires |xs| > 0
    ensures MaxAsWritten(xs) == Finite(MaxOf(xs))
  {
    if |xs| > 1 {
      MaxAsWrittenNonEmpty(xs[..|xs| - 1]);
    }
  }

  /** `r.current_streak || 0` for every roadmap. */
  function Streaks(rs: seq<Roadmap>): (ss: seq<int>)
    ensures |ss| == |rs|
  {
    if |rs| == 0 then [] else Streaks(rs[..|rs| - 1]) + [rs[|rs| - 1].currentStreak.GetOr(0)]
  }

  lemma {:induction false} StreakAt(rs: seq<Roadmap>, i: nat)
    requires i < |rs|
    ensures Streaks(rs)[i] == rs[i].currentStreak.GetOr(0)
  {
    if i < |rs| - 1 {
      StreakAt(rs[..|rs| - 1], i);
    }
  }

  /** `Math.max(...(roadmaps?.map(...) || [0]))` as written. */
  function CurrentStreakAsWritten(roadmaps: Option<seq<Roadmap>>): ExtInt {
    MaxAsWritten(if roadmaps.None? then [0] else Streaks(roadmaps.value))
  }

  /** A user whose roadmap query returns an empty list gets a streak of
      -Infinity: `[]` is truthy, so the `[0]` fallback never applies. */
  lemma NegativeInfinityStreak()
    ensures CurrentStreakAsWritten(Some([])) == NegInfinity
    ensures CurrentStreakAsWritten(None) == Finite(0)
  {
    assert MaxAsWritten([0]) == ExtMax(MaxAsWritten([]), Finite(0));
  }

  /** The evidently intended streak: 0 without roadmaps, otherwise the
      largest streak of any roadmap. */
  function CurrentStreak(roadmaps: Option<seq<Roadmap>>): (s: int)
    ensures roadmaps.None? || |roadmaps.value| == 0 ==> s == 0
    ensures roadmaps.Some? ==> forall i :: 0 <= i < |roadmaps.value| ==> roadmaps.value[i].currentStreak.GetOr(0) <= s
  {
    if roadmaps.None? || |roadmaps.value| == 0 then 0
    else
      var rs := roadmaps.value;
      assert forall i :: 0 <= i < |rs| ==> Streaks(rs)[i] == rs[i].currentStreak.GetOr(0) by {
        forall i | 0 <= i < |rs| ensures Streaks(rs)[i] == rs[i].currentStreak.GetOr(0) {
          StreakAt(rs, i);
        }
      }
      MaxOf(Streaks(rs))
  }

  /** The corrected streak is reached by some roadmap when there is one, and
      agrees with the page as written wherever that gives a number. */
  lemma CurrentStreakSpec(roadmaps: Option<seq<Roadmap>>)
    ensures roadmaps.Some? && |roadmaps.value| > 0 ==>
      exists i :: 0 <= i < |roadmaps.value| && roadmaps.value[i].currentStreak.GetOr(0) == CurrentStreak(roadmaps)
    ensures CurrentStreakAsWritten(roadmaps).Finite? ==> CurrentStreakAsWritten(roadmaps) == Finite(CurrentStreak(roadmaps))
  {
    if roadmaps.None? {
      NegativeInfinityStreak();
    } else if |roadmaps.value| > 0 {
      var rs := roadmaps.value;
      MaxAsWrittenNonEmpty(Streaks(rs));
      var i :| 0 <= i < |rs| && Streaks(rs)[i] == CurrentStreak(roadmaps);
      StreakAt(rs, i);
    }
  }

  /** On a non-empty list the page as written gives a number. */
  lemma MaxAsWrittenNonEmptyFinite(roadmaps: Option<seq<Roadmap>>)
    ensures roadmaps.Some? && |roadmaps.value| > 0 ==> CurrentStreakAsWritten(roadmaps).Finite?
  {
    if roadmaps.Some? && |roadmaps.value| > 0 {
      MaxAsWrittenNonEmpty(Streaks(roadmaps.value));
    }
  }

  /** The `stats` object handed to the badge panel. */
  datatype Stats = Stats(totalRoadmaps: nat, completedRoadmaps: nat, currentStreak: int, totalBadges: nat)

  function Length<T>(xs: Option<seq<T>>): nat {
    if xs.None? then 0 else |xs.value|
  }

  /** The statistics, each `|| 0` when the query returned no data, with the
      corrected streak. */
  function StatsOf(roadmaps: Option<seq<Roadmap>>, badges: Option<seq<Badge>>): (s: Stats)
    ensures s.totalRoadmaps == Length(roadmaps) && s.totalBadges == Length(badges)
    ensures s.completedRoadmaps <= s.totalRoadmaps
    ensures roadmaps.Some? ==> s.completedRoadmaps == |WithStatus(roadmaps.value, Completed)|
    ensures roadmaps.None? ==> s == Stats(0, 0, 0, Length(badges))
    ensures roadmaps.Some? && |roadmaps.value| > 0 ==>
      Finite(s.currentStreak) == CurrentStreakAsWritten(roadmaps)
      && exists i :: 0 <= i < |roadmaps.value| && roadmaps.value[i].currentStreak.GetOr(0) == s.currentStreak
    ensures roadmaps == Some([]) ==> s.currentStreak == 0 && CurrentStreakAsWritten(roadmaps) == NegInfinity
  {
    CurrentStreakSpec(roadmaps);
    NegativeInfinityStreak();
    MaxAsWrittenNonEmptyFinite(roadmaps);
    Stats(Length(roadmaps),
          if roadmaps.None? then 0 else CountStatus(roadmaps.value, Completed),
          CurrentStreak(roadmaps),
          Length(badges))
  }

  datatype Page = RedirectTo(path: string) | Render(userId: string, stats: Stats)

  /** The page: an authentication error or no user redirects to the login
      page; otherwise the profile is rendered with the user's statistics. */
  function ProfilePageOf(userError: bool, user: Option<string>, roadmaps: Option<seq<Roadmap>>, badges: Option<seq<Badge>>): (p: Page)
    ensures p.RedirectTo? <==> userError || user.None?
    ensures p.RedirectTo? ==> p.path == "/auth/login"
    ensures p.Render? ==> p.userId == user.value && p.stats == StatsOf(roadmaps, badges)
  {
    if userError || user.None? then RedirectTo("/auth/login")
    else Render(user.value, StatsOf(roadmaps, badges))
  }
}
