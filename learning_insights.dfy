/** The rule table of the learning-insights panel
    (components/analytics/learning-insights.tsx): recommendations and
    achievements derived from the user's roadmaps and the number of mentor
    sessions. The function builds both lists independently; they are modelled
    as two methods. Icons are not modelled. */
module LearningInsights {
  import opened Rows

  datatype Recommendation = StartFirstRoadmap | FocusYourLearning | PushToCompletion | AskYourMentor {
    function Title(): string {
      match this
      case StartFirstRoadmap => "Start Your First Roadmap"
      case FocusYourLearning => "Focus Your Learning"
      case PushToCompletion => "Push to Completion"
      case AskYourMentor => "Ask Your AI Mentor"
    }

    function Category(): string {
      match this
      case StartFirstRoadmap => "Getting Started"
      case FocusYourLearning => "Productivity"
      case PushToCompletion => "Motivation"
      case AskYourMentor => "Support"
    }

    /** The position of the rule in the function. */
    function Rank(): nat {
      match this
      case StartFirstRoadmap => 0
      case FocusYourLearning => 1
      case PushToCompletion => 2
      case AskYourMentor => 3
    }
  }

  datatype Achievement = FirstSteps | GoalAchiever | CuriousLearner {
    function Title(): string {
      match this
      case FirstSteps => "First Steps"
      case GoalAchiever => "Goal Achiever"
      case CuriousLearner => "Curious Learner"
    }

    function Description(): string {
      match this
      case FirstSteps => "Started your first learning roadmap"
      case GoalAchiever => "Completed your first roadmap"
      case CuriousLearner => "Had 5+ conversations with your AI mentor"
    }

    /** Every achievement is dated "Recently". */
    function Date(): string {
      "Recently"
    }

    function Rank(): nat {
      match this
      case FirstSteps => 0
      case GoalAchiever => 1
      case CuriousLearner => 2
    }
  }

  /** The recommendations `generateInsights` pushes, in push order, from
      the number of roadmaps, of those in progress and of those completed,
      and the number of mentor sessions. */
  function RecommendationsFor(total: nat, inProgress: nat, completed: nat, sessions: nat): seq<Recommendation> {
    if total == 0 then [StartFirstRoadmap]
    else
      (if inProgress > 3 then [FocusYourLearning] else [])
      + (if completed == 0 then [PushToCompletion] else [])
      + (if sessions < 3 then [AskYourMentor] else [])
  }

  /** The recommendation half of `generateInsights(userRoadmaps, mentorSessions)`;
      only the number of mentor sessions is read. */
  method Recommendations(rs: seq<Roadmap>, sessionCount: nat) returns (recommendations: seq<Recommendation>)
    ensures recommendations == RecommendationsFor(|rs|, CountStatus(rs, InProgress), CountStatus(rs, Completed), sessionCount)
  {
    recommendations := [];
    if |rs| == 0 {
      recommendations := recommendations + [StartFirstRoadmap];
    } else {
      var inProgressCount := CountStatus(rs, InProgress);
      var completedCount := CountStatus(rs, Completed);

      if inProgressCount > 3 {
        recommendations := recommendations + [FocusYourLearning];
      }
      if completedCount == 0 && |rs| > 0 {
        recommendations := recommendations + [PushToCompletion];
      }
      if sessionCount < 3 {
        recommendations := recommendations + [AskYourMentor];
      }
    }
  }

  /** Each recommendation is given exactly under its rule; without roadmaps
      only "Start Your First Roadmap" is given, whatever the session count. */
  lemma RecommendationRules(total: nat, inProgress: nat, completed: nat, sessions: nat)
    ensures var recs := RecommendationsFor(total, inProgress, completed, sessions);
      && (total == 0 ==> recs == [StartFirstRoadmap])
      && (StartFirstRoadmap in recs <==> total == 0)
      && (FocusYourLearning in recs <==> total > 0 && inProgress > 3)
      && (PushToCompletion in recs <==> total > 0 && completed == 0)
      && (AskYourMentor in recs <==> total > 0 && sessions < 3)
  {
  }

  /** The recommendations come in rule order, each at most once, and there
      are at most three of them. */
  lemma RecommendationOrder(total: nat, inProgress: nat, completed: nat, sessions: nat)
    ensures var recs := RecommendationsFor(total, inProgress, completed, sessions);
      && (forall i, j :: 0 <= i < j < |recs| ==> recs[i].Rank() < recs[j].Rank())
      && |recs| <= 3
  {
  }

  /** The achievements `generateInsights` pushes, in push order. */
  function AchievementsFor(total: nat, completed: nat, sessions: nat): seq<Achievement> {
    (if total >= 1 then [FirstSteps] else [])
    + (if completed >= 1 then [GoalAchiever] else [])
    + (if sessions >= 5 then [CuriousLearner] else [])
  }

  /** The achievement half of `generateInsights`. */
  method Achievements(rs: seq<Roadmap>, sessionCount: nat) returns (achievements: seq<Achievement>)
    ensures achievements == AchievementsFor(|rs|, CountStatus(rs, Completed), sessionCount)
  {
    achievements := [];
    if |rs| >= 1 {
      achievements := achievements + [FirstSteps];
    }
    if CountStatus(rs, Completed) >= 1 {
      achievements := achievements + [GoalAchiever];
    }
    if sessionCount >= 5 {
      achievements := achievements + [CuriousLearner];
    }
  }

  /** Each achievement is awarded exactly under its rule, in rule order, and
      there are none only when no rule applies. */
  lemma AchievementRules(total: nat, completed: nat, sessions: nat)
    ensures var achs := AchievementsFor(total, completed, sessions);
      && (FirstSteps in achs <==> total >= 1)
      && (GoalAchiever in achs <==> completed >= 1)
      && (CuriousLearner in achs <==> sessions >= 5)
      && (forall i, j :: 0 <= i < j < |achs| ==> achs[i].Rank() < achs[j].Rank())
      && (|achs| == 0 <==> total == 0 && completed == 0 && sessions < 5)
  {
    var first := if total >= 1 then [FirstSteps] else [];
    var goal := if completed >= 1 then [GoalAchiever] else [];
    var curious := if sessions >= 5 then [CuriousLearner] else [];
    var achs := AchievementsFor(total, completed, sessions);
    assert achs == first + goal + curious;
    assert forall a :: a in achs <==> a in first || a in goal || a in curious;
  }

  /** On real data a completed roadmap is a roadmap, so "Goal Achiever"
      never comes without "First Steps", and there are no achievements only
      for a user without roadmaps and with fewer than five sessions. */
  lemma AchievementsOnRoadmaps(rs: seq<Roadmap>, sessionCount: nat)
    ensures var achs := AchievementsFor(|rs|, CountStatus(rs, Completed), sessionCount);
      && (GoalAchiever in achs ==> FirstSteps in achs)
      && (|achs| == 0 <==> |rs| == 0 && sessionCount < 5)
  {
    AchievementRules(|rs|, CountStatus(rs, Completed), sessionCount);
  }
}
