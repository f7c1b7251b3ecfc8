# Career roadmap app — a Dafny model of its core

The career roadmap app is a web application for learners. A signed-in user picks a
roadmap template, such as "Full-Stack Developer". The template is copied into the
user's own roadmap: a tree of subjects, topics and steps. The user checks the steps
off as they learn, and the roadmap's status and time stamps follow the progress.

Around that sit several views:

- the roadmap list, with tabs by status;
- the template browser, grouped by category;
- dashboard and analytics cards, plus generated recommendations and achievements;
- a profile page and a profile form with an avatar upload;
- a feedback form;
- an "AI mentor" chat. The chat answers with canned replies and saves each
  conversation as a session, both from the browser and from an HTTP endpoint.

This project models that core in Dafny, one module per source file:

| module | file |
|---|---|
| `RoadmapProgress` | progress tree, step keys, status rule (components/roadmaps/roadmap-details.tsx) |
| `RoadmapDetailsView` | the details page as a class (components/roadmaps/roadmap-details.tsx) |
| `LearningInsights` | components/analytics/learning-insights.tsx |
| `LearningAnalytics` | components/analytics/learning-analytics.tsx |
| `ProgressCharts` | components/analytics/progress-charts.tsx |
| `QuickStats` | components/dashboard/quick-stats.tsx |
| `MyRoadmaps` | components/roadmaps/my-roadmaps.tsx |
| `TemplateCategories` | components/dashboard/template-categories.tsx |
| `ProfilePage` | app/profile/page.tsx |
| `FeedbackForm` | components/feedback/feedback-form.tsx |
| `CreateRoadmapDialog` | components/roadmaps/create-roadmap-dialog.tsx |
| `MentorChat` | components/mentor/mentor-chat.tsx |
| `MentorRoute` | app/api/mentor/chat/route.ts |
| `ProfileForm` | components/profile/profile-form.tsx |
| `Rows`, `Seqs`, `Strings` | the database rows, and the JavaScript array and string built-ins the components use |

How the source's constructs are represented:

- **Components with state.** A React component whose handlers update state becomes a
  `class`. Its `useState` variables become fields. Each handler becomes a method whose
  contract gives the whole new state.
- **Pure computations.** Counting, grouping and deriving cards become functions. A
  `reduce` that only adds numbers becomes a recursive function. Where the source walks
  a structure with `forEach`, or a `reduce` updates its accumulator object in place,
  the model is a method with a loop, proved against a specification function. The
  insights' conditional `push`es are a method of straight-line appends.
- **Outside calls.** Every call to the backend (database, auth, storage) becomes a
  parameter: whether the call reports an error, and the id or URL it returns.
- **Clocks and randomness.** `new Date()` becomes a `Timestamp` parameter.
  `Math.random()` becomes a `pick` index.
- **Numbers.** Percentages are exact `real`s.

## Model

| member | source | states |
|---|---|---|
| Rows.WithStatus | components/dashboard/quick-stats.tsx:11-12 | `filter(r => r.status === s)` keeps exactly the roadmaps with that status and is no longer than the input |
| Rows.WithStatusConcat | components/roadmaps/my-roadmaps.tsx:29-32 | filtering a concatenation filters each part: a tab keeps the list order |
| Rows.WithOtherStatus | components/roadmaps/my-roadmaps.tsx:29-32 | a roadmap is outside the four status filters exactly when its status is none of them |
| Rows.CountStatus | components/dashboard/quick-stats.tsx:11-12 | `filter(...).length`: defined as the length of Rows.WithStatus, whose contract and lemmas state its properties |
| Rows.TwoStatusCountsBounded | components/dashboard/quick-stats.tsx:11-12 | counts of two different statuses add up to at most the number of roadmaps |
| Rows.StatusPartitionSizes | components/roadmaps/my-roadmaps.tsx:29-32 | the four status counts plus the roadmaps with any other status add up to exactly the number of roadmaps |
| Rows.SumPctBounds | components/dashboard/quick-stats.tsx:14-17 | with each completion percentage in 0..100, their sum lies in 0..100·n |
| Rows.Pct | components/dashboard/quick-stats.tsx:16 | `r.progress?.completion_percentage \|\| 0`: a missing percentage reads as 0 |
| Rows.SumPct | components/dashboard/quick-stats.tsx:16 | the sum of the percentages; bounds in Rows.SumPctBounds |
| Rows.SumPctPositiveIff | components/dashboard/quick-stats.tsx:16 | with percentages in 0..100, the sum is positive exactly when some roadmap's percentage is positive |
| Rows.AverageProgress | components/dashboard/quick-stats.tsx:14-17 | the average is 0 for no roadmaps, else it times n equals the sum of the percentages (a missing percentage counts as 0) |
| Rows.AverageProgressBounds | components/dashboard/quick-stats.tsx:14-17 | the average lies in 0..100 and is positive exactly when the sum of the percentages is |
| Rows.AverageProgressPositiveIff | components/dashboard/quick-stats.tsx:14-17 | the average is positive exactly when some roadmap's percentage is positive |
| Seqs.Occurrences | components/analytics/progress-charts.tsx:29-36 | the count of a value is at most the length and is 0 exactly when the value is absent |
| Seqs.Dedup | components/analytics/learning-analytics.tsx:120 | `[...new Set(xs)]` has no duplicates, the same members as xs, and is no longer |
| Seqs.DedupKeepsFirstOccurrenceOrder | components/analytics/learning-analytics.tsx:120 | a Set lists its values in order of first occurrence |
| Seqs.FirstIndex | components/analytics/learning-analytics.tsx:120 | the first index holds the value and no earlier index does |
| Seqs.GroupSizesSum | components/analytics/progress-charts.tsx:29-36 | summed over the distinct values, the occurrence counts add up to the length |
| Strings.TrimStartSpec | components/mentor/mentor-chat.tsx:97 | `trimStart` removes a prefix of whitespace and leaves a string that is empty or starts with a non-space |
| Strings.TrimEndSpec | components/mentor/mentor-chat.tsx:97 | `trimEnd` removes a suffix of whitespace and leaves a string that is empty or ends with a non-space |
| Strings.Trim | components/mentor/mentor-chat.tsx:97 | `trim()`: `trimEnd` of `trimStart`; its meaning is stated by Strings.TrimStartSpec, Strings.TrimEndSpec and Strings.TrimEmptyIff |
| Strings.TrimEmptyIff | components/mentor/mentor-chat.tsx:97 | `trim()` is empty exactly when every character is JavaScript whitespace |
| Strings.Split | components/profile/profile-form.tsx:34 | `split(sep)` gives at least one part, and no part contains the separator |
| Strings.JoinSplit | components/profile/profile-form.tsx:34 | joining the parts of a split with the separator gives back the string |
| Strings.SplitWithoutSep | components/profile/profile-form.tsx:52 | a string without the separator splits into itself alone |
| Strings.SplitPrefix | components/profile/profile-form.tsx:34 | a separator-free word followed by the separator splits off as the first part |
| Strings.SplitJoin | components/profile/profile-form.tsx:34 | joining separator-free parts and splitting again gives back the parts |
| Strings.AfterLast | components/profile/profile-form.tsx:52 | `split(sep).pop()` contains no separator |
| Strings.AfterLastShape | components/profile/profile-form.tsx:57 | the last part is a suffix of the string; it is the whole string when there is no separator, else it follows the last separator |
| Strings.AfterLastAppend | components/profile/profile-form.tsx:52-57 | the last part of `x + sep + r`, with no separator in r, is r |
| Strings.BeforeFirst | components/mentor/mentor-chat.tsx:46 | `split(sep)[0]` contains no separator |
| Strings.BeforeFirstIsPrefix | components/mentor/mentor-chat.tsx:46 | the first part is a prefix, and is the whole string or followed by the separator |
| Strings.Take | components/mentor/mentor-chat.tsx:143 | `slice(0, n)` is a prefix of length min(n, \|s\|) |
| Strings.ReplaceFirst | components/roadmaps/my-roadmaps.tsx:78 | `replace(char, char)` keeps the length |
| Strings.ReplaceFirstAbsent | components/roadmaps/my-roadmaps.tsx:78 | it changes nothing when the character is absent |
| Strings.ReplaceFirstAt | components/roadmaps/my-roadmaps.tsx:78 | it replaces only the first occurrence |
| Strings.Upper | components/profile/profile-form.tsx:37 | `toUpperCase` maps each character and keeps the length |
| Strings.Lower | components/mentor/mentor-chat.tsx:68-70 | `toLowerCase` maps each character and keeps the length |
| Strings.Contains | components/mentor/mentor-chat.tsx:68-70 | `includes(sub)`: some position where the substring occurs |
| RoadmapProgress.StepKeys | components/roadmaps/roadmap-details.tsx:52-71 | one key per step of a topic |
| RoadmapProgress.CountDone | components/roadmaps/roadmap-details.tsx:52-71 | at most as many done steps as keys |
| RoadmapProgress.KeysProgress | components/roadmaps/roadmap-details.tsx:146-184 | the total is the number of steps; all are completed exactly when every key is done in the map |
| RoadmapProgress.AllDoneIff | components/roadmaps/roadmap-details.tsx:52-71 | the done count equals the number of keys exactly when every key is done |
| RoadmapProgress.PercentageFullIff | components/roadmaps/roadmap-details.tsx:103 | the percentage is 100 exactly when there are steps and all are done; it is 0 with no steps |
| RoadmapProgress.CountDoneConcat | components/roadmaps/roadmap-details.tsx:52-71 | counting over a concatenation adds the counts |
| RoadmapProgress.SubjectIsSumOfTopics | components/roadmaps/roadmap-details.tsx:146-165 | a subject's progress is the sum of its topics' progress |
| RoadmapProgress.TopicsSum | components/roadmaps/roadmap-details.tsx:146-165 | the subject's counts over its topics' keys are the topic sums |
| RoadmapProgress.OverallIsSumOfSubjects | components/roadmaps/roadmap-details.tsx:41-72 | the roadmap's progress is the sum of its subjects' progress |
| RoadmapProgress.OverallProgress | components/roadmaps/roadmap-details.tsx:41-72 | the progress over all step keys, or the milestone counts without a structure; its sums are stated by RoadmapProgress.OverallIsSumOfSubjects |
| RoadmapProgress.Toggled | components/roadmaps/roadmap-details.tsx:81-88 | the toggled key flips (absent counts as not done), the key becomes present, every other entry is unchanged |
| RoadmapProgress.CountDoneAfterUpdate | components/roadmaps/roadmap-details.tsx:82-103 | changing one entry moves the done count by its number of occurrences times the change |
| RoadmapProgress.ToggleMovesCountByOne | components/roadmaps/roadmap-details.tsx:82-103 | for a key walked once, checking adds one completed step and unchecking removes one |
| RoadmapProgress.SharedKeyExample | components/roadmaps/roadmap-details.tsx:81 | the `subject-topic-step` key is not injective: ids with "-" can share one entry |
| RoadmapProgress.StatusAfterToggle | components/roadmaps/roadmap-details.tsx:113 | the status after a toggle; stated by RoadmapProgress.StatusAfterToggleRule |
| RoadmapProgress.StatusAfterToggleRule | components/roadmaps/roadmap-details.tsx:113 | after a toggle the status is "completed" exactly when all steps are done or it already was; never "not_started"; "paused" stays paused unless all are done; a known status stays known |
| RoadmapProgress.ApplyUpdate | components/roadmaps/roadmap-details.tsx:125-137 | the row after an update has the written fields replaced and every other field kept |
| RoadmapProgress.ToggleUpdate | components/roadmaps/roadmap-details.tsx:80-123 | the update a toggle sends, or none without a structure; stated by RoadmapProgress.ToggleUpdateStamps |
| RoadmapProgress.ToggleUpdateStamps | components/roadmaps/roadmap-details.tsx:105-137 | a toggle writes the flipped map, stamps started_at exactly for a roadmap not started and completed_at exactly when all steps are done |
| RoadmapProgress.StatusUpdate | components/roadmaps/roadmap-details.tsx:206-222 | the update a status button sends; stated by RoadmapProgress.ManualTransitions |
| RoadmapProgress.OfferedTransitions | components/roadmaps/roadmap-details.tsx:285-314 | the buttons shown per status; stated by RoadmapProgress.ManualTransitions |
| RoadmapProgress.ManualTransitions | components/roadmaps/roadmap-details.tsx:206-243 | the buttons offer start, pause or complete, resume, restart; never "not_started" or the current status; only "Start" stamps started_at and only "Mark Complete" stamps completed_at |
| RoadmapProgress.StatusVariant | components/roadmaps/roadmap-details.tsx:245-256 | the badge is "outline" exactly for a status other than in progress, completed or paused, and "secondary" exactly for paused |
| RoadmapDetailsView.CountTopicSteps | components/roadmaps/roadmap-details.tsx:167-184 | the loop over a topic's steps computes the topic's progress |
| RoadmapDetailsView.CountSubjectSteps | components/roadmaps/roadmap-details.tsx:146-165 | the nested loop over a subject's topics computes the subject's progress |
| RoadmapDetailsView.CountAllSteps | components/roadmaps/roadmap-details.tsx:90-101 | the walk over all subjects computes the progress over every step key |
| RoadmapDetailsView.Flipped | components/roadmaps/roadmap-details.tsx:186-204 | flipping adds an absent id or removes a present one, leaving the others |
| RoadmapDetailsView.FlipTwice | components/roadmaps/roadmap-details.tsx:186-204 | expanding twice returns to the original set |
| RoadmapDetailsView.RoadmapDetails.constructor | components/roadmaps/roadmap-details.tsx:34-38 | the page starts with the loaded roadmap, nothing expanded, not updating |
| RoadmapDetailsView.RoadmapDetails.CalculateProgress | components/roadmaps/roadmap-details.tsx:41-72 | the progress is over all step keys with a structure, or the milestone counts without one |
| RoadmapDetailsView.RoadmapDetails.GetSubjectProgress | components/roadmaps/roadmap-details.tsx:146-165 | a subject's progress over its topics' steps |
| RoadmapDetailsView.RoadmapDetails.GetTopicProgress | components/roadmaps/roadmap-details.tsx:167-184 | a topic's progress over its steps |
| RoadmapDetailsView.RoadmapDetails.ToggleStep | components/roadmaps/roadmap-details.tsx:76-144 | an activity is logged and the update applied unless the update fails or there is no structure; expansion untouched; not updating at the end |
| RoadmapDetailsView.RoadmapDetails.UpdateRoadmapStatus | components/roadmaps/roadmap-details.tsx:206-243 | the status update is applied unless it fails; not updating at the end |
| RoadmapDetailsView.RoadmapDetails.ToggleSubject | components/roadmaps/roadmap-details.tsx:186-194 | only the subject's expansion flips |
| RoadmapDetailsView.RoadmapDetails.ToggleTopic | components/roadmaps/roadmap-details.tsx:196-204 | only the topic's expansion flips |
| LearningInsights.Recommendations | components/analytics/learning-insights.tsx:80-117 | the conditional pushes give `RecommendationsFor` of the roadmap, in-progress, completed and session counts |
| LearningInsights.RecommendationsFor | components/analytics/learning-insights.tsx:80-117 | the recommendation rules on the counts; stated by LearningInsights.RecommendationRules and LearningInsights.RecommendationOrder |
| LearningInsights.RecommendationRules | components/analytics/learning-insights.tsx:80-117 | each recommendation is given exactly under its rule; without roadmaps only "Start Your First Roadmap" |
| LearningInsights.RecommendationOrder | components/analytics/learning-insights.tsx:80-117 | the recommendations come in rule order, without repeats, at most three |
| LearningInsights.Achievements | components/analytics/learning-insights.tsx:120-145 | the conditional pushes give `AchievementsFor` of the roadmap, completed and session counts |
| LearningInsights.AchievementsFor | components/analytics/learning-insights.tsx:120-145 | the achievement rules on the counts; stated by LearningInsights.AchievementRules |
| LearningInsights.AchievementRules | components/analytics/learning-insights.tsx:120-145 | each achievement is awarded exactly under its rule, in rule order; none exactly when no rule applies |
| LearningInsights.AchievementsOnRoadmaps | components/analytics/learning-insights.tsx:120-145 | "Goal Achiever" never comes without "First Steps"; none exactly without roadmaps and with fewer than five sessions |
| LearningAnalytics.LearningStreak | components/analytics/learning-analytics.tsx:112-116 | the streak is 3 per in-progress roadmap, or 1 when there are none |
| LearningAnalytics.LearningStreakOne | components/analytics/learning-analytics.tsx:112-116 | the streak is 1 exactly when nothing is in progress |
| LearningAnalytics.Skills | components/analytics/learning-analytics.tsx:119 | `r.skills \|\| []` |
| LearningAnalytics.AllSkills | components/analytics/learning-analytics.tsx:119 | the `flatMap` of the skills; stated by LearningAnalytics.AllSkillsMembership |
| LearningAnalytics.AllSkillsMembership | components/analytics/learning-analytics.tsx:118-121 | a skill is listed exactly when some roadmap has it |
| LearningAnalytics.UniqueSkills | components/analytics/learning-analytics.tsx:118-121 | `[...new Set(allSkills)]`; stated by LearningAnalytics.UniqueSkillsSpec and LearningAnalytics.UniqueSkillsOrder |
| LearningAnalytics.UniqueSkillsSpec | components/analytics/learning-analytics.tsx:118-121 | the unique skills have no duplicates, are exactly the skills of some roadmap, and are no more than all skills |
| LearningAnalytics.UniqueSkillsOrder | components/analytics/learning-analytics.tsx:118-121 | unique skills keep the order of first occurrence |
| LearningAnalytics.TotalMilestones | components/analytics/learning-analytics.tsx:22 | the sum of the milestone list lengths, 0 for a missing list |
| LearningAnalytics.CompletedMilestones | components/analytics/learning-analytics.tsx:23 | the sum of the completed milestone list lengths, 0 for a missing list |
| LearningAnalytics.MilestoneSumsAppend | components/analytics/learning-analytics.tsx:22-23 | milestone sums add over concatenation |
| LearningAnalytics.TotalMilestonesZero | components/analytics/learning-analytics.tsx:22-23 | the total is 0 exactly when no roadmap has milestones |
| LearningAnalytics.Stats | components/analytics/learning-analytics.tsx:28-79 | the six cards in order with their titles: in-progress count out of the roadmap count, average progress, completed milestones out of total milestones, the streak (at least 1), the mentor session count, the number of unique skills; only the first and third have a total |
| LearningAnalytics.StatsCards | components/analytics/learning-analytics.tsx:28-79 | active roadmaps at most the roadmaps, a completion rate in 0..100, a milestone total of 0 exactly without milestones, a streak of 1 exactly with nothing in progress |
| LearningAnalytics.OutOfAsWritten | components/analytics/learning-analytics.tsx:95 | as written, a zero total prints a bare "0" |
| LearningAnalytics.BarPercent | components/analytics/learning-analytics.tsx:100 | `(value / total) * 100`, a non-number value read as 0, for a positive total |
| LearningAnalytics.BarAsWritten | components/analytics/learning-analytics.tsx:98 | as written, a zero total prints a bare "0" instead of the bar |
| LearningAnalytics.CardBodyAsWritten | components/analytics/learning-analytics.tsx:93-103 | the card starts with its value |
| LearningAnalytics.StrayZeroWithoutRoadmaps | components/analytics/learning-analytics.tsx:93-103 | with no roadmaps the first card prints two stray "0"s |
| LearningAnalytics.TotalGuard | components/analytics/learning-analytics.tsx:95-98 | the guarded node appears exactly for a positive total |
| LearningAnalytics.CardBody | components/analytics/learning-analytics.tsx:93-103 | corrected: no bare text; the "/ total" label and the bar appear exactly for a positive total |
| ProgressCharts.Column | components/analytics/progress-charts.tsx:14-46 | one field value per roadmap |
| ProgressCharts.Tally | components/analytics/progress-charts.tsx:29-36 | the reduce gives the distinct values in first-occurrence order, each with its number of occurrences (at least 1) |
| ProgressCharts.DifficultyStats | components/analytics/progress-charts.tsx:29-36 | each difficulty that some roadmap has, with its count |
| ProgressCharts.StatusStats | components/analytics/progress-charts.tsx:39-46 | each status that some roadmap has, with its count |
| ProgressCharts.ColumnMembership | components/analytics/progress-charts.tsx:14-46 | a value is in a column exactly when some roadmap has it |
| ProgressCharts.CountsSumToLength | components/analytics/progress-charts.tsx:29-46 | the listed counts add up to the number of roadmaps |
| ProgressCharts.SumCountsIsOccurrences | components/analytics/progress-charts.tsx:29-46 | summing the map's counts is summing the occurrences |
| ProgressCharts.CategoryProgress | components/analytics/progress-charts.tsx:14-26 | the reduce gives each category present, with its roadmap count (at least 1) and the sum of their percentages |
| ProgressCharts.CategoryPctBounds | components/analytics/progress-charts.tsx:14-26 | a category's percentage sum lies in 0..100 times its count |
| ProgressCharts.AvgProgress | components/analytics/progress-charts.tsx:61 | the average times the count is the sum; 0 for an empty category |
| ProgressCharts.CategoryAverageBounds | components/analytics/progress-charts.tsx:61 | a category's average lies in 0..100 |
| ProgressCharts.NoRoadmapsMessageIff | components/analytics/progress-charts.tsx:77-79 | no category is listed exactly when there are no roadmaps |
| QuickStats.QuickStatsOf | components/dashboard/quick-stats.tsx:19-44 | four cards in order: the roadmap count, the in-progress and completed filter counts (together at most the total), and the average percentage |
| QuickStats.ShowsBar | components/dashboard/quick-stats.tsx:57-59 | the bar test: the average card with a positive average; stated by QuickStats.BarOnlyOnAverage |
| QuickStats.BarOnlyOnAverage | components/dashboard/quick-stats.tsx:57-59 | only the fourth card shows a bar, exactly when some roadmap has a positive percentage, and the average lies in 0..100 |
| MyRoadmaps.Page | components/roadmaps/my-roadmaps.tsx:163-178 | the empty state shows exactly when there are no roadmaps |
| MyRoadmaps.TabsPartition | components/roadmaps/my-roadmaps.tsx:29-32 | each tab holds exactly its status, a roadmap is in at most one tab, an unknown status in none, and the tabs add up to at most the total |
| MyRoadmaps.TabOrder | components/roadmaps/my-roadmaps.tsx:29-32 | each tab keeps the list order |
| MyRoadmaps.StatusLabel | components/roadmaps/my-roadmaps.tsx:78 | the status label keeps the length |
| MyRoadmaps.StatusLabelFirstUnderscore | components/roadmaps/my-roadmaps.tsx:78 | only the first "_" becomes a space |
| MyRoadmaps.StatusLabelNoUnderscore | components/roadmaps/my-roadmaps.tsx:78 | a status without "_" is shown as is |
| MyRoadmaps.ButtonLabel | components/roadmaps/my-roadmaps.tsx:154 | "Start Roadmap" exactly for a roadmap not started, else "Continue Learning" |
| MyRoadmaps.CardOf | components/roadmaps/my-roadmaps.tsx:47-63 | a missing percentage or milestone list shows 0; present lists show their lengths; the badge variant follows the status |
| TemplateCategories.CategoriesOf | components/dashboard/template-categories.tsx:27-37 | one category per template |
| TemplateCategories.InCategory | components/dashboard/template-categories.tsx:27-37 | a group is no larger than the template list |
| TemplateCategories.InCategoryMembership | components/dashboard/template-categories.tsx:27-37 | a template is in a group exactly when it has that category |
| TemplateCategories.InCategorySize | components/dashboard/template-categories.tsx:75 | a group's size is the number of templates in its category |
| TemplateCategories.InCategoryConcat | components/dashboard/template-categories.tsx:27-37 | grouping a concatenation groups each part, keeping order |
| TemplateCategories.GroupByCategory | components/dashboard/template-categories.tsx:27-39 | the reduce lists each category once in first-occurrence order (integer-like and inherited names are under "## Left out"), with a non-empty group of exactly its templates in order |
| TemplateCategories.Filtered | components/dashboard/template-categories.tsx:40 | the templates shown for a selection; stated by TemplateCategories.FilteredSpec |
| TemplateCategories.FilteredSpec | components/dashboard/template-categories.tsx:40 | "All" and the empty category name (falsy) show every template; a category shows exactly its templates; an unknown category shows none |
| TemplateCategories.CategoriesNotIn | components/dashboard/template-categories.tsx:40 | a category no template has has an empty group |
| TemplateCategories.BadgeCountIsOccurrences | components/dashboard/template-categories.tsx:75 | a category button's badge counts its templates |
| TemplateCategories.BadgesSumToTotal | components/dashboard/template-categories.tsx:75 | the badges add up to the number of templates |
| TemplateCategories.TemplateBrowser.constructor | components/dashboard/template-categories.tsx:24 | the browser starts with "All" selected |
| TemplateCategories.TemplateBrowser.Select | components/dashboard/template-categories.tsx:56-69 | a button click selects its category, or "All" |
| TemplateCategories.TemplateBrowser.Render | components/dashboard/template-categories.tsx:39-132 | distinct category buttons for exactly the categories present; the shown templates follow the selection, every template for none or the empty name; the empty message shows exactly when none are shown |
| ProfilePage.MaxAsWritten | app/profile/page.tsx:31 | `Math.max(...xs)` is -Infinity exactly for an empty list |
| ProfilePage.MaxOf | app/profile/page.tsx:31 | the maximum of a non-empty list bounds every element and is one of them |
| ProfilePage.MaxAsWrittenNonEmpty | app/profile/page.tsx:31 | on a non-empty list the spread maximum is that maximum |
| ProfilePage.Streaks | app/profile/page.tsx:31 | one streak per roadmap, a missing one read as 0 |
| ProfilePage.CurrentStreakAsWritten | app/profile/page.tsx:31 | `Math.max(...(roadmaps?.map(...) \|\| [0]))` as written; stated by ProfilePage.NegativeInfinityStreak |
| ProfilePage.NegativeInfinityStreak | app/profile/page.tsx:31 | as written, an empty non-null list gives a streak of -Infinity, while a null list gives 0 |
| ProfilePage.CurrentStreak | app/profile/page.tsx:31 | corrected: 0 without roadmaps, else at least every roadmap's streak |
| ProfilePage.CurrentStreakSpec | app/profile/page.tsx:31 | the corrected streak is some roadmap's streak, and agrees with the page wherever the page gives a number |
| ProfilePage.MaxAsWrittenNonEmptyFinite | app/profile/page.tsx:31 | on a non-empty list the page as written gives a number |
| ProfilePage.StatsOf | app/profile/page.tsx:28-33 | the totals are the list lengths (0 for null); completed is the completed roadmaps, at most the total; the streak is some roadmap's streak and equals the page's as written for a non-empty list, but 0 where the page gives -Infinity |
| ProfilePage.ProfilePageOf | app/profile/page.tsx:14-33 | an auth error or no user redirects to /auth/login; otherwise the page renders the user's stats (with the corrected streak) |
| FeedbackForm.NewFeedback | components/feedback/feedback-form.tsx:68-75 | the row is "open", and has a roadmap id exactly when one was chosen |
| FeedbackForm.CanSubmit | components/feedback/feedback-form.tsx:56 | the submit guard: a type, a title and a description are all non-empty; used by FeedbackForm.Form.SubmitEnabledIff |
| FeedbackForm.NoSpecificRoadmapIsSent | components/feedback/feedback-form.tsx:158-167 | choosing "No specific roadmap" sends the literal id "none"; an untouched select sends null |
| FeedbackForm.Form.constructor | components/feedback/feedback-form.tsx:22-27 | the form starts empty, not submitting, not submitted |
| FeedbackForm.Form.SubmitEnabledIff | components/feedback/feedback-form.tsx:199 | the button is enabled exactly when not submitting and a type, title and description are present |
| FeedbackForm.Form.SelectType | components/feedback/feedback-form.tsx:134 | a type card sets the type alone |
| FeedbackForm.Form.SelectRoadmap | components/feedback/feedback-form.tsx:158-167 | the select sets the roadmap alone |
| FeedbackForm.Form.SetTitle | components/feedback/feedback-form.tsx:180 | typing sets the title alone |
| FeedbackForm.Form.SetDescription | components/feedback/feedback-form.tsx:192 | typing sets the description alone |
| FeedbackForm.Form.HandleSubmit | components/feedback/feedback-form.tsx:54-93 | an incomplete form sends nothing; with a user the row is sent; only a successful insert clears the fields and shows the thank-you card |
| FeedbackForm.ResetFormIsBlocked | components/feedback/feedback-form.tsx:79-83 | a cleared form cannot be submitted again |
| CreateRoadmapDialog.OrElse | components/roadmaps/create-roadmap-dialog.tsx:49-50 | `a \|\| b` is a when a is non-empty, else b |
| CreateRoadmapDialog.NewRoadmapRecord | components/roadmaps/create-roadmap-dialog.tsx:47-58 | the row copies the template, uses the custom title and description when non-empty, and starts "not_started" |
| CreateRoadmapDialog.Dialog.constructor | components/roadmaps/create-roadmap-dialog.tsx:27-31 | the dialog starts closed with nothing selected |
| CreateRoadmapDialog.Dialog.SelectTemplate | components/roadmaps/create-roadmap-dialog.tsx:101 | clicking a template selects it alone |
| CreateRoadmapDialog.Dialog.SetOpen | components/roadmaps/create-roadmap-dialog.tsx:75 | opening, closing or "Cancel" (line 187) changes only `open` |
| CreateRoadmapDialog.Dialog.SetCustomTitle | components/roadmaps/create-roadmap-dialog.tsx:146 | typing changes only the custom title |
| CreateRoadmapDialog.Dialog.SetCustomDescription | components/roadmaps/create-roadmap-dialog.tsx:155 | typing changes only the custom description |
| CreateRoadmapDialog.Dialog.HandleCreateRoadmap | components/roadmaps/create-roadmap-dialog.tsx:34-72 | without a template nothing happens; with a user the record is sent; a returned id closes the dialog and navigates to /roadmaps/id |
| MentorChat.GreetingName | components/mentor/mentor-chat.tsx:45-47 | the greeting name is the email's part before "@", or "there" when that is missing or empty |
| MentorChat.Welcome | components/mentor/mentor-chat.tsx:41-50 | the welcome message with the greeting name |
| MentorChat.Reply | components/mentor/mentor-chat.tsx:65-94 | the reply starts with the canned reply and adds the context sentence exactly when a roadmap is in progress |
| MentorChat.CannedReply | components/mentor/mentor-chat.tsx:67-77 | the five replies; the first two name a topic by `includes` on the lower-cased message |
| MentorChat.ContextSentence | components/mentor/mentor-chat.tsx:89 | the sentence naming the roadmap in progress |
| MentorChat.FirstInProgress | components/mentor/mentor-chat.tsx:86-91 | the context names the first in-progress roadmap |
| MentorChat.GenerateAIResponse | components/mentor/mentor-chat.tsx:65-94 | the method computes the reply |
| MentorChat.SessionSummary | components/mentor/mentor-chat.tsx:143 | the summary is "Discussion about " + the first 50 characters + "...", between 20 and 70 characters |
| MentorChat.SendEffect | components/mentor/mentor-chat.tsx:110-160 | the transcript gains message and reply, message and apology, or all three; a write exactly without a failure, holding exactly the transcript; an insert's id becomes the session |
| MentorChat.Exchange | components/mentor/mentor-chat.tsx:110-160 | the transcript gains the message and the reply, or the apology; without a failure the stored session equals the transcript |
| MentorChat.Chat.constructor | components/mentor/mentor-chat.tsx:41-50 | the chat starts with the welcome message and no session |
| MentorChat.Chat.SetInput | components/mentor/mentor-chat.tsx:96-108 | typing changes the input alone |
| MentorChat.Chat.HandleSendMessage | components/mentor/mentor-chat.tsx:96-165 | a blank input or a pending send does nothing; otherwise the trimmed message is sent, the input cleared, and the exchange saved |
| MentorChat.Chat.LoadPreviousSession | components/mentor/mentor-chat.tsx:183-186 | loading adopts the stored messages and the session id |
| MentorChat.Chat.StartNewSession | components/mentor/mentor-chat.tsx:188-198 | a new session resets to the new welcome message and no id |
| MentorRoute.MockResponse | app/api/mentor/chat/route.ts:58-72 | the reply is one of the five canned replies |
| MentorRoute.MockResponseInjective | app/api/mentor/chat/route.ts:58-72 | different picks give different replies |
| MentorRoute.Post | app/api/mentor/chat/route.ts:4-56 | 500 when the client throws; 401 exactly without a user; 400 for a missing message; 200 with the reply; a session write exactly on 200 |
| MentorRoute.PostSavesExchange | app/api/mentor/chat/route.ts:27-49 | the saved session holds the message then the reply, belongs to the user, updates exactly when a session id is given, and otherwise carries the summary |
| MentorRoute.MessageRequired | app/api/mentor/chat/route.ts:16-20 | 400 exactly for a signed-in request whose message is missing or empty; 500 exactly when a throw is reached |
| MentorRoute.WriteErrorIgnored | app/api/mentor/chat/route.ts:36-51 | the response does not depend on whether the session write fails |
| ProfileForm.InitialFormData | components/profile/profile-form.tsx:24-29 | each field starts as the profile's value or ""; a non-empty field comes from the profile |
| ProfileForm.FirstChars | components/profile/profile-form.tsx:34-36 | at most one character per part |
| ProfileForm.NoFirstChars | components/profile/profile-form.tsx:34-36 | no first characters exactly when the name is all separators |
| ProfileForm.FirstCharsOfWords | components/profile/profile-form.tsx:34-36 | for non-empty parts, exactly their first characters in order |
| ProfileForm.Initials | components/profile/profile-form.tsx:32-38 | the initials start with the upper-cased first letter of the name (one per part, see ProfileForm.InitialsOfWords), else of the email, else "U" |
| ProfileForm.InitialsEmptyIff | components/profile/profile-form.tsx:32-38 | the initials are empty exactly for a non-empty name made of spaces |
| ProfileForm.InitialsOfWords | components/profile/profile-form.tsx:32-37 | a name of space-separated words gets exactly one upper-cased first character per word, in order |
| ProfileForm.InitialsExample | components/profile/profile-form.tsx:32-37 | "ada lovelace" has the initials "AL" |
| ProfileForm.AvatarPathExtension | components/profile/profile-form.tsx:52-53 | the upload path keeps the file's extension |
| ProfileForm.AvatarPath | components/profile/profile-form.tsx:52-53 | `${user.id}/avatar.${ext}`; stated by ProfileForm.AvatarPathExtension and ProfileForm.RemovalPathOfUpload |
| ProfileForm.RemovalPath | components/profile/profile-form.tsx:56-61 | a removal exactly when the avatar URL has a non-empty last segment, under the user's folder |
| ProfileForm.RemovalPathOfUpload | components/profile/profile-form.tsx:52-61 | replacing an uploaded avatar removes exactly the earlier upload |
| ProfileForm.Form.constructor | components/profile/profile-form.tsx:22-29 | the form starts from the profile, not loading or uploading |
| ProfileForm.Form.InputChange | components/profile/profile-form.tsx:40-42 | only the named field changes |
| ProfileForm.Form.AvatarUpload | components/profile/profile-form.tsx:44-77 | no file does nothing; otherwise the old avatar is removed, the file uploaded, and the avatar URL set only on success |
| ProfileForm.Form.Submit | components/profile/profile-form.tsx:79-100 | the upserted row is the form under the user's id; a refresh exactly on success |

## Left out

- Backend calls (Supabase database, auth and storage) are parameters of the methods that
  make them: whether each reports an error, and the id, row or URL it returns.
  Network timing and retries are not modelled.
- `new Date()`, `Date.now()` ids and ISO time strings are parameters. The `timestamp` of
  chat messages and `updated_at` of the route and the profile upsert are left out.
- `Math.random()` is the `pick` parameter. The `setTimeout` delay before a mock reply is
  left out, and so is the timer that resets the feedback card.
- React rendering, effects, re-renders, focus and scrolling are left out. Handlers are
  modelled as atomic: `isLoading`, `isUpdating`, `isSubmitting` and `isUploading` are
  only true between steps of one method, so the model states their final value.
- JavaScript numbers are exact reals or integers. `Math.round` and `toFixed` on display
  values, and floating-point rounding of percentages, are left out.
- Case mapping (`toUpperCase`, `toLowerCase`) covers ASCII letters only. `trim` removes
  the full whitespace and line-terminator set of ECMA-262.
- Strings are sequences of Unicode characters, not UTF-16 code units. `slice(0, 50)` in
  the session summary, `n[0]` and `email?.[0]` in the initials count code units in the
  source: a name starting with an emoji gives half a surrogate pair there and a whole
  character here, and a 50-unit summary can split a pair. Strings.Take,
  MentorChat.SessionSummary and ProfileForm.Initials count characters instead.
- ProgressCharts.Tally, ProgressCharts.CategoryProgress, ProgressCharts.DifficultyStats,
  ProgressCharts.StatusStats: the key order is insertion
  order. `Object.entries` lists integer-like keys (such as a category named "2") first,
  in numeric order, and a category named like an inherited property of `{}` (such as
  "constructor") starts from that property instead of from nothing. Neither is modelled.
- TemplateCategories.GroupByCategory, TemplateCategories.TemplateBrowser.Render: the
  category buttons are listed in first-occurrence order. `Object.keys` lists integer-like
  names first, in numeric order, so templates of category "Web" then "2024" give the
  buttons "2024", "Web" in the source. A category named like an inherited property of
  `{}` (such as "constructor" or "toString") finds that truthy property, and the `push`
  onto it throws, so the source does not render; the model builds a fresh group for
  every name instead.
- ProfilePage.StatsOf, ProfilePage.ProfilePageOf: these use the corrected streak of the
  first Findings row. For an empty, non-null roadmap list the page as written shows
  -Infinity; the model shows 0. ProfilePage.CurrentStreakAsWritten and
  ProfilePage.NegativeInfinityStreak keep the behaviour as written.
- `handleInputChange` in the profile form takes any field name in the source; the model
  takes one of the four form fields.
- MentorChat.Chat.HandleSendMessage: a session write that reports its error as a value
  is ignored by the source, as in the model; only a thrown error shows the apology.
  `currentSessionId` is tested for truthiness in the source; the model treats any
  present id as truthy, since database ids are not empty.
- MentorRoute.Post: a request body whose `message` is a non-string JSON value is not
  modelled; the message is a string or absent.
- ProfileForm.Form.AvatarUpload: the error of the storage `remove` call is ignored in the
  source, so it is not a parameter. The public URL is a parameter, not derived from the
  storage path.
- ProfileForm.RemovalPathOfUpload assumes the public URL ends with "/" and the upload
  path, and that the file name has no "/".
- RoadmapDetailsView.RoadmapDetails.ToggleStep: the error of the `user_activities` insert
  is ignored in the source. The model returns the row sent, whatever the outcome.
- The dashboard header's initials are not modelled separately: they follow the same rule
  as ProfileForm.Initials, and components/dashboard/dashboard-header.tsx is not part of
  this model.
- Purely presentational files and page loaders are not part of this model: settings,
  featured templates, badges, feedback history, auth and error pages.

## Findings

| source | as written | input that shows it | evidently intended | confidence | as-written member | corrected member |
|---|---|---|---|---|---|---|
| app/profile/page.tsx:31 | `Math.max(...roadmaps.map(r => r.current_streak \|\| 0))` when `roadmaps` is not null | a user whose roadmaps query returns an empty list: the spread of `[]` gives -Infinity | a streak of 0 without roadmaps, as for a null list | not executed | ProfilePage.NegativeInfinityStreak | ProfilePage.CurrentStreakSpec |
| components/analytics/learning-analytics.tsx:95,98 | `{stat.total && …}` with a numeric total | a user with no roadmaps: the "Active Roadmaps" card's total is 0, and React prints the 0 twice | show the "/ total" label and the bar only for a positive total, and print nothing otherwise | not executed | LearningAnalytics.StrayZeroWithoutRoadmaps | LearningAnalytics.CardBody |
