# Social media manager: a verified model of its core

This project models the decision logic of a social media management tool. The tool has a Python web backend and a React frontend. Three parts are modelled.

**The simulated AI services** in `backend/app/services/ai_services.py`:
- the engagement score, with its recommendations and best posting time;
- content scoring, with the grade and the improvement tips;
- keyword sentiment analysis;
- caption rewriting and multilingual generation;
- content ideas drawn from the trending topics.

**The in-memory schedule store** in `backend/app/routes/scheduler.py`.

**The state handlers of the frontend pages:**
- the two composers, the post form and the schedule form;
- the AI features page and the settings page;
- the two month calendars.

The backend logic consists of pure functions and is modelled as Dafny functions, with lemmas about them. The loops of the backend are `method`s proved against those functions:
- the recommendations;
- the tips;
- the sentiment tally;
- the in-place sort of the caption variations;
- the translation loop;
- the content ideas.

Each React component becomes a `class` whose fields are its `useState` slots. Each handler becomes a method that states the whole new state. Network calls enter as their outcome: `Some(reply)` means the request succeeded, `None` means it failed. Random draws enter as parameters.

Some properties are proved about the model as a whole:
- Every score stays in its range.
- Each recommendation and each tip appears exactly when its condition holds, in source order.
- The sentiment tally counts every comment exactly once.
- The caption variations come out as a stable descending permutation of the three drafts.
- The translation dictionary holds exactly the requested names whose lower-case form is supported. Each key appears once, and the default request yields all five languages.
- Toggling a platform flips its membership and nothing else.
- The month grid puts every day under its own weekday.
- Month navigation moves the month index by exactly the step, with the year rolling over at the ends.

The model follows the code in three places where a natural reading of the program would expect something else:
- Toggling a platform off and on again restores the *set* of selected platforms (`Selection.ToggleTwiceSameMembers`). It does not restore the list: the platform moves to the end (`Selection.ToggleTwiceMovesToEnd`).
- `navigateMonth` in `frontend/pages/Calendar.jsx` leaves the selected day as it was (`CalendarPage.Calendar.NavigateMonth`).
- The engagement score and the recommendations test different call-to-action word lists. A text whose only such word is "subscribe" or "link" earns the bonus and is still told to add a call-to-action (`Engagement.CtaListsDisagree`).

## Model

| member | source | states |
|---|---|---|
| Text.CountContained | backend/app/services/ai_services.py:479-482 | the number of listed words occurring in the text is at most the list's length, and is 0 exactly when none occurs |
| Text.AnyContainedIff | backend/app/services/ai_services.py:27 | `any(w in s for w in words)` holds exactly when some listed word occurs |
| Text.ContainsIff | backend/app/services/ai_services.py:27 | substring search succeeds exactly when the word occurs at some position |
| Text.AsciiLower | backend/app/services/ai_services.py:210 | lower-casing keeps the length and lowers each ASCII capital, leaving every other character |
| Text.AsciiLowerAppend | backend/app/services/ai_services.py:480 | lower-casing distributes over concatenation |
| Text.CountChar | backend/app/services/ai_services.py:498 | `s.count(c)` is at most the length and 0 exactly when `c` is absent |
| Text.ReplaceChar | backend/app/services/ai_services.py:533 | `replace('_', ' ')` keeps the length and swaps exactly the underscores |
| Text.Take | backend/app/services/ai_services.py:395 | `content[:50]` is a prefix of the content of length min(50, len) |
| Text.JsTrimEmptyIffBlank | frontend/pages/Compose.jsx:44 | `s.trim()` is empty exactly when every character is JavaScript whitespace |
| Text.TrimsToEmpty | frontend/pages/Compose.jsx:44 | the handlers' `!s.trim()` guard holds exactly for blank text |
| Text.Utf16Length | frontend/pages/Compose.jsx:154 | JavaScript's `length` lies between the code-point count and twice it, and equals it without astral characters |
| Engagement.FeaturesOf | backend/app/services/ai_services.py:22-27 | the features are the length, '#', a character above 127, '?', and a call-to-action word in the lower-cased text |
| Engagement.LengthBonus | backend/app/services/ai_services.py:33-36 | +15 exactly for 100..280 characters, -10 exactly below 50, 0 otherwise |
| Engagement.BaseScore | backend/app/services/ai_services.py:30-45 | the base score lies in 40..110 |
| Engagement.FeatureBonuses | backend/app/services/ai_services.py:38-45 | each feature adds its own fixed bonus (10, 8, 12, 15) whatever the others are |
| Engagement.PlatformFactor | backend/app/services/ai_services.py:48-55 | the multiplier per platform and content type, with 1.0 for a platform missing from the table |
| Engagement.ScaledScore | backend/app/services/ai_services.py:56 | `min(100, int(base * multiplier))` lies in 36..100, is 100 exactly when the product reaches 100, and is otherwise its floor |
| Engagement.EngagementScore | backend/app/services/ai_services.py:19-56 | the final engagement score lies in 36..100 |
| Engagement.TwitterScoreIsCappedBase | backend/app/services/ai_services.py:48-56 | on Twitter or an unknown platform the score is the base score capped at 100 |
| Engagement.ScaledScoreMonotone | backend/app/services/ai_services.py:56 | a higher base score never gives a lower final score |
| Engagement.LowestScoreReached | backend/app/services/ai_services.py:30-56 | a short featureless text posted as text on Instagram scores 36, the bottom of the range |
| Engagement.HighestScoreReached | backend/app/services/ai_services.py:30-56 | a short image post with every feature on Instagram scores 100 |
| Engagement.StepsUpIncreasing | backend/app/services/ai_services.py:443-460 | messages that step up between neighbours are strictly increasing and pairwise distinct |
| Engagement.AdviceConditions | backend/app/services/ai_services.py:446-455 | each of the five messages appears exactly when its condition holds |
| Engagement.AdviceFallback | backend/app/services/ai_services.py:457-458 | the list is never empty, and it is the "optimized" message alone exactly when no condition holds |
| Engagement.AdviceOrdered | backend/app/services/ai_services.py:443-460 | the messages appear in the order the code appends them, each at most once |
| Engagement.GenerateRecommendations | backend/app/services/ai_services.py:443-460 | the appended list is the advice for the text's gaps |
| Engagement.AdviceCtaEarnsBonus | backend/app/services/ai_services.py:454 | a text with a word from the advice's list also earns the score's call-to-action bonus |
| Engagement.CtaWordEarnsBonus | backend/app/services/ai_services.py:27 | any word of the scoring list in the text earns the bonus |
| Engagement.NoAdviceCtaWithout | backend/app/services/ai_services.py:454 | a text lacking 'l', 'h', 'o' and 'f' has none of the advice's words |
| Engagement.CtaListsDisagree | backend/app/services/ai_services.py:27 | a lower-cased text holding "subscribe" but no 'l', 'h', 'o' or 'f' earns the bonus and is still advised to add a call-to-action |
| Engagement.BestPostingTime | backend/app/services/ai_services.py:463-470 | the answer is "10:00 AM" exactly for platforms missing from the table |
| Engagement.PredictEngagement | backend/app/services/ai_services.py:19-72 | the score, the recommendations (never empty) and the best time of the prediction |
| ContentScore.CountContainedGrows | backend/app/services/ai_services.py:479-494 | appending text never lowers the number of words found |
| ContentScore.EmotionalAppeal | backend/app/services/ai_services.py:479-482 | 50..100, exactly 50 when no emotional word occurs, and below the cap 50 plus a multiple of 15 |
| ContentScore.EmotionalAppealGrows | backend/app/services/ai_services.py:479-482 | writing more never lowers the emotional appeal |
| ContentScore.CtaStrength | backend/app/services/ai_services.py:491-494 | 40..100, exactly 40 when no call-to-action word occurs, and below the cap a multiple of 20 |
| ContentScore.CtaStrengthGrows | backend/app/services/ai_services.py:491-494 | writing more never lowers the call-to-action strength |
| ContentScore.HashtagScore | backend/app/services/ai_services.py:497-506 | 30, 90, 70 or 40, each exactly for its range of '#' counts |
| ContentScore.GetGrade | backend/app/services/ai_services.py:517-527 | each grade exactly for its band of scores |
| ContentScore.GradeMonotone | backend/app/services/ai_services.py:517-527 | a higher score never earns a lower grade |
| ContentScore.RoundHalfEven | backend/app/services/ai_services.py:533 | the nearest integer, within 0.5, with ties going to the even one |
| ContentScore.FormatFixed0 | backend/app/services/ai_services.py:533 | `f"{x:.0f}"` is non-empty and starts with '-' exactly for negative `x` |
| ContentScore.LowScores | backend/app/services/ai_services.py:530-533 | the selected metrics all come from the breakdown and all score under 60 |
| ContentScore.LowScoresComplete | backend/app/services/ai_services.py:530-533 | every metric under 60 is selected |
| ContentScore.LowScoresEmpty | backend/app/services/ai_services.py:535 | nothing is selected exactly when every metric scores at least 60 |
| ContentScore.Tips | backend/app/services/ai_services.py:533 | one tip per selected metric, in order |
| ContentScore.GetImprovementTips | backend/app/services/ai_services.py:530-535 | the tips of the metrics under 60 in breakdown order, or the single "well-optimized" line; never empty |
| ContentScore.Breakdown | backend/app/services/ai_services.py:78-85 | six named scores in the dictionary's order: the three given scores unchanged, emotional appeal in 50..100, call-to-action in 40..100, hashtags in 30..90 |
| ContentScore.ScoreContentPerformance | backend/app/services/ai_services.py:75-94 | the breakdown, its mean, the grade of the unrounded mean, and the tips |
| ContentIdeas.Idea | backend/app/services/ai_services.py:541 | each idea is the fixed prefix followed by the topic |
| ContentIdeas.IdeaInjective | backend/app/services/ai_services.py:541 | different topics give different ideas |
| ContentIdeas.GenerateContentIdeas | backend/app/services/ai_services.py:538-542 | one idea per topic for the first three topics, in order, and no more |
| Sentiment.Counts.Add | backend/app/services/ai_services.py:225 | incrementing one label's count leaves the other two unchanged |
| Sentiment.Classify | backend/app/services/ai_services.py:214-223 | positive exactly when positive words outnumber negative ones, negative for the converse, neutral on a tie |
| Sentiment.ScoreOf | backend/app/services/ai_services.py:214-223 | positive comments score 0.7..1.0, negative ones 0..0.3, neutral ones 0.5 |
| Sentiment.AnalyzeComment | backend/app/services/ai_services.py:210-231 | the label is the classification of the word counts in the lower-cased comment, and the score lies in 0..1 |
| Sentiment.NoKeywordsIsNeutral | backend/app/services/ai_services.py:211-223 | a comment without listed words is neutral with score 0.5 |
| Sentiment.CommentsOrDemo | backend/app/services/ai_services.py:193-204 | a missing or empty list is replaced by the demo comments, any other list is kept, and the input is never empty |
| Sentiment.CountOf | backend/app/services/ai_services.py:225 | no label is counted more often than there are comments |
| Sentiment.CountOfZero | backend/app/services/ai_services.py:225 | a label's count is 0 exactly when no comment carries it |
| Sentiment.CountsCoverAll | backend/app/services/ai_services.py:207-236 | the three counts add up to the number of comments |
| Sentiment.Tally | backend/app/services/ai_services.py:207-231 | each label's count is the number of comments carrying it |
| Sentiment.TallySnoc | backend/app/services/ai_services.py:225 | tallying one more comment adds one to its label |
| Sentiment.OverallSentiment | backend/app/services/ai_services.py:239 | a label of maximal count, the first such in the order positive, negative, neutral |
| Sentiment.GenerateSentimentActions | backend/app/services/ai_services.py:549-556 | the two negative-feedback actions come first when negatives outnumber positives, the engagement action comes last when neutrals do, and otherwise the encouragement stands alone |
| Sentiment.SharesSum | backend/app/services/ai_services.py:241-245 | three shares of a total add up to one |
| Sentiment.DistributionSums | backend/app/services/ai_services.py:241-245 | the unrounded percentages add up to 100 |
| Sentiment.AnalyzeAll | backend/app/services/ai_services.py:210-231 | every comment is analysed in order, and the counts are their tally |
| Sentiment.Summarize | backend/app/services/ai_services.py:236-249 | the totals equal the number of comments; the overall label, mean score, distribution, themes and actions come from the tally |
| Sentiment.AnalyzeSentiment | backend/app/services/ai_services.py:190-249 | the whole report: each comment analysed, tallied once, with a positive total |
| Caption.StyleFor | backend/app/services/ai_services.py:327-350 | the four styles' prefix, suffix and hooks, with "engaging" for an unknown style |
| Caption.Variations | backend/app/services/ai_services.py:351-369 | three drafts with their styles and engagement draws, each containing the original |
| Caption.Insert | backend/app/services/ai_services.py:372 | insertion adds exactly one element |
| Caption.InsertPerm | backend/app/services/ai_services.py:372 | insertion is a permutation of the list plus the element |
| Caption.SortDesc | backend/app/services/ai_services.py:372 | sorting keeps the length |
| Caption.SortDescPerm | backend/app/services/ai_services.py:372 | sorting is a permutation |
| Caption.InsertSorted | backend/app/services/ai_services.py:372 | inserting into a descending list keeps it descending |
| Caption.SortDescSorted | backend/app/services/ai_services.py:372 | the result has non-increasing engagement |
| Caption.WithEngagementAppend | backend/app/services/ai_services.py:372 | selecting one engagement value distributes over concatenation |
| Caption.WithEngagementSingle | backend/app/services/ai_services.py:372 | selecting from a one-element list keeps it exactly when it has that engagement |
| Caption.InsertKeepsTies | backend/app/services/ai_services.py:372 | insertion keeps the order of equal-engagement entries |
| Caption.SortDescStable | backend/app/services/ai_services.py:372 | the sort is stable, like Python's, on ties |
| Caption.Swap | backend/app/services/ai_services.py:372 | two array cells exchange their values and nothing else changes |
| Caption.InsertInPlace | backend/app/services/ai_services.py:372 | the inner loop inserts cell `i` into the sorted prefix and leaves the rest alone |
| Caption.SortVariations | backend/app/services/ai_services.py:372 | the in-place sort leaves the array equal to the descending sort of its old contents |
| Caption.RewriteCaption | backend/app/services/ai_services.py:324-383 | the variations are the sorted drafts, the recommended text is the first of them with the highest engagement, every variation contains the original |
| Caption.SortDescFirstIsBest | backend/app/services/ai_services.py:372-376 | the first sorted entry has the highest engagement of the input |
| Caption.SortDescFromInput | backend/app/services/ai_services.py:372 | every sorted entry is one of the input's entries |
| Multilingual.Names | backend/app/services/ai_services.py:431 | the key list has one name per table entry, in order |
| Multilingual.TableNames | backend/app/services/ai_services.py:389-431 | the table's keys are exactly the five default languages, in the same order |
| Multilingual.Lookup | backend/app/services/ai_services.py:428-429 | a name is found exactly when it is a key, and then the entry carries that name |
| Multilingual.TranslationOf | backend/app/services/ai_services.py:393-419 | a translation starts with the star and the first 50 characters, and carries its entry's hashtags and notes |
| Multilingual.DictSet | backend/app/services/ai_services.py:429 | assigning to a present key keeps the key order, a new key goes at the end, and no other value changes |
| Multilingual.TargetsOrAll | backend/app/services/ai_services.py:389-390 | a missing or empty request means the five defaults, otherwise the request as given |
| Multilingual.FillKeys | backend/app/services/ai_services.py:427-429 | a name is a key exactly when it was requested and its lower-case form is in the table |
| Multilingual.FillKeysAll | backend/app/services/ai_services.py:427-429 | the key statement for every name at once |
| Multilingual.DictSetNoDuplicates | backend/app/services/ai_services.py:429 | assignment keeps the keys distinct |
| Multilingual.FillNoDuplicates | backend/app/services/ai_services.py:427-429 | no key appears twice, even when a name is requested twice |
| Multilingual.FillValues | backend/app/services/ai_services.py:427-429 | each key holds the translation of its lower-case name's entry |
| Multilingual.FillDistinctSupported | backend/app/services/ai_services.py:427-429 | distinct supported requests give exactly one key per request, in the order asked |
| Multilingual.TableKeysDistinct | backend/app/services/ai_services.py:390 | the five default names are distinct |
| Multilingual.TableKeysLower | backend/app/services/ai_services.py:390 | the five default names are already lower case |
| Multilingual.DefaultTargets | backend/app/services/ai_services.py:389-429 | the default request yields all five languages as keys, in table order |
| Multilingual.FillTranslations | backend/app/services/ai_services.py:427-429 | the loop builds the dictionary of the requests in order |
| Multilingual.GenerateMultilingual | backend/app/services/ai_services.py:386-438 | the keys are exactly the requested names whose lower-case form is supported, each once, and the fixed fields are filled |
| Scheduler.ScheduleStore.constructor | backend/app/routes/scheduler.py:5 | the store starts empty |
| Scheduler.ScheduleStore.SchedulePost | backend/app/routes/scheduler.py:7-10 | the post is appended at the end, earlier entries are untouched, and the reply echoes it |
| Scheduler.ScheduleStore.GetSchedule | backend/app/routes/scheduler.py:12-14 | every entry is returned in insertion order, and nothing changes |
| Selection.Remove | frontend/pages/Compose.jsx:30 | the filtered list lacks the id, is unchanged when it was absent, and is no longer |
| Selection.RemoveKeepsOthers | frontend/pages/Compose.jsx:30 | filtering keeps every other id |
| Selection.RemoveKeepsAllOthers | frontend/pages/Compose.jsx:30 | filtering keeps every other id, for all ids at once |
| Selection.RemoveAppend | frontend/pages/Compose.jsx:30 | filtering distributes over concatenation |
| Selection.RemoveKeepsNoDup | frontend/pages/Compose.jsx:30 | filtering keeps a list free of duplicates |
| Selection.ToggleFlipsMembership | frontend/pages/Compose.jsx:27-34 | toggling flips the membership of the id and of nothing else |
| Selection.ToggleKeepsNoDup | frontend/pages/Compose.jsx:27-34 | toggling keeps the selection free of duplicates |
| Selection.ToggleTwiceSameMembers | frontend/pages/Compose.jsx:27-34 | toggling twice restores the set of selected ids |
| Selection.ToggleTwiceRestoresAbsent | frontend/pages/Compose.jsx:27-34 | selecting an absent id and unselecting it restores the list itself |
| Selection.ToggleTwiceMovesToEnd | frontend/pages/Compose.jsx:27-34 | unselecting a present id and selecting it again moves it to the end |
| Selection.SetChecked | frontend/pages/AIFeatures.jsx:509-515 | a checked language is appended; an unchecked one is removed and the others are kept |
| Compose.PlatformLimit | frontend/pages/Compose.jsx:13-18 | the limit per platform is at least 280, and 280 for any id outside the table |
| Compose.GetMaxLength | frontend/pages/Compose.jsx:36-41 | 280 with nothing selected, otherwise the least limit among the selected platforms |
| Compose.GetMaxLengthAtLeastTwitter | frontend/pages/Compose.jsx:36-41 | the counter limit is never below 280, and is exactly 280 when a 280 platform is selected |
| Compose.CharCountWarningTwitter | frontend/pages/Compose.jsx:154 | at the Twitter limit the warning shows exactly above 252 code units |
| Compose.StatusFor | frontend/pages/Compose.jsx:53 | draft exactly when requested; otherwise scheduled exactly when a time is set |
| Compose.ComposePage.constructor | frontend/pages/Compose.jsx:6-11 | the initial state: empty text, Twitter selected, text posts, no time |
| Compose.ComposePage.TogglePlatform | frontend/pages/Compose.jsx:27-34 | the selection becomes its toggle |
| Compose.ComposePage.SetContent | frontend/pages/Compose.jsx:123 | the text area's value becomes the content |
| Compose.ComposePage.SetContentType | frontend/pages/Compose.jsx:110 | the clicked type becomes the content type |
| Compose.ComposePage.SetScheduledTime | frontend/pages/Compose.jsx:166 | the picker's value becomes the schedule time |
| Compose.ComposePage.GenerateAiSuggestions | frontend/pages/Compose.jsx:65-76 | the fixed suggestion panel is shown |
| Compose.ComposePage.HandleSubmit | frontend/pages/Compose.jsx:43-63 | blank text or no platform sends nothing; otherwise the request carries the fields and the status, success clears the text and the time, and loading ends false |
| ComposePost.ComposePostPanel.constructor | frontend/components/ComposePost.jsx:5-7 | the initial state: empty text, Twitter selected |
| ComposePost.ComposePostPanel.TogglePlatform | frontend/components/ComposePost.jsx:16-23 | the selection becomes its toggle |
| ComposePost.ComposePostPanel.SetContent | frontend/components/ComposePost.jsx:76 | the text area's value becomes the content |
| ComposePost.ComposePostPanel.HandleSubmit | frontend/components/ComposePost.jsx:25-42 | blank text or no platform sends nothing; otherwise a published text post is sent, success clears the text and notifies the parent if it gave a callback |
| PostForm.WithField | frontend/components/PostForm.jsx:17-20 | the named field takes the value and the other fields keep theirs |
| PostForm.PostFormPanel.constructor | frontend/components/PostForm.jsx:5-14 | the initial form and no AI results |
| PostForm.PostFormPanel.HandleChange | frontend/components/PostForm.jsx:16-29 | only the named field changes, and editing the text clears the three AI results |
| PostForm.PostFormPanel.HandlePredictEngagement | frontend/components/PostForm.jsx:31-52 | blank text is a no-op; otherwise both requests go out and only a joint success stores both replies |
| PostForm.PostFormPanel.HandleGetSuggestions | frontend/components/PostForm.jsx:54-64 | blank text is a no-op; otherwise an "engaging" rewrite is requested and stored on success |
| PostForm.PostFormPanel.HandleUseSuggestion | frontend/components/PostForm.jsx:66-71 | the chosen text replaces the content and the AI results are cleared |
| PostForm.PostFormPanel.HandleSubmit | frontend/components/PostForm.jsx:73-90 | blank text is a no-op; success resets the form and the AI results and notifies a given callback; failure keeps everything |
| SchedulePage.WithField | frontend/pages/Schedule.jsx:26-31 | the named field takes the value and the other fields keep theirs |
| SchedulePage.SchedulePanel.constructor | frontend/pages/Schedule.jsx:5-11 | the initial form and an empty list |
| SchedulePage.SchedulePanel.FetchScheduled | frontend/pages/Schedule.jsx:13-20 | the list is replaced on success and kept on failure |
| SchedulePage.SchedulePanel.HandleChange | frontend/pages/Schedule.jsx:26-31 | only the named field changes |
| SchedulePage.SchedulePanel.HandleSubmit | frontend/pages/Schedule.jsx:33-48 | blank text is a no-op; success resets the form and asks for a refetch; failure keeps the form |
| AiFeatures.RecommendedBadges | frontend/pages/AIFeatures.jsx:452-454 | only the first variation carries the badge |
| AiFeatures.AiFeaturesPage.constructor | frontend/pages/AIFeatures.jsx:11-29 | the initial state: trends tab, empty caches and inputs, Spanish and French selected |
| AiFeatures.AiFeaturesPage.LoadTabData | frontend/pages/AIFeatures.jsx:35-68 | a request goes out only for a data tab whose cache is empty; only that slot can change, and only on success; loading ends false |
| AiFeatures.AiFeaturesPage.Mount | frontend/pages/AIFeatures.jsx:31-33 | the mount effect loads the initial tab |
| AiFeatures.AiFeaturesPage.SelectTab | frontend/pages/AIFeatures.jsx:31-68 | a tab click sets the tab, and the effect loads it only when the tab changed and its cache is empty |
| AiFeatures.AiFeaturesPage.SetCaptionInput | frontend/pages/AIFeatures.jsx:427 | the caption input takes the typed value |
| AiFeatures.AiFeaturesPage.SetRewriteStyle | frontend/pages/AIFeatures.jsx:435 | the style takes the selected value |
| AiFeatures.AiFeaturesPage.SetTranslateInput | frontend/pages/AIFeatures.jsx:495 | the translation input takes the typed value |
| AiFeatures.AiFeaturesPage.HandleRewrite | frontend/pages/AIFeatures.jsx:70-80 | blank input is a no-op; otherwise the rewrite is requested for Twitter and stored on success |
| AiFeatures.AiFeaturesPage.HandleTranslate | frontend/pages/AIFeatures.jsx:82-92 | blank input is a no-op; otherwise the selected languages are requested and stored on success |
| AiFeatures.AiFeaturesPage.SetLanguageChecked | frontend/pages/AIFeatures.jsx:509-515 | the language list follows the check box |
| Settings.InitialPreferencesValues | frontend/pages/Settings.jsx:14-20 | every switch is present, and all are on except trend alerts |
| Settings.Flip | frontend/pages/Settings.jsx:44 | the key's value is negated and every other key is unchanged |
| Settings.FlipTwice | frontend/pages/Settings.jsx:43-45 | switching twice restores the preferences |
| Settings.FlipCommutes | frontend/pages/Settings.jsx:43-45 | switching two notifications in either order gives the same preferences |
| Settings.WithProfileField | frontend/pages/Settings.jsx:82-115 | the edited profile field takes the value and the others keep theirs |
| Settings.SettingsPage.constructor | frontend/pages/Settings.jsx:4-20 | the initial tab, profile and switches |
| Settings.SettingsPage.SetActiveTab | frontend/pages/Settings.jsx:57 | the clicked tab becomes active |
| Settings.SettingsPage.HandleNotificationChange | frontend/pages/Settings.jsx:43-45 | the switch flips and nothing else changes |
| Settings.SettingsPage.SetProfileField | frontend/pages/Settings.jsx:82-115 | the profile field is updated |
| CalendarMath.DaysInMonth | frontend/pages/Calendar.jsx:47-48 | 28..31 days: February has 29 exactly in leap years, April, June, September and November have 30 |
| CalendarMath.Weekday | frontend/pages/Calendar.jsx:49 | `getDay()` lies in 0..6 |
| CalendarMath.MondayFirst | frontend/pages/Calendar.jsx:49-50 | Sunday goes to column 6 and every other day one column left |
| CalendarMath.MondayFirstIsDaysSinceMonday | frontend/pages/Calendar.jsx:49-50 | the Monday-first column is the day count modulo 7 |
| CalendarMath.YearLength | frontend/pages/Calendar.jsx:47 | a year has 366 days exactly when it is a leap year |
| CalendarMath.DaysBeforeMonthStep | frontend/pages/Calendar.jsx:47 | each month starts where the previous one ends |
| CalendarMath.NextMonthStart | frontend/pages/Calendar.jsx:47-48 | day 0 of the next month is the last day of this one |
| CalendarMath.NextMonthOffset | frontend/pages/Calendar.jsx:46-50 | the next month starts `DaysInMonth` columns further on, modulo 7 |
| CalendarMath.GetDaysInMonth | frontend/pages/Calendar.jsx:43-52 | the month's length in 28..31 and a starting column in 0..6 |
| CalendarMath.AddMonths | frontend/pages/Calendar.jsx:57-61 | `setMonth` on a copy gives a valid date |
| CalendarMath.AddMonthsMovesIndex | frontend/pages/Calendar.jsx:57-61 | from a day that exists in every month, the month index moves by exactly the step |
| CalendarMath.NavigateOneMonth | frontend/pages/Calendar.jsx:57-61 | one step forward or back rolls the year over at the ends, and "back" undoes "next" |
| CalendarMath.AddMonthsOverflows | frontend/pages/Calendar.jsx:59 | 31 March plus one month is 1 May |
| CalendarMath.February2026 | frontend/pages/Calendar.jsx:5 | February 2026 has 28 days and starts in column 6 |
| CalendarPage.PostsFor | frontend/pages/Calendar.jsx:125 | the day's posts, or none for a day missing from the table |
| CalendarPage.CellPosts | frontend/pages/Calendar.jsx:138-150 | at most the first three posts, and "+N more" exactly when there are over three, with N the rest |
| CalendarPage.Grid | frontend/pages/Calendar.jsx:117-155 | `startDay` empty cells, then the days 1..N in order |
| CalendarPage.GridColumnIsWeekday | frontend/pages/Calendar.jsx:116-155 | in seven columns every day sits under its own Monday-first weekday |
| CalendarPage.SidebarTitle | frontend/pages/Calendar.jsx:161-163 | "Select a Day" exactly when no day is selected |
| CalendarPage.SidebarPosts | frontend/pages/Calendar.jsx:165-190 | a list is shown exactly for a selected day with table entries, and it is that day's entries |
| CalendarPage.Calendar.constructor | frontend/pages/Calendar.jsx:5-6 | the page opens on 1 February 2026, in month view, with no day selected |
| CalendarPage.Calendar.NavigateMonth | frontend/pages/Calendar.jsx:57-61 | the date moves by the step's months, stays a first of month, and the selection is untouched |
| CalendarPage.Calendar.SetViewMode | frontend/pages/Calendar.jsx:86-104 | the view mode becomes the clicked one |
| CalendarPage.Calendar.SelectDay | frontend/pages/Calendar.jsx:133 | the clicked day becomes the selection |
| ContentCalendar.Badge | frontend/components/ContentCalendar.jsx:74 | a count badge shows exactly for counts above one, and shows the count |
| ContentCalendar.Dots | frontend/components/ContentCalendar.jsx:67-76 | one dot per platform entry, in the table's order |
| ContentCalendar.EntriesFor | frontend/components/ContentCalendar.jsx:59 | the day's entries, or none for a day missing from the table |
| ContentCalendar.RenderDays | frontend/components/ContentCalendar.jsx:49-84 | `startDay` empty cells, then one cell per day of the month in order, each with its own entries and "today" flag |

## Left out

- Randomness: the hook choice, the engagement draws of the variations, the followers, the engagement rate and the confidences are not modelled. Where a result depends on one of them it is a parameter; the predicted likes, comments, shares, reach and viral probability are left out.
- Floating point: `calculate_readability`, `calculate_clarity` and `calculate_length_score` are float formulas, so their scores are inputs of `ContentScore.ScoreContentPerformance`.
- ContentScore.ScoreContentPerformance: `overall_score` is the unrounded mean; Python's `round(overall, 1)` is not modelled. The grade uses the unrounded mean in both the source and the model.
- Sentiment.AnalyzeComment: scores are integers in hundredths, standing for `round(score, 2)` of the float formulas.
- Sentiment.Summarize: `sentiment_score` and the distribution are exact rationals; the final rounding to 2 and to 1 decimal is not modelled.
- Engagement.PlatformFactor: the float multipliers are exact tenths. For base scores 40..110 the IEEE products never fall below an integer, so the floor is the same.
- Text.AsciiLower: Python's `str.lower()` is modelled on ASCII letters only. The Kelvin sign and other non-ASCII capitals are not lowered. The five language names contain no such character, so membership in the translation table is exact.
- String constants holding emoji and accented letters are written with the characters they encode. The Japanese marker of the translation table is written as "日本語に翻訳されたコンテンツ".
- `detect_trends`, `segment_audience` and `analyze_competitors` return fixed sample payloads with no logic; only `generate_content_ideas` is modelled. Its topics enter as their `topic` strings.
- `backend/app/services/analytics.py`, the HTTP routes other than the schedule store, and the API client are not part of this model.
- Alerts, console logging, clipboard access and rendering details (colours, class names, icons) are left out.
- Asynchronous interleaving is not modelled: each handler runs to completion with the outcome of its request given up front.
- The time of day carried by JavaScript `Date` objects is omitted; dates are year, month and day in local time.
- CalendarPage.SidebarTitle: the heading always names February 2026, whatever month is shown, as in the source.
