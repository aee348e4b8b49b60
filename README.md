# T-shirt trend detector, modelled in Dafny

The detector (`RedditTrendDetector` in `main.py`) watches fifteen Reddit
communities for phrases that could sell on a T-shirt. A scan does this:

- For each community it fetches the ten "hot" and the ten "rising" posts.
- It skips posts it has already processed.
- It keeps the posts that gain upvotes fast enough (more than `MIN_VELOCITY`
  per hour, while between half an hour and a day old).
- Of those, it keeps the posts that pass a cheap pre-filter: no brand name, no
  news or tragedy marker, at least 20 comments, and a title of at most 100
  characters.
- It sends each remaining post to a language-model scorer, together with an
  excerpt of its first ten comments. It reads the score, analysis, variations
  and target-buyer lines from the reply.
- Posts scoring 8 or more are posted as an alert embed to a chat webhook.
  Posts scoring 6 or 7 are logged as medium.
- Once 20 posts have been analysed in a run, it stops looking at the current
  community.

The model has these modules:

| module | file | what it holds |
|---|---|---|
| `Text` | text.dfy | The Python string operations the detector relies on: `lower`, `in`, `strip`, `split`, `join`, `int` and slicing. They are defined after Python's documented behaviour on ASCII text, with lemmas that characterise them (`ContainsIff`, `JoinSplit`/`SplitJoin`, `TrimStartPadded`/`TrimEndPadded`/`StripPadded`, `ParseIntToString`). |
| `Velocity` | velocity.dfy | `calculate_velocity`, and the velocity gate in integer terms. |
| `PreFilter` | prefilter.dfy | `is_worth_analyzing`. |
| `Reply` | reply.dfy | How `analyze_with_gpt` reads the scorer's reply: an imperative parsing loop, proved against a fold over the reply's lines. Also the two fixed fallback results. |
| `Feed` | feed.dfy | Posts and the per-community listings. |
| `Alert` | alert.dfy | The comment excerpt sent to the scorer, and the embed built by `send_discord_alert`. |
| `Detector` | detector.dfy | The scan as specification functions (`StepPost`, `ScanPosts`, `ScanCommunities`), and the class `TrendDetector`. Its `Scan` method walks the communities and posts with the source's loops and breaks, updates the `processedPosts` field, and is proved to compute `ScanCommunities`. |
| `ScanProperties` | scan_properties.dfy | What a scan guarantees: consistent counters, the gate, no double analysis, the score tiers, the analysis budget and failure isolation. |

The services a scan talks to are inputs of the model:

- **Feed**: a function from community name to a `Listing`, or `FetchFailed`
  when fetching raised.
- **Scorer**: a function from post and comment excerpt to a `ScorerResponse`:
  a status with the message text, or a transport error.
- **Notifier**: a function from embed to whether posting it went through.
  `false` stands for `requests.post` raising.
- **Clock**: a single `now`, in whole seconds.

## Model

| member | source | states |
|---|---|---|
| Velocity.UpvoteVelocity | main.py:209-214 | Inside the 1800..86400-second window the velocity times the age is the score times 3600. Outside it the velocity is 0. |
| Velocity.VelocityAbove | main.py:211-214 | `velocity > MIN_VELOCITY` holds iff `score*3600 > MIN_VELOCITY*age` inside the window. Outside the window it holds iff the threshold is negative. |
| Velocity.TwoHourExample | main.py:209-214 | 3000 upvotes at two hours old give 1500 per hour. |
| PreFilter.IsWorthAnalyzingIff | main.py:183-207 | A title passes iff its lower-cased form contains none of the 11 brand terms and none of the 8 news terms, it has at least 20 comments, and it is at most 100 characters long. |
| PreFilter.CaseInsensitive | main.py:185-195 | Two titles that agree after lower-casing get the same verdict. |
| PreFilter.StudiedIsRejected | main.py:191-195 | Terms match inside words: any title containing "studied" is rejected through "died". |
| PreFilter.UpperCaseBrandIsRejected | main.py:185-189 | "DISNEY" anywhere in a title rejects it. |
| PreFilter.MentionsWord | main.py:185-195 | A lower-case word placed anywhere in a title is found in the lower-cased title. |
| Text.ContainsIff | main.py:190-196 | The substring test `t in s` holds iff `t` occurs at some position of `s`. |
| Text.ContainsAnyIff | main.py:190-196 | `any(t in s for t in terms)` holds iff some term is contained in `s`. |
| Text.Lower | main.py:185 | Lower-casing keeps the length and maps each letter A-Z to its lower-case form. |
| Text.Split | main.py:119 | Splitting gives one more part than there are separators, and no part holds the separator. |
| Text.JoinSplit | main.py:119 | Joining the parts of a split with the separator gives back the text. |
| Text.SplitJoin | main.py:54 | Splitting a join of separator-free parts gives back the parts. |
| Text.TrimStartPadded | main.py:122-130 | `lstrip` removes exactly a whitespace prefix in front of a text that does not start with whitespace. |
| Text.TrimEndPadded | main.py:122-130 | `rstrip` removes exactly a whitespace suffix after a text that does not end in whitespace. |
| Text.StripPadded | main.py:122-130 | `strip` removes exactly the surrounding whitespace from a trimmed core. |
| Text.ParseIntToString | main.py:122 | `int` reads back every integer's decimal form. |
| Text.IntToString | main.py:122 | The decimal form of an integer is non-empty and has no surrounding whitespace. |
| Reply.ScoreField | main.py:122 | `line.split(':')[1]` is the text after `SCORE:` up to the next colon or the end. It holds no colon. |
| Reply.ReadLine | main.py:119-130 | One pass of the line loop's `if`/`elif` chain updates the four values as `ApplyLine` does. |
| Reply.ParseReply | main.py:114-132 | The parsing loop yields the fold `ParsedReply` of its line-by-line `if`/`elif` chain over the lines. |
| Reply.InterpretResponse | main.py:107-139 | Transport errors and a missing message give `(0, "Analysis failed", "", "")`. A status other than 200 gives `(0, "API error", "", "")`. A 200 reply gives the parsed reply. |
| Reply.AbsentLabelKeepsDefault | main.py:114-130 | A value whose label starts no line keeps its default: 0 or the empty string. |
| Reply.LastLabelWins | main.py:119-130 | A value is set by the last line starting with its label. |
| Reply.BadScoreLineResets | main.py:120-124 | A final `SCORE:` line that does not parse as an integer sets the score to 0, whatever came before. |
| Reply.LowerCaseLabelIgnored | main.py:120-130 | Labels are case-sensitive: a `score:` line changes nothing. |
| Reply.TextLabelValue | main.py:125-130 | A text label's value is everything after its first colon, stripped, colons included. |
| Reply.ScoreLineValue | main.py:120-122 | `SCORE: <n>` reads back as `n` for every integer `n`. |
| Reply.RenderRoundTrip | main.py:114-132 | A reply written as the four labelled lines (texts without line breaks or surrounding spaces) parses back to exactly the result written. |
| Reply.ScoreAnalysisRoundTrip | main.py:114-132 | A two-line reply with only `SCORE:` and `ANALYSIS:` gives that score and analysis, and empty variations and target. |
| Reply.NoScoreLineMeansZero | main.py:114-124 | A reply without a `SCORE:` line scores 0. |
| Reply.FailedCallsScoreZero | main.py:133-139 | Every non-200 or failed call scores 0 with empty variations and target. |
| Feed.PostsToCheck | main.py:227-229 | At most 20 posts are checked per community. They are exactly the first ten hot posts and the first ten rising posts. |
| Alert.CommentLines | main.py:54 | One excerpt line per comment among the first ten, each `- ` and the body's first 150 characters. |
| Alert.CommentContextEmpty | main.py:54 | The excerpt is empty iff the post has no comments. |
| Alert.CommentContextLines | main.py:54 | When no shown comment has a line break, the excerpt splits back into min(n, 10) lines, each `- ` and a body cut to 150 characters. |
| Alert.AlertEmbedLayout | main.py:143-178 | The four fixed fields come first and the source link comes last. The variations field is present iff the variations text is non-empty, and likewise the target field. The title is at most 118 characters. |
| Alert.AlertTextFieldsCapped | main.py:145-170 | Every text field except the link holds at most 300 characters. The target field, the only field named `TargetName`, holds at most 200. |
| Alert.BuildAlert | main.py:143-178 | The appending builder yields exactly `AlertEmbed`. |
| Detector.TrendDetector.constructor | main.py:11-44 | A new detector has the given velocity threshold, the 15 monitored communities and no processed posts. |
| Detector.TrendDetector.AnalyzePost | main.py:46-139 | Scoring a post asks the scorer about the post and the excerpt of its first ten comments, and reads the reply or falls back. |
| Detector.TrendDetector.MarkPost | main.py:251-264 | A post is marked processed and counted. It is logged as medium for scores of 6 or 7. The loop ends when the count reaches 20. |
| Detector.TrendDetector.AnalyzeAndAlert | main.py:241-264 | A fresh post that passed the gate is scored and alerted per `Analyze`. An alert that raises leaves it unmarked and ends the community. |
| Detector.TrendDetector.VisitPost | main.py:231-264 | One inner-loop iteration computes `StepPost`. A processed post or one failing the gate changes nothing. |
| Detector.TrendDetector.Scan | main.py:216-271 | The new `processedPosts`, both counters, the scored posts, the alerts sent and the medium logs are those of `ScanCommunities` from the old `processedPosts` over the 15 communities. |
| ScanProperties.ScanInvariants | main.py:231-256 | After a scan, the high-score count equals the number of alerts and is at most the analysed count, which is at most the number of posts scored. Every scored post was unprocessed and passed the gate. Every alert is the alert of a scored post with score at least 8. Medium logs are at most 60 characters. Only scored posts become processed. |
| ScanProperties.ScanAnalysesOnce | main.py:232-252 | When every alert goes through, no post is scored twice in a scan, even if it is listed twice. No post processed earlier is scored. Exactly the scored posts are marked, and the analysed count is their number. |
| ScanProperties.StepScoresIff | main.py:232-237 | A post reaches the scorer iff it is unprocessed and passes the gate. Otherwise nothing changes and the loop goes on. |
| ScanProperties.StepTiers | main.py:244-264 | An alert is recorded iff the score is at least 8 and the notifier takes it. A medium log under the title's first 60 characters is written iff the score is 6 or 7. An alert that raises ends the community with the post scored but unmarked and uncounted. Otherwise the post is marked and counted, and the loop ends at 20. |
| ScanProperties.StepShape | main.py:244-252 | One step on a fresh, gated post, field by field. |
| ScanProperties.ScanPostsFollows | main.py:231-264 | The inner loop keeps the scan state inside the reachability relation `Follows`, and inside `Delivered` when alerts go through. |
| ScanProperties.ScanCommunitiesFollows | main.py:222-269 | The outer loop does the same. |
| ScanProperties.ScanPostsBudget | main.py:262-264 | Within one community the analysed count ends at most at 20, or one above its start when it started at 20 or more. |
| ScanProperties.ScanBudget | main.py:222-264 | Over several communities the count can pass 20 by at most one per further community. |
| ScanProperties.ScanAnalysesAtMost34 | main.py:222-264 | One scan of the 15 communities analyses at most 34 posts. |
| ScanProperties.StepCalls | main.py:232-264 | With `CallsBound` = scored posts + analyses left before the count reaches 19: a step that does not end the loop keeps it, and a step that ends it (20 counted, or an alert that raised) raises it by at most one. |
| ScanProperties.ScanPostsCalls | main.py:231-269 | Within one community `CallsBound` rises by at most one. |
| ScanProperties.ScanCalls | main.py:222-269 | Over several communities `CallsBound` rises by at most one per community. |
| ScanProperties.ScanScorerCallsAtMost34 | main.py:222-269 | One scan of the 15 communities calls the scorer at most 34 times, posts whose alert raised included. |
| ScanProperties.LateCommunityScoresOnce | main.py:241-269 | Once 19 analyses are counted, a community calls the scorer at most once more. |
| ScanProperties.BudgetOvershoot | main.py:262-264 | After the count reaches 20, the next community still analyses its first fresh post that passes the gate. The limit is per community, not per run. |
| ScanProperties.ScanCommunitiesAppend | main.py:222 | Scanning `a + b` is scanning `a`, then `b` from the resulting state. |
| ScanProperties.FailedCommunityIsSkipped | main.py:223-269 | A community whose listings cannot be fetched leaves the scan exactly as if it were not monitored. |

## Left out

- helpers/gpt.py is not part of this model. `main.py` does not use it.
- Reading credentials and `MIN_VELOCITY` from the environment, the Reddit client and both HTTP clients are inputs: the feed, scorer and notifier functions and the constructor's threshold. `DefaultMinVelocity` records the default of 800.
- The prompt text and the request body sent to the scorer are not modelled. Only the comment excerpt is.
- `time.sleep` and all `print` output are left out. Medium-score logs are kept as an output list, `mediums`.
- Time is one `now` for the whole scan, in whole seconds. The source reads `time.time()` again for every post, as a float.
- Velocity is an exact `real`, not a float.
- Field values keep their numbers. The formats `**{score}/10**`, `{velocity:.0f}/hour` and `{score:,}` are not modelled.
- Text.Lower: only ASCII letters are lowered. Python's `lower` also maps other Unicode letters.
- Text.Strip: it removes ASCII whitespace and the separators 0x1C-0x1F. Python also strips other Unicode spaces.
- Text.ParseInt: it reads an optional sign and ASCII digits. Python's `int` also accepts underscores between digits and other Unicode digits.
- Exceptions inside the per-post loop other than the notifier's are not modelled: `replace_more`, lazily loaded post attributes, a clock failure. A fetch failure is modelled as `FetchFailed`; in the source it happens when either listing is read, before the loop starts.
- The source asks the server for at most 10 posts per listing. The model takes listings of any length, and `PostsToCheck` cuts each to its first 10 with `Take`.
- Posts with no `id` and other malformed API objects are not modelled.
- The scorer and the notifier are deterministic functions, and a scan uses one `now`. Within a scan, a post scored again gets the same reply and the same embed. An alert that raised once raises again for that post, so a failure followed by a success is not representable.

## Behaviour modelled as written

`main.py` has one velocity gate, one pre-filter and one scorer call per post.
There is no ranking step and no scan of comments for phrases.

Two behaviours of the code are modelled as written:

- The analysis limit only ends the current community's loop. Each later
  community can still analyse one post (`BudgetOvershoot`, `ScanBudget`).
- When posting an alert raises, the post is scored but not marked processed.
  It is scored again if it shows up later in the scan or in a later scan.
  Within the same scan the notifier gives the same answer, so that later
  community ends as well.
