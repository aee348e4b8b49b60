/**
 * The detector itself (`RedditTrendDetector`): one scan walks the monitored
 * communities, looks at each one's hot and rising posts, sends the posts that
 * are new, fast and clean to the scorer, alerts on high scores and stops
 * scoring a community once the run has analysed 20 posts.
 *
 * The services it talks to are inputs: the feed (a listing per community name,
 * or a fetch failure), the scorer (a reply per post and comment excerpt) and
 * the notifier (whether posting an alert went through or raised).
 */
module Detector {
  import opened Text
  import opened Feed
  import opened Velocity
  import opened PreFilter
  import opened Reply
  import opened Alert

  /** `MIN_VELOCITY` when the environment does not set it. */
  const DefaultMinVelocity: int := 800
  /** Analyses per run after which a community's loop stops. */
  const AnalysisLimit: nat := 20
  /** Scores from here up are alerted. */
  const HighScore: int := 8
  /** Scores from here up to `HighScore` are logged as medium. */
  const MediumScore: int := 6

  const MonitoringSubreddits: seq<string> := [
    "all", "brandnewsentence", "suspiciouslyspecific", "antiwork", "nursing",
    "teachers", "conservative", "politics", "nfl", "nba", "soccer",
    "blackpeopletwitter", "whitepeopletwitter", "rareinsults", "wallstreetbets"
  ]

  /** Everything one scan depends on besides the detector's own state. */
  datatype Env = Env(
    now: int,
    minVelocity: int,
    feed: string -> Listing,
    analysis: Post -> ScoreResult,
    notify: Embed -> bool)

  /**
   * The state of a scan: the detector's `processed_posts`, the two counters,
   * and what went out: the posts handed to the scorer, the alerts delivered
   * and the titles logged as medium.
   */
  datatype RunState = RunState(
    processed: set<string>,
    analyzed: nat,
    high: nat,
    scored: seq<Post>,
    alerts: seq<Embed>,
    mediums: seq<string>)

  function StartRun(processed: set<string>): RunState {
    RunState(processed, 0, 0, [], [], [])
  }

  function PostVelocity(p: Post, now: int): real {
    UpvoteVelocity(p.score, now - p.createdUtc)
  }

  /** `velocity > self.MIN_VELOCITY and self.is_worth_analyzing(post)`. */
  predicate PassesGate(p: Post, env: Env) {
    PostVelocity(p, env.now) > env.minVelocity as real && IsWorthAnalyzing(p.title, p.numComments)
  }

  /**
   * `analyze_with_gpt(post, top_comments)` for a given scorer: the scorer's
   * reply about the post and the excerpt of its first ten comments, read by
   * the reply parser or replaced by its fallback.
   */
  function ScorerAnalysis(scorer: (Post, string) -> ScorerResponse): Post -> ScoreResult {
    (p: Post) => ScorerOutcome(scorer(p, CommentContext(p.comments)))
  }

  /** The state after one post, and whether the community's loop ends there. */
  datatype Step = Step(state: RunState, stop: bool)

  /**
   * One iteration of the inner loop. A post already processed, or one that
   * fails the gate, changes nothing. Otherwise it is scored; a score of 8 or
   * more is alerted, and if the alert raises, the rest of the community is
   * abandoned before the post is marked processed. Else the post is marked,
   * counted, logged when medium, and the loop ends once 20 posts are counted.
   */
  function StepPost(st: RunState, p: Post, env: Env): Step {
    if p.id in st.processed || !PassesGate(p, env) then Step(st, false)
    else Analyze(st, p, env)
  }

  /**
   * A fresh post that passed the gate: scored, and alerted when the score is
   * 8 or more. An alert that raises ends the community's loop before the post
   * is marked processed.
   */
  function Analyze(st: RunState, p: Post, env: Env): Step {
    var result := env.analysis(p);
    var st := st.(scored := st.scored + [p]);
    if result.score < HighScore then Mark(st, p, result.score)
    else
      var embed := AlertEmbed(p, PostVelocity(p, env.now), result);
      if env.notify(embed) then Mark(st.(alerts := st.alerts + [embed], high := st.high + 1), p, result.score)
      else Step(st, true)
  }

  /**
   * The tail of the inner loop for a scored post whose alert, if any, went
   * through: marked processed, counted, logged when medium, and the loop ends
   * once 20 posts are counted.
   */
  function Mark(st: RunState, p: Post, score: int): Step {
    var mediums := if MediumScore <= score < HighScore then st.mediums + [Take(p.title, 60)] else st.mediums;
    var analyzed := st.analyzed + 1;
    Step(st.(processed := st.processed + {p.id}, analyzed := analyzed, mediums := mediums), analyzed >= AnalysisLimit)
  }

  /** The inner loop over one community's posts, up to its first stop. */
  function ScanPosts(st: RunState, posts: seq<Post>, env: Env): RunState
    decreases |posts|
  {
    if |posts| == 0 then st
    else
      var step := StepPost(st, posts[0], env);
      if step.stop then step.state else ScanPosts(step.state, posts[1..], env)
  }

  /** One community: its posts, or nothing when the fetch failed. */
  function ScanCommunity(st: RunState, name: string, env: Env): RunState {
    match env.feed(name)
    case FetchFailed => st
    case Listing(hot, rising) => ScanPosts(st, PostsToCheck(hot, rising), env)
  }

  /** The outer loop over the monitored communities. */
  function ScanCommunities(st: RunState, names: seq<string>, env: Env): RunState
    decreases |names|
  {
    if |names| == 0 then st
    else ScanCommunities(ScanCommunity(st, names[0], env), names[1..], env)
  }

  class TrendDetector {
    const minVelocity: int
    const subreddits: seq<string>
    /** Ids of the posts analysed so far, by this detector over all its scans. */
    var processedPosts: set<string>

    constructor (minVelocity: int)
      ensures this.minVelocity == minVelocity
      ensures subreddits == MonitoringSubreddits
      ensures processedPosts == {}
    {
      this.minVelocity := minVelocity;
      subreddits := MonitoringSubreddits;
      processedPosts := {};
    }

    /** `analyze_with_gpt`: ask the scorer about the post and its first ten comments. */
    method AnalyzePost(post: Post, scorer: (Post, string) -> ScorerResponse) returns (result: ScoreResult)
      ensures result == ScorerAnalysis(scorer)(post)
    {
      var context := CommentContext(post.comments);
      var response := scorer(post, context);
      result := InterpretResponse(response);
    }

    ghost function State(analyzed: nat, high: nat, scored: seq<Post>, alerts: seq<Embed>, mediums: seq<string>): RunState
      reads this
    {
      RunState(processedPosts, analyzed, high, scored, alerts, mediums)
    }

    /** The tail of `scan`'s inner loop for a scored post (`Mark`). */
    method MarkPost(post: Post, score: int, analyzed: nat, mediums: seq<string>)
      returns (analyzed': nat, mediums': seq<string>, stop: bool)
      modifies this
      ensures var st := RunState(old(processedPosts), analyzed, 0, [], [], mediums);
              Mark(st, post, score) == Step(RunState(processedPosts, analyzed', 0, [], [], mediums'), stop)
    {
      processedPosts := processedPosts + {post.id};
      analyzed' := analyzed + 1;
      mediums' := mediums;
      if MediumScore <= score < HighScore {
        mediums' := mediums + [Take(post.title, 60)];
      }
      stop := analyzed' >= AnalysisLimit;
    }

    /** The part of `scan`'s inner loop that runs for a fresh post that passed the gate. */
    method AnalyzeAndAlert(post: Post, scorer: (Post, string) -> ScorerResponse, env: Env, analyzed: nat, high: nat, scored: seq<Post>, alerts: seq<Embed>, mediums: seq<string>)
      returns (analyzed': nat, high': nat, scored': seq<Post>, alerts': seq<Embed>, mediums': seq<string>, stop: bool)
      requires env.analysis == ScorerAnalysis(scorer)
      modifies this
      ensures Step(State(analyzed', high', scored', alerts', mediums'), stop)
              == Analyze(old(State(analyzed, high, scored, alerts, mediums)), post, env)
    {
      analyzed', high', alerts', mediums' := analyzed, high, alerts, mediums;
      var result := AnalyzePost(post, scorer);
      scored' := scored + [post];
      if result.score >= HighScore {
        var embed := BuildAlert(post, PostVelocity(post, env.now), result);
        if !env.notify(embed) {
          // the alert raised: the exception ends this community's loop
          stop := true;
          return;
        }
        alerts' := alerts + [embed];
        high' := high + 1;
      }
      analyzed', mediums', stop := MarkPost(post, result.score, analyzed, mediums);
    }

    /**
     * The body of `scan`'s inner loop for one post. Takes the scan's counters
     * and outputs and gives them back updated, with whether the loop ends.
     */
    method VisitPost(post: Post, scorer: (Post, string) -> ScorerResponse, env: Env, analyzed: nat, high: nat, scored: seq<Post>, alerts: seq<Embed>, mediums: seq<string>)
      returns (analyzed': nat, high': nat, scored': seq<Post>, alerts': seq<Embed>, mediums': seq<string>, stop: bool)
      requires env.minVelocity == minVelocity && env.analysis == ScorerAnalysis(scorer)
      modifies this
      ensures Step(State(analyzed', high', scored', alerts', mediums'), stop)
              == StepPost(old(State(analyzed, high, scored, alerts, mediums)), post, env)
    {
      analyzed', high', scored', alerts', mediums', stop := analyzed, high, scored, alerts, mediums, false;
      if post.id !in processedPosts {
        var velocity := PostVelocity(post, env.now);
        if velocity > minVelocity as real && IsWorthAnalyzing(post.title, post.numComments) {
          analyzed', high', scored', alerts', mediums', stop := AnalyzeAndAlert(post, scorer, env, analyzed, high, scored, alerts, mediums);
        }
      }
    }

    /**
     * `scan`. The counters start at zero on every call; `processedPosts`
     * carries over from earlier scans.
     */
    method Scan(now: int, feed: string -> Listing, scorer: (Post, string) -> ScorerResponse, notify: Embed -> bool)
      returns (analyzedCount: nat, highScoreCount: nat, scored: seq<Post>, alerts: seq<Embed>, mediums: seq<string>)
      modifies this
      ensures var final := ScanCommunities(StartRun(old(processedPosts)), subreddits, Env(now, minVelocity, feed, ScorerAnalysis(scorer), notify));
                && processedPosts == final.processed
                && analyzedCount == final.analyzed
                && highScoreCount == final.high
                && scored == final.scored
                && alerts == final.alerts
                && mediums == final.mediums
    {
      var env := Env(now, minVelocity, feed, ScorerAnalysis(scorer), notify);
      ghost var goal := ScanCommunities(StartRun(processedPosts), subreddits, env);
      analyzedCount, highScoreCount := 0, 0;
      scored, alerts, mediums := [], [], [];
      for k := 0 to |subreddits|
        invariant ScanCommunities(State(analyzedCount, highScoreCount, scored, alerts, mediums), subreddits[k..], env) == goal
      {
        ghost var entry := State(analyzedCount, highScoreCount, scored, alerts, mediums);
        var listing := feed(subreddits[k]);
        if listing.Listing? {
          var posts := PostsToCheck(listing.hot, listing.rising);
          ghost var target := ScanPosts(entry, posts, env);
          for i := 0 to |posts|
            invariant ScanPosts(State(analyzedCount, highScoreCount, scored, alerts, mediums), posts[i..], env) == target
          {
            assert posts[i..][0] == posts[i] && posts[i..][1..] == posts[i + 1..];
            var stop;
            analyzedCount, highScoreCount, scored, alerts, mediums, stop :=
              VisitPost(posts[i], scorer, env, analyzedCount, highScoreCount, scored, alerts, mediums);
            if stop {
              break;
            }
          }
          assert State(analyzedCount, highScoreCount, scored, alerts, mediums) == target;
        }
        assert subreddits[k..][1..] == subreddits[k + 1..];
      }
    }
  }
}
