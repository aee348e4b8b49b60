/**
 * What a scan guarantees, stated on the scan functions of `Detector` (which
 * `TrendDetector.Scan` is proved to compute): the counters stay consistent,
 * only fresh posts that passed the gate reach the scorer, posts are not
 * analysed twice, scores are sorted into tiers, the analysis budget is
 * checked per community, and a community that fails to load changes nothing.
 */
module ScanProperties {
  import opened Text
  import opened Feed
  import opened Reply
  import opened Alert
  import opened Detector

  /** The ids of the posts of `posts` from position `k` on. */
  ghost function IdsFrom(posts: seq<Post>, k: nat): set<string> {
    set i | k <= i < |posts| :: posts[i].id
  }

  /** Every alert the notifier is given goes through. */
  ghost predicate NotifierDelivers(env: Env) {
    forall e :: env.notify(e)
  }

  /** `e` is the alert for some post of `posts` whose score is 8 or more. */
  ghost predicate AlertFor(e: Embed, posts: seq<Post>, env: Env) {
    exists p :: p in posts && env.analysis(p).score >= HighScore
                && e == AlertEmbed(p, PostVelocity(p, env.now), env.analysis(p))
  }

  /**
   * `b` is a state the scan can reach from `a`: the outputs only grow, each
   * analysis is of a scored post and each alert of an analysed one.
   */
  ghost predicate Grows(a: RunState, b: RunState) {
    && a.scored <= b.scored && a.alerts <= b.alerts && a.mediums <= b.mediums
    && a.analyzed <= b.analyzed
    && b.analyzed - a.analyzed <= |b.scored| - |a.scored|
    && b.high - a.high == |b.alerts| - |a.alerts|
    && b.high - a.high <= b.analyzed - a.analyzed
  }

  /**
   * Every post scored since `a` was unprocessed at `a` and passed the gate,
   * and only scored posts are newly marked processed.
   */
  ghost predicate Gated(a: RunState, b: RunState, env: Env) {
    && a.processed <= b.processed
    && b.processed <= a.processed + IdsFrom(b.scored, |a.scored|)
    && (forall i :: |a.scored| <= i < |b.scored| ==> b.scored[i].id !in a.processed && PassesGate(b.scored[i], env))
  }

  /**
   * Every new alert is the alert of a scored post with a high score, and
   * every new medium log is at most 60 characters.
   */
  ghost predicate Justified(a: RunState, b: RunState, env: Env) {
    && (forall i :: |a.alerts| <= i < |b.alerts| ==> AlertFor(b.alerts[i], b.scored, env))
    && (forall i :: |a.mediums| <= i < |b.mediums| ==> |b.mediums[i]| <= 60)
  }

  ghost predicate Follows(a: RunState, b: RunState, env: Env) {
    Grows(a, b) && Gated(a, b, env) && Justified(a, b, env)
  }

  /**
   * What `Follows` adds when every alert goes through: exactly the scored
   * posts are marked and counted, and none of them is scored twice.
   */
  ghost predicate Delivered(a: RunState, b: RunState) {
    && b.processed == a.processed + IdsFrom(b.scored, |a.scored|)
    && b.analyzed - a.analyzed == |b.scored| - |a.scored|
    && (forall i, j :: |a.scored| <= i < j < |b.scored| ==> b.scored[i].id != b.scored[j].id)
  }

  lemma FollowsRefl(st: RunState, env: Env)
    ensures Follows(st, st, env) && Delivered(st, st)
  {
    assert IdsFrom(st.scored, |st.scored|) == {};
  }

  lemma IdsFromSplit(a: seq<Post>, b: seq<Post>, c: seq<Post>)
    requires a <= b <= c
    ensures IdsFrom(c, |a|) == IdsFrom(b, |a|) + IdsFrom(c, |b|)
  {
    forall x | x in IdsFrom(c, |a|)
      ensures x in IdsFrom(b, |a|) + IdsFrom(c, |b|)
    {
      var i :| |a| <= i < |c| && c[i].id == x;
      if i < |b| {
        assert b[i].id == x;
      }
    }
    forall x | x in IdsFrom(b, |a|)
      ensures x in IdsFrom(c, |a|)
    {
      var i :| |a| <= i < |b| && b[i].id == x;
      assert c[i].id == x;
    }
  }

  lemma GrowsTrans(a: RunState, b: RunState, c: RunState)
    requires Grows(a, b) && Grows(b, c)
    ensures Grows(a, c)
  {
  }

  lemma GatedTrans(a: RunState, b: RunState, c: RunState, env: Env)
    requires Grows(a, b) && Grows(b, c)
    requires Gated(a, b, env) && Gated(b, c, env)
    ensures Gated(a, c, env)
  {
    IdsFromSplit(a.scored, b.scored, c.scored);
    forall i | |a.scored| <= i < |b.scored|
      ensures c.scored[i] == b.scored[i]
    {
    }
  }

  lemma JustifiedTrans(a: RunState, b: RunState, c: RunState, env: Env)
    requires Grows(a, b) && Grows(b, c)
    requires Justified(a, b, env) && Justified(b, c, env)
    ensures Justified(a, c, env)
  {
    forall i | |a.alerts| <= i < |c.alerts|
      ensures AlertFor(c.alerts[i], c.scored, env)
    {
      if i < |b.alerts| {
        assert c.alerts[i] == b.alerts[i];
        var p :| p in b.scored && env.analysis(p).score >= HighScore
                 && b.alerts[i] == AlertEmbed(p, PostVelocity(p, env.now), env.analysis(p));
        assert p in c.scored;
      }
    }
    forall i | |a.mediums| <= i < |b.mediums|
      ensures c.mediums[i] == b.mediums[i]
    {
    }
  }

  lemma DeliveredTrans(a: RunState, b: RunState, c: RunState, env: Env)
    requires Grows(a, b) && Grows(b, c) && Gated(b, c, env)
    requires Delivered(a, b) && Delivered(b, c)
    ensures Delivered(a, c)
  {
    IdsFromSplit(a.scored, b.scored, c.scored);
    forall i, j | |a.scored| <= i < j < |c.scored|
      ensures c.scored[i].id != c.scored[j].id
    {
      if i < |b.scored| {
        assert c.scored[i] == b.scored[i];
        assert c.scored[i].id in IdsFrom(b.scored, |a.scored|);
      }
    }
  }

  lemma FollowsTrans(a: RunState, b: RunState, c: RunState, env: Env)
    requires Follows(a, b, env) && Follows(b, c, env)
    ensures Follows(a, c, env)
    ensures Delivered(a, b) && Delivered(b, c) ==> Delivered(a, c)
  {
    GrowsTrans(a, b, c);
    GatedTrans(a, b, c, env);
    JustifiedTrans(a, b, c, env);
    if Delivered(a, b) && Delivered(b, c) {
      DeliveredTrans(a, b, c, env);
    }
  }

  /**
   * One step on a fresh post that passed the gate: it is scored; its alert,
   * when its score is 8 or more and the notifier takes it, is recorded and
   * counted; it is logged as medium or not; and unless its alert raised it is
   * marked processed and counted as analysed.
   */
  lemma StepShape(st: RunState, p: Post, env: Env)
    requires p.id !in st.processed && PassesGate(p, env)
    ensures var step := StepPost(st, p, env);
            var s := step.state;
            var result := env.analysis(p);
            var embed := AlertEmbed(p, PostVelocity(p, env.now), result);
            var raised := result.score >= HighScore && !env.notify(embed);
              && s.scored == st.scored + [p]
              && step.stop == (raised || st.analyzed + 1 >= AnalysisLimit)
              && (if result.score >= HighScore && !raised
                  then s.alerts == st.alerts + [embed] && s.high == st.high + 1
                  else s.alerts == st.alerts && s.high == st.high)
              && (s.mediums == st.mediums || s.mediums == st.mediums + [Take(p.title, 60)])
              && (if raised then s.processed == st.processed && s.analyzed == st.analyzed
                  else s.processed == st.processed + {p.id} && s.analyzed == st.analyzed + 1)
  {
  }

  lemma StepGrows(st: RunState, p: Post, env: Env)
    requires p.id !in st.processed && PassesGate(p, env)
    ensures Grows(st, StepPost(st, p, env).state)
  {
    StepShape(st, p, env);
  }

  lemma IdsFromLast(posts: seq<Post>, p: Post)
    ensures IdsFrom(posts + [p], |posts|) == {p.id}
  {
    assert (posts + [p])[|posts|] == p;
  }

  lemma StepGated(st: RunState, p: Post, env: Env)
    requires p.id !in st.processed && PassesGate(p, env)
    ensures Gated(st, StepPost(st, p, env).state, env)
  {
    StepShape(st, p, env);
    AppendGated(st, StepPost(st, p, env).state, p, env);
  }

  /** Scoring one fresh, gated post, and marking it processed or not, keeps `Gated`. */
  lemma AppendGated(st: RunState, s: RunState, p: Post, env: Env)
    requires p.id !in st.processed && PassesGate(p, env)
    requires s.scored == st.scored + [p]
    requires s.processed == st.processed || s.processed == st.processed + {p.id}
    ensures Gated(st, s, env)
  {
    IdsFromLast(st.scored, p);
    forall i | |st.scored| <= i < |s.scored|
      ensures s.scored[i] == p
    {
    }
  }


  lemma StepJustified(st: RunState, p: Post, env: Env)
    requires p.id !in st.processed && PassesGate(p, env)
    ensures Justified(st, StepPost(st, p, env).state, env)
  {
    StepShape(st, p, env);
    var result := env.analysis(p);
    AppendJustified(st, StepPost(st, p, env).state, p, AlertEmbed(p, PostVelocity(p, env.now), result), env);
  }

  /** Appending one scored post, possibly its alert, and possibly its medium log keeps `Justified`. */
  lemma AppendJustified(st: RunState, s: RunState, p: Post, embed: Embed, env: Env)
    requires s.scored == st.scored + [p]
    requires s.alerts == st.alerts || (s.alerts == st.alerts + [embed] && env.analysis(p).score >= HighScore)
    requires embed == AlertEmbed(p, PostVelocity(p, env.now), env.analysis(p))
    requires s.mediums == st.mediums || s.mediums == st.mediums + [Take(p.title, 60)]
    ensures Justified(st, s, env)
  {
    assert p in s.scored;
    forall i | |st.alerts| <= i < |s.alerts|
      ensures AlertFor(s.alerts[i], s.scored, env)
    {
      assert s.alerts[i] == embed;
    }
    forall i | |st.mediums| <= i < |s.mediums|
      ensures |s.mediums[i]| <= 60
    {
      assert s.mediums[i] == Take(p.title, 60);
    }
  }

  lemma StepDelivered(st: RunState, p: Post, env: Env)
    requires p.id !in st.processed && PassesGate(p, env)
    requires NotifierDelivers(env)
    ensures Delivered(st, StepPost(st, p, env).state)
  {
    var s := StepPost(st, p, env).state;
    StepShape(st, p, env);
    assert env.notify(AlertEmbed(p, PostVelocity(p, env.now), env.analysis(p)));
    IdsFromLast(st.scored, p);
  }

  /** One post keeps the scan inside `Follows`, and inside `Delivered` when alerts go through. */
  lemma StepFollows(st: RunState, p: Post, env: Env)
    ensures Follows(st, StepPost(st, p, env).state, env)
    ensures NotifierDelivers(env) ==> Delivered(st, StepPost(st, p, env).state)
  {
    if p.id !in st.processed && PassesGate(p, env) {
      StepGrows(st, p, env);
      StepGated(st, p, env);
      StepJustified(st, p, env);
      if NotifierDelivers(env) {
        StepDelivered(st, p, env);
      }
    } else {
      FollowsRefl(st, env);
    }
  }

  lemma {:induction false} ScanPostsFollows(st: RunState, posts: seq<Post>, env: Env)
    ensures Follows(st, ScanPosts(st, posts, env), env)
    ensures NotifierDelivers(env) ==> Delivered(st, ScanPosts(st, posts, env))
    decreases |posts|
  {
    if |posts| > 0 {
      var step := StepPost(st, posts[0], env);
      StepFollows(st, posts[0], env);
      if !step.stop {
        ScanPostsFollows(step.state, posts[1..], env);
        FollowsTrans(st, step.state, ScanPosts(step.state, posts[1..], env), env);
      }
    } else {
      FollowsRefl(st, env);
    }
  }

  lemma {:induction false} ScanCommunitiesFollows(st: RunState, names: seq<string>, env: Env)
    ensures Follows(st, ScanCommunities(st, names, env), env)
    ensures NotifierDelivers(env) ==> Delivered(st, ScanCommunities(st, names, env))
    decreases |names|
  {
    if |names| > 0 {
      var next := ScanCommunity(st, names[0], env);
      var listing := env.feed(names[0]);
      if listing.FetchFailed? {
        FollowsRefl(st, env);
      } else {
        ScanPostsFollows(st, PostsToCheck(listing.hot, listing.rising), env);
      }
      ScanCommunitiesFollows(next, names[1..], env);
      FollowsTrans(st, next, ScanCommunities(next, names[1..], env), env);
    } else {
      FollowsRefl(st, env);
    }
  }

  /**
   * A whole scan from `processed_posts` = `seen`: the high-score count is the
   * number of alerts and never exceeds the analysed count, which never
   * exceeds the number of posts scored; every post scored was unseen and
   * passed the gate; every alert is the alert of a scored post with a score
   * of 8 or more; the posts marked processed are the old ones plus scored ones.
   */
  lemma ScanInvariants(seen: set<string>, names: seq<string>, env: Env)
    ensures var f := ScanCommunities(StartRun(seen), names, env);
              && f.high == |f.alerts| && f.high <= f.analyzed <= |f.scored|
              && (forall p :: p in f.scored ==> p.id !in seen && PassesGate(p, env))
              && (forall e :: e in f.alerts ==> AlertFor(e, f.scored, env))
              && (forall m :: m in f.mediums ==> |m| <= 60)
              && seen <= f.processed <= seen + IdsFrom(f.scored, 0)
  {
    ScanCommunitiesFollows(StartRun(seen), names, env);
  }

  /**
   * When every alert goes through, a scan analyses each post it scores exactly
   * once: the scored posts have distinct ids, none of them was processed
   * before, all of them are marked, and the analysed count is their number.
   */
  lemma ScanAnalysesOnce(seen: set<string>, names: seq<string>, env: Env)
    requires NotifierDelivers(env)
    ensures var f := ScanCommunities(StartRun(seen), names, env);
              && (forall i, j :: 0 <= i < j < |f.scored| ==> f.scored[i].id != f.scored[j].id)
              && (forall p :: p in f.scored ==> p.id !in seen)
              && f.processed == seen + IdsFrom(f.scored, 0)
              && f.analyzed == |f.scored|
  {
    ScanCommunitiesFollows(StartRun(seen), names, env);
  }

  /**
   * A post reaches the scorer exactly when it is unprocessed and passes the
   * gate; otherwise the step changes nothing and the loop goes on.
   */
  lemma StepScoresIff(st: RunState, p: Post, env: Env)
    ensures var s := StepPost(st, p, env);
              (s.state.scored == st.scored + [p]) <==> (p.id !in st.processed && PassesGate(p, env))
    ensures p.id in st.processed || !PassesGate(p, env) ==> StepPost(st, p, env) == Step(st, false)
  {
    if p.id in st.processed || !PassesGate(p, env) {
      assert |st.scored| != |st.scored + [p]|;
    } else {
      AnalyzeScores(st, p, env);
    }
  }

  /** A post that reaches the scorer is appended to the scored posts, whatever the outcome. */
  lemma AnalyzeScores(st: RunState, p: Post, env: Env)
    ensures Analyze(st, p, env).state.scored == st.scored + [p]
  {
  }


  /**
   * The tiers of a scored post: an alert is sent for 8 and above, and when it
   * goes through the post is counted as high; 6 and 7 are logged as medium
   * under the title's first 60 characters; lower scores only count as
   * analysed. A raising alert ends the community's loop with the post scored
   * but neither marked nor counted.
   */
  lemma StepTiers(st: RunState, p: Post, env: Env)
    requires p.id !in st.processed && PassesGate(p, env)
    ensures var result := env.analysis(p);
            var embed := AlertEmbed(p, PostVelocity(p, env.now), result);
            var s := StepPost(st, p, env);
              && (s.state.alerts == st.alerts + [embed] <==> result.score >= HighScore && env.notify(embed))
              && (s.state.alerts == st.alerts <==> !(result.score >= HighScore && env.notify(embed)))
              && (s.state.mediums == st.mediums + [Take(p.title, 60)] <==> MediumScore <= result.score < HighScore)
              && (s.state.mediums == st.mediums <==> !(MediumScore <= result.score < HighScore))
              && (s.state.high == st.high + 1 <==> result.score >= HighScore && env.notify(embed))
              && (result.score >= HighScore && !env.notify(embed) ==>
                    s.stop && s.state == st.(scored := st.scored + [p]))
              && (!(result.score >= HighScore && !env.notify(embed)) ==>
                    s.state.processed == st.processed + {p.id} && s.state.analyzed == st.analyzed + 1
                    && s.stop == (st.analyzed + 1 >= AnalysisLimit))
  {
    var result := env.analysis(p);
    var s := StepPost(st, p, env);
    assert |st.alerts + [AlertEmbed(p, PostVelocity(p, env.now), result)]| != |st.alerts|;
    assert |st.mediums + [Take(p.title, 60)]| != |st.mediums|;
  }

  function Max(a: int, b: int): int {
    if a < b then b else a
  }

  /** A step counts at most one analysis, and a step that counts one ends the loop exactly at 20 or more. */
  lemma StepCount(st: RunState, p: Post, env: Env)
    ensures var step := StepPost(st, p, env);
              || step.state.analyzed == st.analyzed
              || (step.state.analyzed == st.analyzed + 1 && step.stop == (step.state.analyzed >= AnalysisLimit))
  {
    if p.id !in st.processed && PassesGate(p, env) {
      StepShape(st, p, env);
    }
  }

  /**
   * The budget is checked only after an analysis and only ends the current
   * community: within one community the count ends at most at 20, or one
   * above where it started when it started at 20 or more.
   */
  lemma {:induction false} ScanPostsBudget(st: RunState, posts: seq<Post>, env: Env)
    ensures st.analyzed <= ScanPosts(st, posts, env).analyzed <= Max(st.analyzed + 1, AnalysisLimit)
    decreases |posts|
  {
    if |posts| > 0 {
      var step := StepPost(st, posts[0], env);
      StepCount(st, posts[0], env);
      if !step.stop {
        ScanPostsBudget(step.state, posts[1..], env);
      }
    }
  }

  /** Over several communities the count can pass 20 by one per further community. */
  lemma {:induction false} ScanBudget(st: RunState, names: seq<string>, env: Env)
    ensures ScanCommunities(st, names, env).analyzed <= Max(st.analyzed, AnalysisLimit - 1) + |names|
    decreases |names|
  {
    if |names| > 0 {
      var next := ScanCommunity(st, names[0], env);
      var listing := env.feed(names[0]);
      if listing.Listing? {
        ScanPostsBudget(st, PostsToCheck(listing.hot, listing.rising), env);
      }
      ScanBudget(next, names[1..], env);
    }
  }

  /** One scan of the 15 monitored communities analyses at most 34 posts. */
  lemma ScanAnalysesAtMost34(seen: set<string>, env: Env)
    ensures ScanCommunities(StartRun(seen), MonitoringSubreddits, env).analyzed <= 34
  {
    ScanBudget(StartRun(seen), MonitoringSubreddits, env);
  }

  /**
   * Scorer calls, not only counted analyses: a post whose alert raised was
   * scored but not counted. `CallsBound` is the scored posts plus the
   * analyses left before the count reaches 19.
   */
  function CallsBound(st: RunState): int {
    |st.scored| + Max(st.analyzed, AnalysisLimit - 1) - st.analyzed
  }

  /** A step that does not end the loop keeps `CallsBound`; one that ends it raises it by at most one. */
  lemma StepCalls(st: RunState, p: Post, env: Env)
    ensures var step := StepPost(st, p, env);
              if step.stop then CallsBound(step.state) <= CallsBound(st) + 1
              else CallsBound(step.state) == CallsBound(st)
  {
    if p.id !in st.processed && PassesGate(p, env) {
      StepShape(st, p, env);
    }
  }

  /** Within one community `CallsBound` rises by at most one. */
  lemma {:induction false} ScanPostsCalls(st: RunState, posts: seq<Post>, env: Env)
    ensures CallsBound(ScanPosts(st, posts, env)) <= CallsBound(st) + 1
    decreases |posts|
  {
    if |posts| > 0 {
      var step := StepPost(st, posts[0], env);
      StepCalls(st, posts[0], env);
      if !step.stop {
        ScanPostsCalls(step.state, posts[1..], env);
      }
    }
  }

  /** Over several communities `CallsBound` rises by at most one per community. */
  lemma {:induction false} ScanCalls(st: RunState, names: seq<string>, env: Env)
    ensures CallsBound(ScanCommunities(st, names, env)) <= CallsBound(st) + |names|
    decreases |names|
  {
    if |names| > 0 {
      var next := ScanCommunity(st, names[0], env);
      var listing := env.feed(names[0]);
      if listing.Listing? {
        ScanPostsCalls(st, PostsToCheck(listing.hot, listing.rising), env);
      }
      ScanCalls(next, names[1..], env);
    }
  }

  /**
   * One scan of the 15 monitored communities calls the scorer at most 34
   * times, raising alerts included; once 19 analyses are counted, each
   * further community calls it at most once more.
   */
  lemma ScanScorerCallsAtMost34(seen: set<string>, env: Env)
    ensures |ScanCommunities(StartRun(seen), MonitoringSubreddits, env).scored| <= 34
  {
    ScanCalls(StartRun(seen), MonitoringSubreddits, env);
  }

  /** After 19 counted analyses, one community calls the scorer at most once. */
  lemma LateCommunityScoresOnce(st: RunState, posts: seq<Post>, env: Env)
    requires st.analyzed >= AnalysisLimit - 1
    ensures |ScanPosts(st, posts, env).scored| <= |st.scored| + 1
  {
    ScanPostsCalls(st, posts, env);
    ScanPostsFollows(st, posts, env);
  }

  /**
   * The overshoot is real: once the count has reached 20, the next community
   * still analyses its first fresh post that passes the gate.
   */
  lemma BudgetOvershoot(st: RunState, p: Post, rest: seq<Post>, env: Env)
    requires st.analyzed >= AnalysisLimit
    requires p.id !in st.processed && PassesGate(p, env)
    requires NotifierDelivers(env)
    ensures ScanPosts(st, [p] + rest, env).analyzed == st.analyzed + 1
  {
    var result := env.analysis(p);
    assert env.notify(AlertEmbed(p, PostVelocity(p, env.now), result));
    assert ([p] + rest)[0] == p;
  }

  /** Scanning `a + b` is scanning `a`, then `b` from where `a` left off. */
  lemma {:induction false} ScanCommunitiesAppend(st: RunState, a: seq<string>, b: seq<string>, env: Env)
    ensures ScanCommunities(st, a + b, env) == ScanCommunities(ScanCommunities(st, a, env), b, env)
    decreases |a|
  {
    if |a| == 0 {
      assert a + b == b;
    } else {
      assert (a + b)[0] == a[0] && (a + b)[1..] == a[1..] + b;
      ScanCommunitiesAppend(ScanCommunity(st, a[0], env), a[1..], b, env);
    }
  }

  /**
   * A community whose listing cannot be fetched is skipped: the scan comes out
   * as if it were not monitored at all.
   */
  lemma FailedCommunityIsSkipped(st: RunState, names: seq<string>, k: nat, env: Env)
    requires k < |names| && env.feed(names[k]) == FetchFailed
    ensures ScanCommunities(st, names, env) == ScanCommunities(st, names[..k] + names[k + 1..], env)
  {
    assert names == names[..k] + ([names[k]] + names[k + 1..]);
    ScanCommunitiesAppend(st, names[..k], [names[k]] + names[k + 1..], env);
    var mid := ScanCommunities(st, names[..k], env);
    assert ([names[k]] + names[k + 1..])[1..] == names[k + 1..];
    assert ScanCommunities(mid, [names[k]] + names[k + 1..], env) == ScanCommunities(mid, names[k + 1..], env);
    ScanCommunitiesAppend(st, names[..k], names[k + 1..], env);
  }
}
