/**
 * The two pieces of text the detector builds around a post: the comment
 * excerpt sent to the scorer (`comment_context` in `analyze_with_gpt`) and the
 * chat-webhook embed of `send_discord_alert`.
 */
module Alert {
  import opened Text
  import opened Feed
  import opened Reply

  // ---------------------------------------------------------------------
  // Comment context
  // ---------------------------------------------------------------------

  const MaxContextComments: nat := 10
  const MaxCommentChars: nat := 150

  /** `f"- {comment.body[:150]}"`. */
  function CommentLine(body: string): string {
    "- " + Take(body, MaxCommentChars)
  }

  /** The lines of the excerpt: one per comment among the first ten. */
  function CommentLines(comments: seq<string>): (lines: seq<string>)
    ensures |lines| == |Take(comments, MaxContextComments)|
    ensures forall i :: 0 <= i < |lines| ==> lines[i] == CommentLine(comments[i])
  {
    var shown := Take(comments, MaxContextComments);
    seq(|shown|, i requires 0 <= i < |shown| => CommentLine(shown[i]))
  }

  /** `"\n".join(...)` over the first ten comments. */
  function CommentContext(comments: seq<string>): string {
    Join(CommentLines(comments), '\n')
  }

  /** The excerpt is empty exactly when there are no comments. */
  lemma CommentContextEmpty(comments: seq<string>)
    ensures CommentContext(comments) == [] <==> comments == []
  {
    var lines := CommentLines(comments);
    if |lines| > 0 {
      JoinStartsWithFirst(lines, '\n');
      assert |lines[0]| >= 2;
    }
  }

  /**
   * When no shown comment holds a line break, the excerpt splits back into
   * one line per comment, at most ten, each `- ` and the first 150 characters
   * of the body.
   */
  lemma CommentContextLines(comments: seq<string>)
    requires comments != []
    requires forall i :: 0 <= i < |comments| && i < MaxContextComments ==> '\n' !in comments[i]
    ensures var lines := Split(CommentContext(comments), '\n');
              && |lines| == (if |comments| < 10 then |comments| else 10)
              && forall i :: 0 <= i < |lines| ==> lines[i] == "- " + Take(comments[i], 150)
  {
    var lines := CommentLines(comments);
    forall i | 0 <= i < |lines|
      ensures '\n' !in lines[i]
    {
      var body := Take(comments[i], MaxCommentChars);
      assert body <= comments[i];
      assert lines[i] == "- " + body;
    }
    SplitJoin(lines, '\n');
  }

  // ---------------------------------------------------------------------
  // The alert embed
  // ---------------------------------------------------------------------

  /**
   * A field's value. Numbers are kept as numbers; the source formats them as
   * `**{score}/10**`, `{velocity:.0f}/hour` and `{score:,}`.
   */
  datatype FieldValue =
    | Plain(text: string)
    | ScoreOutOfTen(score: int)
    | PerHour(velocity: real)
    | Upvotes(count: int)

  datatype Field = Field(name: string, value: FieldValue, inline: bool)

  datatype Embed = Embed(title: string, color: int, fields: seq<Field>, footer: string)

  const HighPotentialColor: int := 0x00FF00
  const VariationsName: string := "\U{1F4A1} Better Variations"
  const TargetName: string := "\U{1F3AF} Target Buyers"
  const SourceName: string := "Source"

  /** The four fields every alert starts with. */
  function FixedFields(post: Post, velocity: real, result: ScoreResult): seq<Field> {
    [ Field("T-Shirt Score", ScoreOutOfTen(result.score), true),
      Field("Velocity", PerHour(velocity), true),
      Field("Upvotes", Upvotes(post.score), true),
      Field("Analysis", Plain(Take(result.analysis, 300)), false) ]
  }

  function VariationsField(variations: string): Field {
    Field(VariationsName, Plain(Take(variations, 300)), false)
  }

  function TargetField(target: string): Field {
    Field(TargetName, Plain(Take(target, 200)), false)
  }

  function SourceField(permalink: string): Field {
    Field(SourceName, Plain("[View on Reddit](https://reddit.com" + permalink + ")"), false)
  }

  /**
   * The embed `send_discord_alert` posts: the four fixed fields, then the
   * variations field and the target field when their texts are not empty,
   * and the link to the post last.
   */
  function AlertEmbed(post: Post, velocity: real, result: ScoreResult): Embed {
    var fields := FixedFields(post, velocity, result);
    var fields := if result.variations != "" then fields + [VariationsField(result.variations)] else fields;
    var fields := if result.target != "" then fields + [TargetField(result.target)] else fields;
    Embed(
      "\U{1F525} HIGH POTENTIAL: " + Take(post.title, 100),
      HighPotentialColor,
      fields + [SourceField(post.permalink)],
      "r/" + post.subreddit + " \U{2022} Act within 24 hours")
  }

  /** The optional fields, in the order they are appended. */
  function OptionalFields(result: ScoreResult): seq<Field> {
    (if result.variations != "" then [VariationsField(result.variations)] else []) +
    (if result.target != "" then [TargetField(result.target)] else [])
  }

  lemma AlertFields(post: Post, velocity: real, result: ScoreResult)
    ensures AlertEmbed(post, velocity, result).fields
            == FixedFields(post, velocity, result) + OptionalFields(result) + [SourceField(post.permalink)]
  {
  }

  /** Only the variations field carries the variations name, and only the target field the target name. */
  lemma FieldNames(post: Post, velocity: real, result: ScoreResult)
    ensures var fields := AlertEmbed(post, velocity, result).fields;
              && (forall i :: 0 <= i < |fields| && fields[i].name == VariationsName ==> result.variations != "")
              && (forall i :: 0 <= i < |fields| && fields[i].name == TargetName ==> result.target != "")
  {
    var fields := AlertEmbed(post, velocity, result).fields;
    var fixed := FixedFields(post, velocity, result);
    var optional := OptionalFields(result);
    AlertFields(post, velocity, result);
    forall i | 0 <= i < |fields|
      ensures fields[i].name == VariationsName ==> result.variations != ""
      ensures fields[i].name == TargetName ==> result.target != ""
    {
      if i < 4 {
        assert fields[i] == fixed[i];
        assert fields[i].name[0] in {'T', 'V', 'U', 'A'};
      } else if i == |fields| - 1 {
        assert fields[i] == SourceField(post.permalink);
        assert fields[i].name[0] == 'S';
      } else {
        assert fields[i] == optional[i - 4];
        assert fields[i].name[0] in {VariationsName[0], TargetName[0]};
      }
    }
  }

  /**
   * The layout of an alert: the four fixed fields first, the link last, and
   * each optional field present exactly when its text is not empty.
   */
  lemma AlertEmbedLayout(post: Post, velocity: real, result: ScoreResult)
    ensures var e := AlertEmbed(post, velocity, result);
              && |e.fields| == 5 + (if result.variations != "" then 1 else 0) + (if result.target != "" then 1 else 0)
              && e.fields[..4] == FixedFields(post, velocity, result)
              && e.fields[|e.fields| - 1] == SourceField(post.permalink)
              && ((exists i :: 0 <= i < |e.fields| && e.fields[i] == VariationsField(result.variations))
                    <==> result.variations != "")
              && ((exists i :: 0 <= i < |e.fields| && e.fields[i] == TargetField(result.target))
                    <==> result.target != "")
              && |e.title| <= 18 + 100
  {
    var fields := AlertEmbed(post, velocity, result).fields;
    AlertFields(post, velocity, result);
    FieldNames(post, velocity, result);
    if result.variations != "" {
      assert fields[4] == VariationsField(result.variations);
    }
    if result.target != "" {
      assert fields[|fields| - 2] == TargetField(result.target);
    }
  }

  /**
   * Every text field but the link is cut to at most 300 characters, and the
   * target field, the only one named `TargetName`, to at most 200.
   */
  lemma AlertTextFieldsCapped(post: Post, velocity: real, result: ScoreResult)
    ensures var e := AlertEmbed(post, velocity, result);
              && (forall i :: 0 <= i < |e.fields| - 1 && e.fields[i].value.Plain? ==> |e.fields[i].value.text| <= 300)
              && (forall i :: 0 <= i < |e.fields| && e.fields[i].name == TargetName ==>
                    e.fields[i].value.Plain? && |e.fields[i].value.text| <= 200)
  {
    var fields := AlertEmbed(post, velocity, result).fields;
    var fixed := FixedFields(post, velocity, result);
    var optional := OptionalFields(result);
    AlertFields(post, velocity, result);
    forall i | 0 <= i < |fields|
      ensures fields[i].name == TargetName ==> fields[i] == TargetField(result.target)
    {
      if i < 4 {
        assert fields[i] == fixed[i];
        assert fields[i].name[0] in {'T', 'V', 'U', 'A'};
      } else if i == |fields| - 1 {
        assert fields[i] == SourceField(post.permalink);
        assert fields[i].name[0] == 'S';
      } else {
        assert fields[i] == optional[i - 4];
        assert fields[i] == VariationsField(result.variations) || fields[i] == TargetField(result.target);
        assert VariationsName[0] != TargetName[0];
      }
    }
  }

  /** `send_discord_alert` up to the HTTP post: builds the field list by appending to it. */
  method BuildAlert(post: Post, velocity: real, result: ScoreResult) returns (embed: Embed)
    ensures embed == AlertEmbed(post, velocity, result)
  {
    var fields := FixedFields(post, velocity, result);
    if result.variations != "" {
      fields := fields + [VariationsField(result.variations)];
    }
    if result.target != "" {
      fields := fields + [TargetField(result.target)];
    }
    fields := fields + [SourceField(post.permalink)];
    embed := Embed(
      "\U{1F525} HIGH POTENTIAL: " + Take(post.title, 100),
      HighPotentialColor,
      fields,
      "r/" + post.subreddit + " \U{2022} Act within 24 hours");
  }
}
