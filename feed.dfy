/**
 * What the content source hands the detector: posts, and per community the
 * "hot" and "rising" listings, or a failure to fetch them.
 */
module Feed {
  import opened Text

  /**
   * A post as fetched. `createdUtc` is in whole seconds; `comments` are the
   * bodies of the post's comments in "top" order, as loaded for scoring.
   */
  datatype Post = Post(
    id: string,
    title: string,
    score: int,
    createdUtc: int,
    numComments: int,
    subreddit: string,
    permalink: string,
    comments: seq<string>)

  /** One community's fetch: both listings, or an error raised while fetching them. */
  datatype Listing = Listing(hot: seq<Post>, rising: seq<Post>) | FetchFailed

  /** `limit=10` on each listing request. */
  const ListingLimit: nat := 10

  /** `posts_to_check`: the hot posts, then the rising ones, duplicates kept. */
  function PostsToCheck(hot: seq<Post>, rising: seq<Post>): (posts: seq<Post>)
    ensures |posts| <= 2 * ListingLimit
    ensures forall p :: p in posts <==> p in Take(hot, ListingLimit) || p in Take(rising, ListingLimit)
  {
    Take(hot, ListingLimit) + Take(rising, ListingLimit)
  }
}
