/** The two computations of the X client that do not call the X API: the engagement
    score of a list of tweets, and the webhook signature check. */
module XClient {
  import opened Wrappers

  const SignaturePrefix := "sha256="
  const InvalidSignature := "Invalid webhook signature"

  /** `tweet.public_metrics`; a count that is missing is `None`. */
  datatype Metrics = Metrics(likeCount: Option<int>, retweetCount: Option<int>)
  datatype Tweet = Tweet(publicMetrics: Option<Metrics>)

  /** `count || 0`. */
  function CountOrZero(c: Option<int>): int
  {
    if c.Some? then c.value else 0
  }

  /** `(tweet.public_metrics?.like_count || 0) + (tweet.public_metrics?.retweet_count || 0)`. */
  function TweetScore(t: Tweet): int
  {
    if t.publicMetrics.None? then 0
    else CountOrZero(t.publicMetrics.value.likeCount) + CountOrZero(t.publicMetrics.value.retweetCount)
  }

  /** `tweets.reduce((score, tweet) => score + likes + retweets, score)`, left to right. */
  function Reduce(score: int, tweets: seq<Tweet>): int
    decreases |tweets|
  {
    if |tweets| == 0 then score
    else
      var t := tweets[0];
      var likes := if t.publicMetrics.Some? then CountOrZero(t.publicMetrics.value.likeCount) else 0;
      var retweets := if t.publicMetrics.Some? then CountOrZero(t.publicMetrics.value.retweetCount) else 0;
      Reduce(score + likes + retweets, tweets[1..])
  }

  /** `calculateEngagement(tweets)`. */
  function CalculateEngagement(tweets: seq<Tweet>): int
  {
    Reduce(0, tweets)
  }

  /** The reference definition: the sum of the tweets' scores. */
  function TotalScore(tweets: seq<Tweet>): int
  {
    if |tweets| == 0 then 0 else TweetScore(tweets[0]) + TotalScore(tweets[1..])
  }

  /** The fold adds the sum of the scores to its starting value. */
  lemma {:induction false} ReduceAddsTotal(score: int, tweets: seq<Tweet>)
    ensures Reduce(score, tweets) == score + TotalScore(tweets)
    decreases |tweets|
  {
    if |tweets| > 0 {
      ReduceAddsTotal(score + TweetScore(tweets[0]), tweets[1..]);
    }
  }

  lemma {:induction false} TotalScoreAppend(a: seq<Tweet>, b: seq<Tweet>)
    ensures TotalScore(a + b) == TotalScore(a) + TotalScore(b)
    decreases |a|
  {
    if |a| == 0 {
      assert a + b == b;
    } else {
      assert (a + b)[0] == a[0] && (a + b)[1..] == a[1..] + b;
      TotalScoreAppend(a[1..], b);
    }
  }

  /** Engagement is the sum of likes and retweets over all tweets, a missing count
      counting 0, and an empty list scores 0. */
  lemma EngagementIsTotal(tweets: seq<Tweet>)
    ensures CalculateEngagement(tweets) == TotalScore(tweets)
    ensures tweets == [] ==> CalculateEngagement(tweets) == 0
  {
    ReduceAddsTotal(0, tweets);
  }

  /** Engagement is additive over concatenation. */
  lemma EngagementAdditive(a: seq<Tweet>, b: seq<Tweet>)
    ensures CalculateEngagement(a + b) == CalculateEngagement(a) + CalculateEngagement(b)
  {
    EngagementIsTotal(a + b);
    EngagementIsTotal(a);
    EngagementIsTotal(b);
    TotalScoreAppend(a, b);
  }

  /** One tweet with 10 likes and 5 retweets scores 15. */
  lemma OneTweetScores15()
    ensures CalculateEngagement([Tweet(Some(Metrics(Some(10), Some(5))))]) == 15
  {
  }

  /** The result of an accepted webhook: `{processed: true, event: payload}`. */
  datatype WebhookAck<P> = WebhookAck(processed: bool, event: P)

  /** `handleWebhook(payload, signature)`. `hmacHex(secret, text)` is HMAC-SHA256 in
      hex (RFC 2104), `json` is `JSON.stringify`, and `secret` is X_WEBHOOK_SECRET. */
  function HandleWebhook<P>(payload: P, signature: string, secret: string,
                            hmacHex: (string, string) -> string, json: P -> string)
    : (r: Result<WebhookAck<P>>)
    ensures r.Ok? <==> signature == "sha256=" + hmacHex(secret, json(payload))
    ensures r.Ok? ==> r.value == WebhookAck(true, payload)
    ensures r.Err? ==> r.error == "Invalid webhook signature"
  {
    var expected := hmacHex(secret, json(payload));
    if signature != SignaturePrefix + expected then Err(InvalidSignature)
    else Ok(WebhookAck(true, payload))
  }

  /** A signature that does not start with `sha256=` is rejected whatever the key, so
      a mock signature such as "test_signature" never passes. */
  lemma UnprefixedSignatureRejected<P>(payload: P, signature: string, secret: string,
                                       hmacHex: (string, string) -> string, json: P -> string)
    requires |signature| < 7 || signature[..7] != "sha256="
    ensures HandleWebhook(payload, signature, secret, hmacHex, json) == Err("Invalid webhook signature")
  {
    var expected := "sha256=" + hmacHex(secret, json(payload));
    assert expected[..7] == "sha256=";
  }

  lemma MockSignatureRejected<P>(payload: P, secret: string, hmacHex: (string, string) -> string, json: P -> string)
    ensures HandleWebhook(payload, "test_signature", secret, hmacHex, json).Err?
  {
    var mock := "test_signature";
    assert mock[..7][0] == 't' && "sha256="[0] == 's';
    UnprefixedSignatureRejected(payload, mock, secret, hmacHex, json);
  }
}
