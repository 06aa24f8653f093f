/** The `getTweet` chat tool (lib/ai/tools/get-tweet.ts): take the tweet id from the end of
    a URL, check the Twitter credentials, fetch the tweet and return its text. */
module Tweet {
  import opened Common

  const ID_NOT_FOUND: string := "Tweet ID is not found in the url"
  const MISSING_CREDENTIALS: string := "TWITTER_CONSUMER_KEY or TWITTER_CONSUMER_SECRET is not set"
  const FETCH_ERROR: string := "Error getting tweet"

  /** `url.split("/").pop()`: the text after the last "/", or the whole URL without one. */
  function TweetId(url: string): (r: string)
    decreases |url|
    ensures '/' !in r
    ensures |r| <= |url| && r == url[|url| - |r|..]
    ensures |r| < |url| ==> url[|url| - |r| - 1] == '/'
    ensures '/' !in url ==> r == url
  {
    if url == [] || url[|url| - 1] == '/' then []
    else
      var init, last := url[..|url| - 1], url[|url| - 1];
      var id := TweetId(init);
      assert url == init + [last];
      assert url[|url| - |id| - 1..] == id + [last] by {
        assert url[|url| - |id| - 1..] == init[|init| - |id|..] + [last];
      }
      assert |id| < |init| ==> url[|url| - |id| - 2] == init[|init| - |id| - 1];
      assert '/' !in url ==> '/' !in init;
      id + [last]
  }

  /** Whatever precedes the last "/" is dropped, and whatever follows it (a query string or
      fragment included) is the id. */
  lemma {:induction false} TweetIdAfterLastSlash(prefix: string, id: string)
    requires '/' !in id
    ensures TweetId(prefix + "/" + id) == id
    decreases |id|
  {
    var url := prefix + "/" + id;
    if id == [] {
      assert url[|url| - 1] == '/';
    } else {
      var init := id[..|id| - 1];
      assert url[..|url| - 1] == prefix + "/" + init;
      assert '/' !in init by {
        forall k | 0 <= k < |init| ensures init[k] != '/' { assert init[k] == id[k]; }
      }
      TweetIdAfterLastSlash(prefix, init);
      assert init + [id[|id| - 1]] == id;
    }
  }

  /** The credentials read from the environment. */
  datatype Credentials = Credentials(appKey: Option<string>, appSecret: Option<string>)

  /** `execute`. `api` is how the login and the tweet lookup turn out (the text, or a
      failure); `requested` is the id looked up, if the lookup was made. */
  method GetTweet(url: string, credentials: Credentials, api: Outcome<string>)
    returns (r: Outcome<string>, requested: Option<string>)
    ensures TweetId(url) == "" ==> r == Done(ID_NOT_FOUND) && requested.None?
    ensures TweetId(url) != "" && !(Truthy(credentials.appKey) && Truthy(credentials.appSecret)) ==>
      r == Threw(MISSING_CREDENTIALS) && requested.None?
    ensures TweetId(url) != "" && Truthy(credentials.appKey) && Truthy(credentials.appSecret) ==>
      && requested == Some(TweetId(url))
      && r == Done(if api.Done? then api.value else FETCH_ERROR)
    // the tool only throws for missing credentials
    ensures r.Threw? ==> r.error == MISSING_CREDENTIALS
  {
    var tweetId := TweetId(url);
    if tweetId == "" {
      return Done(ID_NOT_FOUND), None;
    }
    if !Truthy(credentials.appKey) || !Truthy(credentials.appSecret) {
      return Threw(MISSING_CREDENTIALS), None;
    }
    requested := Some(tweetId);
    if api.Threw? {
      r := Done(FETCH_ERROR);
    } else {
      r := Done(api.value);
    }
  }
}
