/** The detail screen: fetch the post named by the route, then its author by the
    post's `userId`, inside try/catch/finally, and render the loading message,
    "Post not found." or the article with an optional "Written by" line. */
module PostDetails {
  import opened Text
  import opened Api

  /** Where `fetchPost` is suspended: not running, awaiting the post response, or
      awaiting the author response for the given user id. */
  datatype Phase = Idle | AwaitingPost | AwaitingAuthor(userId: int)

  /** Which of the three screens the detail view renders. */
  datatype DetailView =
    | LoadingArticle
    | NotFound
    | Article(title: string, body: string, byline: Option<string>)

  /** The render: the loading message while loading; else "Post not found." when
      there is no post; else the post, with "Written by" exactly when an author is set. */
  function RenderDetail(loading: bool, post: Option<Post>, author: Option<User>): (v: DetailView)
    ensures v.LoadingArticle? <==> loading
    ensures v.NotFound? <==> !loading && post.None?
    ensures v.Article? ==> v.title == post.value.title && v.body == post.value.body
    ensures v.Article? ==> (v.byline.Some? <==> author.Some?)
    ensures v.Article? && author.Some? ==> v.byline == Some(author.value.name)
  {
    if loading then LoadingArticle
    else if post.None? then NotFound
    else
      var byline := if author.Some? then Some(author.value.name) else None;
      Article(post.value.title, post.value.body, byline)
  }

  /** What one complete run of `fetchPost` leaves in `post` and `author`, and the
      requests it issued in order. */
  datatype Settled = Settled(post: Option<Post>, author: Option<User>, requests: seq<string>)

  /** One run of `fetchPost` from stored `post0`/`author0`. The post request
      settles with `postResponse`; the author server answers `userResponse(userId)`.
      A failed step is caught and leaves the remaining fields as they were. */
  function RunFetchPost(routeId: string, post0: Option<Post>, author0: Option<User>,
                        postResponse: Outcome<Post>, userResponse: int -> Outcome<User>): (s: Settled)
    ensures 1 <= |s.requests| <= 2 && s.requests[0] == PostUrl(routeId)
    ensures |s.requests| == 2 <==> postResponse.Ok?
    ensures s.post.None? ==> post0.None? && postResponse.Failed?
    ensures s.author != author0 ==> postResponse.Ok? && userResponse(postResponse.value.userId).Ok?
    ensures postResponse.Failed? ==> s.post == post0 && s.author == author0
    ensures postResponse.Ok? ==>
      s.post == Some(postResponse.value) && s.requests[1] == UserUrl(postResponse.value.userId)
    ensures postResponse.Ok? && userResponse(postResponse.value.userId).Ok? ==>
      s.author == Some(userResponse(postResponse.value.userId).value)
  {
    match postResponse
    case Failed => Settled(post0, author0, [PostUrl(routeId)])
    case Ok(p) =>
      var requests := [PostUrl(routeId), UserUrl(p.userId)];
      match userResponse(p.userId)
      case Ok(u) => Settled(Some(p), Some(u), requests)
      case Failed => Settled(Some(p), author0, requests)
  }

  /** A first run whose post request fails renders "Post not found." and never
      asks for an author. */
  lemma PostFailureRendersNotFound(routeId: string, userResponse: int -> Outcome<User>)
    ensures var s := RunFetchPost(routeId, None, None, Failed, userResponse);
      && RenderDetail(false, s.post, s.author) == NotFound
      && s.requests == [PostUrl(routeId)]
  {
  }

  /** A first run whose post arrives but whose author request fails renders the
      post without the "Written by" line; it is not reported as not found. */
  lemma AuthorFailureRendersPostWithoutByline(routeId: string, p: Post, userResponse: int -> Outcome<User>)
    requires userResponse(p.userId).Failed?
    ensures var s := RunFetchPost(routeId, None, None, Ok(p), userResponse);
      && s.post == Some(p) && s.author == None
      && RenderDetail(false, s.post, s.author) == Article(p.title, p.body, None)
  {
  }

  /** A first run where both requests succeed renders the post and its author's name. */
  lemma BothSucceedRendersByline(routeId: string, p: Post, u: User, userResponse: int -> Outcome<User>)
    requires userResponse(p.userId) == Ok(u)
    ensures var s := RunFetchPost(routeId, None, None, Ok(p), userResponse);
      RenderDetail(false, s.post, s.author) == Article(p.title, p.body, Some(u.name))
  {
  }

  /** The author request names the fetched post's `userId`, whatever the route id was. */
  lemma AuthorRequestUsesPostUserId(routeId: string, post0: Option<Post>, author0: Option<User>,
                                    p: Post, userResponse: int -> Outcome<User>)
    ensures var s := RunFetchPost(routeId, post0, author0, Ok(p), userResponse);
      && s.requests[1] == UserUrl(p.userId)
      && ParseInt(s.requests[1][|BaseUrl| + 7..]) == p.userId
  {
  }

  /** A re-run (after the route id changed) whose post request fails leaves the
      previous screen in place: the old post and author are still rendered. */
  lemma FailedRefetchKeepsOldPost(routeId: string, previous: Post, author0: Option<User>,
                                  userResponse: int -> Outcome<User>)
    ensures var s := RunFetchPost(routeId, Some(previous), author0, Failed, userResponse);
      RenderDetail(false, s.post, s.author) == RenderDetail(false, Some(previous), author0)
  {
  }

  /** A re-run whose new post arrives but whose author request fails shows the new
      post under the previous post's author, since `author` is never cleared. */
  lemma RefetchKeepsStaleAuthor(routeId: string, previous: Post, a: User, p: Post,
                                userResponse: int -> Outcome<User>)
    requires userResponse(p.userId).Failed?
    ensures var s := RunFetchPost(routeId, Some(previous), Some(a), Ok(p), userResponse);
      RenderDetail(false, s.post, s.author) == Article(p.title, p.body, Some(a.name))
  {
  }

  /** The detail component's state fields, with the suspension point of `fetchPost`. */
  class DetailScreen {
    /** The `:id` route parameter. */
    var id: string
    var post: Option<Post>
    var author: Option<User>
    var loading: bool
    var phase: Phase
    /** The URLs requested so far, in order. */
    ghost var requests: seq<string>
    /** Runs of `fetchPost` started, and runs whose `finally` has executed. */
    ghost var runs: nat
    ghost var settles: nat

    /** At most one run is in flight; `loading` is true exactly until the first
        `finally`; while the author is awaited, the post is set and names its user. */
    ghost predicate Valid()
      reads this
    {
      && runs == settles + (if phase.Idle? then 0 else 1)
      && (loading <==> settles == 0)
      && (phase.AwaitingAuthor? ==> post.Some? && phase.userId == post.value.userId)
    }

    /** The current render of the screen. */
    function View(): DetailView
      reads this
    {
      RenderDetail(loading, post, author)
    }

    /** The initial `useState` values: no post, no author, loading. */
    constructor (routeId: string)
      ensures Valid()
      ensures id == routeId && post == None && author == None && loading
      ensures phase == Idle && requests == [] && runs == 0 && settles == 0
      ensures View() == LoadingArticle
    {
      id, post, author, loading, phase := routeId, None, None, true, Idle;
      requests, runs, settles := [], 0, 0;
    }

    /** The effect calls `fetchPost`, which issues the post request and suspends.
        Nothing is reset. */
    method Start()
      requires Valid() && phase.Idle?
      modifies this
      ensures Valid()
      ensures phase == AwaitingPost && runs == old(runs) + 1
      ensures requests == old(requests) + [PostUrl(id)]
      ensures id == old(id) && post == old(post) && author == old(author)
      ensures loading == old(loading) && settles == old(settles)
    {
      requests := requests + [PostUrl(id)];
      runs := runs + 1;
      phase := AwaitingPost;
    }

    /** The post request settles. On success `setPost` runs at once and the author
        request is issued with the post's `userId`; on failure the catch and
        finally run: `loading` is cleared and nothing else changes. */
    method ReceivePost(response: Outcome<Post>)
      requires Valid() && phase.AwaitingPost?
      modifies this
      ensures Valid()
      ensures id == old(id) && author == old(author) && runs == old(runs)
      ensures response.Ok? ==>
        && post == Some(response.value)
        && phase == AwaitingAuthor(response.value.userId)
        && requests == old(requests) + [UserUrl(response.value.userId)]
        && loading == old(loading) && settles == old(settles)
      ensures response.Failed? ==>
        && post == old(post) && phase == Idle && requests == old(requests)
        && !loading && settles == old(settles) + 1
    {
      match response {
        case Ok(p) =>
          post := Some(p);
          requests := requests + [UserUrl(p.userId)];
          phase := AwaitingAuthor(p.userId);
        case Failed =>
          loading := false;
          settles := settles + 1;
          phase := Idle;
      }
    }

    /** The author request settles. On success `setAuthor` runs; either way the
        finally clears `loading`. */
    method ReceiveAuthor(response: Outcome<User>)
      requires Valid() && phase.AwaitingAuthor?
      modifies this
      ensures Valid()
      ensures id == old(id) && post == old(post) && requests == old(requests) && runs == old(runs)
      ensures author == (if response.Ok? then Some(response.value) else old(author))
      ensures phase == Idle && !loading && settles == old(settles) + 1
      ensures View().Article?
    {
      if response.Ok? {
        author := Some(response.value);
      }
      loading := false;
      settles := settles + 1;
      phase := Idle;
    }

    /** One whole run of `fetchPost`, driven by the two servers' answers; the
        fields end as RunFetchPost says and `loading` is cleared exactly once. */
    method FetchPost(postResponse: Outcome<Post>, userResponse: int -> Outcome<User>)
      requires Valid() && phase.Idle?
      modifies this
      ensures Valid()
      ensures var s := RunFetchPost(old(id), old(post), old(author), postResponse, userResponse);
        && post == s.post && author == s.author
        && requests == old(requests) + s.requests
      ensures id == old(id) && phase == Idle && !loading
      ensures runs == old(runs) + 1 && settles == old(settles) + 1
    {
      Start();
      ReceivePost(postResponse);
      if phase.AwaitingAuthor? {
        ReceiveAuthor(userResponse(phase.userId));
      }
    }

    /** The effect depends on `[id]`: a new route id re-runs `fetchPost` without
        clearing the stored post, author or loading flag; the same id does nothing. */
    method RouteChanged(newId: string, postResponse: Outcome<Post>, userResponse: int -> Outcome<User>)
      requires Valid() && phase.Idle?
      modifies this
      ensures Valid()
      ensures id == newId && phase == Idle
      ensures newId == old(id) ==>
        post == old(post) && author == old(author) && loading == old(loading) && requests == old(requests)
      ensures newId != old(id) ==>
        var s := RunFetchPost(newId, old(post), old(author), postResponse, userResponse);
        && post == s.post && author == s.author && !loading
        && requests == old(requests) + s.requests
    {
      if newId != id {
        id := newId;
        FetchPost(postResponse, userResponse);
      }
    }
  }
}
