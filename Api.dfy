/** The records the blog viewer reads from its remote JSON API, the outcome of a
    request, and the endpoint and route paths it builds. The network itself is not
    modelled: each request's outcome is an input to the screen that issued it. */
module Api {
  import opened Text

  /** A blog post as the API returns it. */
  datatype Post = Post(id: int, title: string, body: string, userId: int)

  /** The author record; only its name is displayed. */
  datatype User = User(id: int, name: string)

  datatype Option<T> = None | Some(value: T)

  /** How a request settled: with a response body, or by rejecting. */
  datatype Outcome<T> = Ok(value: T) | Failed

  const BaseUrl: string := "https://jsonplaceholder.typicode.com"

  /** The collection endpoint the listing screen fetches once. */
  const PostsUrl: string := BaseUrl + "/posts"

  /** The single-post endpoint; the route parameter is spliced in as it is. */
  function PostUrl(routeId: string): (url: string)
    ensures |url| == |PostsUrl| + 1 + |routeId|
    ensures url[..|PostsUrl| + 1] == PostsUrl + "/" && url[|PostsUrl| + 1..] == routeId
  {
    PostsUrl + "/" + routeId
  }

  /** The author endpoint for a numeric user id. */
  function UserUrl(userId: int): (url: string)
    ensures |url| > |BaseUrl| + 7
    ensures url[..|BaseUrl| + 7] == BaseUrl + "/users/"
    ensures ParseInt(url[|BaseUrl| + 7..]) == userId
  {
    IntToStringRoundTrip(userId);
    BaseUrl + "/users/" + IntToString(userId)
  }

  /** The client-side route of a post's detail screen, `/post/{id}`. */
  function PostPath(id: int): (path: string)
    ensures |path| > 6
    ensures path[..6] == "/post/"
    ensures ParseInt(path[6..]) == id
  {
    IntToStringRoundTrip(id);
    "/post/" + IntToString(id)
  }

  /** Two different posts never share a detail route. */
  lemma PostPathInjective(m: int, n: int)
    requires m != n
    ensures PostPath(m) != PostPath(n)
  {
    assert PostPath(m)[6..] != PostPath(n)[6..];
  }
}
