# Blog viewer: listing, detail pipeline and scroll button

This project models the logic of a small React blog viewer that reads posts and
authors from a public JSON API. It has three parts:

- **Listing screen** (`Home.dfy`): the posts are fetched once on mount. A live search
  keeps the posts whose lowercased title includes the lowercased search text. A
  counter that starts at 6 and grows by 6 per "Load More" click picks a prefix of the
  matches. The screen renders a spinner while loading, the error text after a failed
  fetch, and otherwise a grid of cards. Each card shows the first 100 characters of
  the body followed by "...", and links to `/post/{id}`.
- **Detail screen** (`PostDetails.dfy`): `fetchPost` requests the post named by the
  route id, stores it, requests its author by the post's `userId`, stores the author,
  and clears `loading` in a `finally`. It is modelled as a class whose methods are the
  await points (`Start`, `ReceivePost`, `ReceiveAuthor`). `FetchPost` composes them,
  and `RouteChanged` is the effect re-run on a new id. The pure `RunFetchPost` is the
  specification of one whole run. The render is `RenderDetail`.
- **Scroll-to-top button** (`ScrollUpButton.dfy`): a listener sets `visible` to
  `scrollY > 300` on each scroll event. It is added on mount and removed on unmount.
  Clicking the button asks for a smooth scroll to offset 0.

`Text.dfy` holds the runtime string operations the screens use: ASCII lowercasing,
`includes`, and decimal rendering of integers, with a parser as its inverse.
`Api.dfy` holds the records, the request outcome type and the URLs and routes.

Network responses are inputs. A listing fetch settles with an `Outcome<seq<Post>>`.
A detail run is driven by the post response and by a function from user id to
author response, so the model can say which user id was asked for.

The detail screen stores the post before it requests the author
(`src/Pages/PostDetails.tsx:30`), and the not-found branch
(`src/Pages/PostDetails.tsx:52`) tests only the post. So an author failure
renders the post without its "Written by" line. A re-run after an id change clears nothing, so the stored post
and author stay until they are overwritten. As a result, a re-run whose author
request fails shows the new post under the previous author's name
(`RefetchKeepsStaleAuthor`).

## Model

| member | source | states |
|---|---|---|
| `Text.LowerChar` | src/Pages/Home.tsx:29 | ASCII upper-case letters map to their lower-case letters; every other character is unchanged |
| `Text.Lower` | src/Pages/Home.tsx:29 | lowercasing keeps the length of the string |
| `Text.LowerHasNoUpper` | src/Pages/Home.tsx:29 | a lowercased string contains no upper-case ASCII letter |
| `Text.LowerIdempotent` | src/Pages/Home.tsx:29 | lowercasing twice gives the same result as lowercasing once |
| `Text.Includes` | src/Pages/Home.tsx:29 | `includes` is true exactly when the needle occurs at some position of the string |
| `Text.IncludesEmpty` | src/Pages/Home.tsx:29 | every string includes the empty string |
| `Text.NatToString` | src/Pages/Home.tsx:108 | the decimal form of a natural number is a non-empty string of digits with no leading zero |
| `Text.IntToString` | src/Pages/Home.tsx:108 | the decimal form of an integer is non-empty and starts with '-' exactly when the integer is negative |
| `Text.IntToStringRoundTrip` | src/Pages/Home.tsx:108 | parsing the decimal form of an integer gives the integer back |
| `Text.IntToStringInjective` | src/Pages/Home.tsx:108 | distinct integers have distinct decimal forms |
| `Api.PostPath` | src/Pages/Home.tsx:108 | a card links to `/post/` followed by a string that parses back to the post id |
| `Api.PostPathInjective` | src/Pages/Home.tsx:108 | two posts with different ids never share a detail route |
| `Api.PostUrl` | src/Pages/PostDetails.tsx:27-29 | the post request is the posts endpoint, a slash, and the route id spliced in unchanged |
| `Api.UserUrl` | src/Pages/PostDetails.tsx:32-34 | the author request is the users endpoint followed by a string that parses back to the user id |
| `Home.Filter` | src/Pages/Home.tsx:28-30 | `filter` keeps exactly the elements that pass, each only if present in the input, as an order-preserving subsequence no longer than the input |
| `Home.FilterMultiplicity` | src/Pages/Home.tsx:28-30 | a passing element is kept as many times as it occurs in the input; a failing one is never kept |
| `Home.FilterAppend` | src/Pages/Home.tsx:28-30 | filtering a concatenation is the concatenation of the filtered parts |
| `Home.FilterKeepsAll` | src/Pages/Home.tsx:28-30 | when every element passes, the filter returns its input |
| `Home.FilterPosts` | src/Pages/Home.tsx:28-30 | `filteredPosts` holds exactly the fetched posts whose lowercased title includes the lowercased search, as an order-preserving subsequence |
| `Home.FilterEmptySearch` | src/Pages/Home.tsx:28-30 | with the empty search, `filteredPosts` equals the fetched posts |
| `Home.SearchAlphaExample` | src/Pages/Home.tsx:28-30 | searching "alpha" over titles "Alpha", "Beta", "Alpha Two" keeps exactly the first and third posts |
| `Home.MatchesIgnoresCase` | src/Pages/Home.tsx:29 | lowercasing the search text beforehand, or the post's title, changes no match |
| `Home.VisiblePosts` | src/Pages/Home.tsx:32 | `visiblePosts` is a prefix of `filteredPosts` of length min(visibleCount, number of matches) |
| `Home.LoadMoreShownIffPostsHidden` | src/Pages/Home.tsx:118 | the "Load More" button shows exactly when some matching post is not yet visible |
| `Home.ClicksToShowAll` | src/Pages/Home.tsx:34-36 | for n matches, the computed number of clicks is the least one after which 6 + 6k is no longer below n, so the button is gone |
| `Home.Preview` | src/Pages/Home.tsx:104 | a card's text is a prefix of the body of length min(100, body length) followed by "..." |
| `Home.RenderListing` | src/Pages/Home.tsx:38-118 | the spinner shows exactly while loading; otherwise the error text shows exactly when the error is non-empty; otherwise card i shows the i-th match, there are min(counter, matches) cards, and the button shows exactly when fewer cards than matches are shown |
| `Home.GridShowsOnlyMatches` | src/Pages/Home.tsx:90-114 | every card on the grid shows a fetched post that matches the search |
| `Home.ListingScreen.constructor` | src/Pages/Home.tsx:14-18 | the screen starts with no posts, an empty search, loading on, no error and 6 visible, and renders the spinner |
| `Home.ListingScreen.SettleFetch` | src/Pages/Home.tsx:20-26 | success stores the posts, failure stores "Failed to fetch posts", and loading is cleared either way; search and counter are untouched; a failure renders only the error text |
| `Home.ListingScreen.HandleLoadMore` | src/Pages/Home.tsx:34-36 | the counter grows by exactly 6 and stays 6 + 6 × clicks; nothing else changes |
| `Home.ListingScreen.SetSearch` | src/Pages/Home.tsx:77-78 | only the search text changes, the counter is not reset, and the grid re-slices the new matches against the old counter |
| `PostDetails.RenderDetail` | src/Pages/PostDetails.tsx:45-94 | the loading text shows exactly while loading; otherwise "Post not found." shows exactly when there is no post; otherwise the post's title and body show, with "Written by" and the author's name exactly when an author is stored |
| `PostDetails.RunFetchPost` | src/Pages/PostDetails.tsx:25-41 | a run always requests the route's post first; a failed post response leaves the stored post and author as they were and issues nothing more; an arrived post is stored and the second request is the author URL for its `userId`; the author is replaced by the fetched one exactly when both requests succeed, and kept otherwise |
| `PostDetails.PostFailureRendersNotFound` | src/Pages/PostDetails.tsx:26-57 | a first run whose post request fails renders "Post not found." and issues no author request |
| `PostDetails.AuthorFailureRendersPostWithoutByline` | src/Pages/PostDetails.tsx:30-36 | a first run whose author request fails keeps the post and renders it without the "Written by" line |
| `PostDetails.BothSucceedRendersByline` | src/Pages/PostDetails.tsx:30-35 | a first run where both requests succeed renders the post with its author's name |
| `PostDetails.AuthorRequestUsesPostUserId` | src/Pages/PostDetails.tsx:33 | the author request names the fetched post's `userId`, whatever the route id was |
| `PostDetails.FailedRefetchKeepsOldPost` | src/Pages/PostDetails.tsx:24-43 | a re-run whose post request fails renders the previous post and author unchanged |
| `PostDetails.RefetchKeepsStaleAuthor` | src/Pages/PostDetails.tsx:24-43 | a re-run whose new post arrives but whose author request fails shows the new post under the previous author |
| `PostDetails.DetailScreen.constructor` | src/Pages/PostDetails.tsx:20-22 | the screen starts with no post, no author and loading on, and renders the loading text |
| `PostDetails.DetailScreen.Start` | src/Pages/PostDetails.tsx:25-29 | a run issues the post request for the route id and resets nothing |
| `PostDetails.DetailScreen.ReceivePost` | src/Pages/PostDetails.tsx:27-40 | on success the post is stored at once and the author request is issued with its `userId`; on failure only `loading` is cleared and the run ends |
| `PostDetails.DetailScreen.ReceiveAuthor` | src/Pages/PostDetails.tsx:32-40 | on success the author is stored; either way `loading` is cleared, the run ends, and the post is rendered |
| `PostDetails.DetailScreen.FetchPost` | src/Pages/PostDetails.tsx:25-42 | a whole run leaves the fields as `RunFetchPost` says, issues its requests, and clears `loading` exactly once |
| `PostDetails.DetailScreen.RouteChanged` | src/Pages/PostDetails.tsx:24-43 | a new id re-runs `fetchPost` from the stored fields without resetting them; the same id changes nothing |
| `ScrollUpButton.AfterScrollsSnoc` | src/ScrollUpButton.tsx:9-12 | after a scroll event at y, visibility is `y > 300` whatever came before |
| `ScrollUpButton.OnlyLastOffsetMatters` | src/ScrollUpButton.tsx:9-12 | after any non-empty sequence of offsets, visibility depends on the last offset alone |
| `ScrollUpButton.ScrollToTop` | src/ScrollUpButton.tsx:17-19 | the click always asks for a smooth scroll to offset 0 |
| `ScrollUpButton.RenderButton` | src/ScrollUpButton.tsx:23 | the button is rendered exactly when `visible` is true, and its click targets offset 0 |
| `ScrollUpButton.ScrollButton.constructor` | src/ScrollUpButton.tsx:6 | the button starts hidden and not subscribed |
| `ScrollUpButton.ScrollButton.Mount` | src/ScrollUpButton.tsx:13 | mount adds the listener, once |
| `ScrollUpButton.ScrollButton.OnScroll` | src/ScrollUpButton.tsx:9-12 | while subscribed, an event at y sets `visible` to `y > 300`, so y = 300 hides the button; when unsubscribed nothing changes |
| `ScrollUpButton.ScrollButton.Unmount` | src/ScrollUpButton.tsx:14 | unmount removes the listener, after which no scroll event changes the state |

## Left out

- Network I/O: every request's result is an input (`Outcome`), and the detail screen's author server is a function from user id to outcome. A response body that is not the expected shape is not modelled.
- Overlapping detail runs: `Start`, `FetchPost` and `RouteChanged` require that no run is in flight. An id change while a request is pending, with its races between stale and fresh responses, is not modelled.
- A response that arrives after unmount is not modelled. React ignores such updates.
- React's scheduling is not modelled: state updates apply at once, and re-renders are not modelled. Each render is a pure function of the stored fields.
- Text.Lower: lowercases ASCII letters only, not the full Unicode case mapping of `toLowerCase`.
- Home.Preview: counts characters as Unicode scalar values, while JavaScript's `slice` counts UTF-16 code units.
- Numbers are unbounded integers, and ids are printed in plain decimal. JavaScript numbers are 64-bit floats: their range, their precision above 2^53, the exponent form a template literal uses for magnitudes of 10^21 and more, non-integral ids and fractional `scrollY` values are not modelled. `IntToStringRoundTrip`, `PostPath` and `UserUrl` hold for this integer model only.
- The router in `src/App.tsx` is not part of this model. It maps `/` and `/post/:id` to the screens.
- Animation, CSS classes, layout, icons, smooth-scroll easing and the `console.error` call are not modelled. The scroll request records only its target and that it is smooth.
