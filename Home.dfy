/** The listing screen: the fetched posts, the live title search, the
    "Load More" pagination counter and the choice between spinner, error text
    and the grid of post cards. */
module Home {
  import opened Text
  import opened Api

  /** Posts shown before the first "Load More". */
  const InitialCount: nat := 6
  /** Posts added by each "Load More". */
  const BatchSize: nat := 6
  /** The message stored when the collection request fails. */
  const FetchError: string := "Failed to fetch posts"
  /** Characters of the body shown on a card. */
  const PreviewLength: nat := 100

  function Min(a: int, b: int): int
  {
    if a <= b then a else b
  }

  // ---------------------------------------------------------------------
  // Derived state: recomputed from the stored fields on every render.

  /** A post matches when its lowercased title includes the lowercased search text. */
  predicate Matches(p: Post, search: string)
  {
    Includes(Lower(p.title), Lower(search))
  }

  /** `xs` can be obtained from `ys` by deleting elements, keeping the order. */
  ghost predicate IsSubsequence<T>(xs: seq<T>, ys: seq<T>)
    decreases |ys|
  {
    xs == [] ||
    (ys != [] &&
      ((xs[0] == ys[0] && IsSubsequence(xs[1..], ys[1..])) || IsSubsequence(xs, ys[1..])))
  }

  /** `xs.filter(keep)`: the elements that pass, in their original order. */
  function Filter<T>(xs: seq<T>, keep: T -> bool): (r: seq<T>)
    ensures forall i :: 0 <= i < |r| ==> r[i] in xs && keep(r[i])
    ensures forall i :: 0 <= i < |xs| && keep(xs[i]) ==> xs[i] in r
    ensures IsSubsequence(r, xs)
    ensures |r| <= |xs|
  {
    if xs == [] then []
    else
      var rest := Filter(xs[1..], keep);
      if keep(xs[0]) then [xs[0]] + rest else rest
  }

  /** Each passing element is kept as many times as it occurs, and no other is kept. */
  lemma {:induction false} FilterMultiplicity<T>(xs: seq<T>, keep: T -> bool, x: T)
    ensures multiset(Filter(xs, keep))[x] == if keep(x) then multiset(xs)[x] else 0
  {
    if xs != [] {
      FilterMultiplicity(xs[1..], keep, x);
      assert xs == [xs[0]] + xs[1..];
    }
  }

  /** Filtering a concatenation filters each part: with the one-element case this
      pins Filter down completely. */
  lemma {:induction false} FilterAppend<T>(a: seq<T>, b: seq<T>, keep: T -> bool)
    ensures Filter(a + b, keep) == Filter(a, keep) + Filter(b, keep)
  {
    if a == [] {
      assert a + b == b;
    } else {
      assert (a + b)[0] == a[0];
      assert (a + b)[1..] == a[1..] + b;
      FilterAppend(a[1..], b, keep);
    }
  }

  /** When every element passes, nothing is dropped. */
  lemma {:induction false} FilterKeepsAll<T>(xs: seq<T>, keep: T -> bool)
    requires forall i :: 0 <= i < |xs| ==> keep(xs[i])
    ensures Filter(xs, keep) == xs
  {
    if xs != [] {
      FilterKeepsAll(xs[1..], keep);
    }
  }

  /** `filteredPosts`: the fetched posts whose title matches the search, in fetched order. */
  function FilterPosts(posts: seq<Post>, search: string): (r: seq<Post>)
    ensures forall p :: p in r <==> p in posts && Matches(p, search)
    ensures IsSubsequence(r, posts)
  {
    Filter(posts, p => Matches(p, search))
  }

  /** An empty search keeps every post, since every title includes "". */
  lemma FilterEmptySearch(posts: seq<Post>)
    ensures FilterPosts(posts, "") == posts
  {
    forall i | 0 <= i < |posts| ensures Matches(posts[i], "") {
      IncludesEmpty(Lower(posts[i].title));
    }
    FilterKeepsAll(posts, p => Matches(p, ""));
  }

  /** Searching "alpha" over titles "Alpha", "Beta", "Alpha Two" keeps the first
      and the third post, whatever their case. */
  lemma SearchAlphaExample(b: string)
    ensures
      var a1 := Post(1, "Alpha", b, 1);
      var b2 := Post(2, "Beta", b, 1);
      var a3 := Post(3, "Alpha Two", b, 2);
      FilterPosts([a1, b2, a3], "alpha") == [a1, a3]
  {
    var a1 := Post(1, "Alpha", b, 1);
    var b2 := Post(2, "Beta", b, 1);
    var a3 := Post(3, "Alpha Two", b, 2);
    assert Lower("alpha") == "alpha";
    assert Lower("Alpha") == "alpha";
    assert Lower("Beta") == "beta";
    assert Lower("Alpha Two") == "alpha two";
    assert Matches(a1, "alpha") by { assert OccursAt("alpha", "alpha", 0); }
    assert Matches(a3, "alpha") by { assert OccursAt("alpha", "alpha two", 0); }
    assert !Matches(b2, "alpha");
    var keep := (p: Post) => Matches(p, "alpha");
    assert [a3][1..] == [];
    assert Filter([a3], keep) == [a3];
    assert [b2, a3][1..] == [a3];
    assert Filter([b2, a3], keep) == [a3];
    assert [a1, b2, a3][1..] == [b2, a3];
    assert Filter([a1, b2, a3], keep) == [a1, a3];
  }

  /** Matching ignores the case of both the search text and the title:
      lowercasing either one beforehand changes nothing. */
  lemma MatchesIgnoresCase(p: Post, search: string)
    ensures Matches(p, search) == Matches(p, Lower(search))
    ensures Matches(p.(title := Lower(p.title)), search) == Matches(p, search)
  {
    LowerIdempotent(search);
    LowerIdempotent(p.title);
  }

  /** `visiblePosts = filteredPosts.slice(0, visibleCount)`. */
  function VisiblePosts(filtered: seq<Post>, visibleCount: nat): (r: seq<Post>)
    ensures |r| == Min(visibleCount, |filtered|)
    ensures r <= filtered
  {
    filtered[..Min(visibleCount, |filtered|)]
  }

  /** The "Load More" button is rendered while the counter is below the number of matches. */
  predicate ShowLoadMore(visibleCount: nat, filteredCount: nat)
  {
    visibleCount < filteredCount
  }

  /** The button is shown exactly when some matching post is still hidden. */
  lemma LoadMoreShownIffPostsHidden(filtered: seq<Post>, visibleCount: nat)
    ensures ShowLoadMore(visibleCount, |filtered|) <==> VisiblePosts(filtered, visibleCount) != filtered
  {
  }

  /** The number of "Load More" clicks after which all `n` matches are visible:
      the button is gone after that many clicks and was still there one click before. */
  function ClicksToShowAll(n: nat): (k: nat)
    ensures !ShowLoadMore(InitialCount + BatchSize * k, n)
    ensures k > 0 ==> ShowLoadMore(InitialCount + BatchSize * (k - 1), n)
  {
    if n <= InitialCount then 0 else 1 + ClicksToShowAll(n - BatchSize)
  }

  /** `post.body.slice(0, 100)` followed by "...". */
  function Preview(body: string): (r: string)
    ensures |r| == Min(PreviewLength, |body|) + 3
    ensures r[..|r| - 3] <= body
    ensures r[|r| - 3..] == "..."
  {
    body[..Min(PreviewLength, |body|)] + "..."
  }

  /** What a card in the grid shows: keyed by the post id, its title, the
      body preview and the "Read More" link target. */
  datatype Card = Card(key: int, title: string, preview: string, link: string)

  function CardOf(p: Post): Card
  {
    Card(p.id, p.title, Preview(p.body), PostPath(p.id))
  }

  /** Which of the three screens the listing renders. */
  datatype ListingView =
    | Spinner
    | ErrorText(message: string)
    | Grid(cards: seq<Card>, loadMore: bool)

  /** The render: spinner while loading; else the error text when the error is
      non-empty; else one card per visible post and the "Load More" button when
      matches remain hidden. */
  function RenderListing(loading: bool, error: string, posts: seq<Post>, search: string, visibleCount: nat): (v: ListingView)
    ensures v.Spinner? <==> loading
    ensures v.ErrorText? <==> !loading && error != ""
    ensures v.ErrorText? ==> v.message == error
    ensures v.Grid? ==>
      var filtered := FilterPosts(posts, search);
      && |v.cards| == Min(visibleCount, |filtered|)
      && (forall i :: 0 <= i < |v.cards| ==> v.cards[i] == CardOf(filtered[i]))
      && (v.loadMore <==> |v.cards| < |filtered|)
  {
    if loading then Spinner
    else if error != "" then ErrorText(error)
    else
      var filtered := FilterPosts(posts, search);
      var visible := VisiblePosts(filtered, visibleCount);
      Grid(seq(|visible|, i requires 0 <= i < |visible| => CardOf(visible[i])),
           ShowLoadMore(visibleCount, |filtered|))
  }

  /** Every card on the grid belongs to a fetched post that matches the search. */
  lemma GridShowsOnlyMatches(posts: seq<Post>, search: string, visibleCount: nat, c: Card)
    requires RenderListing(false, "", posts, search, visibleCount).Grid?
    requires c in RenderListing(false, "", posts, search, visibleCount).cards
    ensures exists p :: p in posts && Matches(p, search) && c == CardOf(p)
  {
    var v := RenderListing(false, "", posts, search, visibleCount);
    var filtered := FilterPosts(posts, search);
    var i :| 0 <= i < |v.cards| && v.cards[i] == c;
    assert filtered[i] in filtered;
  }

  // ---------------------------------------------------------------------
  // Stored state and the handlers that update it.

  /** The listing component's state fields. */
  class ListingScreen {
    var posts: seq<Post>
    var search: string
    var loading: bool
    var error: string
    var visibleCount: nat
    /** How many times "Load More" was clicked. */
    ghost var loadMoreClicks: nat

    /** The counter is 6 + 6 * clicks; an error is only ever the fetch-failure
        text, and is only present once loading is over. */
    ghost predicate Valid()
      reads this
    {
      && visibleCount == InitialCount + BatchSize * loadMoreClicks
      && (error != "" ==> error == FetchError && !loading)
    }

    /** The current render of the screen. */
    function View(): ListingView
      reads this
    {
      RenderListing(loading, error, posts, search, visibleCount)
    }

    /** The initial `useState` values: no posts, empty search, loading, no error, 6 visible. */
    constructor ()
      ensures Valid()
      ensures posts == [] && search == "" && loading && error == ""
      ensures visibleCount == InitialCount && loadMoreClicks == 0
      ensures View() == Spinner
    {
      posts, search, loading, error, visibleCount := [], "", true, "", InitialCount;
      loadMoreClicks := 0;
    }

    /** The settlement of the mount-time collection request: `then` stores the posts,
        `catch` stores the error text, `finally` clears `loading` either way. */
    method SettleFetch(outcome: Outcome<seq<Post>>)
      requires Valid()
      modifies this
      ensures Valid()
      ensures outcome.Ok? ==> posts == outcome.value && error == old(error)
      ensures outcome.Failed? ==> posts == old(posts) && error == FetchError
      ensures !loading
      ensures search == old(search) && visibleCount == old(visibleCount)
      ensures loadMoreClicks == old(loadMoreClicks)
      ensures outcome.Failed? ==> View() == ErrorText(FetchError)
      ensures outcome.Ok? && old(error) == "" ==> View().Grid?
    {
      match outcome {
        case Ok(fetched) =>
          posts := fetched;
        case Failed =>
          error := FetchError;
      }
      loading := false;
    }

    /** `handleLoadMore`: six more posts are allowed on screen. */
    method HandleLoadMore()
      requires Valid()
      modifies this
      ensures Valid()
      ensures visibleCount == old(visibleCount) + BatchSize
      ensures loadMoreClicks == old(loadMoreClicks) + 1
      ensures posts == old(posts) && search == old(search)
      ensures loading == old(loading) && error == old(error)
    {
      visibleCount := visibleCount + BatchSize;
      loadMoreClicks := loadMoreClicks + 1;
    }

    /** The search box's `onChange`: only the search text changes; the counter is
        not reset, so the grid re-slices the new matches against the old counter. */
    method SetSearch(text: string)
      requires Valid()
      modifies this`search
      ensures Valid()
      ensures search == text
      ensures View().Grid? ==>
        |View().cards| == Min(visibleCount, |FilterPosts(posts, text)|)
    {
      search := text;
    }
  }
}
