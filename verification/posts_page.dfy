/**
 * The public post list: the search, location and hashtag filters, the
 * hashtag catalogue, and what each card shows.
 */
module PostsPage {
  import Strings
  import Seqs

  datatype ListedPost = ListedPost(id: int, title: string, address: string, hashtags: seq<string>, imageUrls: seq<string>)

  /** The filter inputs: search text, selected location (`"all"` for none) and selected hashtag (`""` for none). */
  datatype Filters = Filters(searchTerm: string, location: string, hashtag: string)

  const AllLocations := "all"
  const NoImage := "/no-image.png"
  const ShownTagCount := 3

  /** No filter selected. */
  const NoFilters := Filters("", AllLocations, "")

  /** The title contains the search text, ignoring ASCII case. */
  predicate MatchesSearch(p: ListedPost, term: string) {
    Strings.Contains(Strings.Lower(p.title), Strings.Lower(term))
  }

  predicate MatchesLocation(p: ListedPost, location: string) {
    location == AllLocations || Strings.Contains(p.address, location)
  }

  predicate TagMatches(tag: string, hashtag: string) {
    Strings.Contains(Strings.Lower(tag), Strings.Lower(hashtag))
  }

  /** No hashtag selected, or some tag of the post contains it, ignoring ASCII case. */
  predicate MatchesHashtag(p: ListedPost, hashtag: string) {
    hashtag == "" || exists i :: 0 <= i < |p.hashtags| && TagMatches(p.hashtags[i], hashtag)
  }

  predicate Matches(p: ListedPost, f: Filters) {
    MatchesSearch(p, f.searchTerm) && MatchesLocation(p, f.location) && MatchesHashtag(p, f.hashtag)
  }

  /** The test `post => Matches(post, f)`. */
  function MatchesAll(f: Filters): ListedPost -> bool {
    (p: ListedPost) => Matches(p, f)
  }

  /**
   * `filteredPosts`: the posts passing all three filters, in their original
   * order and with every copy of a passing post kept.
   */
  function FilteredPosts(posts: seq<ListedPost>, f: Filters): (r: seq<ListedPost>)
    ensures |r| <= |posts|
    ensures forall i :: 0 <= i < |r| ==> Matches(r[i], f) && r[i] in posts
    ensures forall i :: 0 <= i < |posts| && Matches(posts[i], f) ==> posts[i] in r
    ensures Seqs.IsSubsequence(r, posts)
    ensures Seqs.KeepsCounts(r, posts, MatchesAll(f))
  {
    Seqs.FilterIsSubsequence(posts, MatchesAll(f));
    Seqs.FilterCounts(posts, MatchesAll(f));
    Seqs.Filter(posts, MatchesAll(f))
  }

  /** With no filter selected every post is listed. */
  lemma NoFiltersKeepAll(posts: seq<ListedPost>)
    ensures FilteredPosts(posts, NoFilters) == posts
  {
    assert Strings.Lower("") == "";
    forall i | 0 <= i < |posts| ensures Matches(posts[i], NoFilters) {
      Strings.ContainsEmpty(Strings.Lower(posts[i].title));
    }
    Seqs.FilterKeepsAll(posts, MatchesAll(NoFilters));
  }

  /** Typing the search or hashtag text in lower case lists the same posts. */
  lemma FiltersIgnoreCase(posts: seq<ListedPost>, f: Filters)
    ensures var g := f.(searchTerm := Strings.Lower(f.searchTerm), hashtag := Strings.Lower(f.hashtag));
      FilteredPosts(posts, g) == FilteredPosts(posts, f)
  {
    var g := f.(searchTerm := Strings.Lower(f.searchTerm), hashtag := Strings.Lower(f.hashtag));
    Strings.LowerIdempotent(f.searchTerm);
    Strings.LowerIdempotent(f.hashtag);
    assert f.hashtag == "" <==> Strings.Lower(f.hashtag) == "";
    forall i | 0 <= i < |posts| ensures MatchesAll(g)(posts[i]) == MatchesAll(f)(posts[i]) {
      assert Matches(posts[i], g) == Matches(posts[i], f);
    }
    Seqs.FilterSameTest(posts, MatchesAll(g), MatchesAll(f));
  }

  /** Some post carries the tag `t`. */
  predicate Tagged(posts: seq<ListedPost>, t: string)
  {
    exists i :: 0 <= i < |posts| && t in posts[i].hashtags
  }

  /** `posts.flatMap(p => p.hashtags)`. */
  function AllTags(posts: seq<ListedPost>): (tags: seq<string>)
    ensures forall i, j :: 0 <= i < |posts| && 0 <= j < |posts[i].hashtags| ==> posts[i].hashtags[j] in tags
    ensures forall t :: t in tags ==> Tagged(posts, t)
    decreases |posts|
  {
    if posts == [] then []
    else
      var rest := AllTags(posts[1..]);
      assert forall t :: t in rest ==> Tagged(posts, t) by {
        forall t | t in rest ensures Tagged(posts, t) {
          var i :| 0 <= i < |posts[1..]| && t in posts[1..][i].hashtags;
          assert posts[i + 1] == posts[1..][i];
        }
      }
      assert forall i, j :: 1 <= i < |posts| && 0 <= j < |posts[i].hashtags| ==> posts[i].hashtags[j] in rest by {
        forall i, j | 1 <= i < |posts| && 0 <= j < |posts[i].hashtags| ensures posts[i].hashtags[j] in rest {
          assert posts[i] == posts[1..][i - 1];
        }
      }
      assert forall t :: t in posts[0].hashtags ==> Tagged(posts, t);
      posts[0].hashtags + rest
  }

  /** The first position of `x` in `s`. */
  function FirstIndex<T(==)>(s: seq<T>, x: T): (k: nat)
    requires x in s
    ensures k < |s| && s[k] == x
    ensures forall i :: 0 <= i < k ==> s[i] != x
  {
    if s[0] == x then 0 else 1 + FirstIndex(s[1..], x)
  }

  /** Appending to a list does not move the first occurrence of something already in it. */
  lemma FirstIndexAppend<T>(s: seq<T>, y: T, x: T)
    requires x in s
    ensures FirstIndex(s + [y], x) == FirstIndex(s, x)
  {
    var k1 := FirstIndex(s, x);
    var k2 := FirstIndex(s + [y], x);
    assert (s + [y])[k1] == x;
  }

  /**
   * `Array.from(new Set(s))`: each element once, in the order of its first
   * occurrence.
   */
  function Dedup<T(==,!new)>(s: seq<T>): (r: seq<T>)
    ensures forall x :: x in r <==> x in s
    ensures forall i, j :: 0 <= i < j < |r| ==> r[i] != r[j]
    ensures forall i, j :: 0 <= i < j < |r| ==> FirstIndex(s, r[i]) < FirstIndex(s, r[j])
    decreases |s|
  {
    if s == [] then []
    else
      var init := s[..|s| - 1];
      var x := s[|s| - 1];
      var d := Dedup(init);
      assert s == init + [x];
      DedupStep(init, x, d);
      if x in d then d else d + [x]
  }

  /** One step of `Dedup`: adding `x` at the end of the input. */
  lemma DedupStep<T>(init: seq<T>, x: T, d: seq<T>)
    requires forall y :: y in d <==> y in init
    requires forall i, j :: 0 <= i < j < |d| ==> FirstIndex(init, d[i]) < FirstIndex(init, d[j])
    ensures forall i :: 0 <= i < |d| ==> FirstIndex(init + [x], d[i]) == FirstIndex(init, d[i]) < |init|
    ensures x !in d ==> FirstIndex(init + [x], x) == |init|
  {
    forall i | 0 <= i < |d| ensures FirstIndex(init + [x], d[i]) == FirstIndex(init, d[i]) < |init| {
      FirstIndexAppend(init, x, d[i]);
    }
    if x !in d {
      assert x !in init;
      assert (init + [x])[|init|] == x;
    }
  }

  /** `allHashtags`: every tag of every post, each exactly once, in order of first appearance. */
  function AllHashtags(posts: seq<ListedPost>): (tags: seq<string>)
    ensures forall i, j :: 0 <= i < |posts| && 0 <= j < |posts[i].hashtags| ==> posts[i].hashtags[j] in tags
    ensures forall t :: t in tags ==> Tagged(posts, t)
    ensures forall i, j :: 0 <= i < j < |tags| ==> tags[i] != tags[j]
    ensures forall t :: t in tags ==> t in AllTags(posts)
    ensures forall i, j :: 0 <= i < j < |tags| ==> FirstIndex(AllTags(posts), tags[i]) < FirstIndex(AllTags(posts), tags[j])
  {
    var all := AllTags(posts);
    var d := Dedup(all);
    assert forall t :: t in d <==> t in all;
    d
  }

  /** The card picture: the first image, or the placeholder when there is none. */
  function CardImage(p: ListedPost): (url: string)
    ensures p.imageUrls != [] ==> url == p.imageUrls[0]
    ensures p.imageUrls == [] ==> url == NoImage
    ensures url in p.imageUrls || url == NoImage
  {
    if |p.imageUrls| > 0 then p.imageUrls[0] else NoImage
  }

  /** The tags printed on a card: the first three. */
  function ShownTags(p: ListedPost): (tags: seq<string>)
    ensures |tags| == if |p.hashtags| < ShownTagCount then |p.hashtags| else ShownTagCount
    ensures tags == p.hashtags[..|tags|]
  {
    if |p.hashtags| <= ShownTagCount then p.hashtags else p.hashtags[..ShownTagCount]
  }
}
