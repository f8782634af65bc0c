/**
 * The my-page view: the district shown for an address, participant-count
 * defaults for fetched posts, and the post editor (image list, save, delete).
 */
module MyPage {
  import opened Wrappers
  import Strings
  import Seqs
  import opened ImageList

  const NoRegion := "지역 미정"
  const UnknownRegion := "지역 정보 없음"

  /** A word ending in 시, 군 or 구: a city, county or district. */
  predicate IsDistrict(word: string) {
    Strings.EndsWith(word, "시") || Strings.EndsWith(word, "군") || Strings.EndsWith(word, "구")
  }

  /** A word ending in 시 or 도: a city or province. */
  predicate IsProvince(word: string) {
    Strings.EndsWith(word, "시") || Strings.EndsWith(word, "도")
  }

  /** `extractSigungu`, branch for branch. */
  function ExtractSigungu(address: string): (r: string)
    ensures address == "" ==> r == NoRegion
    ensures address != "" && r != UnknownRegion ==> r in Strings.Split(address, ' ') && r != "" && ' ' !in r
    ensures var parts := Strings.Split(address, ' ');
      address != "" && |parts| >= 2 && IsDistrict(parts[1]) ==> r == parts[1]
    ensures var parts := Strings.Split(address, ' ');
      address != "" && !(|parts| >= 2 && IsDistrict(parts[1])) ==> r == if parts[0] != "" then parts[0] else UnknownRegion
  {
    if address == "" then NoRegion
    else
      var parts := Strings.Split(address, ' ');
      if |parts| >= 2 && parts[1] != "" && IsDistrict(parts[1]) then parts[1]
      else if |parts| >= 2 && parts[0] != "" && IsProvince(parts[0]) then parts[0]
      else if parts[0] != "" then parts[0]
      else UnknownRegion
  }

  /** A reference reading of the rule: the second word if it names a district, else the first word. */
  function SimpleSigungu(address: string): string {
    if address == "" then NoRegion
    else
      var parts := Strings.Split(address, ' ');
      if |parts| >= 2 && IsDistrict(parts[1]) then parts[1]
      else if parts[0] != "" then parts[0]
      else UnknownRegion
  }

  /**
   * The province test on the first word changes nothing, since both of its
   * outcomes return the first word; neither does the emptiness test on the
   * second, since a word ending in 시/군/구 is never empty.
   */
  lemma ExtractSigunguIsSimple(address: string)
    ensures ExtractSigungu(address) == SimpleSigungu(address)
  {
  }

  /** `hashtags` as a list, or as the raw text typed in the editor. */
  datatype Hashtags = TagList(tags: seq<string>) | TagText(text: string)

  /** The fields of a listed post the page reads; absent counts are `None`. */
  datatype MyPost = MyPost(
    id: int,
    title: string,
    address: string,
    hashtags: Hashtags,
    imageUrls: seq<string>,
    currentParticipants: Option<int>,
    maxParticipants: Option<int>)

  /** `value || fallback` on an optional number: absent and 0 are falsy. */
  function OrDefault(value: Option<int>, fallback: int): (r: int)
    ensures value.Some? && value.value != 0 ==> r == value.value
    ensures !(value.Some? && value.value != 0) ==> r == fallback
  {
    if value.Some? && value.value != 0 then value.value else fallback
  }

  /** A fetched post with 1 current and 4 maximum participants filled in when missing or 0. */
  function WithParticipantDefaults(p: MyPost): (q: MyPost)
    ensures q.currentParticipants.Some? && q.currentParticipants.value != 0
    ensures q.maxParticipants.Some? && q.maxParticipants.value != 0
    ensures p.currentParticipants.Some? && p.currentParticipants.value != 0 ==> q.currentParticipants == p.currentParticipants
    ensures !(p.currentParticipants.Some? && p.currentParticipants.value != 0) ==> q.currentParticipants == Some(1)
    ensures p.maxParticipants.Some? && p.maxParticipants.value != 0 ==> q.maxParticipants == p.maxParticipants
    ensures !(p.maxParticipants.Some? && p.maxParticipants.value != 0) ==> q.maxParticipants == Some(4)
    ensures q.(currentParticipants := p.currentParticipants, maxParticipants := p.maxParticipants) == p
  {
    p.(currentParticipants := Some(OrDefault(p.currentParticipants, 1)),
       maxParticipants := Some(OrDefault(p.maxParticipants, 4)))
  }

  /** Filling in defaults twice is the same as once. */
  lemma DefaultsIdempotent(p: MyPost)
    ensures WithParticipantDefaults(WithParticipantDefaults(p)) == WithParticipantDefaults(p)
  {
  }

  /** The fetched list with defaults filled in; an absent response body gives the empty list. */
  function WithDefaults(response: Option<seq<MyPost>>): (posts: seq<MyPost>)
    ensures response.None? ==> posts == []
    ensures response.Some? ==> |posts| == |response.value|
    ensures response.Some? ==> forall i :: 0 <= i < |posts| ==> posts[i] == WithParticipantDefaults(response.value[i])
  {
    if response.None? then [] else Seqs.Map(response.value, WithParticipantDefaults)
  }

  predicate NotBlob(url: string) {
    !IsBlob(url)
  }

  /** The previews that already live on the server, in order. */
  function ExistingUrls(previews: seq<string>): (urls: seq<string>)
    ensures NoBlobs(urls)
    ensures forall i :: 0 <= i < |previews| && !IsBlob(previews[i]) ==> previews[i] in urls
    ensures Seqs.IsSubsequence(urls, previews)
  {
    Seqs.FilterIsSubsequence(previews, NotBlob);
    Seqs.Filter(previews, NotBlob)
  }

  /** The kept server images followed by the newly uploaded ones. */
  function FinalUrls(previews: seq<string>, uploaded: seq<string>): seq<string> {
    ExistingUrls(previews) + uploaded
  }

  /** `s.filter(url => url !== m)`. */
  function Without(s: seq<string>, m: string): (r: seq<string>)
    ensures m !in r
    ensures forall i :: 0 <= i < |r| ==> r[i] in s
    ensures forall i :: 0 <= i < |s| && s[i] != m ==> s[i] in r
    decreases |s|
  {
    if s == [] then [] else (if s[0] == m then [] else [s[0]]) + Without(s[1..], m)
  }

  /** `filter` keeps order: `Without(s, m)` is an order-preserving sublist of `s`. */
  lemma {:induction false} WithoutKeepsOrder(s: seq<string>, m: string)
    ensures Seqs.IsSubsequence(Without(s, m), s)
    decreases |s|
  {
    if s != [] {
      WithoutKeepsOrder(s[1..], m);
      var r, rest := Without(s, m), Without(s[1..], m);
      if s[0] == m {
        assert r == rest;
      } else {
        assert r == [s[0]] + rest;
        assert r[0] == s[0] && r[1..] == rest;
      }
    }
  }

  /** `filter` keeps multiplicity: exactly the copies of `m` are left out. */
  lemma {:induction false} WithoutCounts(s: seq<string>, m: string)
    ensures multiset(Without(s, m)) == multiset(s)[m := 0]
    decreases |s|
  {
    if s != [] {
      WithoutCounts(s[1..], m);
      assert s == [s[0]] + s[1..];
      CountsStep(s[0], s[1..], Without(s[1..], m), m);
    }
  }

  lemma CountsStep(x: string, tail: seq<string>, kept: seq<string>, m: string)
    requires multiset(kept) == multiset(tail)[m := 0]
    ensures multiset((if x == m then [] else [x]) + kept) == multiset([x] + tail)[m := 0]
  {
    assert multiset([x] + tail) == multiset{x} + multiset(tail);
  }

  /**
   * After the first URL, `r` holds every URL of `all` other than the first,
   * as many times as `all` does, in the order of `all`.
   */
  predicate RestInOrder(r: seq<string>, all: seq<string>)
    requires |r| >= 1
  {
    Seqs.IsSubsequence(r[1..], all) && multiset(r[1..]) == multiset(all)[r[0] := 0]
  }

  /** `[m, ...all.filter(url => url !== m)]`: `m` first, then the rest of `all` in order. */
  function PutFirst(all: seq<string>, m: string): (r: seq<string>)
    ensures |r| >= 1 && r[0] == m
    ensures forall i :: 1 <= i < |r| ==> r[i] != m && r[i] in all
    ensures forall i :: 0 <= i < |all| && all[i] != m ==> all[i] in r
    ensures RestInOrder(r, all)
  {
    var rest := Without(all, m);
    WithoutKeepsOrder(all, m);
    WithoutCounts(all, m);
    assert ([m] + rest)[1..] == rest;
    [m] + rest
  }

  /**
   * The image list `handlePostSave` sends, as written: the main preview's URL
   * first, then the other kept and uploaded URLs with every copy of it removed.
   */
  function OrderedImageUrls(previews: seq<string>, main: int, uploaded: seq<string>): (r: seq<string>)
    requires 0 <= main < |previews|
    ensures |r| >= 1 && r[0] == previews[main]
    ensures forall i :: 1 <= i < |r| ==> r[i] != r[0] && r[i] in FinalUrls(previews, uploaded)
    ensures var all := FinalUrls(previews, uploaded);
      forall i :: 0 <= i < |all| && all[i] != r[0] ==> all[i] in r
    ensures RestInOrder(r, FinalUrls(previews, uploaded))
  {
    PutFirst(FinalUrls(previews, uploaded), previews[main])
  }

  /**
   * When the main image is a file added in this edit, the list sent to the
   * server starts with the page-local `blob:` URL, and the uploaded copy of
   * that same image is sent second.
   */
  lemma NewMainImageSentAsBlob()
    ensures OrderedImageUrls(["blob:a"], 0, ["https://x/a.png"]) == ["blob:a", "https://x/a.png"]
    ensures IsBlob(OrderedImageUrls(["blob:a"], 0, ["https://x/a.png"])[0])
  {
    var previews := ["blob:a"];
    assert IsBlob(previews[0]) by {
      assert previews[0][..5] == "blob:";
    }
    assert ExistingUrls(previews) == [] by {
      assert Seqs.Filter(previews[1..], NotBlob) == [];
    }
    assert FinalUrls(previews, ["https://x/a.png"]) == ["https://x/a.png"];
    var w := Without(["https://x/a.png"], "blob:a");
    assert "https://x/a.png" != "blob:a" by {
      assert "https://x/a.png"[0] != "blob:a"[0];
    }
    assert w == ["https://x/a.png"] + Without([], "blob:a");
  }

  /**
   * The server URL of the main image: the preview itself when it is already
   * uploaded, otherwise the uploaded URL of the pending file behind it.
   */
  function MainUrl(previews: seq<string>, main: int, uploaded: seq<string>): (u: string)
    requires 0 <= main < |previews|
    requires |uploaded| == Seqs.Count(previews, IsBlob)
    ensures !IsBlob(previews[main]) ==> u == previews[main]
    ensures IsBlob(previews[main]) ==> FileIndex(previews, main) < |uploaded| && u == uploaded[FileIndex(previews, main)]
    ensures u in FinalUrls(previews, uploaded)
  {
    Seqs.FilterRemoveAt(previews, main, IsBlob);
    if IsBlob(previews[main]) then uploaded[FileIndex(previews, main)] else previews[main]
  }

  /**
   * The corrected ordering: the main image's server URL first, then every
   * other kept or uploaded URL. Nothing page-local is sent when the uploads
   * are server URLs.
   */
  function OrderedImageUrlsFixed(previews: seq<string>, main: int, uploaded: seq<string>): (r: seq<string>)
    requires 0 <= main < |previews|
    requires |uploaded| == Seqs.Count(previews, IsBlob)
    ensures |r| >= 1 && r[0] == MainUrl(previews, main, uploaded)
    ensures forall i :: 1 <= i < |r| ==> r[i] != r[0]
    ensures forall i :: 0 <= i < |r| ==> r[i] in FinalUrls(previews, uploaded)
    ensures var all := FinalUrls(previews, uploaded);
      forall i :: 0 <= i < |all| ==> all[i] in r
    ensures RestInOrder(r, FinalUrls(previews, uploaded))
    ensures NoBlobs(uploaded) ==> NoBlobs(r)
  {
    var r := PutFirst(FinalUrls(previews, uploaded), MainUrl(previews, main, uploaded));
    NoBlobsInFinal(previews, uploaded, r);
    r
  }

  lemma NoBlobsInFinal(previews: seq<string>, uploaded: seq<string>, r: seq<string>)
    requires forall i :: 0 <= i < |r| ==> r[i] in FinalUrls(previews, uploaded)
    ensures NoBlobs(uploaded) ==> NoBlobs(r)
  {
    if NoBlobs(uploaded) {
      var existing := ExistingUrls(previews);
      forall i | 0 <= i < |r| ensures !IsBlob(r[i]) {
        var j :| 0 <= j < |existing + uploaded| && (existing + uploaded)[j] == r[i];
        if j < |existing| {
          assert r[i] == existing[j];
        } else {
          assert r[i] == uploaded[j - |existing|];
        }
      }
    }
  }

  /** When the main image was already on the server, the correction changes nothing. */
  lemma FixAgreesForUploadedMain(previews: seq<string>, main: int, uploaded: seq<string>)
    requires 0 <= main < |previews| && |uploaded| == Seqs.Count(previews, IsBlob)
    requires !IsBlob(previews[main])
    ensures OrderedImageUrlsFixed(previews, main, uploaded) == OrderedImageUrls(previews, main, uploaded)
  {
  }

  /** A hashtag token: starts with `#` and has something after it. */
  predicate IsHashtag(token: string) {
    Strings.StartsWith(token, "#") && |token| > 1
  }

  /** Typed hashtags: the space-separated tokens that are hashtags, in order. */
  function ParseHashtags(text: string): (tags: seq<string>)
    ensures forall i :: 0 <= i < |tags| ==> IsHashtag(tags[i]) && ' ' !in tags[i]
    ensures var tokens := Strings.Split(text, ' ');
      forall i :: 0 <= i < |tokens| && IsHashtag(tokens[i]) ==> tokens[i] in tags
    ensures Seqs.IsSubsequence(tags, Strings.Split(text, ' '))
  {
    var tokens := Strings.Split(text, ' ');
    Seqs.FilterIsSubsequence(tokens, IsHashtag);
    var tags := Seqs.Filter(tokens, IsHashtag);
    assert forall i :: 0 <= i < |tags| ==> ' ' !in tags[i] by {
      forall i | 0 <= i < |tags| ensures ' ' !in tags[i] {
        var j :| 0 <= j < |tokens| && tokens[j] == tags[i];
      }
    }
    tags
  }

  /** Space-joined hashtags parse back to themselves. */
  lemma ParseJoinedHashtags(tags: seq<string>)
    requires |tags| >= 1
    requires forall i :: 0 <= i < |tags| ==> IsHashtag(tags[i]) && ' ' !in tags[i]
    ensures ParseHashtags(Strings.Join(tags, ' ')) == tags
  {
    Strings.SplitJoin(tags, ' ');
    Seqs.FilterKeepsAll(tags, IsHashtag);
  }

  /**
   * The hashtags sent on save, as written: typed text is parsed, a list is
   * sent as it is.
   */
  function HashtagsToSend(h: Hashtags): (tags: seq<string>)
    ensures h.TagList? ==> tags == h.tags
    ensures h.TagText? ==> tags == ParseHashtags(h.text)
  {
    match h
    case TagList(list) => list
    case TagText(text) => ParseHashtags(text)
  }

  /**
   * The editor's hashtag box stores the typed text split on spaces, so the
   * text branch above is never taken: words without `#`, a lone `#` and the
   * empty pieces between double spaces are all sent.
   */
  lemma TypedHashtagsSentRaw()
    ensures Strings.Split("#a  b", ' ') == ["#a", "", "b"]
    ensures HashtagsToSend(TagList(Strings.Split("#a  b", ' '))) == ["#a", "", "b"]
    ensures ParseHashtags("#a  b") == ["#a"]
  {
    assert Strings.Split("b", ' ') == ["b"] by {
      assert "b"[1..] == "" && Strings.Split("", ' ') == [""];
      assert ['b'] + "" == "b";
    }
    assert Strings.Split(" b", ' ') == ["", "b"] by {
      assert " b"[1..] == "b";
    }
    assert Strings.Split("  b", ' ') == ["", "", "b"] by {
      assert "  b"[1..] == " b";
    }
    assert Strings.Split("a  b", ' ') == ["a", "", "b"] by {
      assert "a  b"[1..] == "  b";
      assert ['a'] + "" == "a";
      assert ["", "", "b"][1..] == ["", "b"];
    }
    assert Strings.Split("#a  b", ' ') == ["#a", "", "b"] by {
      assert "#a  b"[1..] == "a  b";
      assert ['#'] + "a" == "#a";
      assert ["a", "", "b"][1..] == ["", "b"];
    }
    var tokens := ["#a", "", "b"];
    assert IsHashtag("#a") by {
      assert "#a"[..1] == "#";
    }
    assert !IsHashtag("b") by {
      assert "b"[0] != '#';
    }
    assert Seqs.Filter(tokens[2..], IsHashtag) == [];
    assert tokens[1..][1..] == tokens[2..];
    assert Seqs.Filter(tokens[1..], IsHashtag) == [];
  }

  /**
   * The hashtags the save evidently means to send: only hashtag tokens, in
   * order, whether the editor holds text or a list.
   */
  function HashtagsToSendFixed(h: Hashtags): (tags: seq<string>)
    ensures forall i :: 0 <= i < |tags| ==> IsHashtag(tags[i])
    ensures h.TagText? ==> tags == ParseHashtags(h.text)
    ensures h.TagList? ==> Seqs.IsSubsequence(tags, h.tags)
    ensures h.TagList? ==> forall i :: 0 <= i < |h.tags| && IsHashtag(h.tags[i]) ==> h.tags[i] in tags
  {
    match h
    case TagList(list) =>
      Seqs.FilterIsSubsequence(list, IsHashtag);
      Seqs.Filter(list, IsHashtag)
    case TagText(text) => ParseHashtags(text)
  }

  /** Typed text sent through the editor's list gives what the text branch would. */
  lemma FixedParsesTypedText(text: string)
    ensures HashtagsToSendFixed(TagList(Strings.Split(text, ' '))) == ParseHashtags(text)
    ensures HashtagsToSendFixed(TagList(Strings.Split(text, ' '))) == HashtagsToSendFixed(TagText(text))
  {
  }

  /** A list of well-formed hashtags is sent unchanged, as the code sends it. */
  lemma {:induction false} FixAgreesForHashtagLists(list: seq<string>)
    requires forall i :: 0 <= i < |list| ==> IsHashtag(list[i])
    ensures HashtagsToSendFixed(TagList(list)) == HashtagsToSend(TagList(list))
  {
    Seqs.FilterKeepsAll(list, IsHashtag);
  }

  /** The list after a successful update: posts with the returned id are replaced, nothing moves. */
  function ReplaceById(posts: seq<MyPost>, updated: MyPost): (r: seq<MyPost>)
    ensures |r| == |posts|
    ensures forall i :: 0 <= i < |r| ==> r[i].id == posts[i].id
    ensures forall i :: 0 <= i < |r| && posts[i].id != updated.id ==> r[i] == posts[i]
    ensures forall i :: 0 <= i < |r| && posts[i].id == updated.id ==> r[i] == updated
  {
    seq(|posts|, i requires 0 <= i < |posts| => if posts[i].id == updated.id then updated else posts[i])
  }

  lemma ReplaceByIdIdempotent(posts: seq<MyPost>, updated: MyPost)
    ensures ReplaceById(ReplaceById(posts, updated), updated) == ReplaceById(posts, updated)
  {
  }

  /** The test `p => p.id !== id`. */
  function OtherId(id: int): MyPost -> bool {
    (p: MyPost) => p.id != id
  }

  /**
   * `posts.filter(p => p.id !== id)`: every other post stays, in order and as
   * often as it was there.
   */
  function RemoveById(posts: seq<MyPost>, id: int): (r: seq<MyPost>)
    ensures |r| <= |posts|
    ensures forall i :: 0 <= i < |r| ==> r[i].id != id && r[i] in posts
    ensures forall i :: 0 <= i < |posts| && posts[i].id != id ==> posts[i] in r
    ensures Seqs.IsSubsequence(r, posts)
    ensures Seqs.KeepsCounts(r, posts, OtherId(id))
  {
    Seqs.FilterIsSubsequence(posts, OtherId(id));
    Seqs.FilterCounts(posts, OtherId(id));
    Seqs.Filter(posts, OtherId(id))
  }

  lemma {:induction false} RemoveByIdIdempotent(posts: seq<MyPost>, id: int)
    ensures RemoveById(RemoveById(posts, id), id) == RemoveById(posts, id)
    decreases |posts|
  {
    if posts != [] {
      RemoveByIdIdempotent(posts[1..], id);
      var rest := RemoveById(posts[1..], id);
      if posts[0].id == id {
        assert RemoveById(posts, id) == rest;
      } else {
        assert RemoveById(posts, id) == [posts[0]] + rest;
        assert ([posts[0]] + rest)[1..] == rest;
      }
    }
  }

  /** The editor's address fields. */
  datatype AddressData = AddressData(sido: string, sigungu: string, fullAddress: string)

  /** The address fields when editing starts: the first two words of the address. */
  function AddressFromPost(address: string): (a: AddressData)
    ensures a.fullAddress == address
    ensures address == "" ==> a.sido == "" && a.sigungu == ""
    ensures address != "" ==> a.sido == Strings.Before(address, ' ')
    ensures ' ' !in a.sido && ' ' !in a.sigungu
  {
    if address == "" then AddressData("", "", "")
    else
      var parts := Strings.Split(address, ' ');
      AddressData(parts[0], if |parts| >= 2 then parts[1] else "", address)
  }

  /** The update request built by `handlePostSave`. */
  datatype BoardRequest = BoardRequest(id: int, title: string, address: string, hashtags: seq<string>, boardImageList: seq<string>)

  datatype SaveOutcome =
    | NotEditing                       // no post is being edited
    | NoImages                         // alert: at least one image is needed
    | UploadFailed                     // an upload threw; alert
    | UpdateFailed(request: BoardRequest)
    | Saved(request: BoardRequest)

  /**
   * What `handlePostSave` does with the editor's post, address, previews and
   * main index, the upload step's result (`None` when it threw) and the
   * update's result (`None` when it failed): it stops when nothing is being
   * edited, when there is no image and when an upload fails; otherwise it
   * sends the request, with the corrected image order and only hashtag tokens.
   */
  function SaveDecision(
    editing: Option<MyPost>, address: string, previews: seq<string>, main: int,
    uploaded: Option<seq<string>>, updated: Option<MyPost>): (r: SaveOutcome)
    requires 0 <= main && (main < |previews| || main == 0)
    requires uploaded.Some? ==> |uploaded.value| == Seqs.Count(previews, IsBlob)
    ensures editing.None? <==> r == NotEditing
    ensures r == NoImages <==> editing.Some? && previews == []
    ensures r == UploadFailed <==> editing.Some? && previews != [] && uploaded.None?
    ensures r.Saved? <==> editing.Some? && previews != [] && uploaded.Some? && updated.Some?
    ensures r.UpdateFailed? <==> editing.Some? && previews != [] && uploaded.Some? && updated.None?
    ensures r.Saved? || r.UpdateFailed? ==>
      && 0 <= main < |previews|
      && r.request.id == editing.value.id && r.request.title == editing.value.title
      && r.request.address == address
      && r.request.hashtags == HashtagsToSendFixed(editing.value.hashtags)
      && r.request.boardImageList == OrderedImageUrlsFixed(previews, main, uploaded.value)
    ensures r.Saved? || r.UpdateFailed? ==> forall i :: 0 <= i < |r.request.hashtags| ==> IsHashtag(r.request.hashtags[i])
    ensures r.Saved? || r.UpdateFailed? ==> r.request.boardImageList[0] == MainUrl(previews, main, uploaded.value)
  {
    if editing.None? then NotEditing
    else if previews == [] then NoImages
    else if uploaded.None? then UploadFailed
    else
      var post := editing.value;
      var request := BoardRequest(
        post.id, post.title, address, HashtagsToSendFixed(post.hashtags),
        OrderedImageUrlsFixed(previews, main, uploaded.value));
      if updated.None? then UpdateFailed(request) else Saved(request)
  }

  /**
   * `handlePostSave` as written: the same outcomes as `SaveDecision`, but the
   * request carries `HashtagsToSend` and `OrderedImageUrls`, so its first
   * image is the main preview itself, a `blob:` URL for a newly added image.
   */
  function SaveDecisionAsWritten(
    editing: Option<MyPost>, address: string, previews: seq<string>, main: int,
    uploaded: Option<seq<string>>, updated: Option<MyPost>): (r: SaveOutcome)
    requires 0 <= main && (main < |previews| || main == 0)
    ensures editing.None? <==> r == NotEditing
    ensures r == NoImages <==> editing.Some? && previews == []
    ensures r == UploadFailed <==> editing.Some? && previews != [] && uploaded.None?
    ensures r.Saved? <==> editing.Some? && previews != [] && uploaded.Some? && updated.Some?
    ensures r.UpdateFailed? <==> editing.Some? && previews != [] && uploaded.Some? && updated.None?
    ensures r.Saved? || r.UpdateFailed? ==>
      && 0 <= main < |previews|
      && r.request.id == editing.value.id && r.request.title == editing.value.title
      && r.request.address == address
      && r.request.hashtags == HashtagsToSend(editing.value.hashtags)
      && r.request.boardImageList == OrderedImageUrls(previews, main, uploaded.value)
    ensures r.Saved? || r.UpdateFailed? ==> r.request.boardImageList[0] == previews[main]
  {
    if editing.None? then NotEditing
    else if previews == [] then NoImages
    else if uploaded.None? then UploadFailed
    else
      var post := editing.value;
      var request := BoardRequest(
        post.id, post.title, address, HashtagsToSend(post.hashtags),
        OrderedImageUrls(previews, main, uploaded.value));
      if updated.None? then UpdateFailed(request) else Saved(request)
  }

  /**
   * The corrected save sends what the code as written sends whenever the main
   * preview is a server URL and every stored tag is a hashtag.
   */
  lemma SaveFixAgreesAsWritten(
    editing: Option<MyPost>, address: string, previews: seq<string>, main: int,
    uploaded: Option<seq<string>>, updated: Option<MyPost>)
    requires 0 <= main && (main < |previews| || main == 0)
    requires uploaded.Some? ==> |uploaded.value| == Seqs.Count(previews, IsBlob)
    requires previews != [] ==> !IsBlob(previews[main])
    requires editing.Some? && editing.value.hashtags.TagList? ==>
      forall i :: 0 <= i < |editing.value.hashtags.tags| ==> IsHashtag(editing.value.hashtags.tags[i])
    ensures SaveDecision(editing, address, previews, main, uploaded, updated)
         == SaveDecisionAsWritten(editing, address, previews, main, uploaded, updated)
  {
    if editing.Some? && previews != [] && uploaded.Some? {
      FixAgreesForUploadedMain(previews, main, uploaded.value);
      if editing.value.hashtags.TagList? {
        FixAgreesForHashtagLists(editing.value.hashtags.tags);
      }
    }
  }

  /** Every field of the page's state, to say what each handler leaves as it was. */
  datatype PageState = PageState(
    myPosts: seq<MyPost>, participatedPosts: seq<MyPost>,
    editingPostId: Option<int>, editedPost: Option<MyPost>, addressData: AddressData,
    selectedImages: seq<ImageFile>, imagePreviewUrls: seq<string>, mainImageIndex: int)

  class MyPageView {
    var myPosts: seq<MyPost>
    var participatedPosts: seq<MyPost>
    var editingPostId: Option<int>
    var editedPost: Option<MyPost>
    var addressData: AddressData
    var selectedImages: seq<ImageFile>
    var imagePreviewUrls: seq<string>
    var mainImageIndex: int
    /** `URL.createObjectURL`, as a function of the file. */
    const createUrl: ImageFile -> string

    /** The page's state fields together. */
    function State(): PageState
      reads this
    {
      PageState(myPosts, participatedPosts, editingPostId, editedPost, addressData,
        selectedImages, imagePreviewUrls, mainImageIndex)
    }

    /** Every pending file has its blob preview, in order. */
    predicate Paired()
      reads this
    {
      ImageList.Paired(imagePreviewUrls, selectedImages, createUrl)
    }

    /** The main index points at a preview, or is 0. */
    predicate MainOk()
      reads this
    {
      0 <= mainImageIndex && (mainImageIndex < |imagePreviewUrls| || mainImageIndex == 0)
    }

    /** Object URLs always start with `blob:`. */
    ghost predicate UrlsAreBlobs() {
      forall f :: IsBlob(createUrl(f))
    }

    /** The initial `useState` values: empty lists, nothing edited, blank address, main index 0. */
    constructor(createUrl: ImageFile -> string)
      ensures this.createUrl == createUrl
      ensures State() == PageState([], [], None, None, AddressData("", "", ""), [], [], 0)
      ensures Paired() && MainOk()
    {
      this.createUrl := createUrl;
      myPosts := [];
      participatedPosts := [];
      editingPostId := None;
      editedPost := None;
      addressData := AddressData("", "", "");
      selectedImages := [];
      imagePreviewUrls := [];
      mainImageIndex := 0;
    }

    /** The two post-list requests; `None` is a failed request. */
    method LoadPosts(mine: Option<Option<seq<MyPost>>>, joined: Option<Option<seq<MyPost>>>)
      modifies this
      ensures myPosts == if mine.Some? then WithDefaults(mine.value) else []
      ensures participatedPosts == if joined.Some? then WithDefaults(joined.value) else []
      ensures State() == old(State()).(myPosts := myPosts, participatedPosts := participatedPosts)
    {
      myPosts := if mine.Some? then WithDefaults(mine.value) else [];
      participatedPosts := if joined.Some? then WithDefaults(joined.value) else [];
    }

    /** `handlePostEdit`: the editor starts from the post's images, with the first as main. */
    method EditPost(post: MyPost)
      modifies this
      ensures editingPostId == Some(post.id)
      ensures editedPost == Some(post.(hashtags := if post.hashtags.TagList? then post.hashtags else TagList([])))
      ensures imagePreviewUrls == post.imageUrls && selectedImages == [] && mainImageIndex == 0
      ensures addressData == AddressFromPost(post.address)
      ensures MainOk()
      ensures NoBlobs(post.imageUrls) ==> Paired()
      ensures myPosts == old(myPosts) && participatedPosts == old(participatedPosts)
    {
      editedPost := Some(post.(hashtags := if post.hashtags.TagList? then post.hashtags else TagList([])));
      imagePreviewUrls := post.imageUrls;
      selectedImages := [];
      mainImageIndex := 0;
      addressData := AddressFromPost(post.address);
      editingPostId := Some(post.id);
      if NoBlobs(post.imageUrls) {
        Seqs.FilterKeepsAll(post.imageUrls, NotBlob);
        NoneKept(post.imageUrls);
      }
    }

    /** The title box: the edited post takes the typed title. */
    method EditTitle(title: string)
      modifies this
      ensures editedPost == if old(editedPost).Some? then Some(old(editedPost).value.(title := title)) else None
      ensures State() == old(State()).(editedPost := editedPost)
    {
      if editedPost.Some? {
        editedPost := Some(editedPost.value.(title := title));
      }
    }

    /**
     * The hashtag box: the typed text is stored split on spaces, never as
     * text. The box is shown only while a post is being edited.
     */
    method EditHashtags(text: string)
      modifies this
      ensures editedPost == if old(editedPost).Some? then Some(old(editedPost).value.(hashtags := TagList(Strings.Split(text, ' ')))) else None
      ensures editedPost.Some? ==> editedPost.value.hashtags.TagList?
      ensures State() == old(State()).(editedPost := editedPost)
    {
      if editedPost.Some? {
        editedPost := Some(editedPost.value.(hashtags := TagList(Strings.Split(text, ' '))));
      }
    }

    /** `handleAddressComplete`: the picked address replaces the address fields; a missing part becomes `''`. */
    method SetAddress(sido: Option<string>, sigungu: Option<string>, address: Option<string>)
      modifies this
      ensures addressData.sido == (if sido.Some? then sido.value else "")
      ensures addressData.sigungu == (if sigungu.Some? then sigungu.value else "")
      ensures addressData.fullAddress == (if address.Some? then address.value else "")
      ensures State() == old(State()).(addressData := addressData)
    {
      addressData := AddressData(
        if sido.Some? then sido.value else "",
        if sigungu.Some? then sigungu.value else "",
        if address.Some? then address.value else "");
    }

    /** The file picker: all of the chosen files are added, or none when that would exceed five. */
    method AddImages(files: seq<ImageFile>) returns (accepted: bool)
      modifies this
      ensures accepted <==> |old(imagePreviewUrls)| + |files| <= MaxImages
      ensures accepted ==> selectedImages == old(selectedImages) + files
      ensures accepted ==> imagePreviewUrls == old(imagePreviewUrls) + Seqs.Map(files, createUrl)
      ensures |imagePreviewUrls| <= MaxImages || imagePreviewUrls == old(imagePreviewUrls)
      ensures !accepted ==> selectedImages == old(selectedImages) && imagePreviewUrls == old(imagePreviewUrls)
      ensures State() == old(State()).(selectedImages := selectedImages, imagePreviewUrls := imagePreviewUrls)
      ensures old(MainOk()) ==> MainOk()
      ensures UrlsAreBlobs() && old(Paired()) ==> Paired()
    {
      if |imagePreviewUrls| + |files| > MaxImages {
        return false;
      }
      if UrlsAreBlobs() && Paired() {
        AppendKeepsPairing(imagePreviewUrls, selectedImages, files, createUrl);
      }
      selectedImages := selectedImages + files;
      imagePreviewUrls := imagePreviewUrls + Seqs.Map(files, createUrl);
      return true;
    }

    /**
     * Removing preview `index`: a blob preview takes its pending file with it;
     * the main index follows the image it pointed at, or falls back to 0.
     */
    method RemoveImage(index: int)
      requires 0 <= index < |imagePreviewUrls|
      modifies this
      ensures imagePreviewUrls == Seqs.RemoveAt(old(imagePreviewUrls), index)
      ensures IsBlob(old(imagePreviewUrls)[index]) ==>
        selectedImages == Seqs.RemoveAt(old(selectedImages), FileIndex(old(imagePreviewUrls), index))
      ensures !IsBlob(old(imagePreviewUrls)[index]) ==> selectedImages == old(selectedImages)
      ensures mainImageIndex == MainAfterRemoval(index, old(mainImageIndex))
      ensures State() == old(State()).(selectedImages := selectedImages, imagePreviewUrls := imagePreviewUrls,
        mainImageIndex := mainImageIndex)
      ensures old(Paired()) ==> Paired()
      ensures old(MainOk()) ==> MainOk()
      ensures old(MainOk()) && index != old(mainImageIndex) ==>
        imagePreviewUrls[mainImageIndex] == old(imagePreviewUrls)[old(mainImageIndex)]
    {
      var previews := imagePreviewUrls;
      if Paired() {
        RemovalKeepsPairing(previews, selectedImages, createUrl, index);
      }
      if MainOk() {
        RemovalKeepsMainInRange(previews, index, mainImageIndex);
        if index != mainImageIndex {
          RemovalKeepsMain(previews, index, mainImageIndex);
        }
      }
      if IsBlob(previews[index]) {
        selectedImages := Seqs.RemoveAt(selectedImages, FileIndex(previews, index));
      }
      imagePreviewUrls := Seqs.RemoveAt(previews, index);
      mainImageIndex := MainAfterRemoval(index, mainImageIndex);
    }

    /** Clicking a preview makes it the main image. */
    method SetMainImage(index: int)
      modifies this
      ensures State() == old(State()).(mainImageIndex := index)
      ensures 0 <= index < |imagePreviewUrls| ==> MainOk()
      ensures Paired() == old(Paired())
    {
      mainImageIndex := index;
    }

    /** Closing the editor drops the previews and pending files; the main index and address are left as they were. */
    method CloseEditModal()
      modifies this
      ensures State() == old(State()).(editingPostId := None, editedPost := None, selectedImages := [], imagePreviewUrls := [])
      ensures Paired()
    {
      editingPostId := None;
      editedPost := None;
      imagePreviewUrls := [];
      selectedImages := [];
    }

    /** `handlePostDelete`: a successful delete drops the post from both lists; anything else changes nothing. */
    method DeletePost(id: Option<int>, requestOk: bool) returns (deleted: bool)
      modifies this
      ensures deleted <==> id.Some? && requestOk
      ensures deleted ==> State() == old(State()).(myPosts := RemoveById(old(myPosts), id.value),
        participatedPosts := RemoveById(old(participatedPosts), id.value))
      ensures !deleted ==> State() == old(State())
    {
      if id.None? || !requestOk {
        return false;
      }
      myPosts := RemoveById(myPosts, id.value);
      participatedPosts := RemoveById(participatedPosts, id.value);
      return true;
    }

    /**
     * `handlePostSave`, with the corrected image ordering and hashtag
     * filtering: the outcome is `SaveDecision` on the editor's state, and a
     * successful update replaces the post in the list and closes the editor.
     */
    method SavePost(uploaded: Option<seq<string>>, updated: Option<MyPost>) returns (r: SaveOutcome)
      requires Paired() && MainOk()
      requires uploaded.Some? ==> |uploaded.value| == |selectedImages|
      modifies this
      ensures r == SaveDecision(old(editedPost), old(addressData).fullAddress, old(imagePreviewUrls), old(mainImageIndex), uploaded, updated)
      ensures r.Saved? ==> State() == old(State()).(myPosts := ReplaceById(old(myPosts), updated.value),
        editingPostId := None, editedPost := None)
      ensures !r.Saved? ==> State() == old(State())
    {
      if uploaded.Some? {
        ImageList.PairedCount(imagePreviewUrls, selectedImages, createUrl);
      }
      r := SaveDecision(editedPost, addressData.fullAddress, imagePreviewUrls, mainImageIndex, uploaded, updated);
      if r.Saved? {
        AfterUpdate(updated.value);
      }
    }

    /** A successful update: the returned post replaces its namesakes and the editor closes. */
    method AfterUpdate(updated: MyPost)
      modifies this
      ensures State() == old(State()).(myPosts := ReplaceById(old(myPosts), updated),
        editingPostId := None, editedPost := None)
    {
      myPosts := ReplaceById(myPosts, updated);
      editingPostId := None;
      editedPost := None;
    }
  }

  /** A list with no blob URL has no blob previews to pair. */
  lemma NoneKept(urls: seq<string>)
    requires NoBlobs(urls)
    ensures Seqs.Filter(urls, IsBlob) == []
    decreases |urls|
  {
    if urls != [] {
      NoneKept(urls[1..]);
    }
  }
}
