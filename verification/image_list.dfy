/**
 * The image-list editing shared by the post editor on the my-page view and
 * the write page: a list of preview URLs with a main-image index, where the
 * `blob:` previews stand, in order, for files not yet uploaded.
 */
module ImageList {
  import Strings
  import Seqs

  const MaxImages := 5

  /** A file chosen in the file picker. */
  datatype ImageFile = ImageFile(name: string)

  /** No URL in the list is a local `blob:` preview. */
  predicate NoBlobs(urls: seq<string>) {
    forall i :: 0 <= i < |urls| ==> !IsBlob(urls[i])
  }

  /** A preview made locally by `URL.createObjectURL`, as opposed to an uploaded image's URL. */
  predicate IsBlob(url: string) {
    Strings.StartsWith(url, "blob:")
  }

  /**
   * The main index after removing preview `i`: back to 0 when the main image
   * itself goes, one less when an earlier image goes, unchanged otherwise.
   */
  function MainAfterRemoval(i: int, main: int): (m: int)
    ensures i == main ==> m == 0
    ensures i < main ==> m == main - 1
    ensures i > main ==> m == main
  {
    if i == main then 0 else if i < main then main - 1 else main
  }

  /** Removing another image keeps the same image as the main one. */
  lemma RemovalKeepsMain<T>(s: seq<T>, i: int, main: int)
    requires 0 <= i < |s| && 0 <= main < |s| && i != main
    ensures var m := MainAfterRemoval(i, main);
      0 <= m < |s| - 1 && Seqs.RemoveAt(s, i)[m] == s[main]
  {
  }

  /** Whatever is removed, the main index still points into the list whenever it is non-empty. */
  lemma RemovalKeepsMainInRange<T>(s: seq<T>, i: int, main: int)
    requires 0 <= i < |s| && 0 <= main < |s|
    ensures var r := Seqs.RemoveAt(s, i);
      |r| > 0 ==> 0 <= MainAfterRemoval(i, main) < |r|
  {
  }

  /** The position, among the pending files, of the file behind blob preview `i`. */
  function FileIndex(previews: seq<string>, i: int): (k: nat)
    requires 0 <= i <= |previews|
    ensures k <= i
    ensures k == |Seqs.Filter(previews[..i], IsBlob)|
  {
    Seqs.Count(previews[..i], IsBlob)
  }

  /**
   * The pairing between blob previews and pending files: the blob previews,
   * in order, are exactly the URLs made for the files, in order.
   */
  predicate Paired<F>(previews: seq<string>, files: seq<F>, createUrl: F -> string) {
    Seqs.Filter(previews, IsBlob) == Seqs.Map(files, createUrl)
  }

  /** Paired previews have one blob preview per pending file. */
  lemma PairedCount<F>(previews: seq<string>, files: seq<F>, createUrl: F -> string)
    requires Paired(previews, files, createUrl)
    ensures |files| == Seqs.Count(previews, IsBlob)
  {
    assert |Seqs.Map(files, createUrl)| == |files|;
  }

  /**
   * Removing preview `i`, and the file at `FileIndex(previews, i)` when the
   * preview is a blob, keeps every remaining preview paired with its file.
   */
  lemma RemovalKeepsPairing<F>(previews: seq<string>, files: seq<F>, createUrl: F -> string, i: int)
    requires Paired(previews, files, createUrl) && 0 <= i < |previews|
    ensures IsBlob(previews[i]) ==> FileIndex(previews, i) < |files|
    ensures var rest := if IsBlob(previews[i]) then Seqs.RemoveAt(files, FileIndex(previews, i)) else files;
      Paired(Seqs.RemoveAt(previews, i), rest, createUrl)
  {
    Seqs.FilterRemoveAt(previews, i, IsBlob);
    if IsBlob(previews[i]) {
      Seqs.MapRemoveAt(files, FileIndex(previews, i), createUrl);
    }
  }

  /** Appending files together with one blob preview each keeps the pairing. */
  lemma AppendKeepsPairing<F>(previews: seq<string>, files: seq<F>, added: seq<F>, createUrl: F -> string)
    requires Paired(previews, files, createUrl)
    requires forall i :: 0 <= i < |added| ==> IsBlob(createUrl(added[i]))
    ensures Paired(previews + Seqs.Map(added, createUrl), files + added, createUrl)
  {
    var urls := Seqs.Map(added, createUrl);
    Seqs.FilterAppend(previews, urls, IsBlob);
    Seqs.FilterKeepsAll(urls, IsBlob);
    Seqs.MapAppend(files, added, createUrl);
  }
}
