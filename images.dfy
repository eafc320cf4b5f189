/**
 * The image cache of Main.py: for each selected mapping row, `<code>.png`
 * is left alone when it exists; otherwise the first PHOTO row of the media
 * sheet for the partner code gives a URL, and a non-empty URL is fetched
 * and its body written to `<code>.png`. Every fetch failure is swallowed.
 *
 * The image folder is a map from file name to content. The network is the
 * outcome each fetch would have, one per mapping row; the method also
 * returns the URLs it fetched, in order, so that "no fetch happens" can be
 * stated.
 */
module Images {
  import opened Common
  import opened Sheets

  newtype byte = x: int | 0 <= x < 256

  /** The files of the image folder, by name. */
  type Files = map<string, seq<byte>>

  /** What requests.get + raise_for_status + the write would give: a body, or any failure. */
  datatype FetchOutcome = Fetched(body: seq<byte>) | FetchFailed

  /** The image folder and the URLs fetched so far. */
  datatype Cache = Cache(files: Files, requests: seq<string>)

  /** The cache key: f"{ref_libaud}.png". */
  function ImageName(internalCode: string): string {
    internalCode + ".png"
  }

  /** A row of the filter `(REFCIALE == ref_fournisseur) & (MTYP == 'PHOTO')`. */
  predicate IsPhotoOf(m: MediaRecord, partnerCode: string) {
    m.partnerCode == partnerCode && m.mediaType == "PHOTO"
  }

  /** Position of the first PHOTO row for the partner code (df_image.iloc[0]), if any. */
  function FirstPhoto(media: seq<MediaRecord>, partnerCode: string): (r: Option<nat>)
    ensures r.Some? ==> r.value < |media| && IsPhotoOf(media[r.value], partnerCode)
    ensures r.Some? ==> forall j :: 0 <= j < r.value ==> !IsPhotoOf(media[j], partnerCode)
    ensures r.None? ==> forall j :: 0 <= j < |media| ==> !IsPhotoOf(media[j], partnerCode)
    decreases |media|
  {
    if |media| == 0 then None
    else if IsPhotoOf(media[0], partnerCode) then Some(0)
    else
      match FirstPhoto(media[1..], partnerCode)
      case None => None
      case Some(i) => Some(i + 1)
  }

  /** The URL to fetch for a partner code: the first PHOTO row's MURLT, when it is not empty. */
  function PhotoUrl(media: seq<MediaRecord>, partnerCode: string): (r: Option<string>)
    ensures r.Some? ==> r.value != ""
    ensures r.Some? <==> FirstPhoto(media, partnerCode).Some? && media[FirstPhoto(media, partnerCode).value].url != ""
    ensures r.Some? ==> r.value == media[FirstPhoto(media, partnerCode).value].url
  {
    match FirstPhoto(media, partnerCode)
    case None => None
    case Some(i) => if media[i].url == "" then None else Some(media[i].url)
  }

  /**
   * One pass of the loop body for one mapping row. Its contract is the
   * cache policy: a present file means no fetch and no change; an absent
   * file means one fetch exactly when there is a URL; only a successful
   * fetch writes, and it writes only `<code>.png`.
   */
  function ImageStep(ref: CodeMapping, media: seq<MediaRecord>, outcome: FetchOutcome, c: Cache): (r: Cache)
    ensures ImageName(ref.internalCode) in c.files ==> r == c
    ensures r.requests != c.requests <==> ImageName(ref.internalCode) !in c.files && PhotoUrl(media, ref.partnerCode).Some?
    ensures r.requests != c.requests ==> r.requests == c.requests + [PhotoUrl(media, ref.partnerCode).value]
    ensures r.files == c.files || (r.requests != c.requests && outcome.Fetched? && r.files == c.files[ImageName(ref.internalCode) := outcome.body])
    ensures r.requests != c.requests && outcome.Fetched? ==> r.files == c.files[ImageName(ref.internalCode) := outcome.body]
  {
    var name := ImageName(ref.internalCode);
    if name in c.files then c
    else
      match PhotoUrl(media, ref.partnerCode)
      case None => c
      case Some(url) =>
        match outcome
        case Fetched(body) => Cache(c.files[name := body], c.requests + [url])
        case FetchFailed => Cache(c.files, c.requests + [url])
  }

  /** The cache after the loop has handled every row of refs, in order. */
  function ImagesAfter(refs: seq<CodeMapping>, media: seq<MediaRecord>, outcomes: seq<FetchOutcome>, files: Files): Cache
    requires |outcomes| == |refs|
    decreases |refs|
  {
    if |refs| == 0 then Cache(files, [])
    else
      var n := |refs| - 1;
      ImageStep(refs[n], media, outcomes[n], ImagesAfter(refs[..n], media, outcomes[..n], files))
  }

  /** The image loop of Main.py: one check-and-fetch per mapping row. */
  method DownloadImages(refs: seq<CodeMapping>, media: seq<MediaRecord>, outcomes: seq<FetchOutcome>, files: Files)
    returns (newFiles: Files, requests: seq<string>)
    requires |outcomes| == |refs|
    ensures Cache(newFiles, requests) == ImagesAfter(refs, media, outcomes, files)
  {
    newFiles, requests := files, [];
    var i := 0;
    while i < |refs|
      invariant 0 <= i <= |refs|
      invariant Cache(newFiles, requests) == ImagesAfter(refs[..i], media, outcomes[..i], files)
    {
      assert refs[..i + 1][..i] == refs[..i] && outcomes[..i + 1][..i] == outcomes[..i];
      var name := ImageName(refs[i].internalCode);
      if name !in newFiles {
        var photo := FirstPhoto(media, refs[i].partnerCode);
        if photo.Some? {
          var url := media[photo.value].url;
          if url != "" {
            requests := requests + [url];
            match outcomes[i]
            case Fetched(body) =>
              newFiles := newFiles[name := body];
            case FetchFailed =>
          }
        }
      }
      i := i + 1;
    }
    assert refs[..i] == refs && outcomes[..i] == outcomes;
  }

  // ---------------------------------------------------------------------
  // Properties of the cache
  // ---------------------------------------------------------------------

  /** The names the loop may write: one per mapping row. */
  function Names(refs: seq<CodeMapping>): (names: set<string>)
    ensures forall i :: 0 <= i < |refs| ==> ImageName(refs[i].internalCode) in names
    ensures forall k :: k in names <==> exists i :: 0 <= i < |refs| && k == ImageName(refs[i].internalCode)
  {
    set i | 0 <= i < |refs| :: ImageName(refs[i].internalCode)
  }

  /**
   * Files only accumulate: every file present before is still present with
   * the same content, and every new file is the image of some mapping row.
   * At most one fetch happens per row.
   */
  lemma {:induction false} ImagesOnlyGrow(refs: seq<CodeMapping>, media: seq<MediaRecord>, outcomes: seq<FetchOutcome>, files: Files)
    requires |outcomes| == |refs|
    ensures var r := ImagesAfter(refs, media, outcomes, files);
      && (forall k :: k in files ==> k in r.files && r.files[k] == files[k])
      && r.files.Keys <= files.Keys + Names(refs)
      && |r.requests| <= |refs|
    decreases |refs|
  {
    if |refs| > 0 {
      var n := |refs| - 1;
      ImagesOnlyGrow(refs[..n], media, outcomes[..n], files);
      assert Names(refs[..n]) <= Names(refs) by {
        forall k | k in Names(refs[..n]) ensures k in Names(refs) {
          var i :| 0 <= i < n && k == ImageName(refs[..n][i].internalCode);
          assert refs[..n][i] == refs[i];
        }
      }
    }
  }

  /**
   * When every row's image is already present, the loop fetches nothing and
   * changes nothing, whatever the media sheet says (a changed URL does not
   * trigger a new download) and whatever the network would answer.
   */
  lemma {:induction false} CachedRunIsNoop(refs: seq<CodeMapping>, media: seq<MediaRecord>, outcomes: seq<FetchOutcome>, files: Files)
    requires |outcomes| == |refs|
    requires forall i :: 0 <= i < |refs| ==> ImageName(refs[i].internalCode) in files
    ensures ImagesAfter(refs, media, outcomes, files) == Cache(files, [])
    decreases |refs|
  {
    if |refs| > 0 {
      var n := |refs| - 1;
      assert forall i :: 0 <= i < n ==> refs[..n][i] == refs[i];
      CachedRunIsNoop(refs[..n], media, outcomes[..n], files);
    }
  }

  /** When every fetch fails, the folder is left exactly as it was. */
  lemma {:induction false} FailedFetchesWriteNothing(refs: seq<CodeMapping>, media: seq<MediaRecord>, outcomes: seq<FetchOutcome>, files: Files)
    requires |outcomes| == |refs|
    requires forall i :: 0 <= i < |outcomes| ==> outcomes[i].FetchFailed?
    ensures ImagesAfter(refs, media, outcomes, files).files == files
    decreases |refs|
  {
    if |refs| > 0 {
      var n := |refs| - 1;
      assert forall i :: 0 <= i < n ==> outcomes[..n][i] == outcomes[i];
      FailedFetchesWriteNothing(refs[..n], media, outcomes[..n], files);
    }
  }

  /**
   * When every row has a photo URL and every fetch succeeds, every row's
   * image is present afterwards.
   */
  lemma {:induction false} SuccessfulFetchesCacheAll(refs: seq<CodeMapping>, media: seq<MediaRecord>, outcomes: seq<FetchOutcome>, files: Files)
    requires |outcomes| == |refs|
    requires forall i :: 0 <= i < |refs| ==> PhotoUrl(media, refs[i].partnerCode).Some? && outcomes[i].Fetched?
    ensures forall i :: 0 <= i < |refs| ==> ImageName(refs[i].internalCode) in ImagesAfter(refs, media, outcomes, files).files
    decreases |refs|
  {
    if |refs| > 0 {
      var n := |refs| - 1;
      assert forall i :: 0 <= i < n ==> refs[..n][i] == refs[i] && outcomes[..n][i] == outcomes[i];
      SuccessfulFetchesCacheAll(refs[..n], media, outcomes[..n], files);
      var before := ImagesAfter(refs[..n], media, outcomes[..n], files);
      var after := ImagesAfter(refs, media, outcomes, files);
      forall i | 0 <= i < |refs| ensures ImageName(refs[i].internalCode) in after.files {
        if i < n {
          assert ImageName(refs[..n][i].internalCode) in before.files;
        }
      }
    }
  }

  /**
   * Idempotence: after a run in which every row had a photo URL and every
   * fetch succeeded, a second run over the same rows performs no fetch and
   * leaves the folder as the first run left it, even with a different media
   * sheet and whatever the network would answer.
   */
  lemma SecondRunFetchesNothing(refs: seq<CodeMapping>, media: seq<MediaRecord>, outcomes: seq<FetchOutcome>, files: Files,
                                media': seq<MediaRecord>, outcomes': seq<FetchOutcome>)
    requires |outcomes| == |refs| && |outcomes'| == |refs|
    requires forall i :: 0 <= i < |refs| ==> PhotoUrl(media, refs[i].partnerCode).Some? && outcomes[i].Fetched?
    ensures var first := ImagesAfter(refs, media, outcomes, files);
      ImagesAfter(refs, media', outcomes', first.files) == Cache(first.files, [])
  {
    var first := ImagesAfter(refs, media, outcomes, files);
    SuccessfulFetchesCacheAll(refs, media, outcomes, files);
    CachedRunIsNoop(refs, media', outcomes', first.files);
  }

  /**
   * Only the first PHOTO row counts: when its URL is empty nothing is fetched,
   * even if a later PHOTO row for the same partner code has a URL.
   */
  lemma EmptyFirstUrlExample()
    ensures PhotoUrl([MediaRecord("X1", "PHOTO", ""), MediaRecord("X1", "PHOTO", "u")], "X1") == None
    ensures PhotoUrl([MediaRecord("X1", "VIDEO", "v"), MediaRecord("X1", "PHOTO", "u")], "X1") == Some("u")
  {
    var m := [MediaRecord("X1", "PHOTO", ""), MediaRecord("X1", "PHOTO", "u")];
    assert IsPhotoOf(m[0], "X1");
    var m' := [MediaRecord("X1", "VIDEO", "v"), MediaRecord("X1", "PHOTO", "u")];
    assert !IsPhotoOf(m'[0], "X1") && IsPhotoOf(m'[1], "X1");
    assert m'[1..] == [MediaRecord("X1", "PHOTO", "u")];
  }
}
