/** The image with a fallback (src/components/atoms/FallbackImage/FallbackImage.js): the
    source is resolved against the backend, the first load error swaps in one of five stock
    pictures, and the flags choose between the picture, a loading overlay and a placeholder. */
module FallbackImage {
  import opened Common
  import opened Text

  /** `process.env.REACT_APP_API_URL || "http://localhost:5000"`. */
  function BackendUrl(env: Option<string>): (r: string)
    ensures Truthy(env) ==> r == env.value
    ensures !Truthy(env) ==> r == "http://localhost:5000"
  {
    OrElse(env, "http://localhost:5000")
  }

  /** `getImageUrl`: nothing for an empty source, absolute URLs as they are, uploads prefixed
      with the backend, anything else as it is. */
  function ImageUrl(src: Option<string>, backendUrl: string): (r: Option<string>)
    ensures r.None? <==> !Truthy(src)
    ensures r.Some? && r != src ==> StartsWith(src.value, "/uploads/") && r.value == backendUrl + src.value
    ensures Truthy(src) && StartsWith(src.value, "http") ==> r == src
    ensures Truthy(src) && StartsWith(src.value, "/uploads/") ==> r == Some(backendUrl + src.value)
  {
    if !Truthy(src) then None
    else if StartsWith(src.value, "http") then
      assert src.value[0] == src.value[..4][0] == 'h';
      src
    else if StartsWith(src.value, "/uploads/") then Some(backendUrl + src.value)
    else src
  }

  /** A prefix of the first part is a prefix of the whole. */
  lemma PrefixOfConcat(a: string, b: string, prefix: string)
    requires StartsWith(a, prefix)
    ensures StartsWith(a + b, prefix)
  {
    assert (a + b)[..|prefix|] == a[..|prefix|];
  }

  /** With an absolute backend URL, resolving a resolved URL changes nothing. */
  lemma ImageUrlIdempotent(src: Option<string>, backendUrl: string)
    requires StartsWith(backendUrl, "http")
    ensures ImageUrl(ImageUrl(src, backendUrl), backendUrl) == ImageUrl(src, backendUrl)
  {
    if Truthy(src) && !StartsWith(src.value, "http") && StartsWith(src.value, "/uploads/") {
      PrefixOfConcat(backendUrl, src.value, "http");
    }
  }

  /** The five stock pictures. */
  const Fallbacks: seq<string> := [
    "https://picsum.photos/800/600?random=1",
    "https://picsum.photos/800/600?random=2",
    "https://picsum.photos/800/600?random=3",
    "https://picsum.photos/800/600?random=4",
    "https://picsum.photos/800/600?random=5"
  ]

  predicate IsFallback(url: Option<string>) {
    url.Some? && url.value in Fallbacks
  }

  class Viewer {
    const src: Option<string>
    const backendUrl: string
    var imageError: bool
    var imageLoaded: bool
    var currentSrc: Option<string>
    /** Not in the component: an error has come from the stock picture itself. It records
        what the placeholder was meant to follow (see ShowsPlaceholderAsIntended). */
    var fallbackFailed: bool

    /** Once an error has been seen, the stock picture is being shown, and a stock picture
        can only have failed after that. */
    predicate Valid()
      reads this
    {
      (imageError ==> IsFallback(currentSrc)) && (fallbackFailed ==> imageError)
    }

    constructor (src: Option<string>, backendUrl: string)
      ensures this.src == src && this.backendUrl == backendUrl
      ensures !imageError && !imageLoaded && currentSrc == ImageUrl(src, backendUrl)
      ensures !fallbackFailed && Valid()
    {
      this.src := src;
      this.backendUrl := backendUrl;
      imageError := false;
      imageLoaded := false;
      currentSrc := ImageUrl(src, backendUrl);
      fallbackFailed := false;
    }

    /** `handleImageError`: the first error picks one of the stock pictures (the source picks
        at random; any of the five may come); later errors only keep the flag set, and mark
        the stock picture as failed. */
    method HandleImageError()
      requires Valid()
      modifies this
      ensures Valid()
      ensures imageError && imageLoaded == old(imageLoaded)
      ensures !old(imageError) ==> IsFallback(currentSrc)
      ensures old(imageError) ==> currentSrc == old(currentSrc)
      ensures !ShowsLoadingOverlay()
      ensures fallbackFailed <==> old(imageError)
      ensures ShowsPlaceholderAsIntended() <==> old(imageError)
    {
      if !imageError {
        var k :| 0 <= k < |Fallbacks|;
        currentSrc := Some(Fallbacks[k]);
        imageError := true;
      } else {
        imageError := true;
        fallbackFailed := true;
      }
    }

    /** `handleImageLoad`: loaded, and any earlier error forgotten; the picture stays. */
    method HandleImageLoad()
      requires Valid()
      modifies this
      ensures Valid()
      ensures imageLoaded && !imageError && currentSrc == old(currentSrc)
      ensures !ShowsLoadingOverlay() && !ShowsPlaceholder() && !ShowsPlaceholderAsIntended()
    {
      imageLoaded := true;
      imageError := false;
      fallbackFailed := false;
    }

    /** The "Image not available" placeholder replaces the picture. */
    predicate ShowsPlaceholder()
      reads this
    {
      imageError && currentSrc == ImageUrl(src, backendUrl)
    }

    /** The placeholder as the error handler's comment describes it: shown once the stock
        picture has failed too. */
    predicate ShowsPlaceholderAsIntended()
      reads this
    {
      fallbackFailed
    }

    /** The "Loading..." overlay covers the picture. */
    predicate ShowsLoadingOverlay()
      reads this
    {
      !imageLoaded && !imageError
    }
  }

  /** The placeholder can only appear when the source itself resolves to one of the stock
      pictures: the first error always moves away to a stock picture, and a later error keeps
      it. A broken source that resolves elsewhere never gets the placeholder. */
  lemma PlaceholderOnlyForStockSources(v: Viewer)
    requires v.Valid()
    ensures v.ShowsPlaceholder() ==> IsFallback(ImageUrl(v.src, v.backendUrl))
  {
  }

  /** A broken upload: the first error shows a stock picture, not the placeholder, and so
      does a second error, which comes from the stock picture itself. */
  method BrokenUploadScenario(env: Option<string>) returns (afterFirst: bool, afterSecond: bool)
    ensures !afterFirst && !afterSecond
  {
    var v := new Viewer(Some("/uploads/a.jpg"), BackendUrl(env));
    assert StartsWith(v.src.value, "/uploads/");
    v.HandleImageError();
    NoPlaceholderForUploads(v);
    afterFirst := v.ShowsPlaceholder();
    v.HandleImageError();
    NoPlaceholderForUploads(v);
    afterSecond := v.ShowsPlaceholder();
  }

  /** The same broken upload read with the placeholder as intended: a stock picture after the
      first error, the placeholder after the second. */
  method FallbackAlsoFailsScenario(env: Option<string>)
    returns (pictureAfterFirst: Option<string>, afterFirst: bool, afterSecond: bool)
    ensures IsFallback(pictureAfterFirst)
    ensures !afterFirst && afterSecond
  {
    var v := new Viewer(Some("/uploads/a.jpg"), BackendUrl(env));
    v.HandleImageError();
    pictureAfterFirst := v.currentSrc;
    afterFirst := v.ShowsPlaceholderAsIntended();
    v.HandleImageError();
    afterSecond := v.ShowsPlaceholderAsIntended();
  }

  /** No stock picture contains an "l", and every resolved upload does (in "/uploads/"). */
  lemma UploadIsNeverStock(src: Option<string>, backendUrl: string)
    requires Truthy(src) && StartsWith(src.value, "/uploads/")
    ensures !IsFallback(ImageUrl(src, backendUrl))
  {
    var url := backendUrl + src.value;
    assert url[|backendUrl| + 3] == src.value[..9][3] == 'l';
    forall f | f in Fallbacks ensures f != url {
      assert 'l' !in f;
    }
  }

  /** A broken upload never gets the placeholder, however many errors follow. */
  lemma NoPlaceholderForUploads(v: Viewer)
    requires v.Valid() && Truthy(v.src) && StartsWith(v.src.value, "/uploads/")
    ensures !v.ShowsPlaceholder()
  {
    UploadIsNeverStock(v.src, v.backendUrl);
  }
}
