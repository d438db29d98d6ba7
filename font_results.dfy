/**
 * The pure parts of font retrieval from a font provider: mapping the outcome
 * of a fetch to a typeface result code, and collecting the font files to
 * load, one per distinct URI.
 */
module FontResults {
  import opened Options
  import opened JavaInt

  /** Result codes reported for a typeface request. */
  const RESULT_OK: Int32 := 0
  const FAIL_REASON_PROVIDER_NOT_FOUND: Int32 := -1
  const FAIL_REASON_WRONG_CERTIFICATES: Int32 := -2
  const FAIL_REASON_FONT_LOAD_ERROR: Int32 := -3

  /** Status codes of a font family fetch. */
  const STATUS_OK: Int32 := 0
  const STATUS_WRONG_CERTIFICATES: Int32 := 1

  type Uri = string

  datatype FontInfo = FontInfo(uri: Uri, ttcIndex: Int32, weight: Int32, italic: bool, resultCode: Int32)

  /**
   * What fetching a font family yields: the provider lookup failed with a
   * name-not-found exception, or a family result with a status code.
   */
  datatype FetchOutcome = ProviderNameNotFound | Family(status: Int32)

  datatype TypefaceResult<T> = TypefaceResult(typeface: Option<T>, result: Int32)

  /**
   * The typeface result for a fetch outcome. `created` is what building a
   * typeface from the fetched fonts yields; it is consulted only for a
   * family with status OK.
   */
  function GetFontInternal<T>(fetched: FetchOutcome, created: Option<T>): (r: TypefaceResult<T>)
    ensures r.result == RESULT_OK <==> fetched == Family(STATUS_OK) && created.Some?
    ensures r.result == FAIL_REASON_PROVIDER_NOT_FOUND <==> fetched.ProviderNameNotFound?
    ensures r.result == FAIL_REASON_WRONG_CERTIFICATES <==> fetched == Family(STATUS_WRONG_CERTIFICATES)
    ensures r.result == FAIL_REASON_FONT_LOAD_ERROR <==>
      fetched.Family? && fetched.status != STATUS_WRONG_CERTIFICATES && (fetched.status == STATUS_OK ==> created.None?)
    ensures r.typeface.Some? <==> r.result == RESULT_OK
    ensures r.typeface.Some? ==> r.typeface == created
  {
    match fetched
    case ProviderNameNotFound => TypefaceResult(None, FAIL_REASON_PROVIDER_NOT_FOUND)
    case Family(status) =>
      if status == STATUS_OK then
        TypefaceResult(created, if created.Some? then RESULT_OK else FAIL_REASON_FONT_LOAD_ERROR)
      else
        TypefaceResult(None, if status == STATUS_WRONG_CERTIFICATES then FAIL_REASON_WRONG_CERTIFICATES else FAIL_REASON_FONT_LOAD_ERROR)
  }

  /** The URIs of the fonts that the provider found. */
  ghost function OkUris(fonts: seq<FontInfo>): set<Uri> {
    set f | f in fonts && f.resultCode == RESULT_OK :: f.uri
  }

  /**
   * The URIs handed to the loader when `fonts` are scanned in order: each
   * found font whose URI has not been loaded before.
   */
  function LoadOrder(fonts: seq<FontInfo>): seq<Uri>
    decreases |fonts|
  {
    if fonts == [] then []
    else
      var earlier := LoadOrder(fonts[..|fonts| - 1]);
      var last := fonts[|fonts| - 1];
      if last.resultCode == RESULT_OK && last.uri !in earlier then earlier + [last.uri] else earlier
  }

  /** The load order names every found URI, each exactly once. */
  lemma {:induction false} LoadOrderOnce(fonts: seq<FontInfo>)
    ensures forall i, j :: 0 <= i < j < |LoadOrder(fonts)| ==> LoadOrder(fonts)[i] != LoadOrder(fonts)[j]
    ensures forall u :: u in LoadOrder(fonts) <==> u in OkUris(fonts)
    decreases |fonts|
  {
    if fonts != [] {
      var init := fonts[..|fonts| - 1];
      var last := fonts[|fonts| - 1];
      LoadOrderOnce(init);
      assert fonts == init + [last];
      assert OkUris(fonts) == OkUris(init) + (if last.resultCode == RESULT_OK then {last.uri} else {});
    }
  }

  /**
   * Maps the URI of every font the provider found to its loaded contents.
   * `mmap` stands for loading one URI; `loaded` lists the URIs in the order
   * they were loaded, so that a URI met again later is not loaded twice.
   */
  method PrepareFontData<B>(fonts: seq<FontInfo>, mmap: Uri -> B) returns (out: map<Uri, B>, ghost loaded: seq<Uri>)
    ensures out.Keys == OkUris(fonts)
    ensures forall u :: u in out ==> out[u] == mmap(u)
    ensures loaded == LoadOrder(fonts)
    ensures forall u :: u in loaded <==> u in out
    ensures forall i, j :: 0 <= i < j < |loaded| ==> loaded[i] != loaded[j]
  {
    out := map[];
    loaded := [];
    for i := 0 to |fonts|
      invariant out.Keys == OkUris(fonts[..i])
      invariant forall u :: u in out ==> out[u] == mmap(u)
      invariant loaded == LoadOrder(fonts[..i])
      invariant forall u :: u in loaded <==> u in out
      invariant forall j, k :: 0 <= j < k < |loaded| ==> loaded[j] != loaded[k]
    {
      var font := fonts[i];
      assert fonts[..i + 1] == fonts[..i] + [font];
      assert OkUris(fonts[..i + 1]) == OkUris(fonts[..i]) + (if font.resultCode == RESULT_OK then {font.uri} else {});
      if font.resultCode == RESULT_OK {
        var uri := font.uri;
        if uri !in out {
          out := out[uri := mmap(uri)];
          loaded := loaded + [uri];
        }
      }
    }
    assert fonts[..|fonts|] == fonts;
  }
}
