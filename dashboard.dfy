/**
 * The dashboard's choice of what to show: each stored media row becomes
 * a gallery item (image URL resolution, caption fallback), and the page
 * shows either the fetched items or the built-in mock gallery.
 */
module Dashboard {
  import opened Wrappers
  import opened Strings

  /** A row of `instagram_media` as the page selects it. */
  datatype MediaRow = MediaRow(
    id: string,
    sourceUrl: Option<string>,
    storageKey: Option<string>,
    caption: Option<string>,
    captionConfidence: Option<real>,
    audioUrl: Option<string>,
    processedAt: Option<string>)

  /** A gallery item as the page renders it. */
  datatype MediaItem = MediaItem(
    id: string,
    imageUrl: string,
    caption: string,
    captionConfidence: Option<real>,
    audioUrl: Option<string>,
    processedAt: Option<string>)

  const PendingCaption := "Gemini caption pending — " + "ingestion pipeline is " + "preparing this memory."

  /** `NEXT_PUBLIC_R2_PUBLIC_BASE_URL || NEXT_PUBLIC_MEDIA_BASE_URL || ''`, with an unset variable as "". */
  function MediaBaseUrl(primary: string, secondary: string): (r: string)
    ensures r == "" <==> primary == "" && secondary == ""
    ensures primary != "" ==> r == primary
    ensures primary == "" ==> r == secondary
  {
    if primary != "" then primary else secondary
  }

  /**
   * `resolveImageUrl`: an absolute storage key is used as it is; a
   * relative one is joined to the media base URL when there is one;
   * otherwise the original Instagram URL, or "".
   */
  function ResolveImageUrl(row: MediaRow, mediaBaseUrl: string): (r: string)
    ensures Truthy(row.storageKey) && StartsWith(row.storageKey.value, "http") ==> r == row.storageKey.value
    ensures Truthy(row.storageKey) && !StartsWith(row.storageKey.value, "http") && mediaBaseUrl != "" ==>
              r == JoinUrl(mediaBaseUrl, row.storageKey.value)
    ensures !(Truthy(row.storageKey) && (StartsWith(row.storageKey.value, "http") || mediaBaseUrl != "")) ==>
              r == (if Truthy(row.sourceUrl) then row.sourceUrl.value else "")
  {
    if Truthy(row.storageKey) && StartsWith(row.storageKey.value, "http") then row.storageKey.value
    else if Truthy(row.storageKey) && mediaBaseUrl != "" then JoinUrl(mediaBaseUrl, row.storageKey.value)
    else if Truthy(row.sourceUrl) then row.sourceUrl.value
    else ""
  }

  /** The page shows an empty image only when the row has neither a usable key nor a source URL. */
  lemma EmptyImageOnlyWithoutKeyOrSource(row: MediaRow, mediaBaseUrl: string)
    ensures ResolveImageUrl(row, mediaBaseUrl) == "" <==>
              !Truthy(row.sourceUrl) && !(Truthy(row.storageKey) && (StartsWith(row.storageKey.value, "http") || mediaBaseUrl != ""))
  {
  }

  /** `mapRowToMediaItem`: the row's fields carried over, a resolved image, and a caption that is never empty. */
  function MapRowToMediaItem(row: MediaRow, mediaBaseUrl: string): (item: MediaItem)
    ensures item.id == row.id && item.captionConfidence == row.captionConfidence
    ensures item.audioUrl == row.audioUrl && item.processedAt == row.processedAt
    ensures item.imageUrl == ResolveImageUrl(row, mediaBaseUrl)
    ensures Truthy(row.caption) ==> item.caption == row.caption.value
    ensures !Truthy(row.caption) ==> item.caption == PendingCaption
    ensures item.caption != ""
  {
    MediaItem(row.id, ResolveImageUrl(row, mediaBaseUrl),
              if Truthy(row.caption) then row.caption.value else PendingCaption,
              row.captionConfidence, row.audioUrl, row.processedAt)
  }

  /** `data.map(mapRowToMediaItem)`: one item per row, in order. */
  function MapRows(rows: seq<MediaRow>, mediaBaseUrl: string): (items: seq<MediaItem>)
    ensures |items| == |rows|
    ensures forall i :: 0 <= i < |rows| ==> items[i] == MapRowToMediaItem(rows[i], mediaBaseUrl)
    decreases |rows|
  {
    if rows == [] then [] else [MapRowToMediaItem(rows[0], mediaBaseUrl)] + MapRows(rows[1..], mediaBaseUrl)
  }

  const UnsplashHost := "https://images.unsplash.com/"
  const UnsplashQuery := "?auto=format&fit=crop" + "&w=1200&q=80"

  /** The three built-in gallery items shown in mock mode (long texts are written in pieces). */
  function MockMedia(): (items: seq<MediaItem>)
    ensures |items| == 3
  {
    [ MediaItem("mock-1",
                UnsplashHost + "photo-1524504388940-" + "b1c1722653e1" + UnsplashQuery,
                "Grandma teaching Maya " + "how to bake the family " + "cinnamon rolls " + "on Saturday morning.",
                Some(0.93), None, Some("2024-06-01T10:00:00Z")),
      MediaItem("mock-2",
                UnsplashHost + "photo-1527153907022-" + "465ee4752fdc" + UnsplashQuery,
                "First robotics club " + "showcase — the team " + "cheered when the robot " + "completed its loop.",
                Some(0.88), Some("https://samplelib.com/" + "lib/preview/mp3/" + "sample-3s.mp3"), Some("2024-06-03T18:30:00Z")),
      MediaItem("mock-3",
                UnsplashHost + "photo-1519681393784-" + "d120267933ba" + UnsplashQuery,
                "End-of-term art show: " + "Olivia and her grandparents " + "admiring the mural " + "she painted together " + "with her class.",
                Some(0.97), None, Some("2024-06-05T08:45:00Z")) ]
  }

  /**
   * `NEXT_PUBLIC_USE_MOCK_DASHBOARD !== 'false'`, with an unset variable as "":
   * the mock gallery is the default, and only the exact string `false` turns it off.
   */
  function PreferMockData(useMockEnv: string): (b: bool)
    ensures useMockEnv == "" ==> b
    ensures !b <==> useMockEnv == "false"
  {
    useMockEnv != "false"
  }

  /** The comparison is exact: no case folding and no trimming of the variable. */
  lemma OnlyExactFalseSelectsLive()
    ensures !PreferMockData("false")
    ensures PreferMockData("true") && PreferMockData("FALSE") && PreferMockData("false ") && PreferMockData("0")
  {
    assert "FALSE"[0] != "false"[0];
    assert |"false "| != |"false"|;
  }

  /** What the media query answered; it is only issued when mock data is not preferred. */
  datatype MediaFetch = FetchFailed(message: string) | Fetched(rows: seq<MediaRow>)

  /** What the page shows: the items, whether they are the mock gallery, and the fetch error if any. */
  datatype GalleryView = GalleryView(items: seq<MediaItem>, usingMockData: bool, fetchError: Option<string>)

  /**
   * The page's selection: fetch only when mock data is not preferred;
   * show the mock gallery when it is preferred or nothing was fetched.
   */
  function SelectGallery(useMockEnv: string, fetch: MediaFetch, mediaBaseUrl: string): (v: GalleryView)
    ensures v.usingMockData <==> PreferMockData(useMockEnv) || !(fetch.Fetched? && |fetch.rows| > 0)
    ensures v.usingMockData ==> v.items == MockMedia()
    ensures !v.usingMockData ==> v.items == MapRows(fetch.rows, mediaBaseUrl)
    ensures v.fetchError.Some? <==> !PreferMockData(useMockEnv) && fetch.FetchFailed?
    ensures v.fetchError.Some? ==> v.fetchError == Some(fetch.message)
    ensures |v.items| > 0
  {
    var fetched := if !PreferMockData(useMockEnv) && fetch.Fetched? then MapRows(fetch.rows, mediaBaseUrl) else [];
    var fetchError := if !PreferMockData(useMockEnv) && fetch.FetchFailed? then Some(fetch.message) else None;
    var usingMockData := PreferMockData(useMockEnv) || |fetched| == 0;
    GalleryView(if usingMockData then MockMedia() else fetched, usingMockData, fetchError)
  }
}
