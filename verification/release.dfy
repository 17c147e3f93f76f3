/**
 * What the release endpoint can answer, and which state of the page each
 * answer leads to.
 */
module Release {

  import opened Wrappers
  import opened Text

  /** One entry of the release's `assets` array: its `name` and `browser_download_url`. */
  datatype Asset = Asset(name: string, downloadUrl: string)

  /** The decoded JSON body: a release with a `tag_name` and an `assets` array, or an object without `assets`. */
  datatype ReleaseBody = Release(tagName: string, assets: seq<Asset>) | MissingAssets

  /** What `response.json()` gives: a decoded body, or a rejection. */
  datatype JsonBody = Parsed(body: ReleaseBody) | Unparseable

  /** What `fetch` gives: a response with a status and a body, or a rejection (network failure). */
  datatype FetchOutcome = Responded(status: int, json: JsonBody) | FetchRejected

  /** The exceptions raised inside `loadLatestRelease`'s try block. */
  datatype Error =
    | HttpError(status: int)   // thrown for a response that is not ok
    | NetworkError             // the rejection of fetch
    | SyntaxError              // the rejection of response.json()
    | TypeError                // `assets.find` on a body without an assets array

  /** `response.ok`: the status is in the range 200-299. */
  predicate IsOk(status: int)
  {
    200 <= status <= 299
  }

  const PACKAGE_SUFFIX := ".apk"

  predicate IsApk(a: Asset)
  {
    EndsWith(a.name, PACKAGE_SUFFIX)
  }

  /**
   * `assets.find(asset => asset.name.endsWith('.apk'))`, as the index of the
   * element found: the first asset in array order whose name ends in `.apk`.
   */
  function FindApk(assets: seq<Asset>): (r: Option<nat>)
    ensures r.Some? ==> r.value < |assets| && IsApk(assets[r.value])
    ensures r.Some? ==> forall j :: 0 <= j < r.value ==> !IsApk(assets[j])
    ensures r.None? <==> forall j :: 0 <= j < |assets| ==> !IsApk(assets[j])
  {
    if assets == [] then None
    else if IsApk(assets[0]) then Some(0)
    else match FindApk(assets[1..])
      case None => None
      case Some(k) => Some(k + 1)
  }

  /** The state one attempt to load the release leaves the page in. */
  datatype Verdict =
    | Ready(tag: string, url: string)  // a package asset was found
    | NoApk(tag: string)               // the release has no package asset
    | Failed(error: Error)             // an exception left the try block

  /** Which verdict each answer of the endpoint leads to, branch by branch. */
  function Settle(outcome: FetchOutcome): Verdict
  {
    match outcome
    case FetchRejected => Failed(NetworkError)
    case Responded(status, json) =>
      if !IsOk(status) then Failed(HttpError(status))
      else match json
        case Unparseable => Failed(SyntaxError)
        case Parsed(MissingAssets) => Failed(TypeError)
        case Parsed(Release(tag, assets)) =>
          match FindApk(assets)
          case Some(k) => Ready(tag, assets[k].downloadUrl)
          case None => NoApk(tag)
  }

  /** The exception `loadLatestRelease` rethrows for a verdict, if any. */
  function Thrown(v: Verdict): Option<Error>
  {
    if v.Failed? then Some(v.error) else None
  }

  /**
   * On an ok response carrying a release, the page is ready exactly when some
   * asset is a package, and then the link is that of the first such asset.
   */
  lemma SettlePicksFirstApk(status: int, tag: string, assets: seq<Asset>)
    requires IsOk(status)
    ensures var v := Settle(Responded(status, Parsed(Release(tag, assets))));
      && (v.Ready? <==> exists k :: 0 <= k < |assets| && IsApk(assets[k]))
      && (v.Ready? ==> v.tag == tag && exists k ::
            && 0 <= k < |assets| && IsApk(assets[k])
            && (forall j :: 0 <= j < k ==> !IsApk(assets[j]))
            && v.url == assets[k].downloadUrl)
      && (!v.Ready? ==> v == NoApk(tag))
  {
  }

  /** Every failure of the request, of decoding, or of the body's shape ends in the failed verdict. */
  lemma SettleFailsIff(outcome: FetchOutcome)
    ensures Settle(outcome).Failed? <==>
      || outcome.FetchRejected?
      || !IsOk(outcome.status)
      || outcome.json.Unparseable?
      || outcome.json.body.MissingAssets?
  {
  }
}
