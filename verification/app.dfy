/**
 * The `VoidDownload` controller: one attempt to load the latest release and
 * reflect it into the version label and the download button.
 */
module App {

  import opened Wrappers
  import opened Release
  import opened Dom

  const LOADING := "loading"
  const SUCCESS := "success"
  const VERSION_PREFIX := "Versão "
  const NO_APK_NOTE := " (APK não encontrado)"
  const FALLBACK_TEXT := "Versão não disponível"
  const FALLBACK_COLOR := "var(--text-muted)"
  const ERROR_TEXT := "Erro ao carregar versão"
  const ERROR_COLOR := "#ef4444"
  const SUCCESS_ANIMATION := "pulse 0.6s ease-out"

  /** The event `trackDownload` sends for a release tag. */
  function DownloadEvent(version: string): AnalyticsEvent
  {
    AnalyticsEvent("download", "APK", version, 1)
  }

  class VoidDownload {
    const versionElement: VersionElement
    const downloadBtn: DownloadButton
    const downloadWrap: DownloadWrap
    /** The analytics function, injected; null when the page has none. */
    const gtag: Analytics?

    constructor (version: VersionElement, button: DownloadButton, wrap: DownloadWrap, analytics: Analytics?)
      ensures versionElement == version && downloadBtn == button
      ensures downloadWrap == wrap && gtag == analytics
    {
      versionElement := version;
      downloadBtn := button;
      downloadWrap := wrap;
      gtag := analytics;
    }

    /**
     * `init`: one load attempt whose escaping exception is caught and shown
     * as the error label. Whatever the outcome, the loading marker is gone;
     * on failure the fallback's button styling stays but its text does not.
     * The button's own label (innerHTML) is never touched.
     */
    method Init(outcome: FetchOutcome)
      modifies versionElement, downloadWrap
      modifies downloadBtn`href, downloadBtn`ariaDisabled, downloadBtn`disabled
      modifies downloadBtn`opacity, downloadBtn`cursor, downloadBtn`clickHandlers
      ensures LOADING !in versionElement.classList
      ensures Settle(outcome).Ready? ==>
        && versionElement.textContent == VERSION_PREFIX + Settle(outcome).tag
        && versionElement.classList == old(versionElement.classList) + {SUCCESS} - {LOADING}
        && versionElement.color == old(versionElement.color)
        && downloadBtn.href == Settle(outcome).url
        && downloadBtn.ariaDisabled == Some("false")
        && !downloadBtn.disabled
        && downloadBtn.cursor == HAND_CURSOR
        && downloadBtn.opacity == old(downloadBtn.opacity)
        && downloadBtn.clickHandlers == old(downloadBtn.clickHandlers) + [Settle(outcome).tag]
        && downloadWrap.animation == SUCCESS_ANIMATION
      ensures Settle(outcome).NoApk? ==>
        && versionElement.textContent == VERSION_PREFIX + Settle(outcome).tag + NO_APK_NOTE
        && versionElement.classList == old(versionElement.classList) + {SUCCESS} - {LOADING}
        && versionElement.color == old(versionElement.color)
        && downloadBtn.ariaDisabled == Some("true")
        && downloadBtn.opacity == DIMMED
        && unchanged(downloadBtn`href, downloadBtn`disabled, downloadBtn`cursor, downloadBtn`clickHandlers)
        && unchanged(downloadWrap)
      ensures Settle(outcome).Failed? ==>
        && versionElement.textContent == ERROR_TEXT
        && versionElement.color == ERROR_COLOR
        && versionElement.classList == old(versionElement.classList) - {LOADING}
        && downloadBtn.ariaDisabled == Some("true")
        && downloadBtn.opacity == DIMMED
        && downloadBtn.cursor == NOT_ALLOWED
        && unchanged(downloadBtn`href, downloadBtn`disabled, downloadBtn`clickHandlers)
        && unchanged(downloadWrap)
    {
      var thrown := LoadLatestRelease(outcome);
      if thrown.Some? {
        HandleError(thrown.value);
      }
    }

    /**
     * `loadLatestRelease`: mark loading, then try to fetch and show the
     * release; on any exception apply the fallback and rethrow it; finally
     * clear the loading marker.
     */
    method LoadLatestRelease(outcome: FetchOutcome) returns (thrown: Option<Error>)
      modifies versionElement, downloadWrap
      modifies downloadBtn`href, downloadBtn`ariaDisabled, downloadBtn`disabled
      modifies downloadBtn`opacity, downloadBtn`cursor, downloadBtn`clickHandlers
      ensures thrown == Thrown(Settle(outcome))
      ensures LOADING !in versionElement.classList
      ensures Settle(outcome).Ready? ==>
        && versionElement.textContent == VERSION_PREFIX + Settle(outcome).tag
        && versionElement.classList == old(versionElement.classList) + {SUCCESS} - {LOADING}
        && versionElement.color == old(versionElement.color)
        && downloadBtn.href == Settle(outcome).url
        && downloadBtn.ariaDisabled == Some("false")
        && !downloadBtn.disabled
        && downloadBtn.cursor == HAND_CURSOR
        && downloadBtn.opacity == old(downloadBtn.opacity)
        && downloadBtn.clickHandlers == old(downloadBtn.clickHandlers) + [Settle(outcome).tag]
        && downloadWrap.animation == SUCCESS_ANIMATION
      ensures Settle(outcome).NoApk? ==>
        && versionElement.textContent == VERSION_PREFIX + Settle(outcome).tag + NO_APK_NOTE
        && versionElement.classList == old(versionElement.classList) + {SUCCESS} - {LOADING}
        && versionElement.color == old(versionElement.color)
        && downloadBtn.ariaDisabled == Some("true")
        && downloadBtn.opacity == DIMMED
        && unchanged(downloadBtn`href, downloadBtn`disabled, downloadBtn`cursor, downloadBtn`clickHandlers)
        && unchanged(downloadWrap)
      ensures Settle(outcome).Failed? ==>
        && versionElement.textContent == FALLBACK_TEXT
        && versionElement.color == FALLBACK_COLOR
        && versionElement.classList == old(versionElement.classList) - {LOADING}
        && downloadBtn.ariaDisabled == Some("true")
        && downloadBtn.opacity == DIMMED
        && downloadBtn.cursor == NOT_ALLOWED
        && unchanged(downloadBtn`href, downloadBtn`disabled, downloadBtn`clickHandlers)
        && unchanged(downloadWrap)
    {
      SetLoading(true);
      // try: the one-second delay before the request has no effect on the state
      match outcome {
        case FetchRejected =>
          thrown := Some(NetworkError);
        case Responded(status, json) =>
          if !IsOk(status) {
            thrown := Some(HttpError(status));
          } else {
            match json {
              case Unparseable =>
                thrown := Some(SyntaxError);
              case Parsed(release) =>
                thrown := UpdateUI(release);
            }
          }
      }
      // catch: show the fallback; the exception goes on to the caller
      if thrown.Some? {
        SimulateFallback();
      }
      // finally
      SetLoading(false);
    }

    /**
     * `updateUI`: pick the package asset, then write the label, then set up
     * the button or report the missing package. A body without an assets
     * array throws at the search, before anything is written.
     */
    method UpdateUI(release: ReleaseBody) returns (thrown: Option<Error>)
      modifies versionElement`textContent, versionElement`classList, downloadWrap
      modifies downloadBtn`href, downloadBtn`ariaDisabled, downloadBtn`disabled
      modifies downloadBtn`opacity, downloadBtn`cursor, downloadBtn`clickHandlers
      ensures release.MissingAssets? ==>
        && thrown == Some(TypeError)
        && unchanged(versionElement, downloadBtn, downloadWrap)
      ensures release.Release? ==>
        && thrown == None
        && versionElement.classList == old(versionElement.classList) + {SUCCESS}
      ensures release.Release? && FindApk(release.assets).Some? ==>
        && versionElement.textContent == VERSION_PREFIX + release.tagName
        && downloadBtn.href == release.assets[FindApk(release.assets).value].downloadUrl
        && downloadBtn.ariaDisabled == Some("false")
        && !downloadBtn.disabled
        && downloadBtn.cursor == HAND_CURSOR
        && downloadBtn.opacity == old(downloadBtn.opacity)
        && downloadBtn.clickHandlers == old(downloadBtn.clickHandlers) + [release.tagName]
        && downloadWrap.animation == SUCCESS_ANIMATION
      ensures release.Release? && FindApk(release.assets).None? ==>
        && versionElement.textContent == VERSION_PREFIX + release.tagName + NO_APK_NOTE
        && downloadBtn.ariaDisabled == Some("true")
        && downloadBtn.opacity == DIMMED
        && unchanged(downloadBtn`href, downloadBtn`disabled, downloadBtn`cursor, downloadBtn`clickHandlers)
        && unchanged(downloadWrap)
    {
      match release {
        case MissingAssets =>
          thrown := Some(TypeError);
        case Release(tagName, assets) =>
          var apkAsset := FindApk(assets);
          versionElement.textContent := VERSION_PREFIX + tagName;
          versionElement.classList := versionElement.classList + {SUCCESS};
          if apkAsset.Some? {
            downloadBtn.href := assets[apkAsset.value].downloadUrl;
            downloadBtn.ariaDisabled := Some("false");
            downloadBtn.disabled := false;
            downloadBtn.cursor := HAND_CURSOR;
            // the click listener reports this tag to TrackDownload
            downloadBtn.clickHandlers := downloadBtn.clickHandlers + [tagName];
            ShowSuccess();
          } else {
            ShowNoApkFound();
          }
          thrown := None;
      }
    }

    /** `simulateFallback`: the "version unavailable" label and a disabled, dimmed button. */
    method SimulateFallback()
      modifies versionElement`textContent, versionElement`color
      modifies downloadBtn`ariaDisabled, downloadBtn`opacity, downloadBtn`cursor
      ensures versionElement.textContent == FALLBACK_TEXT && versionElement.color == FALLBACK_COLOR
      ensures downloadBtn.ariaDisabled == Some("true")
      ensures downloadBtn.opacity == DIMMED && downloadBtn.cursor == NOT_ALLOWED
    {
      versionElement.textContent := FALLBACK_TEXT;
      versionElement.color := FALLBACK_COLOR;
      downloadBtn.ariaDisabled := Some("true");
      downloadBtn.opacity := DIMMED;
      downloadBtn.cursor := NOT_ALLOWED;
    }

    /** `showSuccess`: start the pulse animation (its reset by a timer is not modelled). */
    method ShowSuccess()
      modifies downloadWrap
      ensures downloadWrap.animation == SUCCESS_ANIMATION
    {
      downloadWrap.animation := SUCCESS_ANIMATION;
    }

    /** `showNoApkFound`: annotate the label and disable the button, leaving its link alone. */
    method ShowNoApkFound()
      modifies versionElement`textContent, downloadBtn`ariaDisabled, downloadBtn`opacity
      ensures versionElement.textContent == old(versionElement.textContent) + NO_APK_NOTE
      ensures downloadBtn.ariaDisabled == Some("true") && downloadBtn.opacity == DIMMED
    {
      versionElement.textContent := versionElement.textContent + NO_APK_NOTE;
      downloadBtn.ariaDisabled := Some("true");
      downloadBtn.opacity := DIMMED;
    }

    /** `setLoading`: add or remove the loading class, and nothing else. */
    method SetLoading(isLoading: bool)
      modifies versionElement`classList
      ensures isLoading ==> versionElement.classList == old(versionElement.classList) + {LOADING}
      ensures !isLoading ==> versionElement.classList == old(versionElement.classList) - {LOADING}
    {
      if isLoading {
        versionElement.classList := versionElement.classList + {LOADING};
      } else {
        versionElement.classList := versionElement.classList - {LOADING};
      }
    }

    /** `handleError`: the error label in the error colour (the warning it logs is not modelled). */
    method HandleError(error: Error)
      modifies versionElement`textContent, versionElement`color
      ensures versionElement.textContent == ERROR_TEXT && versionElement.color == ERROR_COLOR
    {
      versionElement.textContent := ERROR_TEXT;
      versionElement.color := ERROR_COLOR;
    }

    /** `trackDownload`: send the download event when an analytics function is present, else do nothing. */
    method TrackDownload(version: string)
      modifies gtag
      ensures gtag != null ==> gtag.sent == old(gtag.sent) + [DownloadEvent(version)]
    {
      if gtag != null {
        gtag.Send(DownloadEvent(version));
      }
    }
  }
}
