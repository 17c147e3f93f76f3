/**
 * The page's `DOMContentLoaded` listeners: the controller is created and
 * starts its load, then `detectDevice` runs; the load finishes later.
 */
module Page {

  import opened Wrappers
  import opened Release
  import opened Dom
  import opened Device
  import opened App

  /**
   * The two listeners share the download button. The controller's
   * constructor runs `init` up to its first suspension, which only adds the
   * loading class to the version label; `detectDevice` only writes the
   * button. Those two steps commute, so running `DetectDevice` first and the
   * whole of `Init` after it leaves the state the page reaches.
   *
   * The release flow never rewrites the button's label, and it re-enables a
   * button that `detectDevice` disabled for an iPhone or iPad: such a visitor
   * ends with an enabled, pointer-cursor button that is still dimmed and
   * still says the download is for Android only.
   */
  method OnDomContentLoaded(userAgent: string, outcome: FetchOutcome, version: VersionElement,
                            button: DownloadButton, wrap: DownloadWrap, analytics: Analytics?)
    returns (app: VoidDownload)
    modifies version, button, wrap
    ensures app.versionElement == version && app.downloadBtn == button
    ensures app.downloadWrap == wrap && app.gtag == analytics
    ensures LOADING !in version.classList
    ensures Settle(outcome).Failed? ==> version.textContent == ERROR_TEXT && version.color == ERROR_COLOR
    ensures Classify(userAgent) == Android ==> button.innerHTML == ANDROID_LABEL
    ensures Classify(userAgent) == AppleMobile ==> button.innerHTML == UNAVAILABLE_LABEL
    ensures Classify(userAgent) == Unrecognised ==> button.innerHTML == old(button.innerHTML)
    ensures Classify(userAgent) == AppleMobile && Settle(outcome).Ready? ==>
      && button.ariaDisabled == Some("false")
      && button.cursor == HAND_CURSOR
      && button.opacity == DIMMED
    ensures Classify(userAgent) == AppleMobile && !Settle(outcome).Ready? ==>
      && button.ariaDisabled == Some("true")
      && button.opacity == DIMMED
      && button.cursor == NOT_ALLOWED
    ensures Classify(userAgent) == Android && Settle(outcome).Ready? ==>
      && button.ariaDisabled == Some("false")
      && button.cursor == HAND_CURSOR
      && button.opacity == old(button.opacity)
  {
    app := new VoidDownload(version, button, wrap, analytics);
    DetectDevice(userAgent, button);
    app.Init(outcome);
  }
}
