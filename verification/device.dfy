/**
 * `detectDevice`: relabel the download button from the browser's user agent.
 */
module Device {

  import opened Wrappers
  import opened Text
  import opened Dom

  const ANDROID_LABEL := "Baixar para Android 📱"
  const UNAVAILABLE_LABEL := "Disponível apenas para Android 📱"

  /** The rows of the decision table: Android, the other mobile family (iPhone, iPad), anything else. */
  datatype Platform = Android | AppleMobile | Unrecognised

  /** The lower-cased user agent is tested for "android" first, then for "iphone" or "ipad". */
  function Classify(userAgent: string): Platform
  {
    var ua := ToLower(userAgent);
    if Contains(ua, "android") then Android
    else if Contains(ua, "iphone") || Contains(ua, "ipad") then AppleMobile
    else Unrecognised
  }

  /** The word occurs somewhere in the lower-cased user agent. */
  ghost predicate Mentions(userAgent: string, word: string)
  {
    exists i :: OccursAt(ToLower(userAgent), word, i)
  }

  /**
   * The table in terms of where the words occur in the lower-cased agent:
   * "android" anywhere wins, even beside "iphone" or "ipad".
   */
  lemma ClassifyByOccurrence(userAgent: string)
    ensures Classify(userAgent) == Android <==> Mentions(userAgent, "android")
    ensures Classify(userAgent) == AppleMobile <==>
      !Mentions(userAgent, "android") && (Mentions(userAgent, "iphone") || Mentions(userAgent, "ipad"))
    ensures Classify(userAgent) == Unrecognised <==>
      !Mentions(userAgent, "android") && !Mentions(userAgent, "iphone") && !Mentions(userAgent, "ipad")
  {
    var ua := ToLower(userAgent);
    ContainsIff(ua, "android");
    ContainsIff(ua, "iphone");
    ContainsIff(ua, "ipad");
  }

  /** The case of the user agent does not matter. */
  lemma ClassifyIgnoresCase(userAgent: string)
    ensures Classify(ToLower(userAgent)) == Classify(userAgent)
  {
    ToLowerIdempotent(userAgent);
  }

  /**
   * `detectDevice` on the download button: an Android agent only changes the
   * label; an iPhone or iPad agent gets the unavailable label and a disabled,
   * dimmed button; any other agent leaves the button as it is.
   */
  method DetectDevice(userAgent: string, downloadBtn: DownloadButton)
    modifies downloadBtn`innerHTML, downloadBtn`ariaDisabled, downloadBtn`opacity, downloadBtn`cursor
    ensures Classify(userAgent) == Android ==>
      && downloadBtn.innerHTML == ANDROID_LABEL
      && unchanged(downloadBtn`ariaDisabled, downloadBtn`opacity, downloadBtn`cursor)
    ensures Classify(userAgent) == AppleMobile ==>
      && downloadBtn.innerHTML == UNAVAILABLE_LABEL
      && downloadBtn.ariaDisabled == Some("true")
      && downloadBtn.opacity == DIMMED
      && downloadBtn.cursor == NOT_ALLOWED
    ensures Classify(userAgent) == Unrecognised ==> unchanged(downloadBtn)
  {
    var ua := ToLower(userAgent);
    if Contains(ua, "android") {
      downloadBtn.innerHTML := ANDROID_LABEL;
    } else if Contains(ua, "iphone") || Contains(ua, "ipad") {
      downloadBtn.innerHTML := UNAVAILABLE_LABEL;
      downloadBtn.ariaDisabled := Some("true");
      downloadBtn.opacity := DIMMED;
      downloadBtn.cursor := NOT_ALLOWED;
    }
  }
}
