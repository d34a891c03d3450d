/** Feature detection for the capture APIs and user-agent classification. */
module BrowserCheck {
  import opened Strings

  const CameraFeature := "カメラアクセス (getUserMedia API)"
  const RecorderFeature := "動画録画 (MediaRecorder API)"

  datatype BrowserCompatibility = BrowserCompatibility(isCompatible: bool, missingFeatures: seq<string>)

  /**
   * Builds the list of missing capture features, camera access first; the
   * browser is compatible exactly when nothing is missing.
   */
  method CheckBrowserCompatibility(hasGetUserMedia: bool, hasMediaRecorder: bool)
    returns (c: BrowserCompatibility)
    ensures c.isCompatible <==> c.missingFeatures == []
    ensures c.isCompatible <==> hasGetUserMedia && hasMediaRecorder
    ensures |c.missingFeatures| == (if hasGetUserMedia then 0 else 1) + (if hasMediaRecorder then 0 else 1)
    ensures CameraFeature in c.missingFeatures <==> !hasGetUserMedia
    ensures RecorderFeature in c.missingFeatures <==> !hasMediaRecorder
    ensures !hasGetUserMedia ==> c.missingFeatures[0] == CameraFeature
  {
    var missingFeatures: seq<string> := [];
    if !hasGetUserMedia {
      missingFeatures := missingFeatures + [CameraFeature];
    }
    if !hasMediaRecorder {
      missingFeatures := missingFeatures + [RecorderFeature];
    }
    c := BrowserCompatibility(|missingFeatures| == 0, missingFeatures);
  }

  /**
   * The first matching rule of a fixed if-chain names the browser; each
   * ensures characterises one answer in terms of the words the user agent
   * contains.
   */
  function GetBrowserName(userAgent: string): (name: string)
    ensures name == "Chrome" <==> Contains(userAgent, "Chrome") && !Contains(userAgent, "Edg")
    ensures name == "Safari" <==> Contains(userAgent, "Safari") && !Contains(userAgent, "Chrome")
    ensures name == "Edge" <==>
              Contains(userAgent, "Edg") && !Contains(userAgent, "Firefox")
              && !(Contains(userAgent, "Safari") && !Contains(userAgent, "Chrome"))
    ensures Contains(userAgent, "Chrome") && Contains(userAgent, "Edg") && !Contains(userAgent, "Firefox") ==>
              name == "Edge"
    ensures name == "Unknown" <==>
              !Contains(userAgent, "Chrome") && !Contains(userAgent, "Safari")
              && !Contains(userAgent, "Firefox") && !Contains(userAgent, "Edg")
    ensures name in {"Chrome", "Safari", "Firefox", "Edge", "Unknown"}
  {
    if Contains(userAgent, "Chrome") && !Contains(userAgent, "Edg") then "Chrome"
    else if Contains(userAgent, "Safari") && !Contains(userAgent, "Chrome") then "Safari"
    else if Contains(userAgent, "Firefox") then "Firefox"
    else if Contains(userAgent, "Edg") then "Edge"
    else "Unknown"
  }

  /**
   * A Chromium-based Edge user agent also names Chrome and Safari, yet the
   * chain classifies it as Edge; a desktop Chrome one names Safari too and
   * is still Chrome.
   */
  lemma {:induction false} ChromiumUserAgents(pre: string, mid: string, post: string)
    requires !Contains(pre + "Chrome" + mid + "Edg" + post, "Firefox")
    ensures GetBrowserName(pre + "Chrome" + mid + "Edg" + post) == "Edge"
    ensures !Contains(pre + "Chrome" + mid, "Edg") ==> GetBrowserName(pre + "Chrome" + mid) == "Chrome"
  {
    ContainsInMiddle(pre, "Chrome", mid + "Edg" + post);
    assert pre + "Chrome" + (mid + "Edg" + post) == pre + "Chrome" + mid + "Edg" + post;
    ContainsInMiddle(pre + "Chrome" + mid, "Edg", post);
    ContainsInMiddle(pre, "Chrome", mid);
  }
}
