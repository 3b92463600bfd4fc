/**
 * The install page: which instructions to show for the visitor's device, and
 * the browser's deferred install prompt.
 */
module InstallPage {
  import opened Common

  datatype DeviceType = Android | Ios | Desktop

  /** The browser's deferred `beforeinstallprompt` event; only its identity matters here. */
  datatype PromptEvent = PromptEvent(id: nat)

  /** `toLowerCase` on the ASCII letters, the only ones the tests below look for. */
  function Lower(c: char): (r: char)
    ensures !('A' <= r <= 'Z')
    ensures 'A' <= c <= 'Z' ==> r as int == c as int + 32
    ensures !('A' <= c <= 'Z') ==> r == c
  {
    if 'A' <= c <= 'Z' then (c as int + 32) as char else c
  }

  function ToLower(s: string): (r: string)
    ensures |r| == |s| && forall k :: 0 <= k < |s| ==> r[k] == Lower(s[k])
  {
    seq(|s|, k requires 0 <= k < |s| => Lower(s[k]))
  }

  /** Lower-casing twice is lower-casing once. */
  lemma ToLowerIdempotent(s: string)
    ensures ToLower(ToLower(s)) == ToLower(s)
  {
  }

  predicate IsIos(lowered: string)
  {
    Contains(lowered, "iphone") || Contains(lowered, "ipad") || Contains(lowered, "ipod")
  }

  /** The mount effect's classification of `navigator.userAgent`. */
  function Classify(userAgent: string): (d: DeviceType)
    ensures d == Ios <==> IsIos(ToLower(userAgent))
    ensures d == Android <==> !IsIos(ToLower(userAgent)) && Contains(ToLower(userAgent), "android")
    ensures d == Desktop <==> !IsIos(ToLower(userAgent)) && !Contains(ToLower(userAgent), "android")
  {
    var ua := ToLower(userAgent);
    if IsIos(ua) then Ios else if Contains(ua, "android") then Android else Desktop
  }

  /** Case does not matter: an agent and its lower-cased form are classified alike. */
  lemma ClassifyIgnoresCase(userAgent: string)
    ensures Classify(ToLower(userAgent)) == Classify(userAgent)
  {
    ToLowerIdempotent(userAgent);
  }

  /** An agent naming both an iPad and Android is treated as iOS. */
  lemma IosBeforeAndroid(before: string, middle: string, after: string)
    requires ToLower(before) == before && ToLower(middle) == middle && ToLower(after) == after
    ensures Classify(before + "ipad" + middle + "android" + after) == Ios
  {
    var ua := before + "ipad" + middle + "android" + after;
    assert ToLower(ua) == ua;
    assert ua == before + "ipad" + (middle + "android" + after);
    ContainsWrapped(before, "ipad", middle + "android" + after);
  }

  class InstallScreen {
    var deviceType: DeviceType
    var deferredPrompt: Option<PromptEvent>
    var isInstallable: bool

    /** The install button is offered exactly while a prompt is held. */
    ghost predicate Valid()
      reads this
    {
      isInstallable <==> deferredPrompt.Some?
    }

    constructor ()
      ensures Valid() && deviceType == Desktop && deferredPrompt == None && !isInstallable
    {
      deviceType := Desktop;
      deferredPrompt := None;
      isInstallable := false;
    }

    /** The mount effect's first part: classify the device. */
    method DetectDevice(userAgent: string)
      requires Valid()
      modifies this
      ensures Valid()
      ensures deviceType == Classify(userAgent)
      ensures deferredPrompt == old(deferredPrompt) && isInstallable == old(isInstallable)
    {
      var ua := ToLower(userAgent);
      if IsIos(ua) {
        deviceType := Ios;
      } else if Contains(ua, "android") {
        deviceType := Android;
      } else {
        deviceType := Desktop;
      }
    }

    /** The `beforeinstallprompt` listener: keep the event and offer installation. */
    method OnBeforeInstallPrompt(e: PromptEvent)
      modifies this
      ensures Valid()
      ensures deferredPrompt == Some(e) && isInstallable && deviceType == old(deviceType)
    {
      deferredPrompt := Some(e);
      isInstallable := true;
    }

    /**
     * `handleInstallPWA`: without a held prompt nothing happens; otherwise the
     * prompt is shown (`prompted`) and then dropped, whatever the user chose:
     * the choice is only logged, so it is not a parameter here.
     */
    method HandleInstallPWA() returns (prompted: Option<PromptEvent>)
      requires Valid()
      modifies this
      ensures Valid()
      ensures prompted == old(deferredPrompt)
      ensures deferredPrompt == None && !isInstallable
      ensures deviceType == old(deviceType)
    {
      if deferredPrompt.None? {
        return None;
      }
      prompted := deferredPrompt;
      deferredPrompt := None;
      isInstallable := false;
    }
  }
}
