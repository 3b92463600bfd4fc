/**
 * The floating install banner: it appears only when the browser offers an
 * install prompt, the app is not already running standalone, and the visitor
 * has not dismissed it before.
 */
module InstallPrompt {
  import opened Common
  import opened InstallPage

  const DismissedKey: string := "pwa-install-dismissed"

  class Banner {
    var showPrompt: bool
    var deferredPrompt: Option<PromptEvent>
    /** The "pwa-install-dismissed" entry of local storage. */
    var dismissedFlag: Option<string>
    /** Whether the mount effect registered the `beforeinstallprompt` listener. */
    var listening: bool

    /** The banner can only be up once the listener was registered. */
    ghost predicate Valid()
      reads this
    {
      showPrompt ==> listening
    }

    constructor (storedFlag: Option<string>)
      ensures Valid() && !showPrompt && deferredPrompt == None && !listening
      ensures dismissedFlag == storedFlag
    {
      showPrompt := false;
      deferredPrompt := None;
      dismissedFlag := storedFlag;
      listening := false;
    }

    /** The mount effect: listen only outside standalone mode and without an earlier dismissal. */
    method Mount(isStandalone: bool)
      requires Valid()
      modifies this
      ensures Valid()
      ensures listening == (old(listening) || (!isStandalone && !Truthy(dismissedFlag)))
      ensures showPrompt == old(showPrompt) && deferredPrompt == old(deferredPrompt) && dismissedFlag == old(dismissedFlag)
    {
      if isStandalone {
        return;
      }
      if Truthy(dismissedFlag) {
        return;
      }
      listening := true;
    }

    /** The browser fires `beforeinstallprompt`; only a registered listener reacts. */
    method OnBeforeInstallPrompt(e: PromptEvent)
      requires Valid()
      modifies this
      ensures Valid()
      ensures listening ==> deferredPrompt == Some(e) && showPrompt
      ensures !listening ==> deferredPrompt == old(deferredPrompt) && showPrompt == old(showPrompt)
      ensures listening == old(listening) && dismissedFlag == old(dismissedFlag)
    {
      if listening {
        deferredPrompt := Some(e);
        showPrompt := true;
      }
    }

    /**
     * `handleInstall`: nothing without a held prompt; otherwise prompt, then
     * hide and drop it. The user's choice is only logged, so it is not a parameter.
     */
    method HandleInstall() returns (prompted: Option<PromptEvent>)
      requires Valid()
      modifies this
      ensures Valid()
      ensures prompted == old(deferredPrompt)
      ensures deferredPrompt == None
      ensures old(deferredPrompt).None? ==> showPrompt == old(showPrompt)
      ensures old(deferredPrompt).Some? ==> !showPrompt
      ensures listening == old(listening) && dismissedFlag == old(dismissedFlag)
    {
      if deferredPrompt.None? {
        return None;
      }
      prompted := deferredPrompt;
      deferredPrompt := None;
      showPrompt := false;
    }

    /** `handleDismiss`: remember the dismissal and hide the banner. */
    method HandleDismiss()
      requires Valid()
      modifies this
      ensures Valid()
      ensures dismissedFlag == Some("true") && !showPrompt
      ensures deferredPrompt == old(deferredPrompt) && listening == old(listening)
    {
      dismissedFlag := Some("true");
      showPrompt := false;
    }
  }

  /**
   * A page load that finds the dismissal flag, or runs standalone, never shows
   * the banner, however many prompts the browser fires afterwards.
   */
  method SuppressedLoad(storedFlag: Option<string>, isStandalone: bool, first: PromptEvent, second: PromptEvent)
    returns (shown: bool)
    requires Truthy(storedFlag) || isStandalone
    ensures !shown
  {
    var banner := new Banner(storedFlag);
    banner.Mount(isStandalone);
    banner.OnBeforeInstallPrompt(first);
    banner.OnBeforeInstallPrompt(second);
    shown := banner.showPrompt;
  }

  /** Without the flag and outside standalone mode, the first prompt brings the banner up. */
  method FreshLoad(isStandalone: bool, e: PromptEvent) returns (shown: bool, held: Option<PromptEvent>)
    ensures shown <==> !isStandalone
    ensures !isStandalone ==> held == Some(e)
  {
    var banner := new Banner(None);
    banner.Mount(isStandalone);
    banner.OnBeforeInstallPrompt(e);
    shown, held := banner.showPrompt, banner.deferredPrompt;
  }
}
