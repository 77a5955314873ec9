/** Properties that span several listeners of build/sw.js. */
module Scenarios {
  import opened Wrappers
  import opened Config
  import opened CacheStore
  import opened Router
  import opened Fetch
  import opened Lifecycle
  import opened Control

  /** After a successful install, the page a notification click opens is
      answered even with the network down: it is in the Static partition,
      unless the origin itself makes it an API request, which gets the
      offline JSON. */
  lemma NotificationTargetOfflineAfterInstall(s: Store, origin: string, netStatic: string -> Option<Response>,
                                              netLogin: string -> Option<Response>, action: string)
    requires WellFormed(s)
    requires Install(s, origin, netStatic, netLogin).0
    ensures var installed := Install(s, origin, netStatic, netLogin).1;
      var req := Request("GET", Resolve(origin, NotificationTarget(action)), "document");
      var step := HandleFetch(installed, origin, req, None);
      step.outcome.Responded? && step.outcome.response.Some?
  {
    var installed := Install(s, origin, netStatic, netLogin).1;
    var url := Resolve(origin, NotificationTarget(action));
    NotificationTargetPrecached(action);
    InstallFills(s, origin, netStatic, netLogin);
    InstallIndependent(s, origin, netStatic, netLogin);
    assert StaticCache in installed.parts && url in installed.parts[StaticCache];
    assert MatchAny(installed, url).Some?;
  }

  /** Activation right after install leaves both pre-filled partitions as
      install made them. */
  lemma ActivateKeepsInstalled(s: Store, origin: string, netStatic: string -> Option<Response>, netLogin: string -> Option<Response>)
    requires WellFormed(s)
    ensures var installed := Install(s, origin, netStatic, netLogin).1;
      && StaticCache in Activate(installed).parts && LoginCache in Activate(installed).parts
      && Activate(installed).parts[StaticCache] == installed.parts[StaticCache]
      && Activate(installed).parts[LoginCache] == installed.parts[LoginCache]
  {
    InstallIndependent(s, origin, netStatic, netLogin);
  }

  /** A release with any other version tag names its partitions
      differently, so activation removes all three, whatever they held. */
  lemma ActivateSweepsOldRelease(s: Store, tag: string)
    requires tag != VersionTag
    ensures "ims-static-" + tag !in Activate(s).parts
    ensures "ims-dynamic-" + tag !in Activate(s).parts
    ensures "ims-login-" + tag !in Activate(s).parts
  {
    NamesShareVersionTag();
    OtherTagNotCurrent("ims-static-", tag);
    OtherTagNotCurrent("ims-dynamic-", tag);
    OtherTagNotCurrent("ims-login-", tag);
  }

  /** A role prefix followed by another tag is none of the current names:
      the same prefix would need the same tag, and the three prefixes
      differ at their fifth character. */
  lemma OtherTagNotCurrent(prefix: string, tag: string)
    requires prefix == "ims-static-" || prefix == "ims-dynamic-" || prefix == "ims-login-"
    requires tag != VersionTag
    ensures !IsCurrentName(prefix + tag)
  {
    NamesShareVersionTag();
    var n := prefix + tag;
    assert n[4] == prefix[4] && n[..|prefix|] == prefix && n[|prefix|..] == tag;
    assert StaticCache[..11] == "ims-static-" && StaticCache[11..] == VersionTag;
    assert DynamicCache[..12] == "ims-dynamic-" && DynamicCache[12..] == VersionTag;
    assert LoginCache[..10] == "ims-login-" && LoginCache[10..] == VersionTag;
  }
}
