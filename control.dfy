/** The two small routing tables of build/sw.js: where a notification click
    leads, and what a control message from a page does. */
module Control {
  import opened Wrappers
  import opened Config

  /** The path `clients.openWindow` is given for a click with `action`
      (the empty string for a click on the notification body). */
  function NotificationTarget(action: string): (path: string)
    ensures path == "/dashboard" <==> action == "explore"
    ensures path == "/" <==> action != "explore"
  {
    if action == "explore" then "/dashboard" else "/"
  }

  /** Both destinations are pages of the Static manifest. */
  lemma NotificationTargetPrecached(action: string)
    ensures NotificationTarget(action) in UrlsToCache
  {
  }

  /** What the worker posts back on `event.ports[0]`. */
  datatype Reply =
    | NoReply
    | VersionReply(version: string)   // `{ version: ... }`
    | MissingPort                     // `event.ports[0]` is undefined: the handler throws

  datatype MessageEffect = MessageEffect(skipWaiting: bool, reply: Reply)

  /** The `message` listener. `messageType` is `event.data.type` when the
      data is present and carries a string type, `None` otherwise; `ports`
      is the number of transferred ports. The two tests are independent,
      but no message passes both. */
  function RouteMessage(messageType: Option<string>, ports: nat): (e: MessageEffect)
    ensures e.skipWaiting <==> messageType == Some("SKIP_WAITING")
    ensures e.reply.VersionReply? <==> messageType == Some("GET_VERSION") && ports > 0
    ensures e.reply == MissingPort <==> messageType == Some("GET_VERSION") && ports == 0
    ensures e.reply.VersionReply? ==> e.reply.version == CacheName && !e.skipWaiting
  {
    var skip := messageType == Some("SKIP_WAITING");
    var reply :=
      if messageType == Some("GET_VERSION") then
        if ports > 0 then VersionReply(CacheName) else MissingPort
      else NoReply;
    MessageEffect(skip, reply)
  }

  /** The version a page is told is the tag in every current partition name. */
  lemma VersionReplyNamesPartitions(messageType: Option<string>, ports: nat)
    requires RouteMessage(messageType, ports).reply.VersionReply?
    ensures RouteMessage(messageType, ports).reply.version == "ims-" + VersionTag
    ensures StaticCache == "ims-static-" + VersionTag && LoginCache == "ims-login-" + VersionTag
    ensures DynamicCache == "ims-dynamic-" + VersionTag
  {
    NamesShareVersionTag();
  }
}
