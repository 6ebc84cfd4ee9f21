/** Chat-side values, reply routing with de-duplication (`respond_to_user`,
    bot.py:88-107) and the classification of a save request's HTTP response
    (`handle_page_save_request`, bot.py:159-179). */
module Routing {
  import opened Results
  import opened JsonValues

  type UserId = nat
  type MessageId = nat
  type ChannelId = nat
  type GuildId = nat
  type Url = string

  /** The loaded configuration: `messageTarget` and `administratorIds`. */
  datatype Config = Config(messageTarget: string, administratorIds: seq<UserId>)

  /** A chat message: its id, author, text, and the channel and guild it was
      posted in (a message outside any guild has none). */
  datatype Message = Message(
    id: MessageId,
    author: UserId,
    content: string,
    channel: Option<ChannelId>,
    guild: Option<GuildId>)

  datatype Field = Field(name: string, value: string, inline: bool)

  /** What is handed to the chat library to send: text, a JSON value that is
      not a string (the library sends its `str()` form, which is not
      modelled), or an embed. */
  datatype Payload =
    | Text(text: string)
    | Stringified(value: Json)
    | Embed(title: string, color: int, fields: seq<Field>)

  /** One call of `send_dm` or `send_to_channel`. */
  datatype Reply = DM(user: UserId, payload: Payload) | Channel(channel: ChannelId, payload: Payload)

  /** The state after a routing decision and the replies it sent. */
  datatype Routed = Routed(handled: seq<MessageId>, sent: seq<Reply>)

  /** Replies go to the reacting user by DM in `user` mode or when the
      message has no channel. */
  predicate RepliesByDM(cfg: Config, msg: Message)
  {
    cfg.messageTarget == "user" || msg.channel.None?
  }

  /** `respond_to_user(message, user, payload, repeat_react)` applied to the
      handled-message list `handled`. It logs `message.guild.id` first, so a
      message without a guild never gets here (its caller has already failed
      on the same expression). */
  function Respond(cfg: Config, handled: seq<MessageId>, msg: Message, user: UserId, payload: Payload, repeat: bool): (o: Routed)
    requires msg.guild.Some?
    // user mode, or no channel: exactly one DM and the list is untouched
    ensures RepliesByDM(cfg, msg) ==> o.sent == [DM(user, payload)] && o.handled == handled
    // channel mode, unseen or forced: one channel reply and the id appended,
    // even when it is already there
    ensures !RepliesByDM(cfg, msg) && (msg.id !in handled || repeat) ==>
      o.sent == [Channel(msg.channel.value, payload)] && o.handled == handled + [msg.id]
    // channel mode, seen and not forced: nothing is sent and nothing changes
    ensures !RepliesByDM(cfg, msg) && msg.id in handled && !repeat ==> o.sent == [] && o.handled == handled
  {
    if RepliesByDM(cfg, msg) then Routed(handled, [DM(user, payload)])
    else if msg.id !in handled || repeat then Routed(handled + [msg.id], [Channel(msg.channel.value, payload)])
    else Routed(handled, [])
  }

  /** The reply sent when the archive refuses to crawl a link. */
  const DeclineText := "The Internet Archive declined to crawl the link you reacted to.  Sorry."

  /** The response to `GET /save/<url>` with redirects not followed: its
      status code and its `Location` header, if any. Its body is only
      logged. */
  datatype Response = Response(status: int, location: Option<string>)

  /** What a save response means. */
  datatype SaveOutcome =
    | Redirected(location: string)    // 301/302 with a Location header: the new snapshot
    | RedirectWithoutLocation         // 301/302 but the header lookup raises: logged
    | Declined                        // 520/523: the archive would not crawl the page
    | Unexpected(status: int)         // anything else: logged

  /** The statuses of a save that went through: the archive redirects to
      the new snapshot. */
  predicate IsRedirect(status: int) { status == 301 || status == 302 }

  /** The statuses of a save the archive refused to crawl. */
  predicate IsDecline(status: int) { status == 520 || status == 523 }

  function Classify(resp: Response): (c: SaveOutcome)
    ensures c.Redirected? <==> IsRedirect(resp.status) && resp.location.Some?
    ensures c.Redirected? ==> resp.location == Some(c.location)
    ensures c.RedirectWithoutLocation? <==> IsRedirect(resp.status) && resp.location.None?
    ensures c.Declined? <==> IsDecline(resp.status)
    ensures c.Unexpected? <==> !IsRedirect(resp.status) && !IsDecline(resp.status)
  {
    if resp.status !in [302, 301] then
      if resp.status in [523, 520] then Declined else Unexpected(resp.status)
    else
      match resp.location
      case Some(loc) => Redirected(loc)
      case None => RedirectWithoutLocation
  }

  /** `handle_page_save_request(message, user, url, response, repeat_react)`:
      a redirect with a location is routed like any reply, a decline is
      always a DM and never routed, everything else only reaches the log. */
  function HandlePageSave(cfg: Config, handled: seq<MessageId>, msg: Message, user: UserId, resp: Response, repeat: bool): (o: Routed)
    requires msg.guild.Some?
    ensures IsRedirect(resp.status) && resp.location.Some? ==>
      o == Respond(cfg, handled, msg, user, Text(resp.location.value), repeat)
    ensures IsDecline(resp.status) ==> o == Routed(handled, [DM(user, Text(DeclineText))])
    ensures IsRedirect(resp.status) && resp.location.None? ==> o == Routed(handled, [])
    ensures !IsRedirect(resp.status) && !IsDecline(resp.status) ==> o == Routed(handled, [])
  {
    match Classify(resp)
    case Redirected(loc) => Respond(cfg, handled, msg, user, Text(loc), repeat)
    case RedirectWithoutLocation => Routed(handled, [])
    case Declined => Routed(handled, [DM(user, Text(DeclineText))])
    case Unexpected(_) => Routed(handled, [])
  }

  /** Routing only ever appends to the handled list, sends at most one reply,
      and sends to a channel only the message's own channel. */
  lemma RoutingAppendOnly(cfg: Config, handled: seq<MessageId>, msg: Message, user: UserId, resp: Response, repeat: bool)
    requires msg.guild.Some?
    ensures var o := HandlePageSave(cfg, handled, msg, user, resp, repeat);
      && handled <= o.handled
      && |o.sent| <= 1
      && (o.handled != handled ==> o.handled == handled + [msg.id])
      && (forall r :: r in o.sent && r.Channel? ==> Some(r.channel) == msg.channel && msg.id in o.handled)
  {
  }
}
