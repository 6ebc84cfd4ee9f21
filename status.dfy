/** The `!archivestatus` report (`status_command`, bot.py:181-206). */
module Status {
  import opened Text
  import opened Routing

  /** What the chat client exposes to the report: the bot's own user, the
      names of the guilds it is in (in the client's order), and the sizes of
      its message cache and of its list of private channels. */
  datatype Client = Client(user: UserId, guildNames: seq<string>, cachedMessages: nat, privateChannels: nat)

  const StatusTitle := "Archive.org status"
  /** Orange. */
  const StatusColor := 16753920

  /** The embed of bot.py:197-203; every field is shown on its own line. */
  function StatusEmbed(client: Client, handledCount: nat): Payload
  {
    Embed(StatusTitle, StatusColor, [
      Field("Guild list", Join(client.guildNames, ", "), false),
      Field("Cached messages", Decimal(client.cachedMessages), false),
      Field("Private messages", Decimal(client.privateChannels), false),
      Field("Response messages", Decimal(handledCount), false)])
  }

  /** What `status_command` sends: nothing to a non-administrator, the report
      by DM to an administrator. `handledCount` is the length of the handled
      list. */
  function StatusReplies(cfg: Config, handledCount: nat, client: Client, msg: Message): seq<Reply>
  {
    if msg.author !in cfg.administratorIds then []
    else [DM(msg.author, StatusEmbed(client, handledCount))]
  }

  /** The guild list of bot.py:187-195: a counter loop that writes the first
      name and prefixes every later one with ", ". */
  method GuildList(names: seq<string>) returns (list: string)
    ensures list == Join(names, ", ")
  {
    list := "";
    var i := 0;
    while i < |names|
      invariant 0 <= i <= |names|
      invariant list == Join(names[..i], ", ")
    {
      if i > 0 {
        JoinSnoc(names[..i], names[i], ", ");
        assert names[..i + 1] == names[..i] + [names[i]];
        list := list + ", " + names[i];
      } else {
        assert names[..1] == [names[0]];
        list := names[i];
      }
      i := i + 1;
    }
    assert names[..i] == names;
  }

  /** Only administrators get a report, exactly one, by DM to themselves;
      its fields list the guild names joined by ", " in order (empty when
      there are none) and read back as the cache sizes and the number of
      handled messages. */
  lemma StatusReport(cfg: Config, handledCount: nat, client: Client, msg: Message)
    ensures var sent := StatusReplies(cfg, handledCount, client, msg);
      && (msg.author !in cfg.administratorIds ==> sent == [])
      && (msg.author in cfg.administratorIds ==>
            && |sent| == 1 && sent[0].DM? && sent[0].user == msg.author
            && sent[0].payload.Embed?
            && var fields := sent[0].payload.fields;
            && |fields| == 4
            && fields[0].name == "Guild list" && fields[0].value == Join(client.guildNames, ", ")
            && (client.guildNames == [] ==> fields[0].value == "")
            && fields[1].name == "Cached messages" && ParseDecimal(fields[1].value) == client.cachedMessages
            && fields[2].name == "Private messages" && ParseDecimal(fields[2].value) == client.privateChannels
            && fields[3].name == "Response messages" && ParseDecimal(fields[3].value) == handledCount)
  {
    DecimalRoundTrip(client.cachedMessages);
    DecimalRoundTrip(client.privateChannels);
    DecimalRoundTrip(handledCount);
  }
}
