/** The bot's process-wide state and its handlers, as the source runs them:
    `BotState.handled_messages` is a list the handlers append to in place,
    and every handler is proved to do what the specification functions of
    Routing, Workflows, Status and Dispatch say. */
module Bot {
  import opened Results
  import opened JsonValues
  import DictQuery
  import opened Routing
  import opened Workflows
  import opened Status
  import opened Dispatch

  /** `DictQuery(wayback_response).get('archived_snapshots/closest/url')`
      (bot.py:129). */
  method SnapshotOf(body: map<string, Json>) returns (r: Result<Json>)
    ensures r == Snapshot(body)
  {
    Workflows.SnapshotPathKeys();
    r := DictQuery.Get(body, SnapshotPath, JNull);
  }

  class BotState {
    /** The configuration, loaded once and never changed. */
    const config: Config
    /** The ids of messages answered in their channel, in order; append-only. */
    var handledMessages: seq<MessageId>

    constructor (config: Config)
      ensures this.config == config && handledMessages == []
    {
      this.config := config;
      handledMessages := [];
    }

    /** `respond_to_user` (bot.py:88-107). */
    method RespondToUser(msg: Message, user: UserId, payload: Payload, repeat: bool) returns (sent: seq<Reply>)
      requires msg.guild.Some?
      modifies this
      ensures var o := Respond(config, old(handledMessages), msg, user, payload, repeat);
        handledMessages == o.handled && sent == o.sent
    {
      if config.messageTarget == "user" || msg.channel == None {
        sent := [DM(user, payload)];
      } else if msg.id !in handledMessages || repeat {
        sent := [Channel(msg.channel.value, payload)];
        handledMessages := handledMessages + [msg.id];
      } else {
        sent := [];
      }
    }

    /** `handle_page_save_request` (bot.py:159-179). */
    method HandlePageSaveRequest(msg: Message, user: UserId, resp: Response, repeat: bool) returns (sent: seq<Reply>)
      requires msg.guild.Some?
      modifies this
      ensures var o := HandlePageSave(config, old(handledMessages), msg, user, resp, repeat);
        handledMessages == o.handled && sent == o.sent
    {
      if resp.status !in [302, 301] {
        if resp.status in [523, 520] {
          sent := [DM(user, Text(DeclineText))];
        } else {
          sent := [];
        }
      } else if resp.location.None? {
        sent := [];
      } else {
        sent := RespondToUser(msg, user, Text(resp.location.value), repeat);
      }
    }

    /** One pass of the loop of bot.py:125-140: look the URL up, reply with
        the snapshot if there is one, otherwise ask for a save and handle
        its response. */
    method ArchiveOne(lookup: Lookup, save: Save, msg: Message, user: UserId, url: Url)
      returns (events: seq<Event>, status: RunStatus)
      requires msg.guild.Some?
      modifies this
      ensures var s := ArchiveStep(config, old(handledMessages), lookup, save, msg, user, url);
        handledMessages == s.handled && events == s.events && status == s.status
    {
      ghost var step := ArchiveStep(config, handledMessages, lookup, save, msg, user, url);
      events := [LookupCall(url)];
      var body := lookup(url);
      if body.Err? {
        return events, Raised;
      }
      var wayback := SnapshotOf(body.value);
      if wayback.Err? {
        return events, Raised;
      }
      var w := wayback.value;
      if Truthy(w) {
        ghost var o := Respond(config, handledMessages, msg, user, AsPayload(w), false);
        assert step == Run(o.handled, [LookupCall(url)] + Sends(o.sent), Completed);
        var sent := RespondToUser(msg, user, AsPayload(w), false);
        events := events + Sends(sent);
      } else {
        events := events + [SaveCall(url)];
        var response := save(url);
        if response.Err? {
          assert step == Run(handledMessages, events, Returned);
          return events, Returned;
        }
        ghost var o := HandlePageSave(config, handledMessages, msg, user, response.value, false);
        assert step == Run(o.handled, [LookupCall(url), SaveCall(url)] + Sends(o.sent), Completed);
        var sent := HandlePageSaveRequest(msg, user, response.value, false);
        events := events + Sends(sent);
      }
      status := Completed;
    }

    /** `handle_archive_react` (bot.py:118-140). */
    method HandleArchiveReact(extractor: string -> seq<Url>, lookup: Lookup, save: Save, msg: Message, user: UserId)
      returns (events: seq<Event>, status: RunStatus)
      modifies this
      ensures var r := ArchiveReact(config, old(handledMessages), extractor, lookup, save, msg, user);
        handledMessages == r.handled && events == r.events && status == r.status
    {
      events := [];
      if msg.guild.None? || msg.channel.None? {
        return events, Raised;
      }
      var urls := extractor(msg.content);
      ghost var whole := ArchiveRun(config, handledMessages, lookup, save, msg, user, urls);
      var i := 0;
      while i < |urls|
        invariant 0 <= i <= |urls|
        invariant var rest := ArchiveRun(config, handledMessages, lookup, save, msg, user, urls[i..]);
          whole == Run(rest.handled, events + rest.events, rest.status)
      {
        var url := urls[i];
        assert urls[i..][0] == url && urls[i..][1..] == urls[i + 1..];
        var stepEvents, stepStatus := ArchiveOne(lookup, save, msg, user, url);
        if stepStatus != Completed {
          return events + stepEvents, stepStatus;
        }
        ghost var rest := ArchiveRun(config, handledMessages, lookup, save, msg, user, urls[i + 1..]);
        assert events + (stepEvents + rest.events) == (events + stepEvents) + rest.events;
        events := events + stepEvents;
        i := i + 1;
      }
      assert urls[i..] == [];
      assert events + [] == events;
      status := Completed;
    }

    /** One pass of the loop of bot.py:147-157: save the URL, keep the
        response if the save went through, and handle the response held, if
        any, as a forced repeat. */
    method RepeatOne(save: Save, msg: Message, user: UserId, url: Url, last: Option<Response>)
      returns (stepEvents: seq<Event>, response: Option<Response>)
      requires msg.guild.Some?
      modifies this
      ensures response == if save(url).Ok? then Some(save(url).value) else last
      ensures var o := RepeatHandle(config, old(handledMessages), msg, user, response);
        handledMessages == o.handled && stepEvents == [SaveCall(url)] + Sends(o.sent)
    {
      response := last;
      var saved := save(url);
      if saved.Ok? {
        response := Some(saved.value);
      }
      var sent: seq<Reply> := [];
      if response.Some? {
        sent := HandlePageSaveRequest(msg, user, response.value, true);
      }
      stepEvents := [SaveCall(url)] + Sends(sent);
    }

    /** `handle_repeat_react` (bot.py:142-157). */
    method HandleRepeatReact(extractor: string -> seq<Url>, save: Save, msg: Message, user: UserId)
      returns (events: seq<Event>, status: RunStatus)
      modifies this
      ensures var r := RepeatReact(config, old(handledMessages), extractor, save, msg, user);
        handledMessages == r.handled && events == r.events && status == r.status
    {
      if msg.guild.None? {
        return [], Raised;
      }
      events := RepeatLoop(save, msg, user, extractor(msg.content));
      status := Completed;
    }

    /** The loop of bot.py:147-157, keeping its `response` variable across
        iterations as Python does. */
    method RepeatLoop(save: Save, msg: Message, user: UserId, urls: seq<Url>) returns (events: seq<Event>)
      requires msg.guild.Some?
      modifies this
      ensures var r := RepeatRun(config, old(handledMessages), save, msg, user, urls, None);
        handledMessages == r.handled && events == r.events && r.status == Completed
    {
      events := [];
      var response: Option<Response> := None;
      ghost var whole := RepeatRun(config, handledMessages, save, msg, user, urls, None);
      var i := 0;
      while i < |urls|
        invariant 0 <= i <= |urls|
        invariant var rest := RepeatRun(config, handledMessages, save, msg, user, urls[i..], response);
          whole == Run(rest.handled, events + rest.events, rest.status)
      {
        var url := urls[i];
        assert urls[i..][0] == url && urls[i..][1..] == urls[i + 1..];
        ghost var h := handledMessages;
        ghost var last := response;
        var stepEvents;
        stepEvents, response := RepeatOne(save, msg, user, url, response);
        RepeatRunStep(config, h, save, msg, user, urls[i..], last, response);
        ghost var rest := RepeatRun(config, handledMessages, save, msg, user, urls[i + 1..], response);
        assert events + (stepEvents + rest.events) == (events + stepEvents) + rest.events;
        events := events + stepEvents;
        i := i + 1;
      }
      assert urls[i..] == [];
      assert events + [] == events;
    }

    /** `status_command` (bot.py:181-206). */
    method StatusCommand(client: Client, msg: Message) returns (sent: seq<Reply>)
      ensures sent == StatusReplies(config, |handledMessages|, client, msg)
    {
      if msg.author !in config.administratorIds {
        sent := [];
      } else {
        var guildList := GuildList(client.guildNames);
        sent := [DM(msg.author, Embed(StatusTitle, StatusColor, [
          Field("Guild list", guildList, false),
          Field("Cached messages", Text.Decimal(client.cachedMessages), false),
          Field("Private messages", Text.Decimal(client.privateChannels), false),
          Field("Response messages", Text.Decimal(|handledMessages|), false)]))];
      }
    }

    /** `on_reaction_add` (bot.py:249-259): the handler's own exceptions are
        caught and logged. */
    method OnReactionAdd(emoji: string, extractor: string -> seq<Url>, lookup: Lookup, save: Save, msg: Message, user: UserId)
      returns (events: seq<Event>)
      modifies this
      ensures var r := ReactionRun(config, old(handledMessages), emoji, extractor, lookup, save, msg, user);
        handledMessages == r.handled && events == r.events
    {
      events := [];
      if emoji == ArchiveEmoji {
        var status;
        events, status := HandleArchiveReact(extractor, lookup, save, msg, user);
      } else if emoji == RepeatEmoji {
        var status;
        events, status := HandleRepeatReact(extractor, save, msg, user);
      }
    }
  }
}
