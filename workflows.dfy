/** The two reaction workflows: `handle_archive_react` (bot.py:118-140) and
    `handle_repeat_react` (bot.py:142-157), as functions of the handled list
    they start from. The archive service is two oracles, `lookup` for the
    availability endpoint and `save` for the save endpoint; everything the
    workflows do is recorded in order as a trace of events. */
module Workflows {
  import opened Results
  import opened JsonValues
  import opened Text
  import opened DictQuery
  import opened Routing

  /** One observable action of a workflow. */
  datatype Event = LookupCall(url: Url) | SaveCall(url: Url) | Sent(reply: Reply)

  /** How a handler run ended: it went through every URL, it `return`ed early
      after a failed save, or an exception escaped it. */
  datatype RunStatus = Completed | Returned | Raised

  datatype Run = Run(handled: seq<MessageId>, events: seq<Event>, status: RunStatus)

  /** The availability endpoint: for a URL, the dict that
      `DictQuery(response.json())` starts from, which is `dict()` of the
      parsed body (an empty JSON array or string gives an empty dict). `Err`
      when the request fails, the body is not JSON, or `dict()` rejects it
      (a number, or an array that is not of key-value pairs). Both endpoints
      are functions of the URL, so a URL that occurs twice in one message
      gets the same answers both times. */
  type Lookup = Url -> Result<map<string, Json>>
  /** The save endpoint: the response for a URL, or `Err` on a transport
      failure. */
  type Save = Url -> Result<Response>

  const SnapshotPath := "archived_snapshots/closest/url"
  const SnapshotKeys: seq<string> := ["archived_snapshots", "closest", "url"]

  /** The path the bot asks for splits into its three keys. */
  lemma SnapshotPathKeys()
    ensures Split(SnapshotPath, '/') == SnapshotKeys
  {
    assert Join(SnapshotKeys, "/") == SnapshotPath;
    SplitJoin(SnapshotKeys, '/');
  }

  function Sends(rs: seq<Reply>): (es: seq<Event>)
    ensures |es| == |rs| && forall k :: 0 <= k < |rs| ==> es[k] == Sent(rs[k])
  {
    if rs == [] then [] else [Sent(rs[0])] + Sends(rs[1..])
  }

  function Lookups(es: seq<Event>): seq<Url>
  {
    if es == [] then [] else (if es[0].LookupCall? then [es[0].url] else []) + Lookups(es[1..])
  }

  function Saves(es: seq<Event>): seq<Url>
  {
    if es == [] then [] else (if es[0].SaveCall? then [es[0].url] else []) + Saves(es[1..])
  }

  function Replies(es: seq<Event>): seq<Reply>
  {
    if es == [] then [] else (if es[0].Sent? then [es[0].reply] else []) + Replies(es[1..])
  }

  /** The number of replies posted to a channel. */
  function ChannelReplies(es: seq<Event>): nat
  {
    if es == [] then 0 else (if es[0].Sent? && es[0].reply.Channel? then 1 else 0) + ChannelReplies(es[1..])
  }

  lemma {:induction false} LookupsAppend(a: seq<Event>, b: seq<Event>)
    ensures Lookups(a + b) == Lookups(a) + Lookups(b)
  {
    if a == [] {
      assert a + b == b;
    } else {
      assert (a + b)[0] == a[0] && (a + b)[1..] == a[1..] + b;
      LookupsAppend(a[1..], b);
    }
  }

  lemma {:induction false} SavesAppend(a: seq<Event>, b: seq<Event>)
    ensures Saves(a + b) == Saves(a) + Saves(b)
  {
    if a == [] {
      assert a + b == b;
    } else {
      assert (a + b)[0] == a[0] && (a + b)[1..] == a[1..] + b;
      SavesAppend(a[1..], b);
    }
  }

  lemma {:induction false} RepliesAppend(a: seq<Event>, b: seq<Event>)
    ensures Replies(a + b) == Replies(a) + Replies(b)
  {
    if a == [] {
      assert a + b == b;
    } else {
      assert (a + b)[0] == a[0] && (a + b)[1..] == a[1..] + b;
      RepliesAppend(a[1..], b);
    }
  }

  lemma {:induction false} ChannelRepliesAppend(a: seq<Event>, b: seq<Event>)
    ensures ChannelReplies(a + b) == ChannelReplies(a) + ChannelReplies(b)
  {
    if a == [] {
      assert a + b == b;
    } else {
      assert (a + b)[0] == a[0] && (a + b)[1..] == a[1..] + b;
      ChannelRepliesAppend(a[1..], b);
    }
  }

  /** The projections of a trace distribute over concatenation. */
  lemma ProjectAppend(a: seq<Event>, b: seq<Event>)
    ensures Lookups(a + b) == Lookups(a) + Lookups(b)
    ensures Saves(a + b) == Saves(a) + Saves(b)
    ensures Replies(a + b) == Replies(a) + Replies(b)
    ensures ChannelReplies(a + b) == ChannelReplies(a) + ChannelReplies(b)
  {
    LookupsAppend(a, b);
    SavesAppend(a, b);
    RepliesAppend(a, b);
    ChannelRepliesAppend(a, b);
  }

  /** Sending calls neither endpoint and sends exactly the given replies. */
  lemma {:induction false} SendsProject(rs: seq<Reply>)
    ensures Lookups(Sends(rs)) == [] && Saves(Sends(rs)) == []
    ensures Replies(Sends(rs)) == rs
  {
    if rs != [] {
      SendsProject(rs[1..]);
    }
  }

  /** `DictQuery(body).get('archived_snapshots/closest/url')`, with the path
      already split (see SnapshotPathKeys). */
  function Snapshot(body: map<string, Json>): Result<Json>
  {
    Query(body, SnapshotKeys, JNull)
  }

  /** What the lookup of bot.py:127-129 yields for a URL: the snapshot value,
      or `Err` when the request or the path walk raises. */
  function LookupOutcome(lookup: Lookup, url: Url): Result<Json>
  {
    match lookup(url)
    case Err => Err
    case Ok(body) => Snapshot(body)
  }

  /** The lookup succeeded but found no snapshot (a falsy value). */
  predicate NeedsSave(lookup: Lookup, url: Url)
  {
    LookupOutcome(lookup, url).Ok? && !Truthy(LookupOutcome(lookup, url).value)
  }

  function NeedingSave(lookup: Lookup, urls: seq<Url>): seq<Url>
  {
    if urls == [] then [] else (if NeedsSave(lookup, urls[0]) then [urls[0]] else []) + NeedingSave(lookup, urls[1..])
  }

  /** The snapshot value as the text of a reply. */
  function AsPayload(w: Json): Payload
  {
    if w.JStr? then Text(w.s) else Stringified(w)
  }

  /** One pass of the loop of bot.py:125-140 for one URL. */
  function ArchiveStep(cfg: Config, handled: seq<MessageId>, lookup: Lookup, save: Save, msg: Message, user: UserId, url: Url): Run
    requires msg.guild.Some?
  {
    match LookupOutcome(lookup, url)
    case Err => Run(handled, [LookupCall(url)], Raised)
    case Ok(w) =>
      if Truthy(w) then
        var o := Respond(cfg, handled, msg, user, AsPayload(w), false);
        Run(o.handled, [LookupCall(url)] + Sends(o.sent), Completed)
      else
        match save(url)
        case Err => Run(handled, [LookupCall(url), SaveCall(url)], Returned)
        case Ok(resp) =>
          var o := HandlePageSave(cfg, handled, msg, user, resp, false);
          Run(o.handled, [LookupCall(url), SaveCall(url)] + Sends(o.sent), Completed)
  }

  /** The loop of bot.py:125-140 over `urls`: it stops at the first URL whose
      lookup raises or whose save fails. */
  function ArchiveRun(cfg: Config, handled: seq<MessageId>, lookup: Lookup, save: Save, msg: Message, user: UserId, urls: seq<Url>): Run
    requires msg.guild.Some?
    decreases |urls|
  {
    if urls == [] then Run(handled, [], Completed)
    else
      var s := ArchiveStep(cfg, handled, lookup, save, msg, user, urls[0]);
      if s.status != Completed then s
      else
        var r := ArchiveRun(cfg, s.handled, lookup, save, msg, user, urls[1..]);
        Run(r.handled, s.events + r.events, r.status)
  }

  /** `handle_archive_react(extractor, message, user)`: its first line reads
      the message's channel and guild ids, so a message lacking either makes
      it raise before anything else happens. */
  function ArchiveReact(cfg: Config, handled: seq<MessageId>, extractor: string -> seq<Url>, lookup: Lookup, save: Save, msg: Message, user: UserId): Run
  {
    if msg.guild.None? || msg.channel.None? then Run(handled, [], Raised)
    else ArchiveRun(cfg, handled, lookup, save, msg, user, extractor(msg.content))
  }

  function Last(s: seq<Url>): Url
    requires s != []
  {
    s[|s| - 1]
  }

  /** One archive step looks the URL up once and saves it only when the
      lookup found nothing; a snapshot found is routed as the reply without
      a forced repeat, and a save that went through is handled without one. */
  lemma ArchiveStepCalls(cfg: Config, handled: seq<MessageId>, lookup: Lookup, save: Save, msg: Message, user: UserId, u: Url)
    requires msg.guild.Some?
    ensures var s := ArchiveStep(cfg, handled, lookup, save, msg, user, u);
      && Lookups(s.events) == [u]
      && Saves(s.events) == (if NeedsSave(lookup, u) then [u] else [])
      && (s.status == Returned <==> NeedsSave(lookup, u) && save(u).Err?)
      && (s.status == Raised <==> LookupOutcome(lookup, u).Err?)
      && (LookupOutcome(lookup, u).Ok? && Truthy(LookupOutcome(lookup, u).value) ==>
            Replies(s.events) == Respond(cfg, handled, msg, user, AsPayload(LookupOutcome(lookup, u).value), false).sent)
      && (NeedsSave(lookup, u) && save(u).Ok? ==>
            Replies(s.events) == HandlePageSave(cfg, handled, msg, user, save(u).value, false).sent)
  {
    var s := ArchiveStep(cfg, handled, lookup, save, msg, user, u);
    var found := LookupOutcome(lookup, u);
    if found.Ok? {
      var w := found.value;
      if Truthy(w) {
        var o := Respond(cfg, handled, msg, user, AsPayload(w), false);
        assert s.events == [LookupCall(u)] + Sends(o.sent);
        SendsProject(o.sent);
        ProjectAppend([LookupCall(u)], Sends(o.sent));
      } else if save(u).Ok? {
        var o := HandlePageSave(cfg, handled, msg, user, save(u).value, false);
        assert s.events == [LookupCall(u), SaveCall(u)] + Sends(o.sent);
        SendsProject(o.sent);
        ProjectAppend([LookupCall(u), SaveCall(u)], Sends(o.sent));
      } else {
        assert s.events == [LookupCall(u), SaveCall(u)];
        ProjectAppend([LookupCall(u)], [SaveCall(u)]);
      }
    }
  }

  /** The calls a run of the archive loop over `urls` made: every URL up to
      where it stopped was looked up once, in order; exactly those whose lookup
      found nothing were saved; a completed run looked up every URL; one that
      returned early stopped at a failed save, one that raised at a failed
      lookup. */
  ghost predicate ArchiveCallsOk(lookup: Lookup, save: Save, urls: seq<Url>, r: Run)
  {
    var looked := Lookups(r.events);
    && looked <= urls
    && Saves(r.events) == NeedingSave(lookup, looked)
    && (r.status == Completed ==> looked == urls)
    && (r.status == Returned ==> looked != [] && NeedsSave(lookup, Last(looked)) && save(Last(looked)).Err?)
    && (r.status == Raised ==> looked != [] && LookupOutcome(lookup, Last(looked)).Err?)
  }

  lemma {:induction false} ArchiveCalls(cfg: Config, handled: seq<MessageId>, lookup: Lookup, save: Save, msg: Message, user: UserId, urls: seq<Url>)
    requires msg.guild.Some?
    ensures ArchiveCallsOk(lookup, save, urls, ArchiveRun(cfg, handled, lookup, save, msg, user, urls))
    decreases |urls|
  {
    if urls != [] {
      var u := urls[0];
      var s := ArchiveStep(cfg, handled, lookup, save, msg, user, u);
      ArchiveStepCalls(cfg, handled, lookup, save, msg, user, u);
      assert urls == [u] + urls[1..];
      assert NeedingSave(lookup, [u]) == Saves(s.events) by {
        assert [u][1..] == [];
      }
      if s.status == Completed {
        var r := ArchiveRun(cfg, s.handled, lookup, save, msg, user, urls[1..]);
        ArchiveCalls(cfg, s.handled, lookup, save, msg, user, urls[1..]);
        ArchiveCallsCons(lookup, save, u, urls[1..], s, r);
      } else {
        assert ArchiveRun(cfg, handled, lookup, save, msg, user, urls) == s;
        assert Last([u]) == u;
      }
    }
  }

  /** The induction step of ArchiveCalls: a completed first step followed by
      the run over the remaining URLs. */
  lemma ArchiveCallsCons(lookup: Lookup, save: Save, u: Url, rest: seq<Url>, s: Run, r: Run)
    requires Lookups(s.events) == [u] && Saves(s.events) == NeedingSave(lookup, [u])
    requires ArchiveCallsOk(lookup, save, rest, r)
    ensures ArchiveCallsOk(lookup, save, [u] + rest, Run(r.handled, s.events + r.events, r.status))
  {
    ProjectAppend(s.events, r.events);
    var looked := Lookups(r.events);
    assert ([u] + looked)[1..] == looked;
    assert NeedingSave(lookup, [u] + looked) == NeedingSave(lookup, [u]) + NeedingSave(lookup, looked);
    if looked != [] {
      assert Last([u] + looked) == Last(looked);
    }
  }

  /** A URL the archive workflow gets through: its lookup does not raise and,
      if it finds nothing, the save request goes through. */
  predicate Serviceable(lookup: Lookup, save: Save, u: Url)
  {
    LookupOutcome(lookup, u).Ok? && (NeedsSave(lookup, u) ==> save(u).Ok?)
  }

  /** The archive workflow handles every URL exactly when each one is
      serviceable; one failed lookup or save ends it. */
  lemma {:induction false} ArchiveCompletes(cfg: Config, handled: seq<MessageId>, lookup: Lookup, save: Save, msg: Message, user: UserId, urls: seq<Url>)
    requires msg.guild.Some?
    ensures ArchiveRun(cfg, handled, lookup, save, msg, user, urls).status == Completed
      <==> forall u :: u in urls ==> Serviceable(lookup, save, u)
    decreases |urls|
  {
    if urls != [] {
      var u := urls[0];
      var s := ArchiveStep(cfg, handled, lookup, save, msg, user, u);
      ArchiveStepCalls(cfg, handled, lookup, save, msg, user, u);
      assert s.status == Completed <==> Serviceable(lookup, save, u);
      ArchiveCompletes(cfg, s.handled, lookup, save, msg, user, urls[1..]);
      assert forall v :: v in urls <==> v == u || v in urls[1..] by {
        assert urls == [u] + urls[1..];
      }
    }
  }

  /** A channel-mode reply budget: the handled list only grows, at most one
      channel reply is sent (none when the message was already handled), and
      a channel reply leaves the message marked as handled. */
  ghost predicate AnsweredOnce(id: MessageId, handled: seq<MessageId>, r: Run)
  {
    && handled <= r.handled
    && ChannelReplies(r.events) <= (if id in handled then 0 else 1)
    && (ChannelReplies(r.events) > 0 ==> id in r.handled)
  }

  /** What routing without a forced repeat guarantees: the handled list
      only grows, at most one reply is sent, and a channel reply goes out
      only for an unseen message, which is then marked as handled. */
  ghost predicate ChannelOnce(id: MessageId, handled: seq<MessageId>, o: Routed)
  {
    && handled <= o.handled
    && |o.sent| <= 1
    && (o.sent != [] && o.sent[0].Channel? ==> id !in handled && id in o.handled)
  }

  lemma RespondChannelOnce(cfg: Config, handled: seq<MessageId>, msg: Message, user: UserId, payload: Payload)
    requires msg.guild.Some?
    ensures ChannelOnce(msg.id, handled, Respond(cfg, handled, msg, user, payload, false))
  {
    var o := Respond(cfg, handled, msg, user, payload, false);
    if !RepliesByDM(cfg, msg) && msg.id !in handled {
      assert msg.id in o.handled;
    }
  }

  lemma PageSaveChannelOnce(cfg: Config, handled: seq<MessageId>, msg: Message, user: UserId, resp: Response)
    requires msg.guild.Some?
    ensures ChannelOnce(msg.id, handled, HandlePageSave(cfg, handled, msg, user, resp, false))
  {
    if IsRedirect(resp.status) && resp.location.Some? {
      RespondChannelOnce(cfg, handled, msg, user, Text(resp.location.value));
    }
  }

  /** A step that makes no channel reply before its routed replies keeps
      the channel-reply budget. */
  lemma RoutedOnce(id: MessageId, handled: seq<MessageId>, o: Routed, pre: seq<Event>, status: RunStatus)
    requires ChannelReplies(pre) == 0 && ChannelOnce(id, handled, o)
    ensures AnsweredOnce(id, handled, Run(o.handled, pre + Sends(o.sent), status))
  {
    ChannelRepliesAppend(pre, Sends(o.sent));
    if o.sent != [] {
      assert Sends(o.sent) == [Sent(o.sent[0])];
    }
  }

  lemma ArchiveStepOnce(cfg: Config, handled: seq<MessageId>, lookup: Lookup, save: Save, msg: Message, user: UserId, u: Url)
    requires msg.guild.Some?
    ensures AnsweredOnce(msg.id, handled, ArchiveStep(cfg, handled, lookup, save, msg, user, u))
  {
    var found := LookupOutcome(lookup, u);
    if found.Ok? {
      var w := found.value;
      assert ChannelReplies([SaveCall(u)]) == 0;
      assert ChannelReplies([LookupCall(u)]) == 0;
      assert ChannelReplies([LookupCall(u), SaveCall(u)]) == 0 by {
        assert [LookupCall(u), SaveCall(u)][1..] == [SaveCall(u)];
      }
      if Truthy(w) {
        RespondChannelOnce(cfg, handled, msg, user, AsPayload(w));
        RoutedOnce(msg.id, handled, Respond(cfg, handled, msg, user, AsPayload(w), false), [LookupCall(u)], Completed);
      } else if save(u).Ok? {
        PageSaveChannelOnce(cfg, handled, msg, user, save(u).value);
        RoutedOnce(msg.id, handled, HandlePageSave(cfg, handled, msg, user, save(u).value, false), [LookupCall(u), SaveCall(u)], Completed);
      } else {
        RoutedOnce(msg.id, handled, Routed(handled, []), [LookupCall(u), SaveCall(u)], Returned);
        assert [LookupCall(u), SaveCall(u)] + Sends([]) == [LookupCall(u), SaveCall(u)];
      }
    }
  }

  /** In channel mode an archive run answers a message in its channel at
      most once, and not at all when it was answered before. */
  lemma {:induction false} ArchiveAnswersOnce(cfg: Config, handled: seq<MessageId>, lookup: Lookup, save: Save, msg: Message, user: UserId, urls: seq<Url>)
    requires msg.guild.Some? && !RepliesByDM(cfg, msg)
    ensures AnsweredOnce(msg.id, handled, ArchiveRun(cfg, handled, lookup, save, msg, user, urls))
    decreases |urls|
  {
    if urls != [] {
      var s := ArchiveStep(cfg, handled, lookup, save, msg, user, urls[0]);
      ArchiveStepOnce(cfg, handled, lookup, save, msg, user, urls[0]);
      if s.status == Completed {
        var r := ArchiveRun(cfg, s.handled, lookup, save, msg, user, urls[1..]);
        ArchiveAnswersOnce(cfg, s.handled, lookup, save, msg, user, urls[1..]);
        ProjectAppend(s.events, r.events);
      }
    }
  }

  /** Two archive reactions on one message in channel mode, the second run
      starting from the list the first left: together they post at most one
      channel reply. */
  lemma ArchiveTwiceAnswersOnce(cfg: Config, handled: seq<MessageId>, lookup: Lookup, save: Save, msg: Message, user1: UserId, user2: UserId, urls1: seq<Url>, urls2: seq<Url>)
    requires msg.guild.Some? && !RepliesByDM(cfg, msg)
    ensures var r1 := ArchiveRun(cfg, handled, lookup, save, msg, user1, urls1);
      var r2 := ArchiveRun(cfg, r1.handled, lookup, save, msg, user2, urls2);
      ChannelReplies(r1.events) + ChannelReplies(r2.events) <= (if msg.id in handled then 0 else 1)
  {
    var r1 := ArchiveRun(cfg, handled, lookup, save, msg, user1, urls1);
    ArchiveAnswersOnce(cfg, handled, lookup, save, msg, user1, urls1);
    ArchiveAnswersOnce(cfg, r1.handled, lookup, save, msg, user2, urls2);
    if msg.id in handled {
      assert msg.id in r1.handled;
    }
  }

  /** In user mode the handled list plays no part: it is left as it was and
      the calls and replies do not depend on it, so repeating a reaction
      repeats the same replies. */
  lemma {:induction false} ArchiveUserMode(cfg: Config, h1: seq<MessageId>, h2: seq<MessageId>, lookup: Lookup, save: Save, msg: Message, user: UserId, urls: seq<Url>)
    requires msg.guild.Some? && RepliesByDM(cfg, msg)
    ensures var r1 := ArchiveRun(cfg, h1, lookup, save, msg, user, urls);
      var r2 := ArchiveRun(cfg, h2, lookup, save, msg, user, urls);
      r1.handled == h1 && r1.events == r2.events && r1.status == r2.status
    decreases |urls|
  {
    if urls != [] {
      var s1 := ArchiveStep(cfg, h1, lookup, save, msg, user, urls[0]);
      var s2 := ArchiveStep(cfg, h2, lookup, save, msg, user, urls[0]);
      assert s1.handled == h1 && s1.events == s2.events && s1.status == s2.status;
      ArchiveUserMode(cfg, h1, h2, lookup, save, msg, user, urls[1..]);
    }
  }

  /** bot.py:154-157 for one URL: the response the `response` variable
      holds is handled as a forced repeat; with none bound, the `NameError`
      is caught and nothing is sent. */
  function RepeatHandle(cfg: Config, handled: seq<MessageId>, msg: Message, user: UserId, response: Option<Response>): Routed
    requires msg.guild.Some?
  {
    if response.Some? then HandlePageSave(cfg, handled, msg, user, response.value, true) else Routed(handled, [])
  }

  /** A forced repeat sends at most one reply per handled response, and in
      channel mode a channel reply exactly for a redirect to a new snapshot,
      whether or not the message was answered before. */
  lemma RepeatHandleReplies(cfg: Config, handled: seq<MessageId>, msg: Message, user: UserId, response: Option<Response>)
    requires msg.guild.Some?
    ensures var o := RepeatHandle(cfg, handled, msg, user, response);
      && |o.sent| <= (if response.Some? then 1 else 0)
      && (!RepliesByDM(cfg, msg) ==>
            ChannelReplies(Sends(o.sent)) == (if response.Some? && Classify(response.value).Redirected? then 1 else 0))
      // the id is appended once per channel reply, even when already present
      && o.handled == handled + Copies(msg.id, ChannelReplies(Sends(o.sent)))
  {
    var o := RepeatHandle(cfg, handled, msg, user, response);
    if o.sent != [] {
      assert Sends(o.sent) == [Sent(o.sent[0])];
    }
  }

  /** `n` copies of the id `id`. */
  function Copies(id: MessageId, n: nat): seq<MessageId>
  {
    if n == 0 then [] else [id] + Copies(id, n - 1)
  }

  /** Appending `a` copies and then `b` copies appends `a + b` copies. */
  lemma {:induction false} CopiesAdd(handled: seq<MessageId>, id: MessageId, a: nat, b: nat)
    ensures handled + Copies(id, a) + Copies(id, b) == handled + Copies(id, a + b)
    decreases a
  {
    if a > 0 {
      CopiesAdd(handled + [id], id, a - 1, b);
      assert handled + Copies(id, a) == handled + [id] + Copies(id, a - 1);
      assert handled + Copies(id, a + b) == handled + [id] + Copies(id, a - 1 + b);
    } else {
      assert handled + [] == handled;
    }
  }

  /** A forced repeat sends the same replies whatever the handled list
      holds: the list never suppresses a 🔁 reply. */
  lemma RepeatHandleIgnoresHandled(cfg: Config, h1: seq<MessageId>, h2: seq<MessageId>, msg: Message, user: UserId, response: Option<Response>)
    requires msg.guild.Some?
    ensures RepeatHandle(cfg, h1, msg, user, response).sent == RepeatHandle(cfg, h2, msg, user, response).sent
  {
  }

  /** The events of one pass of a repeat loop followed by the rest. */
  lemma RepeatTrace(u: Url, sent: seq<Reply>, rest: seq<Event>)
    ensures var es := [SaveCall(u)] + Sends(sent) + rest;
      && Lookups(es) == Lookups(rest)
      && Saves(es) == [u] + Saves(rest)
      && Replies(es) == sent + Replies(rest)
      && ChannelReplies(es) == ChannelReplies(Sends(sent)) + ChannelReplies(rest)
  {
    var head := [SaveCall(u)] + Sends(sent);
    SendsProject(sent);
    LookupsAppend([SaveCall(u)], Sends(sent));
    SavesAppend([SaveCall(u)], Sends(sent));
    RepliesAppend([SaveCall(u)], Sends(sent));
    ChannelRepliesAppend([SaveCall(u)], Sends(sent));
    assert Lookups(head) == [] && Saves(head) == [u] && Replies(head) == sent;
    assert ChannelReplies(head) == ChannelReplies(Sends(sent));
    ProjectAppend(head, rest);
  }

  /** `handle_repeat_react(extractor, message, user)` as written: `response`
      keeps the value of the last save that went through, so a failed save
      leaves it unbound on the first URL and stale afterwards (the previous
      URL's response is handled again). */
  function RepeatRun(cfg: Config, handled: seq<MessageId>, save: Save, msg: Message, user: UserId, urls: seq<Url>, last: Option<Response>): Run
    requires msg.guild.Some?
    decreases |urls|
  {
    if urls == [] then Run(handled, [], Completed)
    else
      var u := urls[0];
      var current := if save(u).Ok? then Some(save(u).value) else last;
      var o := RepeatHandle(cfg, handled, msg, user, current);
      var r := RepeatRun(cfg, o.handled, save, msg, user, urls[1..], current);
      Run(r.handled, [SaveCall(u)] + Sends(o.sent) + r.events, r.status)
  }

  /** One pass of the repeat loop, unfolded. */
  lemma RepeatRunStep(cfg: Config, handled: seq<MessageId>, save: Save, msg: Message, user: UserId, urls: seq<Url>, last: Option<Response>, current: Option<Response>)
    requires msg.guild.Some? && urls != []
    requires current == if save(urls[0]).Ok? then Some(save(urls[0]).value) else last
    ensures var o := RepeatHandle(cfg, handled, msg, user, current);
      var rest := RepeatRun(cfg, o.handled, save, msg, user, urls[1..], current);
      RepeatRun(cfg, handled, save, msg, user, urls, last) == Run(rest.handled, [SaveCall(urls[0])] + Sends(o.sent) + rest.events, rest.status)
  {
  }

  /** The handler logs `message.guild.id` first, so a message outside any
      guild makes it raise before anything else happens. */
  function RepeatReact(cfg: Config, handled: seq<MessageId>, extractor: string -> seq<Url>, save: Save, msg: Message, user: UserId): Run
  {
    if msg.guild.None? then Run(handled, [], Raised)
    else RepeatRun(cfg, handled, save, msg, user, extractor(msg.content), None)
  }

  /** The calls a repeat run makes: no lookup, one save per URL in order,
      and the run goes to the end. */
  ghost predicate RepeatCallsOk(urls: seq<Url>, r: Run)
  {
    Lookups(r.events) == [] && Saves(r.events) == urls && r.status == Completed
  }

  lemma RepeatCallsCons(u: Url, sent: seq<Reply>, urls: seq<Url>, r: Run)
    requires RepeatCallsOk(urls, r)
    ensures RepeatCallsOk([u] + urls, Run(r.handled, [SaveCall(u)] + Sends(sent) + r.events, r.status))
  {
    RepeatTrace(u, sent, r.events);
  }

  /** The repeat workflow never looks a URL up, asks once to save every URL
      in order, and always runs to the end. */
  lemma {:induction false} RepeatCalls(cfg: Config, handled: seq<MessageId>, save: Save, msg: Message, user: UserId, urls: seq<Url>, last: Option<Response>)
    requires msg.guild.Some?
    ensures RepeatCallsOk(urls, RepeatRun(cfg, handled, save, msg, user, urls, last))
    decreases |urls|
  {
    if urls != [] {
      var u := urls[0];
      var current := if save(u).Ok? then Some(save(u).value) else last;
      var o := RepeatHandle(cfg, handled, msg, user, current);
      RepeatRunStep(cfg, handled, save, msg, user, urls, last, current);
      RepeatCalls(cfg, o.handled, save, msg, user, urls[1..], current);
      RepeatCallsCons(u, o.sent, urls[1..], RepeatRun(cfg, o.handled, save, msg, user, urls[1..], current));
      assert urls == [u] + urls[1..];
    }
  }

  /** As written, the repeat loop's calls and replies do not depend on the
      handled list it starts from: a forced repeat is never suppressed. */
  lemma {:induction false} RepeatIgnoresHandled(cfg: Config, h1: seq<MessageId>, h2: seq<MessageId>, save: Save, msg: Message, user: UserId, urls: seq<Url>, last: Option<Response>)
    requires msg.guild.Some?
    ensures RepeatRun(cfg, h1, save, msg, user, urls, last).events == RepeatRun(cfg, h2, save, msg, user, urls, last).events
    decreases |urls|
  {
    if urls != [] {
      var current := if save(urls[0]).Ok? then Some(save(urls[0]).value) else last;
      var o1 := RepeatHandle(cfg, h1, msg, user, current);
      var o2 := RepeatHandle(cfg, h2, msg, user, current);
      RepeatRunStep(cfg, h1, save, msg, user, urls, last, current);
      RepeatRunStep(cfg, h2, save, msg, user, urls, last, current);
      RepeatHandleIgnoresHandled(cfg, h1, h2, msg, user, current);
      RepeatIgnoresHandled(cfg, o1.handled, o2.handled, save, msg, user, urls[1..], current);
    }
  }

  /** The number of passes of the as-written repeat loop whose held response
      (the last save that went through so far) redirects to a snapshot. */
  function HeldRedirects(save: Save, urls: seq<Url>, last: Option<Response>): nat
    decreases |urls|
  {
    if urls == [] then 0
    else
      var current := if save(urls[0]).Ok? then Some(save(urls[0]).value) else last;
      (if current.Some? && Classify(current.value).Redirected? then 1 else 0) + HeldRedirects(save, urls[1..], current)
  }

  lemma HeldRedirectsStep(save: Save, urls: seq<Url>, last: Option<Response>, current: Option<Response>)
    requires urls != []
    requires current == if save(urls[0]).Ok? then Some(save(urls[0]).value) else last
    ensures HeldRedirects(save, urls, last)
      == (if current.Some? && Classify(current.value).Redirected? then 1 else 0) + HeldRedirects(save, urls[1..], current)
  {
  }

  /** What an as-written repeat run sends: at most one reply per URL; in
      channel mode one channel reply per pass whose held response redirects;
      and the id appended once per channel reply. */
  ghost predicate RepeatReplies(cfg: Config, save: Save, msg: Message, handled: seq<MessageId>, urls: seq<Url>, last: Option<Response>, r: Run)
  {
    && |Replies(r.events)| <= |urls|
    && (!RepliesByDM(cfg, msg) ==> ChannelReplies(r.events) == HeldRedirects(save, urls, last))
    && r.handled == handled + Copies(msg.id, ChannelReplies(r.events))
  }

  /** The induction step of RepeatRunReplies, for a pass that routed `o`. */
  lemma RepeatRepliesCons(cfg: Config, handled: seq<MessageId>, save: Save, msg: Message, urls: seq<Url>, last: Option<Response>, current: Option<Response>, o: Routed, r: Run)
    requires urls != []
    requires current == if save(urls[0]).Ok? then Some(save(urls[0]).value) else last
    requires |o.sent| <= 1
    requires !RepliesByDM(cfg, msg) ==>
      ChannelReplies(Sends(o.sent)) == (if current.Some? && Classify(current.value).Redirected? then 1 else 0)
    requires o.handled == handled + Copies(msg.id, ChannelReplies(Sends(o.sent)))
    requires RepeatReplies(cfg, save, msg, o.handled, urls[1..], current, r)
    ensures RepeatReplies(cfg, save, msg, handled, urls, last, Run(r.handled, [SaveCall(urls[0])] + Sends(o.sent) + r.events, r.status))
  {
    RepeatTrace(urls[0], o.sent, r.events);
    HeldRedirectsStep(save, urls, last, current);
    CopiesAdd(handled, msg.id, ChannelReplies(Sends(o.sent)), ChannelReplies(r.events));
  }

  /** The repeat loop as written: at most one reply per URL, in channel mode
      one channel reply for every pass whose held response redirects (the
      handled list never suppresses it), and the message id appended once
      per channel reply, duplicates included. */
  lemma {:induction false} RepeatRunReplies(cfg: Config, handled: seq<MessageId>, save: Save, msg: Message, user: UserId, urls: seq<Url>, last: Option<Response>)
    requires msg.guild.Some?
    ensures RepeatReplies(cfg, save, msg, handled, urls, last, RepeatRun(cfg, handled, save, msg, user, urls, last))
    decreases |urls|
  {
    if urls != [] {
      var current := if save(urls[0]).Ok? then Some(save(urls[0]).value) else last;
      var o := RepeatHandle(cfg, handled, msg, user, current);
      RepeatRunStep(cfg, handled, save, msg, user, urls, last, current);
      RepeatHandleReplies(cfg, handled, msg, user, current);
      RepeatRunReplies(cfg, o.handled, save, msg, user, urls[1..], current);
      RepeatRepliesCons(cfg, handled, save, msg, urls, last, current, o, RepeatRun(cfg, o.handled, save, msg, user, urls[1..], current));
    }
  }

  /** The repeat workflow as evidently intended: a URL whose save fails is
      logged and skipped. */
  function RepeatRunIntended(cfg: Config, handled: seq<MessageId>, save: Save, msg: Message, user: UserId, urls: seq<Url>): Run
    requires msg.guild.Some?
    decreases |urls|
  {
    if urls == [] then Run(handled, [], Completed)
    else
      var u := urls[0];
      var o := RepeatHandle(cfg, handled, msg, user, if save(u).Ok? then Some(save(u).value) else None);
      var r := RepeatRunIntended(cfg, o.handled, save, msg, user, urls[1..]);
      Run(r.handled, [SaveCall(u)] + Sends(o.sent) + r.events, r.status)
  }

  /** The number of URLs whose save request went through. */
  function SavedCount(save: Save, urls: seq<Url>): nat
  {
    if urls == [] then 0 else (if save(urls[0]).Ok? then 1 else 0) + SavedCount(save, urls[1..])
  }

  /** The number of URLs whose save answered with a redirect to a new
      snapshot. */
  function RedirectCount(save: Save, urls: seq<Url>): nat
  {
    if urls == [] then 0
    else (if save(urls[0]).Ok? && Classify(save(urls[0]).value).Redirected? then 1 else 0) + RedirectCount(save, urls[1..])
  }

  /** One pass of the intended repeat loop, unfolded. */
  lemma RepeatIntendedStep(cfg: Config, handled: seq<MessageId>, save: Save, msg: Message, user: UserId, urls: seq<Url>, current: Option<Response>)
    requires msg.guild.Some? && urls != []
    requires current == if save(urls[0]).Ok? then Some(save(urls[0]).value) else None
    ensures var o := RepeatHandle(cfg, handled, msg, user, current);
      var rest := RepeatRunIntended(cfg, o.handled, save, msg, user, urls[1..]);
      RepeatRunIntended(cfg, handled, save, msg, user, urls) == Run(rest.handled, [SaveCall(urls[0])] + Sends(o.sent) + rest.events, rest.status)
  {
  }

  /** What an intended repeat run over `urls` sends: no lookups, one save per
      URL in order, at most one reply per save that went through, and in
      channel mode one channel reply per new snapshot. */
  ghost predicate IntendedReplies(cfg: Config, save: Save, msg: Message, urls: seq<Url>, r: Run)
  {
    && Lookups(r.events) == [] && Saves(r.events) == urls
    && |Replies(r.events)| <= SavedCount(save, urls)
    && (!RepliesByDM(cfg, msg) ==> ChannelReplies(r.events) == RedirectCount(save, urls))
  }

  lemma IntendedRepliesCons(cfg: Config, handled: seq<MessageId>, save: Save, msg: Message, user: UserId, urls: seq<Url>, current: Option<Response>, r: Run)
    requires msg.guild.Some? && urls != []
    requires current == if save(urls[0]).Ok? then Some(save(urls[0]).value) else None
    requires IntendedReplies(cfg, save, msg, urls[1..], r)
    ensures var o := RepeatHandle(cfg, handled, msg, user, current);
      IntendedReplies(cfg, save, msg, urls, Run(r.handled, [SaveCall(urls[0])] + Sends(o.sent) + r.events, r.status))
  {
    var o := RepeatHandle(cfg, handled, msg, user, current);
    RepeatHandleReplies(cfg, handled, msg, user, current);
    RepeatTrace(urls[0], o.sent, r.events);
    assert urls == [urls[0]] + urls[1..];
  }

  /** Intended repeat workflow: no lookups, one save per URL in order, at
      most one reply per save that went through, and in channel mode one
      channel reply per new snapshot, however often the message was answered
      before (the forced repeat). */
  lemma {:induction false} RepeatIntendedReplies(cfg: Config, handled: seq<MessageId>, save: Save, msg: Message, user: UserId, urls: seq<Url>)
    requires msg.guild.Some?
    ensures IntendedReplies(cfg, save, msg, urls, RepeatRunIntended(cfg, handled, save, msg, user, urls))
    decreases |urls|
  {
    if urls != [] {
      var current := if save(urls[0]).Ok? then Some(save(urls[0]).value) else None;
      var o := RepeatHandle(cfg, handled, msg, user, current);
      RepeatIntendedStep(cfg, handled, save, msg, user, urls, current);
      RepeatIntendedReplies(cfg, o.handled, save, msg, user, urls[1..]);
      IntendedRepliesCons(cfg, handled, save, msg, user, urls, current, RepeatRunIntended(cfg, o.handled, save, msg, user, urls[1..]));
    }
  }

  /** When every save goes through, the loop as written and the corrected
      loop do the same: the stale response only matters after a failed
      save. */
  lemma {:induction false} RepeatAgreesWhenSaved(cfg: Config, handled: seq<MessageId>, save: Save, msg: Message, user: UserId, urls: seq<Url>, last: Option<Response>)
    requires msg.guild.Some?
    requires forall k :: 0 <= k < |urls| ==> save(urls[k]).Ok?
    ensures RepeatRun(cfg, handled, save, msg, user, urls, last) == RepeatRunIntended(cfg, handled, save, msg, user, urls)
    decreases |urls|
  {
    if urls != [] {
      var current := Some(save(urls[0]).value);
      var o := RepeatHandle(cfg, handled, msg, user, current);
      RepeatRunStep(cfg, handled, save, msg, user, urls, last, current);
      RepeatIntendedStep(cfg, handled, save, msg, user, urls, current);
      assert forall k :: 0 <= k < |urls[1..]| ==> urls[1..][k] == urls[k + 1];
      RepeatAgreesWhenSaved(cfg, o.handled, save, msg, user, urls[1..], current);
    }
  }

  /** The stale response, exhibited: two URLs, the first saved (redirected to
      `L`), the second failing. As written, the second URL is answered with
      the first URL's snapshot again: two replies from one save. As intended,
      only the first URL is answered. */
  lemma StaleResponseResent(cfg: Config, msg: Message, user: UserId)
    requires msg.guild.Some? && RepliesByDM(cfg, msg)
    ensures var save: Save := u => if u == "a" then Ok(Response(302, Some("L"))) else Err;
      && RepeatRun(cfg, [], save, msg, user, ["a", "b"], None).events
           == [SaveCall("a"), Sent(DM(user, Text("L"))), SaveCall("b"), Sent(DM(user, Text("L")))]
      && SavedCount(save, ["a", "b"]) == 1
      && RepeatRunIntended(cfg, [], save, msg, user, ["a", "b"]).events
           == [SaveCall("a"), Sent(DM(user, Text("L"))), SaveCall("b")]
  {
    var save: Save := u => if u == "a" then Ok(Response(302, Some("L"))) else Err;
    assert ["a", "b"][1..] == ["b"];
    assert "b" != "a";
  }
}
