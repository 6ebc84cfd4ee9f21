/** Single-URL runs of the archive workflow against concrete service
    answers. */
module Scenarios {
  import opened Results
  import opened JsonValues
  import opened DictQuery
  import opened Routing
  import opened Workflows

  const Snap := "https://web.archive.org/web/2020/https://example.com"
  const Fresh := "https://web.archive.org/web/2024/https://example.com"

  /** `{"archived_snapshots":{"closest":{"url": Snap}}}` */
  const FoundBody: map<string, Json> :=
    map["archived_snapshots" := JObj(map["closest" := JObj(map["url" := JStr(Snap)])])]

  /** The availability endpoint knows a snapshot: the reply is that snapshot
      and nothing is saved. */
  lemma SnapshotFound(cfg: Config, msg: Message, user: UserId, url: Url, save: Save)
    requires msg.guild.Some? && RepliesByDM(cfg, msg)
    ensures var lookup: Lookup := u => Ok(FoundBody);
      ArchiveRun(cfg, [], lookup, save, msg, user, [url])
        == Run([], [LookupCall(url), Sent(DM(user, Text(Snap)))], Completed)
  {
    var lookup: Lookup := u => Ok(FoundBody);
    assert Follow(JObj(FoundBody), SnapshotKeys, 0) == Found(JStr(Snap));
    QueryFound(FoundBody, SnapshotKeys, JNull);
    assert LookupOutcome(lookup, url) == Ok(JStr(Snap));
  }

  /** No snapshot (`{}`), and the save redirects: the reply is the new
      snapshot's location. */
  lemma SavedAndRedirected(cfg: Config, msg: Message, user: UserId, url: Url)
    requires msg.guild.Some? && RepliesByDM(cfg, msg)
    ensures var lookup: Lookup := u => Ok(map[]);
      var save: Save := u => Ok(Response(302, Some(Fresh)));
      ArchiveRun(cfg, [], lookup, save, msg, user, [url]).events
        == [LookupCall(url), SaveCall(url), Sent(DM(user, Text(Fresh)))]
  {
    var lookup: Lookup := u => Ok(map[]);
    assert LookupOutcome(lookup, url) == Ok(JNull);
  }

  /** The archive declines to crawl: one DM with the fixed text, in channel
      mode too. */
  lemma SaveDeclined(cfg: Config, handled: seq<MessageId>, msg: Message, user: UserId, url: Url)
    requires msg.guild.Some?
    ensures var lookup: Lookup := u => Ok(map[]);
      var save: Save := u => Ok(Response(523, None));
      ArchiveRun(cfg, handled, lookup, save, msg, user, [url])
        == Run(handled, [LookupCall(url), SaveCall(url), Sent(DM(user, Text(DeclineText)))], Completed)
  {
    var lookup: Lookup := u => Ok(map[]);
    assert LookupOutcome(lookup, url) == Ok(JNull);
  }

  /** The save answers 500: nobody is told anything. */
  lemma SaveUnexpected(cfg: Config, handled: seq<MessageId>, msg: Message, user: UserId, url: Url)
    requires msg.guild.Some?
    ensures var lookup: Lookup := u => Ok(map[]);
      var save: Save := u => Ok(Response(500, None));
      var r := ArchiveRun(cfg, handled, lookup, save, msg, user, [url]);
      r == Run(handled, [LookupCall(url), SaveCall(url)], Completed)
  {
    var lookup: Lookup := u => Ok(map[]);
    assert LookupOutcome(lookup, url) == Ok(JNull);
  }
}
