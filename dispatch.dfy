/** Which handler an event reaches: the `on_message` command dispatch
    (bot.py:231-246) and the `on_reaction_add` emoji dispatch
    (bot.py:248-259). */
module Dispatch {
  import opened Text
  import opened Routing
  import opened Workflows
  import opened Status

  /** U+1F3DB CLASSICAL BUILDING followed by U+FE0F: look up, archive if
      needed. */
  const ArchiveEmoji := "\U{1F3DB}\U{FE0F}"
  /** U+1F501 CLOCKWISE RIGHTWARDS AND LEFTWARDS OPEN CIRCLE ARROWS: archive
      again. */
  const RepeatEmoji := "\U{1F501}"

  const StatusCommandName := "!archivestatus"

  /** The first space-separated token of the message is the command. */
  predicate IsStatusCommand(content: string)
  {
    Split(content, ' ')[0] == StatusCommandName
  }

  /** What `on_message` sends: nothing for the bot's own messages, the status
      report for `!archivestatus`, nothing otherwise. */
  function MessageReplies(cfg: Config, handledCount: nat, client: Client, msg: Message): seq<Reply>
  {
    if msg.author == client.user then []
    else if IsStatusCommand(msg.content) then StatusReplies(cfg, handledCount, client, msg)
    else []
  }

  /** What `on_reaction_add` does: the workflow the emoji selects; an
      exception escaping it is caught and logged, so only its effects and the
      handled list it leaves matter. Other emoji are ignored. */
  function ReactionRun(cfg: Config, handled: seq<MessageId>, emoji: string, extractor: string -> seq<Url>,
                       lookup: Lookup, save: Save, msg: Message, user: UserId): Run
  {
    if emoji == ArchiveEmoji then ArchiveReact(cfg, handled, extractor, lookup, save, msg, user)
    else if emoji == RepeatEmoji then RepeatReact(cfg, handled, extractor, save, msg, user)
    else Run(handled, [], Completed)
  }

  /** The first piece of a split is the longest prefix without the
      separator. */
  lemma {:induction false} FirstPiece(s: string, c: char)
    ensures Split(s, c)[0] <= s
    ensures |Split(s, c)[0]| < |s| ==> s[|Split(s, c)[0]|] == c
  {
    if s != [] && s[0] != c {
      FirstPiece(s[1..], c);
    }
  }

  /** A message is the status command exactly when it is `!archivestatus`
      alone or followed by a space and anything. */
  lemma CommandToken(content: string)
    ensures IsStatusCommand(content) <==>
      content == StatusCommandName || StatusCommandName + " " <= content
  {
    var cmd := StatusCommandName;
    assert ' ' !in cmd;
    if IsStatusCommand(content) {
      FirstPiece(content, ' ');
      if |cmd| < |content| {
        assert content[..|cmd| + 1] == cmd + " ";
      } else {
        assert content == cmd;
      }
    }
    if content == cmd {
      SplitNone(cmd, ' ');
    } else if cmd + " " <= content {
      var rest := content[|cmd| + 1..];
      assert content == cmd + [' '] + rest;
      SplitPrefix(cmd, ' ', rest);
    }
  }

  /** The bot never answers its own messages, and a non-administrator never
      gets a status report. */
  lemma MessageGate(cfg: Config, handledCount: nat, client: Client, msg: Message)
    ensures msg.author == client.user ==> MessageReplies(cfg, handledCount, client, msg) == []
    ensures msg.author !in cfg.administratorIds ==> MessageReplies(cfg, handledCount, client, msg) == []
    ensures msg.author != client.user && msg.author in cfg.administratorIds && IsStatusCommand(msg.content) ==>
      |MessageReplies(cfg, handledCount, client, msg)| == 1
  {
  }

  /** A reaction on a message without URLs does nothing, with either emoji,
      provided the handler gets past its opening log line: that line reads
      the guild for both emoji, and the channel only for 🏛️. */
  lemma NoUrlsNoEffects(cfg: Config, handled: seq<MessageId>, emoji: string, extractor: string -> seq<Url>,
                        lookup: Lookup, save: Save, msg: Message, user: UserId)
    requires extractor(msg.content) == [] && msg.guild.Some?
    ensures emoji != ArchiveEmoji || msg.channel.Some? ==>
      ReactionRun(cfg, handled, emoji, extractor, lookup, save, msg, user) == Run(handled, [], Completed)
  {
  }

  /** A reaction with any other emoji does nothing. */
  lemma OtherEmojiIgnored(cfg: Config, handled: seq<MessageId>, emoji: string, extractor: string -> seq<Url>,
                          lookup: Lookup, save: Save, msg: Message, user: UserId)
    requires emoji != ArchiveEmoji && emoji != RepeatEmoji
    ensures ReactionRun(cfg, handled, emoji, extractor, lookup, save, msg, user) == Run(handled, [], Completed)
  {
  }
}
