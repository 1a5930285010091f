/** bot.py: the Discord front end. It holds the pure helpers (message
    chunking, mention rewriting, media collection, the reaction rule) and
    the two event handlers, which drive a `Conversations.Conversation`.
    Posting a chunk is the oracle `post`, which gives the id of the k-th
    message posted, or `None` when that send raises; everything else Discord does (webhooks, typing,
    reactions, deletion) is outside the model. */
module Bot {
  import opened Wrappers
  import opened Strings
  import opened Tools
  import opened Messages
  import opened Conversations

  /** Discord's message length limit. */
  const ChunkSize: nat := 2000

  const Repeat: string := "\U{1F501}"
  const Cross: string := "\U{274C}"

  function Min(a: int, b: int): int
  {
    if a < b then a else b
  }

  /** `ceil(n / 2000)`: the length of `range(0, n, 2000)`. */
  function NumChunks(n: nat): (c: nat)
    ensures c * ChunkSize >= n
    ensures c > 0 ==> (c - 1) * ChunkSize < n
    ensures c == 0 <==> n == 0
  {
    if n == 0 then 0 else 1 + NumChunks(if n <= ChunkSize then 0 else n - ChunkSize)
  }

  /** `text[i:i+2000]` for `i == 2000 * k`. */
  function ChunkAt(text: string, k: nat): string
    requires k < NumChunks(|text|)
  {
    text[k * ChunkSize..Min((k + 1) * ChunkSize, |text|)]
  }

  /** The chunking comprehension of `discord_send`. */
  function Chunks(text: string): seq<string>
  {
    seq(NumChunks(|text|), k requires 0 <= k < NumChunks(|text|) => ChunkAt(text, k))
  }

  function Flatten(pieces: seq<string>): string
    decreases |pieces|
  {
    if pieces == [] then [] else Flatten(pieces[..|pieces| - 1]) + pieces[|pieces| - 1]
  }

  lemma {:induction false} FlattenChunksPrefix(text: string, j: nat)
    requires j <= |Chunks(text)|
    ensures Flatten(Chunks(text)[..j]) == text[..Min(j * ChunkSize, |text|)]
    decreases j
  {
    if j > 0 {
      var cs := Chunks(text);
      assert cs[..j][..j - 1] == cs[..j - 1];
      FlattenChunksPrefix(text, j - 1);
      assert cs[..j][j - 1] == ChunkAt(text, j - 1);
      var lo := (j - 1) * ChunkSize;
      assert text[..Min(j * ChunkSize, |text|)] == text[..lo] + text[lo..Min(j * ChunkSize, |text|)];
    }
  }

  /** The chunks concatenate back to the text. */
  lemma ChunksConcat(text: string)
    ensures Flatten(Chunks(text)) == text
  {
    var cs := Chunks(text);
    FlattenChunksPrefix(text, |cs|);
    assert cs[..|cs|] == cs;
    assert text[..Min(|cs| * ChunkSize, |text|)] == text;
  }

  /** Every chunk is non-empty and at most 2000 characters long, all but the
      last are exactly 2000, and there are ceil(len / 2000) of them: none for
      the empty text. */
  lemma ChunkSizes(text: string)
    ensures var cs := Chunks(text);
      (|cs| == 0 <==> text == [])
      && |cs| * ChunkSize >= |text| && (|cs| > 0 ==> (|cs| - 1) * ChunkSize < |text|)
      && (forall k :: 0 <= k < |cs| ==> 0 < |cs[k]| <= ChunkSize)
      && (forall k :: 0 <= k < |cs| - 1 ==> |cs[k]| == ChunkSize)
  {
    var cs := Chunks(text);
    forall k | 0 <= k < |cs|
      ensures 0 < |cs[k]| <= ChunkSize && (k < |cs| - 1 ==> |cs[k]| == ChunkSize)
    {
      assert cs[k] == ChunkAt(text, k);
      if k < |cs| - 1 {
        assert (k + 1) * ChunkSize <= (|cs| - 1) * ChunkSize;
      }
    }
  }

  /** Why `discord_send` raised: the text was empty, so no message exists
      to react to; or the send of chunk `posted` raised after the chunks
      before it were posted. */
  datatype SendError = NothingSent | PostFailed(posted: nat)

  /** Every one of the chunks can be posted. */
  predicate AllPosted(chunks: seq<string>, post: (nat, string) -> Option<MessageId>)
  {
    forall k :: 0 <= k < |chunks| ==> post(k, chunks[k]).Some?
  }

  /** `discord_send`: posts the chunks in order and returns one message id
      per chunk. With empty text nothing is posted and the final reaction
      step finds no message, so the call fails; a send that raises ends the
      call at that chunk. */
  method DiscordSend(text: string, post: (nat, string) -> Option<MessageId>)
    returns (r: Result<seq<MessageId>, SendError>)
    ensures r.Success? <==> text != "" && AllPosted(Chunks(text), post)
    ensures text == "" ==> r == Failure(NothingSent)
    ensures r.Success? ==> |r.value| == |Chunks(text)|
    ensures r.Success? ==> forall k :: 0 <= k < |r.value| ==> post(k, Chunks(text)[k]) == Some(r.value[k])
    ensures r.Failure? && text != "" ==>
      r.error.PostFailed? && r.error.posted < |Chunks(text)|
      && post(r.error.posted, Chunks(text)[r.error.posted]).None?
      && forall j :: 0 <= j < r.error.posted ==> post(j, Chunks(text)[j]).Some?
  {
    var chunks := Chunks(text);
    ChunkSizes(text);
    var messages: seq<MessageId> := [];
    for k := 0 to |chunks|
      invariant |messages| == k
      invariant forall j :: 0 <= j < k ==> post(j, chunks[j]) == Some(messages[j])
    {
      var id := post(k, chunks[k]);
      if id.None? {
        return Failure(PostFailed(k));
      }
      messages := messages + [id.value];
    }
    if chunks == [] {
      return Failure(NothingSent);
    }
    return Success(messages);
  }

  /** `f'<@{bot.user.id}>'` */
  function BotTag(botId: string): (tag: string)
    ensures |tag| == |botId| + 3 && StartsWith(tag, "<@")
    ensures tag[2..|tag| - 1] == botId && tag[|tag| - 1] == '>'
  {
    "<@" + botId + ">"
  }

  /** The message body after one leading bot tag is dropped. */
  function MentionBody(content: string, tag: string): string
  {
    if StartsWith(content, tag) then content[|tag|..] else content
  }

  /** The rewriting of an incoming message: one leading bot tag is dropped,
      every other bot tag becomes the bot's name, and surrounding whitespace
      is stripped. */
  function RewriteMention(content: string, botId: string, botName: string): string
  {
    var tag := BotTag(botId);
    Strip(ReplaceAll(MentionBody(content, tag), tag, botName))
  }

  /** `text` is `body` cut at `tag` into tag-free pieces, joined again by
      `name`, with only whitespace dropped from the two ends. */
  ghost predicate RewrittenFrom(text: string, body: string, tag: string, name: string)
  {
    exists pieces: seq<string>, i: nat, j: nat ::
      Join(pieces, tag) == body
      && (forall k :: 0 <= k < |pieces| ==> !Contains(pieces[k], tag))
      && i <= j <= |Join(pieces, name)|
      && text == Join(pieces, name)[i..j]
      && AllSpace(Join(pieces, name)[..i]) && AllSpace(Join(pieces, name)[j..])
  }

  /** Replacing a non-empty tag and stripping has that shape. */
  lemma StripReplaceShape(body: string, tag: string, name: string)
    requires |tag| > 0
    ensures RewrittenFrom(Strip(ReplaceAll(body, tag, name)), body, tag, name)
  {
    var pieces := Split(body, tag);
    JoinSplit(body, tag);
    SplitPiecesFree(body, tag);
    ReplaceIsSplitJoin(body, tag, name);
    var replaced := Join(pieces, name);
    StripIsInfix(replaced);
    var i, j :| 0 <= i <= j <= |replaced| && Strip(replaced) == replaced[i..j]
      && AllSpace(replaced[..i]) && AllSpace(replaced[j..]);
    assert Join(pieces, tag) == body
      && (forall k :: 0 <= k < |pieces| ==> !Contains(pieces[k], tag))
      && i <= j <= |Join(pieces, name)|
      && Strip(ReplaceAll(body, tag, name)) == Join(pieces, name)[i..j]
      && AllSpace(Join(pieces, name)[..i]) && AllSpace(Join(pieces, name)[j..]);
  }

  /** The message body after the leading tag is cut into pieces that contain
      no tag; the rewritten text is those pieces joined by the bot name, with
      only whitespace stripped from its ends. */
  lemma RewriteMentionShape(content: string, botId: string, botName: string)
    ensures RewrittenFrom(RewriteMention(content, botId, botName),
                          MentionBody(content, BotTag(botId)), BotTag(botId), botName)
  {
    StripReplaceShape(MentionBody(content, BotTag(botId)), BotTag(botId), botName);
  }

  /** A discord attachment: its content type and URL. */
  datatype Attachment = Attachment(contentType: string, url: string)

  function MediaOf(attachments: seq<Attachment>): seq<Media>
  {
    seq(|attachments|, i requires 0 <= i < |attachments| => Media(attachments[i].contentType, attachments[i].url))
  }

  /** The media list of `on_message`: one (content type, url) pair per
      attachment, in attachment order. */
  method CollectMedia(attachments: seq<Attachment>) returns (media: seq<Media>)
    ensures |media| == |attachments|
    ensures forall i :: 0 <= i < |media| ==>
      media[i].contentType == attachments[i].contentType && media[i].url == attachments[i].url
    ensures media == MediaOf(attachments)
  {
    media := [];
    for i := 0 to |attachments|
      invariant media == MediaOf(attachments[..i])
    {
      media := media + [Media(attachments[i].contentType, attachments[i].url)];
    }
    assert attachments[..|attachments|] == attachments;
  }

  /** What a reaction leads to. */
  datatype Action = Ignore | ClearReaction | PopTurn | RegenerateTurn

  /** The reaction rule of `on_reaction_add`: only the two emojis from
      someone other than the bot count; a reaction on a message that is not
      among the last reply's messages, or when one of them can no longer be
      fetched, is cleared; otherwise the cross pops and the arrows
      regenerate. */
  function ReactionAction(emoji: string, fromBot: bool, messageId: MessageId,
                          lastMessages: seq<MessageId>, allFetched: bool): Action
  {
    if (emoji != Repeat && emoji != Cross) || fromBot then Ignore
    else if messageId !in lastMessages || !allFetched then ClearReaction
    else if emoji == Cross then PopTurn
    else RegenerateTurn
  }

  /** The conversation changes only for one of the two emojis, from a user,
      on one of the last reply's messages; then the cross pops and the
      arrows regenerate. */
  lemma ReactionRule(emoji: string, fromBot: bool, messageId: MessageId,
                     lastMessages: seq<MessageId>, allFetched: bool)
    ensures var a := ReactionAction(emoji, fromBot, messageId, lastMessages, allFetched);
      (a == PopTurn <==> emoji == Cross && !fromBot && messageId in lastMessages && allFetched)
      && (a == RegenerateTurn <==> emoji == Repeat && !fromBot && messageId in lastMessages && allFetched)
      && (a == Ignore <==> (emoji != Repeat && emoji != Cross) || fromBot)
  {
    assert Repeat != Cross by { assert Repeat[0] != Cross[0]; }
  }

  /** How a handler ended. */
  datatype Handled = Ignored | Done | Replied(ids: seq<MessageId>) | Hiccup

  /** A result that can be posted: a completion with non-empty content. */
  predicate Postable(result: Result<Option<string>, GenError>)
  {
    result.Success? && result.value.Some? && result.value.value != ""
  }

  /** A result that is posted in full: postable, and no send raises. */
  predicate Delivered(result: Result<Option<string>, GenError>, post: (nat, string) -> Option<MessageId>)
  {
    Postable(result) && AllPosted(Chunks(result.value.value), post)
  }

  /** Posting a reply: on success the new message ids become `last_messages`
      and the conversation is saved; when the generation failed, its text
      cannot be posted, or a send raises, nothing changes. */
  method PostReply(c: Conversation, result: Result<Option<string>, GenError>, post: (nat, string) -> Option<MessageId>)
    returns (h: Handled)
    modifies c, c.db
    ensures h.Replied? <==> Delivered(result, post)
    ensures !Delivered(result, post) ==> h == Hiccup && unchanged(c) && c.db.rows == old(c.db.rows)
    ensures Delivered(result, post) ==>
      |h.ids| == |Chunks(result.value.value)|
      && (forall k :: 0 <= k < |h.ids| ==> post(k, Chunks(result.value.value)[k]) == Some(h.ids[k]))
      && c.lastMessages == h.ids
      && c.history == old(c.history) && c.prompt == old(c.prompt) && c.botName == old(c.botName)
      && c.webAccess == old(c.webAccess)
      && c.db.rows == old(c.db.rows)[c.id := c.Snapshot()]
  {
    if result.Failure? || result.value.None? {
      return Hiccup;
    }
    var sent := DiscordSend(result.value.value, post);
    if sent.Failure? {
      return Hiccup;
    }
    c.lastMessages := sent.value;
    c.Save();
    return Replied(sent.value);
  }

  /** The tail of `on_message` once the mention is rewritten and the media
      collected: generate the reply to the new user turn and post it. */
  method Respond(c: Conversation, text: string, media: seq<Media>, menv: MediaEnv, script: seq<Reply>, env: Env,
                 post: (nat, string) -> Option<MessageId>)
    returns (h: Handled, sent: seq<Request>)
    modifies c, c.db
    ensures var o := RoundTrip(old(c.prompt), old(c.webAccess), old(c.history),
                               [User(UserContent(text, media, menv, AiohttpOk))], script, Dispatch(env));
      c.history == o.history && sent == o.sent
      && c.prompt == old(c.prompt) && c.botName == old(c.botName) && c.webAccess == old(c.webAccess)
      && (h.Replied? <==> Delivered(o.result, post))
      && (h.Replied? ==>
            c.lastMessages == h.ids && |h.ids| == |Chunks(o.result.value.value)|
            && c.db.rows == old(c.db.rows)[c.id := c.Snapshot()])
      && (!h.Replied? ==> h == Hiccup && c.lastMessages == old(c.lastMessages) && c.db.rows == old(c.db.rows))
  {
    var result;
    result, sent := c.Generate(text, media, menv, script, env);
    h := PostReply(c, result, post);
  }

  /** `on_message`: ignore the bot's own messages and messages that do not
      mention it; otherwise rewrite the mention, collect the media, generate
      and post the reply. */
  method OnMessage(c: Conversation, fromBot: bool, mentioned: bool, content: string, botId: string,
                   attachments: seq<Attachment>, menv: MediaEnv, script: seq<Reply>, env: Env,
                   post: (nat, string) -> Option<MessageId>)
    returns (h: Handled, sent: seq<Request>)
    modifies c, c.db
    ensures fromBot || !mentioned ==> h == Ignored && sent == [] && unchanged(c) && c.db.rows == old(c.db.rows)
    ensures !fromBot && mentioned ==>
      var text := RewriteMention(content, botId, old(c.botName));
      var o := RoundTrip(old(c.prompt), old(c.webAccess), old(c.history),
                         [User(UserContent(text, MediaOf(attachments), menv, AiohttpOk))], script, Dispatch(env));
      c.history == o.history && sent == o.sent
      && c.prompt == old(c.prompt) && c.botName == old(c.botName) && c.webAccess == old(c.webAccess)
      && (h.Replied? <==> Delivered(o.result, post))
      && (h.Replied? ==>
            c.lastMessages == h.ids && |h.ids| == |Chunks(o.result.value.value)|
            && c.db.rows == old(c.db.rows)[c.id := c.Snapshot()])
      && (!h.Replied? ==> h == Hiccup && c.lastMessages == old(c.lastMessages) && c.db.rows == old(c.db.rows))
  {
    if fromBot || !mentioned {
      return Ignored, [];
    }
    var text := RewriteMention(content, botId, c.botName);
    var media := CollectMedia(attachments);
    h, sent := Respond(c, text, media, menv, script, env, post);
  }

  /** `on_reaction_add`: apply the reaction rule; the cross pops the last
      exchange (and saves), the arrows regenerate it and post the new reply. */
  method OnReactionAdd(c: Conversation, emoji: string, fromBot: bool, messageId: MessageId, allFetched: bool,
                       script: seq<Reply>, env: Env, post: (nat, string) -> Option<MessageId>)
    returns (action: Action, h: Handled, sent: seq<Request>)
    modifies c, c.db
    ensures action == ReactionAction(emoji, fromBot, messageId, old(c.lastMessages), allFetched)
    ensures c.prompt == old(c.prompt) && c.botName == old(c.botName) && c.webAccess == old(c.webAccess)
    ensures action == Ignore || action == ClearReaction ==>
      h == Ignored && sent == [] && unchanged(c) && c.db.rows == old(c.db.rows)
    ensures action == PopTurn ==>
      h == Done && sent == [] && c.history == PopFrom(old(c.history)).0
      && c.lastMessages == old(c.lastMessages) && c.db.rows == old(c.db.rows)[c.id := c.Snapshot()]
    ensures action == RegenerateTurn ==>
      var (kept, popped) := PopFrom(old(c.history));
      var saved := old(c.db.rows)[c.id := Record(old(c.prompt), old(c.webAccess), kept, old(c.botName), old(c.lastMessages))];
      (popped.None? ==>
            h == Hiccup && sent == [] && c.history == [] && c.lastMessages == old(c.lastMessages)
            && c.db.rows == saved)
      && (popped.Some? ==>
            var o := RoundTrip(old(c.prompt), old(c.webAccess), kept, [popped.value], script, Dispatch(env));
            c.history == o.history && sent == o.sent
            && (h.Replied? <==> Delivered(o.result, post))
            && (h.Replied? ==> c.lastMessages == h.ids && c.db.rows == old(c.db.rows)[c.id := c.Snapshot()])
            && (!h.Replied? ==> h == Hiccup && c.lastMessages == old(c.lastMessages) && c.db.rows == saved))
  {
    action := ReactionAction(emoji, fromBot, messageId, c.lastMessages, allFetched);
    sent := [];
    if action == Ignore || action == ClearReaction {
      return action, Ignored, [];
    }
    if action == PopTurn {
      var _ := c.Pop();
      return action, Done, [];
    }
    var result;
    result, sent := c.Regenerate(script, env);
    h := PostReply(c, result, post);
  }
}
