# aoibot conversation core in Dafny

This project models the core of aoibot, a Discord chat-relay bot. Each channel has a conversation: a persona prompt, a web-access flag, a transcript (`history`) and the ids of the bot's last reply messages.

- A mention of the bot becomes a user turn.
- The transcript plus that turn is sent to a chat-completion endpoint.
- Tool calls the model requests (web fetch, web search) are answered with tool turns until a reply without tool calls arrives.
- That reply is posted back in chunks of at most 2000 characters.
- Two reactions edit the transcript: ❌ pops the last exchange, 🔁 regenerates it.

Modules, one per file:

- `Wrappers`: `Option` and `Result`.
- `Strings`: the Python string operations the core relies on: `startswith`, `in`, `split('\n')[0]`, `strip`, `split`/`join`/`replace`.
- `Tools` (tools.py): the three tool spec records, the name-keyed registry and `call`, URL normalisation, and search-result cleaning.
- `Messages`: turns, requests, replies, and how a user turn's content parts are built from text and attachments. Both conversation classes share it.
- `Conversations` (conversations.py):
  - the reflection-derived tool specs, with their required-parameter rule;
  - the round-trip loop `_generate`, specified by the function `RoundTrip`;
  - the `Conversation` class (`pop`, `update_prompt`, `generate`, `regenerate`, `save`);
  - the `Manager` (`ConversationManager`) over a key/value `Store`.
- `LlmClient` (llm_client.py): the older conversation object, whose history holds its own persona turn and whose `regenerate` overwrites the last entry in place. It also models the module-level conversation registry's `create`.
- `Bot` (bot.py): message chunking, `discord_send`, mention rewriting, media collection, the reaction rule, and the two event handlers driving a `Conversations.Conversation`.

Everything the code reaches outside itself is a parameter:

- The completion endpoint is a scripted `seq<Reply>`. The k-th reply answers the k-th request. Running out of replies is the endpoint raising, which also bounds the tool-call loop. llm_client.py's endpoint is a function from the messages sent to a `Completion`.
- `Tools.Env` stands for the clock, `requests.get`, `html2text`, the search API, `json.dumps` and `json.loads`.
- `Messages.MediaEnv` stands for the attachment download and base64.
- The naming reply is a parameter `nameReply: Option<string>`. `None` stands for `get_name` raising: the request failed, or its content was null.
- Discord's message posting is `post(k, chunk)`. It gives the id of the k-th message posted, or `None` when that send raises.

The round-trip loop of conversations.py and its lemmas take the tool dispatcher as a function `invoke` from a tool call to its output or error, so the lemmas hold for any dispatcher. The conversation's methods pass the real one, `Conversations.Dispatch(env)`: decode the JSON arguments, then `Tools.call`.

The store is a `map<Key, Record>` holding the five fields conversations.py reads and writes (conversations.py:115 and :157-159).

Each library decides differently which HTTP statuses fail, and each rule is modelled:

- `Tools.RequestsOk`: requests' `raise_for_status` fails for 400-599.
- `Conversations.AiohttpOk`: aiohttp's `raise_for_status` fails from 400 on.
- `LlmClient.Http200`: llm_client.py accepts only 200.

Two consequences of the code are worth stating on their own:

- `web_fetch` fails only on statuses 400-599 (requests' `raise_for_status`); any other status, 3xx included, returns the page text.
- `_generate` does not save. The bot saves only after a reply was posted, so a failed generate leaves the stored record as it was. After a failed regenerate, the stored record is the popped history, because `pop` saves.

## Model

| member | source | states |
|---|---|---|
| Strings.FirstLine | conversations.py:23 | the name is the reply's text up to the first line break: it contains no line break, is a prefix of the reply, and is followed by a line break unless it is the whole reply |
| Strings.TrimStart | bot.py:112 | `lstrip` drops exactly a leading run of whitespace, leaving an empty string or one starting with non-whitespace |
| Strings.TrimEnd | bot.py:112 | `rstrip` drops exactly a trailing run of whitespace, leaving an empty string or one ending with non-whitespace |
| Strings.StripIsInfix | bot.py:112 | `strip()` returns a contiguous slice of its input with only whitespace on either side of it |
| Strings.StripIdempotent | bot.py:112 | the stripped text neither starts nor ends with whitespace, so stripping again changes nothing |
| Strings.Split | bot.py:112 | splitting at a non-empty separator gives at least one piece, the first being a prefix of the text |
| Strings.JoinSplit | bot.py:112 | joining the pieces of a split with the same separator gives the text back |
| Strings.ReplaceIsSplitJoin | bot.py:112 | `replace(sep, with)` equals splitting at `sep` and joining with `with` |
| Strings.SplitPiecesFree | bot.py:112 | no piece of a split contains the separator, so `replace` leaves no occurrence of it behind in the pieces |
| Tools.SpecMatchesRun | tools.py:24-91 | each spec record agrees with its `run` signature: the properties are its parameters, the required ones are those without a default, and a call binds exactly when it supplies every required name and nothing undeclared |
| Tools.BuiltinSpecs | tools.py:23-91 | get_time has empty parameters, web_fetch requires exactly "url", web_search requires only "query", and omitting num_results behaves as num_results = 5 |
| Tools.NormalizeUrlSpec | tools.py:60-61 | the URL is left alone iff it starts with http:// or https://, otherwise gets "https://" in front; the result always has a scheme and normalising twice equals once |
| Tools.CleanResults | tools.py:100-107 | one cleaned entry per page, same order, with the page's name and url, and its summary, or its snippet when the summary is null or empty |
| Tools.Run | tools.py:59-108 | keyword arguments that do not bind raise before any effect; get_time answers the clock; web_fetch fetches the normalised URL, fails exactly on an unreachable host or a status from 400 to 599, and otherwise answers html2text of the body; web_search asks for num_results pages (5 when omitted) and answers the JSON of the cleaned page list, or fails when the search fails |
| Tools.RegistryOf | tools.py:113-114 | the registry's keys are exactly the spec names of the tools, and each key maps to a tool whose spec carries that name |
| Tools.RegistryContents | tools.py:111-114 | the registry built from the three tools maps get_time, web_fetch and web_search to Time, WebFetch and WebSearch |
| Tools.RegistryKeysAreSpecNames | tools.py:116-118 | `tools()` lists exactly the registry's names, each once, three specs in all |
| Tools.CallDispatch | tools.py:120-123 | `call` raises the unknown-method error iff the name is not a listed spec name, and otherwise runs the tool whose spec has that name |
| Messages.MediaParts | conversations.py:190-204 | an attachment contributes one inline image part iff its content type mentions "image", its download succeeds and its status is accepted; otherwise nothing, without raising |
| Messages.ImagePartsAppend | conversations.py:190-204 | the image parts of two attachment lists are the parts of the first followed by those of the second |
| Messages.DroppedAttachment | conversations.py:191-204 | an attachment that is not an image or whose download fails is dropped without disturbing the parts of the others |
| Messages.ImagePartsShape | conversations.py:190-202 | at most one part per attachment, every one an inline image |
| Messages.UserContentShape | conversations.py:183-186 | the content starts with the text part, "." for empty text, followed only by image parts, at most one per attachment |
| Messages.BuildContent | conversations.py:182-204 | the content-building loop yields the text part followed by the image parts of the accepted attachments in order |
| Conversations.RequiredParamsRule | conversations.py:40-43 | a parameter is required iff it is documented and its signature entry has no default |
| Conversations.BuildToolSpecs | conversations.py:29-56 | the loop over the class attributes skips private names, "tools" and "call", and yields the spec of each remaining method in attribute order |
| Conversations.ClassToolSpecsAreTheLiteralSpecs | conversations.py:64-84 | the specs derived from the docstrings and signatures are exactly tools.py's web_fetch and web_search records: "url" and "query" required, "num_results" not |
| Conversations.ClassSpecNames | conversations.py:58-62 | the names `tools()` lists are web_fetch then web_search, so `call` accepts exactly those two |
| Conversations.ClassCallDispatch | conversations.py:58-62 | `Tools.call` raises the unknown-method error iff the name is neither web_fetch nor web_search, and otherwise runs that tool |
| Conversations.ToolTurnsSuccess | conversations.py:229-241 | answering k tool calls succeeds iff every call succeeds, and then gives exactly k tool turns in call order, each with its call's id and output |
| Conversations.ToolTurnsFailure | conversations.py:230-235 | a failing batch fails with the error of its first failing call, all earlier calls having succeeded |
| Conversations.CallTools | conversations.py:229-241 | the tool-call loop returns the tool turns of all calls, or stops at the first call that raises, with its error |
| Conversations.RoundTripInvariants | conversations.py:211-225 | every request is the persona turn followed by history and batch, and offers the tool specs iff web access is on; the old history is a prefix of the new; one request per reply consumed, plus one that fails exactly when the replies run out |
| Conversations.ToolRound | conversations.py:224-241 | a round with k tool calls extends history by the batch and one stored reply, and queues exactly k tool turns, in call order, with the calls' ids, as the next batch |
| Conversations.RoundTripSuccess | conversations.py:223-242 | after replies whose tool calls all succeed, a reply without tool calls ends the loop: its content is the result, n+1 requests were sent, and the persona turn plus the new history is the last request plus that reply |
| Conversations.RoundTripStopsOnlyWithoutToolCalls | conversations.py:228-242 | conversely, a successful loop ended at a reply without tool calls, after replies that all requested tools, and returns that reply's content |
| Conversations.PopSpec | conversations.py:162-170 | pop returns the last user turn and keeps exactly the prefix before it, with no user turn after it; it returns None and leaves an empty history iff there is no user turn |
| Conversations.PopTwice | conversations.py:162-170 | popping user/assistant/user/assistant twice removes one exchange each time |
| Conversations.PopPastNonUser | conversations.py:164-168 | pop skips back over non-user turns to the last user turn |
| Conversations.RoundTripAddsNoUserTurns | conversations.py:224-241 | a loop whose batch holds no user turn appends only assistant and tool turns |
| Conversations.GenerateLeavesUserLast | conversations.py:207-241 | after a generate that got a reply, the history is the earlier history, the user turn, and then only assistant and tool turns |
| Conversations.RegenerateRepeatsGenerate | conversations.py:244-247 | after a generate that got a reply, pop returns exactly the earlier history and the user turn, so regenerate sends generate's first request again |
| Conversations.RegenerateSendsNullWithoutUserTurn | conversations.py:244-247 | with no user turn in the history, pop empties it and returns None, so the message list regenerate sends (built as in `_generate`, lines 214-217) is the persona turn followed by a null message |
| Conversations.Store.Save | conversations.py:157-159 | saving inserts or replaces the record under the key; a later load of that key gives the record back, and every other key loads as before |
| Conversations.Conversation.constructor | conversations.py:140-153 | the conversation holds exactly the given id, name, prompt, web flag, history, message ids and store |
| Conversations.Conversation.Save | conversations.py:155-160 | the stored record under the conversation's id becomes its five fields |
| Conversations.Conversation.Pop | conversations.py:162-170 | history and result are as `PopFrom` prescribes (see PopSpec), the other fields are unchanged, and the conversation is saved |
| Conversations.Conversation.UpdatePrompt | conversations.py:172-178 | sets the prompt; when the naming call answers, sets the name to the first line of the reply, changes web access only when given, and saves; when it raises, the prompt is already changed in memory and nothing else changes or is saved; history and message ids are always kept |
| Conversations.Conversation.RunRounds | conversations.py:210-242 | the queue-driven loop ends with the history, requests and result of `RoundTrip`; prompt, name, web flag and message ids are unchanged |
| Conversations.Conversation.Generate | conversations.py:180-208 | runs the loop from the single user turn built from the text and the attachments that download below status 400 |
| Conversations.Conversation.Regenerate | conversations.py:244-247 | pops and saves, then runs the loop from the popped user turn; with no user turn it fails without sending anything |
| Conversations.Manager.constructor | conversations.py:106-109 | the manager keeps the store and the default prompt |
| Conversations.Manager.NewConversation | conversations.py:124-135 | when the naming call answers: a fresh conversation with the given prompt, or the default when it is missing or empty, the first line of the naming reply as name, empty history and message ids, saved under the key; when it raises: nothing is created and the store is unchanged |
| Conversations.Manager.Get | conversations.py:111-122 | a stored record is rebuilt field by field without changing the store; otherwise a default conversation is created and saved when allowed, or the naming failure is reported with the store unchanged; otherwise no conversation and no change |
| Conversations.SaveThenGet | conversations.py:111-160 | saving and then getting through the manager gives back the same five fields |
| LlmClient.WithPair | llm_client.py:50-54 | adding a pair keeps every earlier entry and appends exactly a user turn, then an assistant turn |
| LlmClient.Resent | llm_client.py:93 | regenerate sends every entry but the last |
| LlmClient.RegenerateResendsGenerateRequest | llm_client.py:83-96 | after a generate, regenerate sends exactly the request generate sent: the old history plus the same user turn |
| LlmClient.NameFor | llm_client.py:29-48 | without a prompt (missing or empty) the name is "Aoi" and no naming call matters; otherwise the name exists iff the naming call answers, and is then the reply's first line: the longest prefix without a line break |
| LlmClient.PersonaFor | llm_client.py:31-35 | the persona is never empty: a missing or empty prompt falls back to the default persona |
| LlmClient.Conversation.constructor | llm_client.py:17-21 | the history is exactly one system turn carrying the prompt, and the message ids are empty |
| LlmClient.Conversation.AddMessagePair | llm_client.py:50-54 | history grows by exactly a user turn then an assistant turn; nothing else changes |
| LlmClient.Conversation.Generate | llm_client.py:56-89 | sends the history plus one user turn built with status-200 attachments; on an answer, history grows by that turn and the reply; when the endpoint raises, history is unchanged |
| LlmClient.Conversation.Regenerate | llm_client.py:91-97 | sends all but the last entry; on an answer, the last entry becomes the new assistant turn, so the length is unchanged |
| LlmClient.Registry.constructor | llm_client.py:13 | the module-level dictionary starts empty |
| LlmClient.Registry.Create | llm_client.py:29-37 | a fresh conversation with the default name and prompt when none is given, otherwise the prompt and its name, stored under the channel id; when a prompt is given and the naming call raises, nothing is created or stored |
| Bot.NumChunks | bot.py:55 | the number of chunks is ceil(len/2000): enough to cover the text, one fewer would not, and zero iff the text is empty |
| Bot.FlattenChunksPrefix | bot.py:55 | the first j chunks concatenate to the first min(2000 j, len) characters |
| Bot.ChunksConcat | bot.py:55 | the chunks concatenate back to the text |
| Bot.ChunkSizes | bot.py:55 | every chunk is non-empty and at most 2000 long, all but the last exactly 2000; there are none iff the text is empty |
| Bot.DiscordSend | bot.py:54-71 | succeeds iff the text is non-empty and every chunk's send answers, then returns one id per chunk in chunk order; with empty text it fails with nothing sent; otherwise it fails at the first chunk whose send raises, after posting the ones before it |
| Bot.BotTag | bot.py:106 | the tag is "<@", then exactly the bot id, then ">" |
| Bot.RewriteMentionShape | bot.py:106-112 | after one leading tag is dropped, the body is tag-free pieces separated by tags, and the rewritten text is those pieces joined by the bot name, trimmed of whitespace at both ends only |
| Bot.CollectMedia | bot.py:115-118 | one (content type, url) pair per attachment, in attachment order |
| Bot.ReactionRule | bot.py:134-159 | a reaction is ignored unless it is 🔁 or ❌ from a user; it pops iff ❌ and regenerates iff 🔁 on one of the last reply's messages when all of them could be fetched |
| Bot.PostReply | bot.py:123-127 | a non-empty reply whose every chunk posts has its ids become the last messages, and the conversation is saved; a failed or empty reply, or a send that raises, changes nothing |
| Bot.Respond | bot.py:120-130 | the new user turn runs the loop; the reply is posted and saved, with its ids as the last messages, exactly when it is non-empty and every send answers; otherwise a hiccup and nothing saved |
| Bot.OnMessage | bot.py:100-130 | the bot's own or non-mentioning messages change nothing; otherwise the rewritten text and the attachments run the loop, and the reply is posted and saved when every send answers, or nothing is saved |
| Bot.OnReactionAdd | bot.py:133-168 | the reaction rule decides; prompt, bot name and web access never change; ❌ pops and saves without touching the last messages; 🔁 regenerates and posts; a failed regenerate keeps the last messages and leaves only the popped history saved, with the old prompt, name and web access |

## Left out

- Network and library calls are oracles: the OpenAI client, `requests`, aiohttp, `html2text`, base64, `json.dumps` and `json.loads`, and the clock.
- Async scheduling and concurrent handlers on one channel. The handlers are modelled as sequential calls.
- Discord plumbing: webhooks, typing, reactions added to and cleared from messages (`clear_reactions`), message fetch and delete, slash-command registration, argparse configuration, on_ready. Whether every last message could be fetched is the handler's boolean `allFetched`.
- The slash commands `newchat` and `changeprompt` are not modelled separately. Their effect is `Manager.Get`, `Manager.NewConversation` and `Conversation.UpdatePrompt`.
- The handlers take the channel's conversation as a parameter. The `manager.get` that fetches (or creates) it is `Manager.Get`, not repeated inside the handlers.
- get_name's request shape: a system turn with the prompt and the fixed naming question. Only whether it answers, and the reply's first-line rule (`Strings.FirstLine`), are modelled.
- The reactions `discord_send` adds to its last message are not modelled. A failure there raises like a failed send, after every chunk was posted.
- `LlmClient.Conversation.get`: it reads an undefined `args` (llm_client.py:26) and calls `create` with the wrong arity, so it cannot run.
- Tool calls whose JSON arguments include the key `method` clash with `call`'s own parameter. Such calls are modelled like any other unbound argument set.
- An attachment with no content type makes `"image" not in None` raise outside the per-attachment `try`. Content types are modelled as strings.
- Tools.Run: does not model `web_search`'s HTTP error statuses or malformed JSON separately. Any failure of the search oracle is `SearchFailed`.
- `Tools.__init__` discovers tools via `Tool.__subclasses__()`. The model lists the three subclasses in definition order (`Tools.Registered`).
- Reflection in conversations.py (`dir`, `inspect.getdoc`, `inspect.signature`, `json.loads` of docstrings) is modelled by `Conversations.Doc`, the documented properties and signature of each attribute.
- `functools.cache` on `tools()`. Functions are pure, so repeated calls give the same list.
- database.py is not part of this model. It stores three fields while conversations.py reads and writes five (conversations.py:113-115, 157-159); the store here keeps the five.
- bot.py:44-46 constructs `ConversationManager` with four arguments while conversations.py:106 takes three. The model follows conversations.py.

## Findings

| source | as written | input that shows it | evidently intended | confidence | as-written member | corrected member |
|---|---|---|---|---|---|---|
| conversations.py:244-247 | `regenerate` hands `[last_user_turn]` to `_generate` even when `pop` returned None | a conversation whose history holds no user turn, e.g. an empty history: `pop` empties it and returns None, and the request then carries a null message after the persona turn | with nothing to regenerate, fail without sending a request | not executed; high that a null message is sent | Conversations.RegenerateSendsNullWithoutUserTurn | Conversations.Conversation.Regenerate |
