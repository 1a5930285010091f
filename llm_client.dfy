/** llm_client.py: the older conversation object. Its `history` starts with
    the persona turn itself, `generate` appends a user/assistant pair, and
    `regenerate` re-sends everything but the last entry and overwrites that
    entry in place. The completion endpoint is a function from the messages
    sent to its answer; attachment downloads are a `MediaEnv`. */
module LlmClient {
  import opened Wrappers
  import opened Strings
  import opened Messages

  type ChannelId = int

  const DefaultName: string := "Aoi"
  const DefaultSystemPrompt: string := "you are a catboy named Aoi with dark blue fur and is a tsundere"

  /** The endpoint's answer: the first choice's content (null is `None`), or
      the call raising. */
  datatype Completion = Answered(content: Option<string>) | Failed

  /** This client refuses an attachment unless its status is exactly 200. */
  predicate Http200(status: int)
  {
    status == 200
  }

  /** The history after a user/assistant pair is appended. */
  function WithPair(history: seq<Turn>, user: seq<Part>, assistant: Option<string>): (h: seq<Turn>)
    ensures |h| == |history| + 2 && h[..|history|] == history
    ensures h[|history|] == User(user) && h[|history| + 1] == Assistant(assistant, [])
  {
    history + [User(user), Assistant(assistant, [])]
  }

  /** What `regenerate` sends: every entry but the last. */
  function Resent(history: seq<Turn>): (r: seq<Turn>)
    requires |history| >= 1
    ensures |r| == |history| - 1 && history == r + [history[|history| - 1]]
  {
    history[..|history| - 1]
  }

  /** After a successful generate, regenerate sends exactly the request that
      generate sent: the old history and the same user turn. */
  lemma RegenerateResendsGenerateRequest(history: seq<Turn>, user: seq<Part>, reply: Option<string>)
    ensures Resent(WithPair(history, user, reply)) == history + [User(user)]
  {
    var h := WithPair(history, user, reply);
    assert h[..|h| - 1] == history + [User(user)];
  }

  /** The name: `DEFAULT_NAME` without a prompt, otherwise the first line of
      the naming reply, which is `None` when `get_name` raises. The name is
      then the longest line-break-free prefix of the reply. */
  function NameFor(prompt: Option<string>, nameReply: Option<string>): (name: Option<string>)
    ensures prompt.None? || prompt.value == "" ==> name == Some(DefaultName)
    ensures prompt.Some? && prompt.value != "" ==>
      (name.Some? <==> nameReply.Some?)
      && (name.Some? ==>
            '\n' !in name.value && StartsWith(nameReply.value, name.value)
            && (|name.value| < |nameReply.value| ==> nameReply.value[|name.value|] == '\n'))
  {
    if prompt.None? || prompt.value == "" then Some(DefaultName)
    else if nameReply.None? then None
    else Some(FirstLine(nameReply.value))
  }

  /** The persona: `DEFAULT_SYSTEM_PROMPT` without a prompt, otherwise the
      prompt; an empty prompt falls back too, so the persona turn is never
      empty. */
  function PersonaFor(prompt: Option<string>): (p: string)
    ensures p != ""
  {
    if prompt.None? || prompt.value == "" then DefaultSystemPrompt else prompt.value
  }

  class Conversation {
    var history: seq<Turn>
    var botName: string
    var lastMessages: seq<int>

    /** The history always holds at least the entry `regenerate` overwrites. */
    predicate Valid()
      reads this
    {
      |history| >= 1
    }

    /** `__init__`: the history is the persona turn alone. */
    constructor (name: string, prompt: string)
      ensures Valid()
      ensures history == [System(prompt)] && botName == name && lastMessages == []
    {
      history := [System(prompt)];
      botName := name;
      lastMessages := [];
    }

    /** `add_message_pair`: appends a user turn, then an assistant turn. */
    method AddMessagePair(user: seq<Part>, assistant: Option<string>)
      requires Valid()
      modifies this
      ensures Valid()
      ensures history == WithPair(old(history), user, assistant)
      ensures botName == old(botName) && lastMessages == old(lastMessages)
    {
      history := history + [User(user), Assistant(assistant, [])];
    }

    /** `generate`: build the user content, send the history plus that user
      turn, and on an answer append the pair; when the endpoint raises, the
      history is unchanged. */
    method Generate(text: string, media: seq<Media>, menv: MediaEnv, endpoint: seq<Turn> -> Completion)
      returns (sent: seq<Turn>, result: Completion)
      requires Valid()
      modifies this
      ensures Valid()
      ensures sent == old(history) + [User(UserContent(text, media, menv, Http200))]
      ensures result == endpoint(sent)
      ensures result.Answered? ==>
        history == WithPair(old(history), UserContent(text, media, menv, Http200), result.content)
      ensures result.Failed? ==> history == old(history)
      ensures botName == old(botName) && lastMessages == old(lastMessages)
    {
      var content := BuildContent(text, media, menv, Http200);
      sent := history + [User(content)];
      result := endpoint(sent);
      if result.Answered? {
        AddMessagePair(content, result.content);
      }
    }

    /** `regenerate`: send all but the last entry and, on an answer, overwrite
      the last entry with the new assistant turn; the length never changes. */
    method Regenerate(endpoint: seq<Turn> -> Completion) returns (sent: seq<Turn>, result: Completion)
      requires Valid()
      modifies this
      ensures Valid() && |history| == |old(history)|
      ensures sent == Resent(old(history)) && result == endpoint(sent)
      ensures result.Answered? ==> history == Resent(old(history)) + [Assistant(result.content, [])]
      ensures result.Failed? ==> history == old(history)
      ensures botName == old(botName) && lastMessages == old(lastMessages)
    {
      sent := history[..|history| - 1];
      result := endpoint(sent);
      if result.Answered? {
        history := history[|history| - 1 := Assistant(result.content, [])];
      }
    }
  }

  /** The module-level `conversations` dictionary. */
  class Registry {
    var conversations: map<ChannelId, Conversation>

    constructor ()
      ensures conversations == map[]
    {
      conversations := map[];
    }

    /** `create`: a new conversation with the defaults when the prompt is
      missing or empty, otherwise the prompt and the name it asks for; it is
      stored under the channel id, replacing any earlier one. When the
      naming call raises, nothing is created or stored. */
    method Create(channelId: ChannelId, prompt: Option<string>, nameReply: Option<string>)
      returns (c: Option<Conversation>)
      modifies this
      ensures c.Some? <==> NameFor(prompt, nameReply).Some?
      ensures c.None? ==> conversations == old(conversations)
      ensures c.Some? ==>
        fresh(c.value) && c.value.Valid()
        && c.value.history == [System(PersonaFor(prompt))] && c.value.botName == NameFor(prompt, nameReply).value
        && c.value.lastMessages == []
        && conversations == old(conversations)[channelId := c.value]
    {
      var conv;
      if prompt.None? || prompt.value == "" {
        conv := new Conversation(DefaultName, DefaultSystemPrompt);
      } else if nameReply.None? {
        return None;
      } else {
        conv := new Conversation(FirstLine(nameReply.value), prompt.value);
      }
      conversations := conversations[channelId := conv];
      return Some(conv);
    }
  }
}
