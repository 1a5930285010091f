/** conversations.py: the per-channel conversation state machine.
    A `Conversation` owns its transcript (`history`, without the persona
    turn, which is synthesised from `prompt` at request time) and is changed
    by `Pop`, `UpdatePrompt`, `Generate` and `Regenerate`; every change is
    written to the `Store` under the conversation's key. `Manager` decides
    between rebuilding a stored conversation, creating one, or nothing.
    The completion endpoint is a scripted sequence of replies: reply k
    answers the k-th request, and running out of replies is the endpoint
    failing. */
module Conversations {
  import opened Wrappers
  import opened Strings
  import opened Tools
  import opened Messages

  type Key = int
  type MessageId = int

  // ---------------------------------------------------------------------
  // The reflection-based `Tools` class of conversations.py
  // ---------------------------------------------------------------------

  /** What reflection reads off one classmethod: the first docstring line,
      the parameter properties of the docstring's JSON, and the signature. */
  datatype MethodDoc = MethodDoc(description: string, properties: seq<Property>, sig: Signature)

  /** The public attributes of the class, in `dir()` order (the dunder
      attributes are all skipped by the underscore rule). */
  const ClassAttrs: seq<string> := ["call", "tools", "web_fetch", "web_search"]

  /** `getattr(cls, name)` for the callable attributes, as reflection sees them. */
  function Doc(name: string): Option<MethodDoc>
  {
    if name == "web_fetch" then
      Some(MethodDoc("Get content of a webpage.",
        [Property("url", "string", "the webpage URL to fetch")], Signature(["url"], {})))
    else if name == "web_search" then
      Some(MethodDoc("Search the web.",
        [Property("query", "string", "the web search query"),
         Property("num_results", "integer", "how many sites to return. Default is 5")],
        Signature(["query", "num_results"], {"num_results"})))
    else if name == "call" || name == "tools" then
      Some(MethodDoc("", [], Signature([], {})))
    else None
  }

  predicate Skipped(name: string)
  {
    StartsWith(name, "_") || name == "tools" || name == "call"
  }

  /** The required parameters: the documented parameters whose signature
      entry has no default, in documentation order. A documented parameter
      missing from the signature would make the source raise a KeyError;
      here it counts as required. Neither documented method has one. */
  function RequiredParams(props: seq<Property>, sig: Signature): (r: seq<string>)
    decreases |props|
  {
    if props == [] then []
    else
      var rest := RequiredParams(props[..|props| - 1], sig);
      var p := props[|props| - 1].name;
      if p in sig.defaults then rest else rest + [p]
  }

  lemma {:induction false} RequiredParamsRule(props: seq<Property>, sig: Signature)
    ensures |RequiredParams(props, sig)| <= |props|
    ensures forall p :: p in RequiredParams(props, sig) <==>
      p in PropertyNames(props) && p !in sig.defaults
    decreases |props|
  {
    if props != [] {
      var init := props[..|props| - 1];
      RequiredParamsRule(init, sig);
      assert PropertyNames(props) == PropertyNames(init) + [props[|props| - 1].name];
    }
  }

  function SpecFromDoc(name: string, d: MethodDoc): ToolSpec
  {
    ToolSpec(name, d.description, ObjectParams(d.properties, RequiredParams(d.properties, d.sig)))
  }

  /** The specs of the attributes that are neither skipped nor non-callable. */
  function SpecsFrom(attrs: seq<string>): seq<ToolSpec>
    decreases |attrs|
  {
    if attrs == [] then []
    else
      var rest := SpecsFrom(attrs[..|attrs| - 1]);
      var name := attrs[|attrs| - 1];
      if Skipped(name) || Doc(name).None? then rest else rest + [SpecFromDoc(name, Doc(name).value)]
  }

  /** `Tools.tools()` */
  function ClassToolSpecs(): seq<ToolSpec>
  {
    SpecsFrom(ClassAttrs)
  }

  /** The loop of `Tools.tools()` that appends one spec per documented method. */
  method BuildToolSpecs() returns (tools: seq<ToolSpec>)
    ensures tools == ClassToolSpecs()
  {
    tools := [];
    for i := 0 to |ClassAttrs|
      invariant tools == SpecsFrom(ClassAttrs[..i])
    {
      var name := ClassAttrs[i];
      assert ClassAttrs[..i + 1][..i] == ClassAttrs[..i];
      if Skipped(name) {
        continue;
      }
      var f := Doc(name);
      if f.None? {
        continue;
      }
      tools := tools + [SpecFromDoc(name, f.value)];
    }
    assert ClassAttrs[..|ClassAttrs|] == ClassAttrs;
  }

  /** The derived specs are exactly tools.py's literal web_fetch and
      web_search records: "url" and "query" are required, "num_results"
      (which has a default) is not. */
  lemma ClassToolSpecsAreTheLiteralSpecs()
    ensures ClassToolSpecs() == [Spec(WebFetch), Spec(WebSearch)]
  {
    var a := ClassAttrs;
    assert a[..1] == ["call"] && a[..2] == ["call", "tools"] && a[..3] == ["call", "tools", "web_fetch"];
    assert a[..3][..2] == a[..2] && a[..2][..1] == a[..1] && a[..1][..0] == [] && a[..4] == a;
    assert "web_fetch"[..1] == "w" && "web_search"[..1] == "w";
    assert Skipped("call") && Skipped("tools") && !Skipped("web_fetch") && !Skipped("web_search");
    assert SpecsFrom(a[..1]) == [];
    assert SpecsFrom(a[..2]) == [];
    var fetch := Doc("web_fetch").value;
    assert fetch.properties[..0] == [];
    assert RequiredParams(fetch.properties, fetch.sig) == ["url"];
    assert SpecsFrom(a[..3]) == [Spec(WebFetch)];
    var search := Doc("web_search").value;
    assert search.properties[..1][..0] == [];
    assert RequiredParams(search.properties[..1], search.sig) == ["query"];
    assert RequiredParams(search.properties, search.sig) == ["query"];
  }

  /** `Tools.call`: ValueError for a name that `tools()` does not list,
      otherwise the classmethod of that name, whose body is the `run` of the
      same-named tool of tools.py. */
  function ClassCall(name: string, args: Args, env: Env): Result<string, ToolError>
  {
    if name !in SpecNamesOf(ClassToolSpecs()) then Failure(UnknownMethod(name))
    else if name == "web_fetch" then Run(WebFetch, args, env)
    else Run(WebSearch, args, env)
  }

  /** The names `Tools.call` accepts are exactly web_fetch and web_search. */
  lemma ClassSpecNames()
    ensures SpecNamesOf(ClassToolSpecs()) == ["web_fetch", "web_search"]
    ensures forall name :: name in SpecNamesOf(ClassToolSpecs()) <==> name == "web_fetch" || name == "web_search"
  {
    var specs := ClassToolSpecs();
    ClassToolSpecsAreTheLiteralSpecs();
    var names := SpecNamesOf(specs);
    assert |names| == 2 && names[0] == "web_fetch" && names[1] == "web_search";
    assert names == ["web_fetch", "web_search"];
  }

  lemma ClassCallDispatch(name: string, args: Args, env: Env)
    ensures ClassCall(name, args, env) == Failure(UnknownMethod(name)) <==>
      name != "web_fetch" && name != "web_search"
    ensures name == "web_fetch" ==> ClassCall(name, args, env) == Run(WebFetch, args, env)
    ensures name == "web_search" ==> ClassCall(name, args, env) == Run(WebSearch, args, env)
  {
    ClassSpecNames();
    if name == "web_fetch" || name == "web_search" {
      RunNeverUnknown(if name == "web_fetch" then WebFetch else WebSearch, args, env);
    }
  }

  /** One requested tool call: decode the JSON arguments, then call by name. */
  function Invoke(call: ToolCall, env: Env): Result<string, ToolError>
  {
    match env.loads(call.arguments)
    case None => Failure(BadArguments)
    case Some(args) => ClassCall(call.name, args, env)
  }

  /** How one requested tool call is answered: its output, or the error it
      raises. */
  type Dispatcher = ToolCall -> Result<string, ToolError>

  /** The dispatcher of conversations.py: `Invoke` against the environment. */
  function Dispatch(env: Env): Dispatcher
  {
    call => Invoke(call, env)
  }

  /** The tool turns answering `calls`, or the error of the first call that
      raises. */
  function ToolTurns(calls: seq<ToolCall>, invoke: Dispatcher): Result<seq<Turn>, ToolError>
    decreases |calls|
  {
    if calls == [] then Success([])
    else
      var init := calls[..|calls| - 1];
      var last := calls[|calls| - 1];
      match ToolTurns(init, invoke)
      case Failure(e) => Failure(e)
      case Success(turns) =>
        match invoke(last)
        case Failure(e) => Failure(e)
        case Success(out) => Success(turns + [ToolTurn(last.id, out)])
  }

  /** The batch succeeds exactly when every call succeeds, and then holds one
      tool turn per call, in call order, with that call's id and output. */
  lemma {:induction false} ToolTurnsSuccess(calls: seq<ToolCall>, invoke: Dispatcher)
    ensures ToolTurns(calls, invoke).Success? <==>
      forall i :: 0 <= i < |calls| ==> invoke(calls[i]).Success?
    ensures ToolTurns(calls, invoke).Success? ==>
      (|ToolTurns(calls, invoke).value| == |calls|
       && forall i :: 0 <= i < |calls| ==>
            ToolTurns(calls, invoke).value[i] == ToolTurn(calls[i].id, invoke(calls[i]).value))
    decreases |calls|
  {
    if calls != [] {
      var init := calls[..|calls| - 1];
      var last := calls[|calls| - 1];
      ToolTurnsSuccess(init, invoke);
      assert forall i :: 0 <= i < |init| ==> init[i] == calls[i];
      var before := ToolTurns(init, invoke);
      var out := invoke(last);
      if before.Failure? {
        assert ToolTurns(calls, invoke).Failure?;
      } else if out.Failure? {
        assert ToolTurns(calls, invoke).Failure?;
      } else {
        var turns := before.value + [ToolTurn(last.id, out.value)];
        assert ToolTurns(calls, invoke) == Success(turns);
        forall i | 0 <= i < |calls|
          ensures turns[i] == ToolTurn(calls[i].id, invoke(calls[i]).value)
        {
          if i < |init| {
            assert turns[i] == before.value[i];
          }
        }
      }
    }
  }

  /** A failing batch carries the error of its first failing call. */
  lemma {:induction false} ToolTurnsFailure(calls: seq<ToolCall>, invoke: Dispatcher)
    requires ToolTurns(calls, invoke).Failure?
    ensures exists i :: (0 <= i < |calls| && invoke(calls[i]) == Failure(ToolTurns(calls, invoke).error)
                         && forall j :: 0 <= j < i ==> invoke(calls[j]).Success?)
    decreases |calls|
  {
    var init := calls[..|calls| - 1];
    var last := calls[|calls| - 1];
    if ToolTurns(init, invoke).Failure? {
      ToolTurnsFailure(init, invoke);
      var i :| 0 <= i < |init| && invoke(init[i]) == Failure(ToolTurns(init, invoke).error)
        && forall j :: 0 <= j < i ==> invoke(init[j]).Success?;
      assert init[i] == calls[i];
      assert forall j :: 0 <= j < i ==> init[j] == calls[j];
    } else {
      ToolTurnsSuccess(init, invoke);
      assert forall j :: 0 <= j < |init| ==> init[j] == calls[j];
      assert invoke(calls[|init|]) == Failure(ToolTurns(calls, invoke).error);
    }
  }

  /** The `for tool_call in ...` loop of `_generate`. */
  method CallTools(calls: seq<ToolCall>, env: Env) returns (r: Result<seq<Turn>, ToolError>)
    ensures r == ToolTurns(calls, Dispatch(env))
  {
    var results: seq<Turn> := [];
    for i := 0 to |calls|
      invariant ToolTurns(calls[..i], Dispatch(env)) == Success(results)
    {
      assert calls[..i + 1][..i] == calls[..i];
      var out := Invoke(calls[i], env);
      if out.Failure? {
        assert ToolTurns(calls[..i + 1], Dispatch(env)) == Failure(out.error);
        ToolTurnsPrefixFailure(calls, i + 1, Dispatch(env));
        return Failure(out.error);
      }
      results := results + [ToolTurn(calls[i].id, out.value)];
    }
    assert calls[..|calls|] == calls;
    r := Success(results);
  }

  /** Once a prefix of the calls fails, the whole batch fails with that error. */
  lemma {:induction false} ToolTurnsPrefixFailure(calls: seq<ToolCall>, n: nat, invoke: Dispatcher)
    requires n <= |calls| && ToolTurns(calls[..n], invoke).Failure?
    ensures ToolTurns(calls, invoke) == ToolTurns(calls[..n], invoke)
    decreases |calls| - n
  {
    if n < |calls| {
      assert calls[..n + 1][..n] == calls[..n];
      ToolTurnsPrefixFailure(calls, n + 1, invoke);
    } else {
      assert calls[..n] == calls;
    }
  }

  // ---------------------------------------------------------------------
  // The round-trip loop
  // ---------------------------------------------------------------------

  /** The assistant turn stored for a reply: `{k: v ... if v}` drops an empty
      or null content and an empty tool-call list. */
  function Stored(reply: Reply): Turn
  {
    Assistant(if reply.content == Some("") then None else reply.content, reply.toolCalls)
  }

  /** The request of one round: the persona turn, the stored history and the
      batch being sent; the tool specs only with web access. */
  function RequestFor(prompt: string, webAccess: bool, history: seq<Turn>, batch: seq<Turn>): Request
  {
    Request([System(prompt)] + history + batch, if webAccess then Some(ClassToolSpecs()) else None)
  }

  datatype GenError =
    | CompletionFailed            // the endpoint raised (the script ran out)
    | ToolFailed(error: ToolError)
    | NothingToRegenerate         // regenerate found no user turn

  /** The history after a run, the requests it sent, and the content of the
      final reply or the error that ended it. */
  datatype Outcome = Outcome(history: seq<Turn>, sent: seq<Request>, result: Result<Option<string>, GenError>)

  function Then(before: seq<Request>, o: Outcome): Outcome
  {
    Outcome(o.history, before + o.sent, o.result)
  }

  /** `_generate(batch)`: send, store the batch and the reply, answer the
      reply's tool calls with the next batch, and stop at a reply without
      tool calls, whose content is the result. */
  function RoundTrip(prompt: string, webAccess: bool, history: seq<Turn>, batch: seq<Turn>,
                     script: seq<Reply>, invoke: Dispatcher): Outcome
    decreases |script|
  {
    var request := RequestFor(prompt, webAccess, history, batch);
    if script == [] then Outcome(history, [request], Failure(CompletionFailed))
    else
      var reply := script[0];
      var stored := history + batch + [Stored(reply)];
      if reply.toolCalls == [] then Outcome(stored, [request], Success(reply.content))
      else
        match ToolTurns(reply.toolCalls, invoke)
        case Failure(e) => Outcome(stored, [request], Failure(ToolFailed(e)))
        case Success(turns) =>
          Then([request], RoundTrip(prompt, webAccess, stored, turns, script[1..], invoke))
  }

  lemma ThenThen(a: seq<Request>, b: seq<Request>, o: Outcome)
    ensures Then(a, Then(b, o)) == Then(a + b, o)
  {
    assert a + (b + o.sent) == (a + b) + o.sent;
  }

  /** One round of the loop on a non-empty script. */
  lemma RoundTripStep(prompt: string, webAccess: bool, history: seq<Turn>, batch: seq<Turn>,
                      script: seq<Reply>, invoke: Dispatcher)
    requires script != []
    ensures var request := RequestFor(prompt, webAccess, history, batch);
      var stored := history + batch + [Stored(script[0])];
      var calls := script[0].toolCalls;
      RoundTrip(prompt, webAccess, history, batch, script, invoke) ==
        if calls == [] then Outcome(stored, [request], Success(script[0].content))
        else if ToolTurns(calls, invoke).Failure? then
          Outcome(stored, [request], Failure(ToolFailed(ToolTurns(calls, invoke).error)))
        else Then([request], RoundTrip(prompt, webAccess, stored, ToolTurns(calls, invoke).value, script[1..], invoke))
  {
  }

  /** What every run keeps: the old history is a prefix of the new one, every
      request starts with the persona turn and offers the tool specs exactly
      when web access is on, and one request is sent per reply consumed, plus
      one that fails when the replies run out. */
  lemma {:induction false} RoundTripInvariants(prompt: string, webAccess: bool, history: seq<Turn>,
                                               batch: seq<Turn>, script: seq<Reply>, invoke: Dispatcher)
    ensures var o := RoundTrip(prompt, webAccess, history, batch, script, invoke);
      1 <= |o.sent| <= |script| + 1
      && history <= o.history
      && (forall i :: 0 <= i < |o.sent| ==>
            |o.sent[i].messages| >= 1 && o.sent[i].messages[0] == System(prompt)
            && o.sent[i].tools == (if webAccess then Some(ClassToolSpecs()) else None))
      && (o.result == Failure(CompletionFailed) <==> |o.sent| == |script| + 1)
      && o.sent[0] == RequestFor(prompt, webAccess, history, batch)
    decreases |script|
  {
    var o := RoundTrip(prompt, webAccess, history, batch, script, invoke);
    if script != [] && script[0].toolCalls != [] && ToolTurns(script[0].toolCalls, invoke).Success? {
      var stored := history + batch + [Stored(script[0])];
      var turns := ToolTurns(script[0].toolCalls, invoke).value;
      RoundTripInvariants(prompt, webAccess, stored, turns, script[1..], invoke);
      var rest := RoundTrip(prompt, webAccess, stored, turns, script[1..], invoke);
      assert o.sent == [RequestFor(prompt, webAccess, history, batch)] + rest.sent;
      forall i | 0 <= i < |o.sent|
        ensures |o.sent[i].messages| >= 1 && o.sent[i].messages[0] == System(prompt)
          && o.sent[i].tools == (if webAccess then Some(ClassToolSpecs()) else None)
      {
        if i > 0 {
          assert o.sent[i] == rest.sent[i - 1];
        }
      }
    }
  }

  /** A run succeeds exactly when it reaches a reply without tool calls after
      replies whose tool calls all succeed; the result is that reply's
      content, and the persona turn followed by the stored history is exactly
      what the last request sent followed by that reply. */
  lemma {:induction false} RoundTripSuccess(prompt: string, webAccess: bool, history: seq<Turn>,
                                            batch: seq<Turn>, script: seq<Reply>, invoke: Dispatcher, n: nat)
    requires n < |script| && script[n].toolCalls == []
    requires forall m :: 0 <= m < n ==>
      script[m].toolCalls != [] && ToolTurns(script[m].toolCalls, invoke).Success?
    ensures var o := RoundTrip(prompt, webAccess, history, batch, script, invoke);
      o.result == Success(script[n].content)
      && |o.sent| == n + 1
      && [System(prompt)] + o.history == o.sent[n].messages + [Stored(script[n])]
    decreases n
  {
    var o := RoundTrip(prompt, webAccess, history, batch, script, invoke);
    var request := RequestFor(prompt, webAccess, history, batch);
    var stored := history + batch + [Stored(script[0])];
    if n > 0 {
      var turns := ToolTurns(script[0].toolCalls, invoke).value;
      forall m | 0 <= m < n - 1
        ensures script[1..][m].toolCalls != [] && ToolTurns(script[1..][m].toolCalls, invoke).Success?
      {
        assert script[1..][m] == script[m + 1];
      }
      RoundTripSuccess(prompt, webAccess, stored, turns, script[1..], invoke, n - 1);
      var rest := RoundTrip(prompt, webAccess, stored, turns, script[1..], invoke);
      assert o.sent == [request] + rest.sent;
      assert o.sent[n] == rest.sent[n - 1];
    }
  }

  /** Conversely, a run that succeeds stopped at its last reply, which has no
      tool calls, after replies that all requested tools. */
  lemma {:induction false} RoundTripStopsOnlyWithoutToolCalls(prompt: string, webAccess: bool,
      history: seq<Turn>, batch: seq<Turn>, script: seq<Reply>, invoke: Dispatcher)
    requires RoundTrip(prompt, webAccess, history, batch, script, invoke).result.Success?
    ensures var o := RoundTrip(prompt, webAccess, history, batch, script, invoke);
      var n := |o.sent| - 1;
      n < |script| && script[n].toolCalls == [] && o.result == Success(script[n].content)
      && forall m :: 0 <= m < n ==> script[m].toolCalls != []
    decreases |script|
  {
    var o := RoundTrip(prompt, webAccess, history, batch, script, invoke);
    RoundTripStep(prompt, webAccess, history, batch, script, invoke);
    if script[0].toolCalls != [] {
      var stored := history + batch + [Stored(script[0])];
      var turns := ToolTurns(script[0].toolCalls, invoke).value;
      RoundTripStopsOnlyWithoutToolCalls(prompt, webAccess, stored, turns, script[1..], invoke);
      var rest := RoundTrip(prompt, webAccess, stored, turns, script[1..], invoke);
      assert |o.sent| == 1 + |rest.sent|;
      forall m | 0 <= m < |o.sent| - 1 ensures script[m].toolCalls != [] {
        if m > 0 {
          assert script[m] == script[1..][m - 1];
        }
      }
    }
  }

  /** One round with tool calls: the history grows by the batch and the
      reply, and the next batch holds one tool turn per call, in call order,
      each carrying its call's id. */
  lemma ToolRound(prompt: string, webAccess: bool, history: seq<Turn>, batch: seq<Turn>,
                  script: seq<Reply>, invoke: Dispatcher)
    requires script != [] && script[0].toolCalls != []
    requires ToolTurns(script[0].toolCalls, invoke).Success?
    ensures var calls := script[0].toolCalls;
      var next := ToolTurns(calls, invoke).value;
      var stored := history + batch + [Stored(script[0])];
      |next| == |calls|
      && (forall i :: 0 <= i < |calls| ==> next[i].ToolTurn? && next[i].callId == calls[i].id)
      && RoundTrip(prompt, webAccess, history, batch, script, invoke)
         == Then([RequestFor(prompt, webAccess, history, batch)],
                 RoundTrip(prompt, webAccess, stored, next, script[1..], invoke))
  {
    ToolTurnsSuccess(script[0].toolCalls, invoke);
  }

  // ---------------------------------------------------------------------
  // pop
  // ---------------------------------------------------------------------

  /** `pop`: drop turns from the end up to and including the last user turn,
      which is returned; with no user turn, everything is dropped. */
  function PopFrom(h: seq<Turn>): (seq<Turn>, Option<Turn>)
    decreases |h|
  {
    if h == [] then ([], None)
    else if h[|h| - 1].User? then (h[..|h| - 1], Some(h[|h| - 1]))
    else PopFrom(h[..|h| - 1])
  }

  /** Pop keeps the prefix before the last user turn and returns that turn;
      it returns None, leaving nothing, exactly when there is no user turn. */
  lemma {:induction false} PopSpec(h: seq<Turn>)
    ensures PopFrom(h).1.None? <==> forall j :: 0 <= j < |h| ==> !h[j].User?
    ensures PopFrom(h).1.None? ==> PopFrom(h).0 == []
    ensures PopFrom(h).1.Some? ==>
      var i := |PopFrom(h).0|;
      i < |h| && h[i].User? && PopFrom(h).1.value == h[i] && PopFrom(h).0 == h[..i]
      && forall j :: i < j < |h| ==> !h[j].User?
    decreases |h|
  {
    if h != [] && !h[|h| - 1].User? {
      var init := h[..|h| - 1];
      PopSpec(init);
      if PopFrom(init).1.Some? {
        var i := |PopFrom(init).0|;
        assert init[..i] == h[..i];
      } else {
        assert forall j :: 0 <= j < |init| ==> init[j] == h[j];
      }
    }
  }

  /** The example of two pops: each removes one exchange. */
  lemma PopTwice(ua: Turn, aa: Turn, ub: Turn, ab: Turn)
    requires ua.User? && ub.User? && aa.Assistant? && ab.Assistant?
    ensures PopFrom([ua, aa, ub, ab]) == ([ua, aa], Some(ub))
    ensures PopFrom([ua, aa]) == ([], Some(ua))
  {
    var h := [ua, aa, ub, ab];
    assert h[..3] == [ua, aa, ub];
    assert h[..3][..2] == [ua, aa];
    assert [ua, aa][..1] == [ua];
    assert [ua][..0] == [];
  }

  predicate NoUserTurn(t: seq<Turn>)
  {
    forall j :: 0 <= j < |t| ==> !t[j].User?
  }

  /** Pop skips back over turns that are not user turns to the last user turn. */
  lemma {:induction false} PopPastNonUser(h: seq<Turn>, u: Turn, rest: seq<Turn>)
    requires u.User? && NoUserTurn(rest)
    ensures PopFrom(h + [u] + rest) == (h, Some(u))
    decreases |rest|
  {
    var s := h + [u] + rest;
    if rest == [] {
      assert s[..|s| - 1] == h;
    } else {
      assert s[..|s| - 1] == h + [u] + rest[..|rest| - 1];
      PopPastNonUser(h, u, rest[..|rest| - 1]);
    }
  }

  /** A run whose batch holds no user turn stores none: it appends only
      assistant and tool turns after the old history. */
  lemma {:induction false} RoundTripAddsNoUserTurns(prompt: string, webAccess: bool, history: seq<Turn>,
                                                    batch: seq<Turn>, script: seq<Reply>, invoke: Dispatcher)
    requires NoUserTurn(batch)
    ensures var o := RoundTrip(prompt, webAccess, history, batch, script, invoke);
      history <= o.history && NoUserTurn(o.history[|history|..])
    decreases |script|
  {
    var o := RoundTrip(prompt, webAccess, history, batch, script, invoke);
    if script == [] {
      assert o.history == history;
    } else {
      RoundTripStep(prompt, webAccess, history, batch, script, invoke);
      var stored := history + batch + [Stored(script[0])];
      var calls := script[0].toolCalls;
      assert history <= stored && NoUserTurn(stored[|history|..]) by {
        assert stored[|history|..] == batch + [Stored(script[0])];
      }
      if calls != [] && ToolTurns(calls, invoke).Success? {
        var turns := ToolTurns(calls, invoke).value;
        assert NoUserTurn(turns) by {
          ToolTurnsSuccess(calls, invoke);
        }
        RoundTripAddsNoUserTurns(prompt, webAccess, stored, turns, script[1..], invoke);
        assert o.history == RoundTrip(prompt, webAccess, stored, turns, script[1..], invoke).history;
        NoUserTurnJoin(history, stored, o.history);
      } else {
        assert o.history == stored;
      }
    }
  }

  /** No user turn after `history` in `stored`, nor after `stored` in `full`,
      means none after `history` in `full`. */
  lemma NoUserTurnJoin(history: seq<Turn>, stored: seq<Turn>, full: seq<Turn>)
    requires history <= stored <= full
    requires NoUserTurn(stored[|history|..]) && NoUserTurn(full[|stored|..])
    ensures NoUserTurn(full[|history|..])
  {
    forall k | |history| <= k < |full| ensures !full[k].User? {
      if k < |stored| {
        assert full[k] == stored[|history|..][k - |history|];
      } else {
        assert full[k] == full[|stored|..][k - |stored|];
      }
    }
  }

  /** After a generate that got a reply, its user turn is the last user turn
      of the history, right after the earlier history. */
  lemma GenerateLeavesUserLast(prompt: string, webAccess: bool, history: seq<Turn>, user: Turn,
                               script: seq<Reply>, invoke: Dispatcher)
    requires user.User? && script != []
    ensures var o := RoundTrip(prompt, webAccess, history, [user], script, invoke);
      |o.history| > |history| && o.history[..|history| + 1] == history + [user]
      && NoUserTurn(o.history[|history| + 1..])
  {
    var o := RoundTrip(prompt, webAccess, history, [user], script, invoke);
    var reply := Stored(script[0]);
    var stored := history + [user] + [reply];
    RoundTripStep(prompt, webAccess, history, [user], script, invoke);
    var calls := script[0].toolCalls;
    if calls != [] && ToolTurns(calls, invoke).Success? {
      var turns := ToolTurns(calls, invoke).value;
      ToolTurnsSuccess(calls, invoke);
      RoundTripAddsNoUserTurns(prompt, webAccess, stored, turns, script[1..], invoke);
      SlicesAfterUser(history, user, reply, o.history);
    } else {
      SlicesAfterUser(history, user, reply, o.history);
    }
  }

  /** A history extending `h + [u, x]` splits at `u` into `h + [u]` and what
      follows, which starts with `x`. */
  lemma SlicesAfterUser(h: seq<Turn>, u: Turn, x: Turn, full: seq<Turn>)
    requires h + [u] + [x] <= full
    ensures |full| > |h| && full[..|h| + 1] == h + [u]
    ensures full[|h| + 1..] == [x] + full[|h| + 2..]
    ensures !x.User? && NoUserTurn(full[|h| + 2..]) ==> NoUserTurn(full[|h| + 1..])
  {
    var p := h + [u] + [x];
    assert full[..|h| + 1] == p[..|h| + 1];
    assert full[|h| + 1] == x;
    var rest := full[|h| + 1..];
    if !x.User? && NoUserTurn(full[|h| + 2..]) {
      forall j | 0 <= j < |rest| ensures !rest[j].User? {
        if j > 0 {
          assert rest[j] == full[|h| + 2..][j - 1];
        }
      }
    }
  }

  /** Once generate has received a reply, popping goes back to exactly the
      history before it and returns its user turn, so a following regenerate
      sends the same first request again. */
  lemma RegenerateRepeatsGenerate(prompt: string, webAccess: bool, history: seq<Turn>, user: Turn,
                                  script: seq<Reply>, invoke: Dispatcher)
    requires user.User? && script != []
    ensures var o := RoundTrip(prompt, webAccess, history, [user], script, invoke);
      PopFrom(o.history) == (history, Some(user))
      && RequestFor(prompt, webAccess, PopFrom(o.history).0, [PopFrom(o.history).1.value]) == o.sent[0]
  {
    var o := RoundTrip(prompt, webAccess, history, [user], script, invoke);
    GenerateLeavesUserLast(prompt, webAccess, history, user, script, invoke);
    var tail := o.history[|history| + 1..];
    assert o.history == history + [user] + tail;
    PopPastNonUser(history, user, tail);
    RoundTripInvariants(prompt, webAccess, history, [user], script, invoke);
  }

  /** The batch that conversations.py's `regenerate` hands to `_generate`:
      `[last_user_turn]`, where `pop` may have returned None. */
  function RegenerateBatchAsWritten(popped: Option<Turn>): seq<Option<Turn>>
  {
    [popped]
  }

  /** The message list `_generate` builds from such a batch: the persona
      turn, the stored history, then the batch, where a null stays null. */
  function RequestMessagesAsWritten(prompt: string, history: seq<Turn>, batch: seq<Option<Turn>>): seq<Option<Turn>>
  {
    [Some(System(prompt))] + seq(|history|, i requires 0 <= i < |history| => Some(history[i])) + batch
  }

  /** With no user turn in the history, pop empties it and returns None, so
      the request regenerate sends is the persona turn followed by a null
      message. */
  lemma RegenerateSendsNullWithoutUserTurn(prompt: string, h: seq<Turn>)
    requires forall j :: 0 <= j < |h| ==> !h[j].User?
    ensures var (kept, popped) := PopFrom(h);
      RequestMessagesAsWritten(prompt, kept, RegenerateBatchAsWritten(popped)) == [Some(System(prompt)), None]
  {
    PopSpec(h);
    var (kept, popped) := PopFrom(h);
    assert kept == [] && popped == None;
    assert seq(|kept|, i requires 0 <= i < |kept| => Some(kept[i])) == [];
  }

  // ---------------------------------------------------------------------
  // The store and the classes
  // ---------------------------------------------------------------------

  /** The five stored fields, in the order conversations.py unpacks them. */
  datatype Record = Record(prompt: string, webAccess: bool, history: seq<Turn>,
                           botName: string, lastMessages: seq<MessageId>)

  /** The persistence collaborator: a key/value store of records. */
  class Store {
    var rows: map<Key, Record>

    constructor ()
      ensures rows == map[]
    {
      rows := map[];
    }

    /** `get_conversation`: the record under `key`, if any. */
    function Load(key: Key): Option<Record>
      reads this
    {
      if key in rows then Some(rows[key]) else None
    }

    /** `save`: insert or replace the record under `key`; a later load of
      that key gives the record back, and every other key loads as before. */
    method Save(key: Key, r: Record)
      modifies this
      ensures rows == old(rows)[key := r]
      ensures Load(key) == Some(r)
      ensures forall k :: k != key ==> Load(k) == old(Load(k))
    {
      rows := rows[key := r];
    }
  }

  /** `prompt or default`: a missing or empty prompt means the default. */
  function PromptOrDefault(prompt: Option<string>, default: string): string
  {
    if prompt.Some? && prompt.value != "" then prompt.value else default
  }

  /** The `aiohttp` status rule: `raise_for_status` fails from 400 on. */
  predicate AiohttpOk(status: int)
  {
    status < 400
  }

  class Conversation {
    const id: Key
    var botName: string
    var prompt: string
    var webAccess: bool
    var history: seq<Turn>
    var lastMessages: seq<MessageId>
    const db: Store

    constructor (id: Key, name: string, prompt: string, webAccess: bool,
                 history: seq<Turn>, lastMessages: seq<MessageId>, db: Store)
      ensures this.id == id && botName == name && this.prompt == prompt && this.webAccess == webAccess
      ensures this.history == history && this.lastMessages == lastMessages && this.db == db
    {
      this.id := id;
      botName := name;
      this.prompt := prompt;
      this.webAccess := webAccess;
      this.history := history;
      this.lastMessages := lastMessages;
      this.db := db;
    }

    /** The record `save` writes. */
    function Snapshot(): Record
      reads this
    {
      Record(prompt, webAccess, history, botName, lastMessages)
    }

    method Save()
      modifies db
      ensures db.rows == old(db.rows)[id := Snapshot()]
    {
      db.Save(id, Snapshot());
    }

    /** `pop`: removes the last user turn and everything after it, returns
      that turn (None when there is none), and saves. */
    method Pop() returns (popped: Option<Turn>)
      modifies this, db
      ensures (history, popped) == PopFrom(old(history))
      ensures prompt == old(prompt) && botName == old(botName) && webAccess == old(webAccess)
      ensures lastMessages == old(lastMessages)
      ensures db.rows == old(db.rows)[id := Snapshot()]
    {
      while history != []
        invariant PopFrom(history) == PopFrom(old(history))
        invariant prompt == old(prompt) && botName == old(botName) && webAccess == old(webAccess)
        invariant lastMessages == old(lastMessages) && db.rows == old(db.rows)
        decreases |history|
      {
        var current := history[|history| - 1];
        history := history[..|history| - 1];
        if current.User? {
          Save();
          return Some(current);
        }
      }
      Save();
      return None;
    }

    /** `update_prompt`: new prompt and name (the first line of the naming
      reply), web access only when given, history untouched, then save.
      The naming reply is `None` when `get_name` raises: the prompt has
      already changed in memory, and nothing else changes or is saved. */
    method UpdatePrompt(newPrompt: string, newWebAccess: Option<bool>, nameReply: Option<string>)
      returns (named: bool)
      modifies this, db
      ensures named <==> nameReply.Some?
      ensures prompt == newPrompt
      ensures history == old(history) && lastMessages == old(lastMessages)
      ensures nameReply.Some? ==>
        botName == FirstLine(nameReply.value)
        && webAccess == (if newWebAccess.Some? then newWebAccess.value else old(webAccess))
        && db.rows == old(db.rows)[id := Snapshot()]
      ensures nameReply.None? ==>
        botName == old(botName) && webAccess == old(webAccess) && db.rows == old(db.rows)
    {
      prompt := newPrompt;
      if nameReply.None? {
        return false;
      }
      botName := FirstLine(nameReply.value);
      if newWebAccess.Some? {
        webAccess := newWebAccess.value;
      }
      Save();
      return true;
    }

    /** `_generate(batch)`: the round-trip loop over a queue of batches. */
    method RunRounds(batch: seq<Turn>, script: seq<Reply>, env: Env)
      returns (result: Result<Option<string>, GenError>, sent: seq<Request>)
      modifies this
      ensures Outcome(history, sent, result) == RoundTrip(prompt, webAccess, old(history), batch, script, Dispatch(env))
      ensures prompt == old(prompt) && botName == old(botName) && webAccess == old(webAccess)
      ensures lastMessages == old(lastMessages)
    {
      ghost var goal := RoundTrip(prompt, webAccess, history, batch, script, Dispatch(env));
      var toSends: seq<seq<Turn>> := [batch];
      var k := 0;
      sent := [];
      result := Failure(CompletionFailed);
      while toSends != []
        invariant |toSends| <= 1 && k <= |script|
        invariant prompt == old(prompt) && botName == old(botName) && webAccess == old(webAccess)
        invariant lastMessages == old(lastMessages)
        invariant toSends != [] ==>
          goal == Then(sent, RoundTrip(prompt, webAccess, history, toSends[0], script[k..], Dispatch(env)))
        invariant toSends == [] ==> goal == Outcome(history, sent, result)
        decreases |script| - k, |toSends|
      {
        var toSend := toSends[0];
        toSends := toSends[1..];
        var request := RequestFor(prompt, webAccess, history, toSend);
        ghost var rest := script[k..];
        if k == |script| {
          assert rest == [];
          sent := sent + [request];
          result := Failure(CompletionFailed);
          return;
        }
        var reply := script[k];
        assert rest[0] == reply && rest[1..] == script[k + 1..];
        RoundTripStep(prompt, webAccess, history, toSend, rest, Dispatch(env));
        ghost var before := sent;
        sent := sent + [request];
        k := k + 1;
        history := history + toSend + [Stored(reply)];
        if reply.toolCalls != [] {
          var turns := CallTools(reply.toolCalls, env);
          if turns.Failure? {
            result := Failure(ToolFailed(turns.error));
            return;
          }
          ThenThen(before, [request], RoundTrip(prompt, webAccess, history, turns.value, script[k..], Dispatch(env)));
          toSends := toSends + [turns.value];
        } else {
          result := Success(reply.content);
        }
      }
    }

    /** `generate(text, media)`: build the user turn, then run the rounds. */
    method Generate(text: string, media: seq<Media>, menv: MediaEnv, script: seq<Reply>, env: Env)
      returns (result: Result<Option<string>, GenError>, sent: seq<Request>)
      modifies this
      ensures Outcome(history, sent, result) ==
        RoundTrip(prompt, webAccess, old(history), [User(UserContent(text, media, menv, AiohttpOk))], script, Dispatch(env))
      ensures prompt == old(prompt) && botName == old(botName) && webAccess == old(webAccess)
      ensures lastMessages == old(lastMessages)
    {
      var content := BuildContent(text, media, menv, AiohttpOk);
      result, sent := RunRounds([User(content)], script, env);
    }

    /** `regenerate`: pop the last exchange (which saves), then run the rounds
      again from the popped user turn. With no user turn there is nothing to
      regenerate and nothing is sent. */
    method Regenerate(script: seq<Reply>, env: Env)
      returns (result: Result<Option<string>, GenError>, sent: seq<Request>)
      modifies this, db
      ensures var (kept, popped) := PopFrom(old(history));
        if popped.None? then history == [] && sent == [] && result == Failure(NothingToRegenerate)
        else Outcome(history, sent, result) == RoundTrip(prompt, webAccess, kept, [popped.value], script, Dispatch(env))
      ensures prompt == old(prompt) && botName == old(botName) && webAccess == old(webAccess)
      ensures lastMessages == old(lastMessages)
      ensures db.rows == old(db.rows)[id := Record(old(prompt), old(webAccess), PopFrom(old(history)).0,
                                                   old(botName), old(lastMessages))]
    {
      PopSpec(history);
      var popped := Pop();
      if popped.None? {
        result := Failure(NothingToRegenerate);
        sent := [];
        return;
      }
      result, sent := RunRounds([popped.value], script, env);
    }
  }

  /** What `get` ends with: a conversation, none, or the naming call raising
      while one was being created. */
  datatype Lookup = Conv(c: Conversation) | NoConversation | NamingFailed

  class Manager {
    const db: Store
    const defaultPrompt: string

    constructor (db: Store, defaultPrompt: string)
      ensures this.db == db && this.defaultPrompt == defaultPrompt
    {
      this.db := db;
      this.defaultPrompt := defaultPrompt;
    }

    /** `new_conversation`: a fresh conversation under `key` (the missing or
      empty prompt means the default), named by the first line of the naming
      reply, with empty history and message list; saved, replacing any record.
      When `get_name` raises (the reply is `None`) nothing is created or saved. */
    method NewConversation(key: Key, prompt: Option<string>, webAccess: bool, nameReply: Option<string>)
      returns (c: Option<Conversation>)
      modifies db
      ensures c.Some? <==> nameReply.Some?
      ensures c.None? ==> db.rows == old(db.rows)
      ensures c.Some? ==>
        fresh(c.value) && c.value.id == key && c.value.db == db
        && c.value.Snapshot() == Record(PromptOrDefault(prompt, defaultPrompt), webAccess, [],
                                        FirstLine(nameReply.value), [])
        && db.rows == old(db.rows)[key := c.value.Snapshot()]
    {
      if nameReply.None? {
        return None;
      }
      var p := PromptOrDefault(prompt, defaultPrompt);
      var conv := new Conversation(key, FirstLine(nameReply.value), p, webAccess, [], [], db);
      conv.Save();
      return Some(conv);
    }

    /** `get`: rebuild the stored conversation when there is a record;
      otherwise create one with the default prompt when allowed, which fails
      when the naming call raises; otherwise None. */
    method Get(key: Key, createIfMissing: bool, nameReply: Option<string>) returns (c: Lookup)
      modifies db
      ensures key in old(db.rows) ==>
        c.Conv? && fresh(c.c) && c.c.id == key && c.c.db == db
        && c.c.Snapshot() == old(db.rows)[key] && db.rows == old(db.rows)
      ensures key !in old(db.rows) && createIfMissing && nameReply.Some? ==>
        c.Conv? && fresh(c.c) && c.c.id == key && c.c.db == db
        && c.c.Snapshot() == Record(PromptOrDefault(Some(defaultPrompt), defaultPrompt), false, [],
                                    FirstLine(nameReply.value), [])
        && db.rows == old(db.rows)[key := c.c.Snapshot()]
      ensures key !in old(db.rows) && createIfMissing && nameReply.None? ==>
        c == NamingFailed && db.rows == old(db.rows)
      ensures key !in old(db.rows) && !createIfMissing ==> c == NoConversation && db.rows == old(db.rows)
    {
      var data := db.Load(key);
      if data.Some? {
        var r := data.value;
        var conv := new Conversation(key, r.botName, r.prompt, r.webAccess, r.history, r.lastMessages, db);
        return Conv(conv);
      }
      if createIfMissing {
        var made := NewConversation(key, Some(defaultPrompt), false, nameReply);
        if made.None? {
          return NamingFailed;
        }
        return Conv(made.value);
      }
      return NoConversation;
    }
  }

  /** Saving and then fetching through the manager gives back the same five
      fields. */
  method SaveThenGet(c: Conversation, m: Manager, nameReply: Option<string>) returns (again: Lookup)
    requires c.db == m.db
    modifies m.db
    ensures again.Conv? && again.c.Snapshot() == c.Snapshot()
  {
    c.Save();
    again := m.Get(c.id, true, nameReply);
  }
}
