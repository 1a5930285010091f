/** The tool registry of tools.py: three tools (clock, page fetch, web
    search), each with a literal spec record and a `run`, gathered once into
    a name-keyed registry that lists the specs and dispatches calls by name.
    The clock, the HTTP requests, html2text and the JSON codec are the
    oracles of `Env`. */
module Tools {
  import opened Wrappers
  import opened Strings

  /** A decoded JSON argument value. */
  datatype Value = Str(s: string) | Int(i: int) | OtherValue

  /** The keyword arguments of a call (`**kwargs`). */
  type Args = map<string, Value>

  datatype Property = Property(name: string, kind: string, description: string)

  /** A tool's `parameters` object: either the empty object `{}` (get_time)
      or a JSON-schema object with properties and required names. */
  datatype Params = EmptyParams | ObjectParams(properties: seq<Property>, required: seq<string>)

  /** The `"function"` part of a `{"type": "function", ...}` spec record. */
  datatype ToolSpec = ToolSpec(name: string, description: string, parameters: Params)

  /** The answer of an HTTP GET. */
  datatype Http = Http(status: int, text: string) | Unreachable

  /** One entry of the search provider's `data.webPages.value` list;
      `None` stands for JSON null. */
  datatype Page = Page(name: string, url: string, summary: Option<string>, snippet: Option<string>)

  /** One entry of the list web_search returns. */
  datatype CleanPage = CleanPage(name: string, url: string, summary: Option<string>)

  datatype ToolError =
    | UnknownMethod(name: string)     // the ValueError of `call`
    | BadArguments                    // the TypeError of a call whose kwargs do not bind
    | HttpStatus(status: int)         // raise_for_status
    | NetworkError                    // the request itself failed
    | SearchFailed                    // the search request failed or its answer has no page list

  /** The world outside the tools: the rendered local time of `datetime.now()`,
      `requests.get`, `html2text.html2text`, the search provider's page list
      for a query and a count, `json.dumps` of the cleaned list, and
      `json.loads` of a call's argument string. */
  datatype Env = Env(
    now: string,
    get: string -> Http,
    html2text: string -> string,
    search: (Value, Value) -> Option<seq<Page>>,
    dumps: seq<CleanPage> -> string,
    loads: string -> Option<Args>)

  /** The subclasses of `Tool`. */
  datatype Tool = Time | WebFetch | WebSearch

  function Spec(t: Tool): ToolSpec
  {
    match t
    case Time => ToolSpec("get_time", "Get the current local time.", EmptyParams)
    case WebFetch =>
      ToolSpec("web_fetch", "Get content of a webpage.",
        ObjectParams([Property("url", "string", "the webpage URL to fetch")], ["url"]))
    case WebSearch =>
      ToolSpec("web_search", "Search the web.",
        ObjectParams([Property("query", "string", "the web search query"),
                      Property("num_results", "integer", "how many sites to return. Default is 5")],
                     ["query"]))
  }

  /** A Python signature: its parameter names in order, and those with a default. */
  datatype Signature = Signature(params: seq<string>, defaults: set<string>)

  /** The signature of each tool's `run` (without `self`). */
  function RunSignature(t: Tool): Signature
  {
    match t
    case Time => Signature([], {})
    case WebFetch => Signature(["url"], {})
    case WebSearch => Signature(["query", "num_results"], {"num_results"})
  }

  /** Whether `f(**args)` binds against the signature: no unexpected keyword
      and every parameter without a default supplied. */
  predicate Binds(args: Args, sig: Signature)
  {
    (forall k :: k in args ==> k in sig.params)
    && (forall p :: p in sig.params && p !in sig.defaults ==> p in args)
  }

  function PropertyNames(props: seq<Property>): (names: seq<string>)
    ensures |names| == |props|
    ensures forall i :: 0 <= i < |props| ==> names[i] == props[i].name
  {
    seq(|props|, i requires 0 <= i < |props| => props[i].name)
  }

  /** Each spec record agrees with its `run`: the declared properties are the
      run's parameters, the required names are those without a default, and
      so a call binds exactly when it supplies every required name and
      nothing undeclared. */
  lemma SpecMatchesRun(t: Tool, args: Args)
    ensures Spec(t).parameters.EmptyParams? <==> RunSignature(t).params == []
    ensures Spec(t).parameters.ObjectParams? ==>
      PropertyNames(Spec(t).parameters.properties) == RunSignature(t).params
      && (forall p :: p in Spec(t).parameters.required <==>
            p in RunSignature(t).params && p !in RunSignature(t).defaults)
    ensures Binds(args, RunSignature(t)) <==>
      match Spec(t).parameters
      case EmptyParams => args == map[]
      case ObjectParams(props, required) =>
        (forall k :: k in args ==> k in PropertyNames(props))
        && (forall p :: p in required ==> p in args)
  {
    match t
    case Time =>
      if args != map[] {
        var k :| k in args;
        assert !Binds(args, RunSignature(t));
      }
    case WebFetch =>
      assert PropertyNames(Spec(t).parameters.properties) == ["url"];
    case WebSearch =>
      assert PropertyNames(Spec(t).parameters.properties) == ["query", "num_results"];
  }

  /** The URL rewrite of `WebFetch.run`: a URL without an http or https scheme
      gets "https://" in front. */
  function NormalizeUrl(url: string): (r: string)
  {
    if StartsWith(url, "http://") || StartsWith(url, "https://") then url else "https://" + url
  }

  lemma NormalizeUrlSpec(url: string)
    ensures StartsWith(NormalizeUrl(url), "http://") || StartsWith(NormalizeUrl(url), "https://")
    ensures NormalizeUrl(url) == url <==> StartsWith(url, "http://") || StartsWith(url, "https://")
    ensures NormalizeUrl(url) != url ==> NormalizeUrl(url) == "https://" + url
    ensures NormalizeUrl(NormalizeUrl(url)) == NormalizeUrl(url)
  {
    var h := "https://";
    if !(StartsWith(url, "http://") || StartsWith(url, "https://")) {
      assert (h + url)[..|h|] == h;
      assert |h + url| != |url|;
    }
  }

  /** requests' `raise_for_status`: client and server error codes fail. */
  predicate RequestsOk(status: int)
  {
    !(400 <= status < 600)
  }

  /** `pg["summary"] or pg["snippet"]` */
  function SummaryOf(pg: Page): Option<string>
  {
    if pg.summary.Some? && pg.summary.value != "" then pg.summary else pg.snippet
  }

  /** The list comprehension of `WebSearch.run`. */
  function CleanResults(pages: seq<Page>): (r: seq<CleanPage>)
    ensures |r| == |pages|
    ensures forall i :: 0 <= i < |pages| ==>
      r[i].name == pages[i].name && r[i].url == pages[i].url
      && (pages[i].summary.Some? && pages[i].summary.value != "" ==> r[i].summary == pages[i].summary)
      && (pages[i].summary.None? || pages[i].summary.value == "" ==> r[i].summary == pages[i].snippet)
  {
    seq(|pages|, i requires 0 <= i < |pages| => CleanPage(pages[i].name, pages[i].url, SummaryOf(pages[i])))
  }

  /** `run(**args)` of each tool. Arguments that do not bind raise before
      any effect. get_time answers the clock. web_fetch fetches the
      normalised URL and fails exactly when the host is unreachable or the
      status is an error status; otherwise it answers the page as text.
      web_search asks for `num_results` pages, 5 when omitted, and answers
      the cleaned page list as JSON. */
  function Run(t: Tool, args: Args, env: Env): (r: Result<string, ToolError>)
    ensures !Binds(args, RunSignature(t)) ==> r == Failure(BadArguments)
    ensures Binds(args, RunSignature(t)) && t.Time? ==> r == Success(env.now)
    ensures Binds(args, RunSignature(t)) && t.WebFetch? ==>
      "url" in args
      && (!args["url"].Str? ==> r == Failure(BadArguments))
      && (args["url"].Str? ==>
            var answer := env.get(NormalizeUrl(args["url"].s));
            (r.Success? <==> answer.Http? && RequestsOk(answer.status))
            && (r.Success? ==> r.value == env.html2text(answer.text))
            && (answer.Unreachable? ==> r == Failure(NetworkError))
            && (answer.Http? && !RequestsOk(answer.status) ==> r == Failure(HttpStatus(answer.status))))
    ensures Binds(args, RunSignature(t)) && t.WebSearch? ==>
      "query" in args
      && ("num_results" !in args ==>
            (r.Success? <==> env.search(args["query"], Int(5)).Some?)
            && (r.Success? ==> r.value == env.dumps(CleanResults(env.search(args["query"], Int(5)).value))))
      && ("num_results" in args ==>
            (r.Success? <==> env.search(args["query"], args["num_results"]).Some?)
            && (r.Success? ==> r.value == env.dumps(CleanResults(env.search(args["query"], args["num_results"]).value))))
  {
    if !Binds(args, RunSignature(t)) then Failure(BadArguments)
    else
      match t
      case Time => Success(env.now)
      case WebFetch =>
        if !args["url"].Str? then Failure(BadArguments)
        else
          (match env.get(NormalizeUrl(args["url"].s))
           case Unreachable => Failure(NetworkError)
           case Http(status, text) =>
             if RequestsOk(status) then Success(env.html2text(text)) else Failure(HttpStatus(status)))
      case WebSearch =>
        var count := if "num_results" in args then args["num_results"] else Int(5);
        (match env.search(args["query"], count)
         case None => Failure(SearchFailed)
         case Some(pages) => Success(env.dumps(CleanResults(pages))))
  }

  /** `Tool.__subclasses__()`, in definition order. */
  const Registered: seq<Tool> := [Time, WebFetch, WebSearch]

  /** The dict comprehension `{t.get_spec()["function"]["name"]: t for t in tools}`:
      later tools overwrite earlier ones of the same name. */
  function RegistryOf(tools: seq<Tool>): (m: map<string, Tool>)
    ensures m.Keys == set t | t in tools :: Spec(t).name
    ensures forall name :: name in m ==> m[name] in tools && Spec(m[name]).name == name
    decreases |tools|
  {
    if tools == [] then map[]
    else
      var last := tools[|tools| - 1];
      var prefix := tools[..|tools| - 1];
      var m := RegistryOf(prefix);
      assert forall t :: t in tools <==> t in prefix || t == last;
      m[Spec(last).name := last]
  }

  /** `Tools.__init__`: the registry keyed by each tool's spec name. */
  function Registry(): map<string, Tool>
  {
    RegistryOf(Registered)
  }

  /** The registry built from the three tools maps each spec name to its tool. */
  lemma RegistryContents()
    ensures Registry() == map["get_time" := Time, "web_fetch" := WebFetch, "web_search" := WebSearch]
  {
    var t1, t2 := [Time], [Time, WebFetch];
    assert t1[..0] == [];
    assert RegistryOf([]) == map[];
    assert RegistryOf(t1) == map["get_time" := Time];
    assert t2[..1] == t1;
    assert RegistryOf(t2) == map["get_time" := Time, "web_fetch" := WebFetch];
    assert Registered[..2] == t2;
  }

  /** `Tools.tools()`: the spec of each registered tool, in the registry's
      insertion order, which is `Registered` since the names are distinct. */
  function ToolSpecs(): seq<ToolSpec>
  {
    seq(|Registered|, i requires 0 <= i < |Registered| => Spec(Registered[i]))
  }

  /** `Tools.call`: dispatch by name, ValueError for an unknown name. */
  function Call(name: string, args: Args, env: Env): (r: Result<string, ToolError>)
  {
    if name !in Registry() then Failure(UnknownMethod(name))
    else Run(Registry()[name], args, env)
  }

  /** `call` fails with the unknown-name error exactly for names that are
      not registered, and otherwise runs the tool whose spec carries that
      name. */
  lemma CallDispatch(name: string, args: Args, env: Env)
    ensures Call(name, args, env) == Failure(UnknownMethod(name)) <==>
      name !in SpecNamesOf(ToolSpecs())
    ensures forall t :: t in Registered && Spec(t).name == name ==>
      Call(name, args, env) == Run(t, args, env)
  {
    SpecNamesListed();
    RegistryContents();
    if name in Registry() {
      RunNeverUnknown(Registry()[name], args, env);
    }
    forall t | t in Registered && Spec(t).name == name
      ensures Call(name, args, env) == Run(t, args, env)
    {
      assert Registry()[name] == t;
    }
  }

  /** `tools()` names get_time, web_fetch and web_search, in that order. */
  lemma SpecNamesListed()
    ensures SpecNamesOf(ToolSpecs()) == ["get_time", "web_fetch", "web_search"]
  {
  }

  lemma RunNeverUnknown(t: Tool, args: Args, env: Env)
    ensures !Run(t, args, env).Failure? || !Run(t, args, env).error.UnknownMethod?
  {
  }

  /** The names the model can call, as listed in `tools()`. */
  function SpecNamesOf(specs: seq<ToolSpec>): (names: seq<string>)
    ensures |names| == |specs|
    ensures forall i :: 0 <= i < |specs| ==> names[i] == specs[i].name
  {
    seq(|specs|, i requires 0 <= i < |specs| => specs[i].name)
  }

  /** The registry keys are exactly the spec names listed by `tools()`, and
      these names are distinct, so `tools()` lists each tool once. */
  lemma RegistryKeysAreSpecNames()
    ensures forall name :: name in Registry() <==> name in SpecNamesOf(ToolSpecs())
    ensures forall i, j :: 0 <= i < j < |ToolSpecs()| ==> ToolSpecs()[i].name != ToolSpecs()[j].name
    ensures |ToolSpecs()| == 3
  {
    SpecNamesListed();
    RegistryContents();
  }

  /** The three literal spec records: get_time takes nothing (an empty
      parameters object), web_fetch requires exactly "url", web_search
      requires only "query", and its optional "num_results" defaults to 5. */
  lemma BuiltinSpecs(env: Env, q: Value)
    ensures Spec(Time).parameters == EmptyParams
    ensures Spec(WebFetch).parameters.required == ["url"]
    ensures Spec(WebSearch).parameters.required == ["query"]
    ensures Run(WebSearch, map["query" := q], env) == Run(WebSearch, map["query" := q, "num_results" := Int(5)], env)
  {
    var a := map["query" := q];
    var b := map["query" := q, "num_results" := Int(5)];
    assert Binds(a, RunSignature(WebSearch));
    assert Binds(b, RunSignature(WebSearch));
  }
}
