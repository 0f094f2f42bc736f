/**
  The three-tool chatbot: a weather lookup, an encyclopedia search and a text
  reversal, selected by keywords in the user's query and appended to the
  model's answer; the bot object keeps the ten newest history entries.
*/
module ConversationalAgent {
  import opened Wrappers
  import opened PyStrings
  import opened Conversation
  import Encyclopedia

  const SystemPrompt := "You are a helpful but slightly sassy AI assistant. \n"
    + "You have access to three tools:\n"
    + "1. get_current_temperature(latitude, longitude) - Get weather at coordinates\n"
    + "2. search_wikipedia(query) - Search Wikipedia\n"
    + "3. create_your_own(query) - Reverse text\n"
    + "\n"
    + "When user asks to use these tools, you can call them. Keep responses concise and friendly."

  // ================================================================ weather tool

  /** An hourly timestamp in microseconds (the resolution of Python's `datetime`), and whether it was written with a UTC offset (then Python makes it offset-aware). */
  datatype Stamp = Stamp(instant: int, hasOffset: bool)

  /** The decoded `hourly` object: `time` and the parallel `temperature_2m`, its values kept as their printed text. */
  datatype Forecast = Forecast(times: seq<Stamp>, temps: seq<string>)

  /**
    What the forecast request gives: `requests.get` raised, or a status code and
    a body that either decodes to a forecast or fails to (bad JSON, a missing
    key, an unparsable timestamp), with the exception's text.
  */
  datatype WeatherReply = Raised(message: string) | Reply(status: int, body: Result<Forecast, string>)

  const WeatherFailed := "Weather API failed."
  const WeatherErrorPrefix := "Error fetching weather: "
  const TemperaturePrefix := "The current temperature is "
  const Celsius := "\U{B0}C"
  /** The texts of the exceptions Python itself raises on the way (the empty `min` text is CPython 3.11's). */
  const EmptyMinMessage := "min() arg is an empty sequence"
  const NaiveAwareMessage := "can't subtract offset-naive and offset-aware datetimes"
  const IndexMessage := "list index out of range"

  /** `abs(times[i] - now)`. */
  function Distance(t: int, now: int): nat {
    if t >= now then t - now else now - t
  }

  /**
    `min(range(len(times)), key=lambda i: abs(times[i] - now))`: an index of
    least distance to `now`, the first one when several tie.
  */
  function ClosestIndex(times: seq<int>, now: int): (k: nat)
    requires |times| > 0
    ensures k < |times|
    ensures forall j :: 0 <= j < |times| ==> Distance(times[k], now) <= Distance(times[j], now)
    ensures forall j :: 0 <= j < k ==> Distance(times[j], now) > Distance(times[k], now)
    decreases |times|
  {
    if |times| == 1 then 0
    else
      var k := ClosestIndex(times[..|times| - 1], now);
      if Distance(times[|times| - 1], now) < Distance(times[k], now) then |times| - 1 else k
  }

  /** The two properties of `ClosestIndex` pin the index down: it is the stable argmin. */
  lemma ClosestIndexUnique(times: seq<int>, now: int, k: nat)
    requires k < |times|
    requires forall j :: 0 <= j < |times| ==> Distance(times[k], now) <= Distance(times[j], now)
    requires forall j :: 0 <= j < k ==> Distance(times[j], now) > Distance(times[k], now)
    ensures ClosestIndex(times, now) == k
  {
  }

  /** Readings two hours before, one hour before and one hour after now: the earlier of the tied pair wins. */
  lemma ClosestIndexExample(now: int)
    ensures ClosestIndex([now - 7_200_000_000, now - 3_600_000_000, now + 3_600_000_000], now) == 1
  {
  }

  function Instants(stamps: seq<Stamp>): (ts: seq<int>)
    ensures |ts| == |stamps|
    ensures forall i :: 0 <= i < |stamps| ==> ts[i] == stamps[i].instant
  {
    seq(|stamps|, i requires 0 <= i < |stamps| => stamps[i].instant)
  }

  /**
    `get_current_temperature` once the request is answered: every path ends in
    a text, never in an exception.
  */
  function CurrentTemperature(reply: WeatherReply, now: int): (r: string)
    ensures r == WeatherFailed <==> reply.Reply? && reply.status != 200
    ensures r != WeatherFailed ==> TemperaturePrefix <= r || WeatherErrorPrefix <= r
    ensures reply.Raised? ==> r == WeatherErrorPrefix + reply.message
    ensures reply.Reply? && reply.status == 200 && reply.body.Err? ==> r == WeatherErrorPrefix + reply.body.error
    ensures reply.Reply? && reply.status == 200 && reply.body.Ok? && reply.body.value.times == []
      ==> r == WeatherErrorPrefix + EmptyMinMessage
    ensures reply.Reply? && reply.status == 200 && reply.body.Ok? && reply.body.value.times != [] && reply.body.value.temps == []
      && (forall i :: 0 <= i < |reply.body.value.times| ==> !reply.body.value.times[i].hasOffset)
      ==> r == WeatherErrorPrefix + IndexMessage
  {
    match reply
    case Raised(message) => WeatherErrorPrefix + message
    case Reply(status, body) =>
      if status != 200 then WeatherFailed
      else match body
        case Err(message) => WeatherErrorPrefix + message
        case Ok(f) =>
          if |f.times| == 0 then WeatherErrorPrefix + EmptyMinMessage
          else if exists i :: 0 <= i < |f.times| && f.times[i].hasOffset then WeatherErrorPrefix + NaiveAwareMessage
          else
            var k := ClosestIndex(Instants(f.times), now);
            if k < |f.temps| then TemperaturePrefix + f.temps[k] + Celsius
            else WeatherErrorPrefix + IndexMessage
  }

  /** A well-formed forecast gives the reading of the earliest hour closest to now. */
  lemma CurrentTemperatureReadsClosestHour(f: Forecast, now: int, k: nat)
    requires |f.times| == |f.temps| && k < |f.times|
    requires forall i :: 0 <= i < |f.times| ==> !f.times[i].hasOffset
    requires forall j :: 0 <= j < |f.times| ==> Distance(f.times[k].instant, now) <= Distance(f.times[j].instant, now)
    requires forall j :: 0 <= j < k ==> Distance(f.times[j].instant, now) > Distance(f.times[k].instant, now)
    ensures CurrentTemperature(Reply(200, Ok(f)), now) == TemperaturePrefix + f.temps[k] + Celsius
  {
    ClosestIndexUnique(Instants(f.times), now, k);
  }

  /** One offset-aware timestamp is enough to turn every lookup into the subtraction error. */
  lemma OffsetTimestampFails(f: Forecast, now: int, i: nat)
    requires i < |f.times| && f.times[i].hasOffset
    ensures CurrentTemperature(Reply(200, Ok(f)), now) == WeatherErrorPrefix + NaiveAwareMessage
  {
  }

  // ================================================================ encyclopedia tool

  /** This bot's `search_wikipedia` is `Encyclopedia.SearchWikipedia` with this prefix. */
  const WikiErrorPrefix := "Error searching Wikipedia: "

  // ================================================================ reversal tool

  const SentPrefix := "You sent: "
  const ReversedInfix := ". This reverses it: "

  /** `create_your_own`: the text, then its reversal, which reverses back to the text. */
  function CreateYourOwn(query: string): (r: string)
    ensures |r| == |SentPrefix| + |ReversedInfix| + 2 * |query|
    ensures r[..|SentPrefix|] == SentPrefix
    ensures r[|SentPrefix|..|SentPrefix| + |query|] == query
    ensures r[|SentPrefix| + |query|..|r| - |query|] == ReversedInfix
    ensures Reverse(r[|r| - |query|..]) == query
  {
    var r := SentPrefix + query + ReversedInfix + Reverse(query);
    assert r[|r| - |query|..] == Reverse(query);
    ReverseInvolution(query);
    r
  }

  lemma CreateYourOwnExample()
    ensures CreateYourOwn("abc") == "You sent: abc. This reverses it: cba"
  {
    assert Reverse("abc") == "cba";
    assert SentPrefix + "abc" + ReversedInfix + "cba" == "You sent: abc. This reverses it: cba";
  }

  // ================================================================ routing

  /** Which tool, if any, a query asks for, with the argument the tool would get. */
  datatype Intent = CheckWeather | LookUp(searchQuery: string) | ReverseText(text: string) | NoTool

  /** The `if`/`elif` chain of `process_query`: first match wins. */
  function Route(query: string): Intent {
    var lowered := Lower(query);
    if Contains(lowered, "temperature") && Contains(lowered, "latitude") then CheckWeather
    else if Contains(lowered, "wikipedia") then LookUp(Strip(Remove(Remove(query, "wikipedia"), "search")))
    else if Contains(lowered, "reverse") then ReverseText(Strip(Remove(query, "reverse")))
    else NoTool
  }

  /** The keyword tests are case-insensitive: the exact lower-case keyword always triggers its branch. */
  lemma RouteByExactKeyword(query: string)
    ensures Contains(query, "temperature") && Contains(query, "latitude") ==> Route(query) == CheckWeather
    ensures Contains(query, "wikipedia") ==> Route(query) == CheckWeather || Route(query).LookUp?
    ensures Contains(query, "reverse") ==> !Route(query).NoTool?
  {
    assert Lower("temperature") == "temperature";
    assert Lower("latitude") == "latitude";
    assert Lower("wikipedia") == "wikipedia";
    assert Lower("reverse") == "reverse";
    if Contains(query, "temperature") { ContainsLower(query, "temperature"); }
    if Contains(query, "latitude") { ContainsLower(query, "latitude"); }
    if Contains(query, "wikipedia") { ContainsLower(query, "wikipedia"); }
    if Contains(query, "reverse") { ContainsLower(query, "reverse"); }
  }

  /**
    The removal of the keywords is case-sensitive while the test is not: a
    query that says "Wikipedia" (or "WIKIPEDIA") searches for the whole query, stripped.
  */
  lemma SearchQueryKeepsOtherCasings(query: string)
    requires Route(query).LookUp?
    requires !Contains(query, "wikipedia") && !Contains(query, "search")
    ensures Route(query) == LookUp(Strip(query))
  {
    RemoveUnchangedIff(query, "wikipedia");
    RemoveUnchangedIff(query, "search");
  }

  // ================================================================ one turn

  /** The outside world one turn talks to, as inputs. */
  datatype Services = Services(
    llm: string -> Completion,
    forecast: (real, real) -> WeatherReply,
    clock: int,
    wiki: Encyclopedia.Service,
    parseFloat: string -> Option<real>)

  const ErrorPrefix := "Error: "
  const WeatherTag := "\n\n\U{1F4CD} Tool Result: "
  const WikiTag := "\n\n\U{1F4D6} Wikipedia Result: "
  const ReverseTag := "\n\n\U{1F504} Reversed: "

  /**
    The token loop of the weather branch from position `i` on: every token
    "latitude" (any case) that has a successor adds one tool result; a token
    `float` rejects ends the loop, keeping what was added before.
  */
  function WeatherScan(parts: seq<string>, i: nat, answer: string, env: Services): string
    requires i <= |parts|
    decreases |parts| - i
  {
    if i == |parts| then answer
    else if Lower(parts[i]) == "latitude" && i + 1 < |parts| then
      var lat := env.parseFloat(RStrip(parts[i + 1], ','));
      var lon := if i + 3 < |parts| then env.parseFloat(RStrip(parts[i + 3], ',')) else Some(0.0);
      if lat.None? || lon.None? then answer
      else WeatherScan(parts, i + 1, answer + WeatherTag + CurrentTemperature(env.forecast(lat.value, lon.value), env.clock), env)
    else WeatherScan(parts, i + 1, answer, env)
  }

  method ScanForCoordinates(parts: seq<string>, answer0: string, env: Services) returns (answer: string)
    ensures answer == WeatherScan(parts, 0, answer0, env)
  {
    answer := answer0;
    var i := 0;
    while i < |parts|
      invariant 0 <= i <= |parts|
      invariant WeatherScan(parts, i, answer, env) == WeatherScan(parts, 0, answer0, env)
    {
      if Lower(parts[i]) == "latitude" && i + 1 < |parts| {
        var lat := env.parseFloat(RStrip(parts[i + 1], ','));
        if lat.None? {
          return;
        }
        var lon: real := 0.0;
        if i + 3 < |parts| {
          var parsed := env.parseFloat(RStrip(parts[i + 3], ','));
          if parsed.None? {
            return;
          }
          lon := parsed.value;
        }
        var tempResult := CurrentTemperature(env.forecast(lat.value, lon), env.clock);
        answer := answer + WeatherTag + tempResult;
      }
      i := i + 1;
    }
  }

  /** The scan only ever appends: the model's answer stays in front. */
  lemma {:induction false} WeatherScanExtends(parts: seq<string>, i: nat, answer: string, env: Services)
    requires i <= |parts|
    ensures answer <= WeatherScan(parts, i, answer, env)
    decreases |parts| - i
  {
    if i < |parts| {
      if Lower(parts[i]) == "latitude" && i + 1 < |parts| {
        var lat := env.parseFloat(RStrip(parts[i + 1], ','));
        var lon := if i + 3 < |parts| then env.parseFloat(RStrip(parts[i + 3], ',')) else Some(0.0);
        if lat.Some? && lon.Some? {
          var next := answer + WeatherTag + CurrentTemperature(env.forecast(lat.value, lon.value), env.clock);
          WeatherScanExtends(parts, i + 1, next, env);
        }
      } else {
        WeatherScanExtends(parts, i + 1, answer, env);
      }
    }
  }

  /** Without a "latitude" token followed by another token, the scan adds nothing. */
  lemma {:induction false} WeatherScanWithoutLatitude(parts: seq<string>, i: nat, answer: string, env: Services)
    requires i <= |parts|
    requires forall j :: i <= j < |parts| - 1 ==> Lower(parts[j]) != "latitude"
    ensures WeatherScan(parts, i, answer, env) == answer
    decreases |parts| - i
  {
    if i < |parts| {
      WeatherScanWithoutLatitude(parts, i + 1, answer, env);
    }
  }

  /** What the routed tool, if any, makes of the model's answer `base`. */
  function WithTool(query: string, base: string, env: Services): string {
    match Route(query)
    case CheckWeather => WeatherScan(Words(query), 0, base, env)
    case LookUp(searchQuery) => if searchQuery == "" then base else base + WikiTag + Encyclopedia.WikiResult(WikiErrorPrefix, searchQuery, env.wiki)
    case ReverseText(text) => if text == "" then base else base + ReverseTag + CreateYourOwn(text)
    case NoTool => base
  }

  /** The answer to one query given the history before it. */
  function Answer(h: seq<Turn>, query: string, env: Services): string {
    var c := env.llm(Prompt(SystemPrompt, h, query));
    if c.Failure? then ErrorPrefix + c.message else WithTool(query, BaseAnswer(c), env)
  }

  /** The `if`/`elif` chain of `process_query` after the model has answered. */
  method UseTools(query: string, base: string, env: Services) returns (answer: string)
    ensures answer == WithTool(query, base, env)
  {
    answer := base;
    var lowered := Lower(query);
    if Contains(lowered, "temperature") && Contains(lowered, "latitude") {
      var parts := Words(query);
      answer := ScanForCoordinates(parts, answer, env);
    } else if Contains(lowered, "wikipedia") {
      var searchQuery := Strip(Remove(Remove(query, "wikipedia"), "search"));
      assert Route(query) == LookUp(searchQuery);
      if searchQuery != "" {
        var wikiResult := Encyclopedia.SearchWikipedia(WikiErrorPrefix, searchQuery, env.wiki);
        answer := answer + WikiTag + wikiResult;
      }
    } else if Contains(lowered, "reverse") {
      var reverseText := Strip(Remove(query, "reverse"));
      assert Route(query) == ReverseText(reverseText);
      if reverseText != "" {
        var reverseResult := CreateYourOwn(reverseText);
        answer := answer + ReverseTag + reverseResult;
      }
    }
  }

  /** `process_query`: the prompt, the completion, then at most one tool. */
  method ProcessQuery(h: seq<Turn>, query: string, env: Services) returns (answer: string)
    ensures answer == Answer(h, query, env)
  {
    var fullPrompt := BuildPrompt(SystemPrompt, h, query);
    var response := env.llm(fullPrompt);
    if response.Failure? {
      return ErrorPrefix + response.message;
    }
    answer := if response.Text? && response.text != "" then response.text else Fallback;
    answer := UseTools(query, answer, env);
  }

  /** A failing completion call becomes the error text, and no tool runs. */
  lemma AnswerOnFailure(h: seq<Turn>, query: string, env: Services)
    requires env.llm(Prompt(SystemPrompt, h, query)).Failure?
    ensures Answer(h, query, env) == ErrorPrefix + env.llm(Prompt(SystemPrompt, h, query)).message
  {
  }

  /**
    When the call succeeds, the model's answer (or the fallback) comes first
    and a tool can only append to it; with no keyword it is returned as is.
  */
  lemma AnswerKeepsModelText(h: seq<Turn>, query: string, env: Services)
    requires !env.llm(Prompt(SystemPrompt, h, query)).Failure?
    ensures BaseAnswer(env.llm(Prompt(SystemPrompt, h, query))) <= Answer(h, query, env)
    ensures Route(query) == NoTool ==> Answer(h, query, env) == BaseAnswer(env.llm(Prompt(SystemPrompt, h, query)))
  {
    var base := BaseAnswer(env.llm(Prompt(SystemPrompt, h, query)));
    if Route(query) == CheckWeather {
      WeatherScanExtends(Words(query), 0, base, env);
    }
  }

  /**
    The weather branch shuts out the other two even when it adds nothing:
    a query naming "temperature", "latitude" and "wikipedia" never searches.
  */
  lemma WeatherBranchWins(h: seq<Turn>, query: string, env: Services)
    requires Contains(Lower(query), "temperature") && Contains(Lower(query), "latitude")
    requires !env.llm(Prompt(SystemPrompt, h, query)).Failure?
    ensures Answer(h, query, env) == WeatherScan(Words(query), 0, BaseAnswer(env.llm(Prompt(SystemPrompt, h, query))), env)
  {
  }

  /** A search or reversal whose argument strips to nothing adds nothing. */
  lemma EmptyArgumentRunsNoTool(h: seq<Turn>, query: string, env: Services)
    requires Route(query) == LookUp("") || Route(query) == ReverseText("")
    requires !env.llm(Prompt(SystemPrompt, h, query)).Failure?
    ensures Answer(h, query, env) == BaseAnswer(env.llm(Prompt(SystemPrompt, h, query)))
  {
  }

  // ================================================================ the bot object

  /** `ConversationalBot`: the stored history and the rows shown so far. */
  class Bot {
    var history: seq<Turn>
    /** The displayed rows, one per message, as (speaker, text). */
    var panels: seq<Turn>
    /** Every entry ever stored, oldest first. */
    ghost var log: seq<Turn>

    ghost predicate Valid()
      reads this
    {
      history == Window(log)
    }

    constructor ()
      ensures Valid()
      ensures history == [] && panels == [] && log == []
    {
      history := [];
      panels := [];
      log := [];
    }

    /**
      `interact`: nothing for an empty query; otherwise answer it, store the
      user and assistant entries, keep the newest ten, and show the rows.
    */
    method Interact(query: string, env: Services) returns (view: Option<seq<Turn>>)
      requires Valid()
      modifies this
      ensures Valid()
      ensures |history| <= MaxHistory
      ensures query == "" ==> view == None && history == old(history) && panels == old(panels) && log == old(log)
      ensures query != "" ==>
        var turns := Exchange(query, Answer(old(history), query, env));
        && log == old(log) + turns
        && history == Window(old(history) + turns)
        && panels == old(panels) + turns
        && view == Some(panels)
    {
      if query == "" {
        return None;
      }
      var answer := ProcessQuery(history, query, env);
      Store(query, answer);
      view := Some(panels);
    }

    /** The storing half of `interact`: append both entries, keep the newest ten, add the two rows. */
    method Store(query: string, answer: string)
      requires Valid()
      modifies this
      ensures Valid()
      ensures log == old(log) + Exchange(query, answer)
      ensures history == Window(old(history) + Exchange(query, answer))
      ensures panels == old(panels) + Exchange(query, answer)
    {
      var before := history;
      history := history + [Turn(User, query)];
      history := history + [Turn(Assistant, answer)];
      assert history == before + Exchange(query, answer);
      if |history| > MaxHistory {
        history := history[|history| - MaxHistory..];
      }
      log := log + Exchange(query, answer);
      WindowOfWindow(old(log), Exchange(query, answer));
      panels := panels + Exchange(query, answer);
    }
  }
}
