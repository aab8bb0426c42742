/** The agent pipeline: a five-stage graph that classifies a question as a
    weather question or a document question, answers it either from the
    weather service or from the retrieval tool, and records the turn in the
    chat log. Every stage takes the whole state and returns it with its own
    fields (and possibly the error) replaced; the graph library is replaced by
    an explicit step function over the five nodes. */
module Agent {
  import opened Common
  import Rag
  import Database

  /** The state that flows through the graph. `ragResponse` is None while no
      retrieval answer has been stored (the empty dictionary of the initial
      state). */
  datatype AgentState = AgentState(
    query: string,
    chatHistory: seq<Message>,
    intent: string,
    city: string,
    weatherData: map<string, string>,
    ragResponse: Option<Rag.RagResponse>,
    finalAnswer: string,
    error: string)

  /** The three language-model chains, each given the values its prompt is
      filled with: the query (intent), the query (city), and the query with
      the formatted weather report (answer). */
  datatype Llm = Llm(
    classifier: string -> Call<string>,
    cityExtractor: string -> Call<string>,
    responder: (string, string) -> Call<string>)

  /** Everything outside the pipeline that a run calls: the model, the
      weather service (by city) and the retrieval tool's `query` (by question
      and converted history). */
  datatype Services = Services(
    llm: Llm,
    weather: string -> Call<map<string, string>>,
    documents: (string, seq<ChatMessage>) -> Call<Rag.RagResponse>)

  const Weather := "weather"
  const Document := "document"
  const NoWeather := "I couldn't fetch the weather data. Please try again."
  const NoAnswer := "No answer available."
  const RetrievalFailed := "Failed to retrieve information from documents."
  const GenerationFailed := "An error occurred while generating the response."

  /** The state `run` starts the graph with; a missing history is empty. */
  function Initial(query: string, chatHistory: Option<seq<Message>>): (st: AgentState)
    ensures st.query == query
    ensures chatHistory.Some? ==> st.chatHistory == chatHistory.value
    ensures chatHistory.None? ==> st.chatHistory == []
    ensures st.intent == "" && st.city == "" && st.weatherData == map[]
    ensures st.ragResponse.None? && st.finalAnswer == "" && st.error == ""
  {
    AgentState(query, if chatHistory.Some? then chatHistory.value else [], "", "", map[], None, "", "")
  }

  // ---------------------------------------------------------------------
  // Intent classification

  /** The model's reply, stripped and lower-cased, when it is one of the two
      labels; anything else falls back to "document". */
  function IntentOf(reply: string): (intent: string)
    ensures intent == Weather || intent == Document
    ensures intent == Weather <==> Lower(Strip(reply)) == Weather
  {
    var reading := Lower(Strip(reply));
    if reading == Weather || reading == Document then reading else Document
  }

  /** Surrounding whitespace and capitals do not matter; a label with
      anything else around it is not recognised. */
  lemma IntentOfExamples()
    ensures IntentOf(" Weather\n") == Weather
    ensures IntentOf("WEATHER.") == Document
  {
    var padded := " Weather\n";
    assert TrimStart(padded) == padded[1..];
    assert TrimEnd(padded[1..]) == "Weather";
    assert Lower("Weather") == Weather;
    var dotted := "WEATHER.";
    assert !IsSpace(dotted[|dotted| - 1]);
    assert Strip(dotted) == dotted;
    assert Lower(dotted)[7] == '.';
  }

  /** The model answering exactly "document" is read as a document question. */
  lemma DocumentLabel()
    ensures IntentOf(Document) == Document
  {
    TrimStartKeeps(Document);
    TrimEndKeeps(Document);
    assert Lower(Document) == Document;
  }

  /** `_classify_intent`: only `intent` and, on failure, `error` change; the
      intent is always one of the two labels, and "weather" exactly when the
      model answered so. */
  function ClassifyIntent(st: AgentState, classifier: string -> Call<string>): (r: AgentState)
    ensures r == st.(intent := r.intent, error := r.error)
    ensures r.intent == Weather || r.intent == Document
    ensures r.intent == Weather <==>
      classifier(st.query).Returns? && Lower(Strip(classifier(st.query).value)) == Weather
    ensures r.error ==
      if classifier(st.query).Fails? then "Intent classification failed: " + classifier(st.query).cause else st.error
  {
    match classifier(st.query)
    case Returns(reply) => st.(intent := IntentOf(reply))
    case Fails(e) => st.(error := "Intent classification failed: " + e, intent := Document)
  }

  // ---------------------------------------------------------------------
  // The weather branch

  /** `_extract_city`: only `city` and, on failure, `error` change; the city
      is the model's reply without surrounding whitespace, or empty. */
  function ExtractCity(st: AgentState, cityExtractor: string -> Call<string>): (r: AgentState)
    ensures r == st.(city := r.city, error := r.error)
    ensures r.city == [] || (!IsSpace(r.city[0]) && !IsSpace(Last(r.city)))
    ensures cityExtractor(st.query).Returns? ==>
      r.city == Strip(cityExtractor(st.query).value) && r.error == st.error
    ensures cityExtractor(st.query).Fails? ==>
      r.city == "" && r.error == "City extraction failed: " + cityExtractor(st.query).cause
  {
    match cityExtractor(st.query)
    case Returns(reply) =>
      StripIdempotent(reply);
      st.(city := Strip(reply))
    case Fails(e) => st.(error := "City extraction failed: " + e, city := "")
  }

  /** `_fetch_weather`: only `weatherData` and, on failure, `error` change;
      the service's record for the extracted city, or an empty record. */
  function FetchWeather(st: AgentState, weather: string -> Call<map<string, string>>): (r: AgentState)
    ensures r == st.(weatherData := r.weatherData, error := r.error)
    ensures weather(st.city).Returns? ==> r.weatherData == weather(st.city).value && r.error == st.error
    ensures weather(st.city).Fails? ==>
      r.weatherData == map[] && r.error == "Weather fetch failed: " + weather(st.city).cause
  {
    match weather(st.city)
    case Returns(data) => st.(weatherData := data)
    case Fails(e) => st.(error := "Weather fetch failed: " + e, weatherData := map[])
  }

  /** The record fields the report reads, in the order it reads them. */
  const WeatherKeys := ["city", "country", "temperature", "description", "humidity", "wind_speed"]

  /** The message of the `KeyError` a missing dictionary key raises. */
  function KeyError(key: string): string {
    "'" + key + "'"
  }

  /** The position of the first of `keys` missing from `data`, if any. */
  function FirstMissing(data: map<string, string>, keys: seq<string>): (r: Option<nat>)
    ensures r.None? <==> forall k :: 0 <= k < |keys| ==> keys[k] in data
    ensures r.Some? ==> r.value < |keys| && keys[r.value] !in data && forall k :: 0 <= k < r.value ==> keys[k] in data
    decreases |keys|
  {
    if keys == [] then None
    else if keys[0] !in data then Some(0)
    else
      match FirstMissing(data, keys[1..])
      case None => None
      case Some(k) => Some(k + 1)
  }

  /** The continuation-line indentation of the report text. */
  const Indent := "                    "

  /** The report handed to the model: five lines built from six fields of
      the record. A missing field raises `KeyError` for the first one read. */
  function WeatherText(data: map<string, string>): (r: Call<string>)
    ensures r.Returns? <==> "city" in data && "country" in data && "temperature" in data &&
                            "description" in data && "humidity" in data && "wind_speed" in data
    ensures r.Fails? ==> (FirstMissing(data, WeatherKeys).Some? &&
                          r.cause == KeyError(WeatherKeys[FirstMissing(data, WeatherKeys).value]))
    ensures r.Returns? ==> var head := "City: " + data["city"] + ", " + data["country"];
      |head| <= |r.value| && r.value[..|head|] == head
  {
    match FirstMissing(data, WeatherKeys)
    case Some(k) =>
      assert WeatherKeys[k] !in data;
      Fails(KeyError(WeatherKeys[k]))
    case None =>
      assert WeatherKeys[0] in data && WeatherKeys[1] in data && WeatherKeys[2] in data;
      assert WeatherKeys[3] in data && WeatherKeys[4] in data && WeatherKeys[5] in data;
      var head := "City: " + data["city"] + ", " + data["country"];
      var rest := "\n" + Indent + "Temperature: " + data["temperature"] + "Â°C\n"
        + Indent + "Conditions: " + data["description"] + "\n"
        + Indent + "Humidity: " + data["humidity"] + "%\n"
        + Indent + "Wind Speed: " + data["wind_speed"] + " m/s";
      assert (head + rest)[..|head|] == head;
      Returns(head + rest)
  }

  /** What the model answers about a record, or why there is no answer. */
  function WeatherReply(st: AgentState, responder: (string, string) -> Call<string>): (r: Call<string>)
    ensures FirstMissing(st.weatherData, WeatherKeys).Some? ==>
      r == Fails(KeyError(WeatherKeys[FirstMissing(st.weatherData, WeatherKeys).value]))
    ensures FirstMissing(st.weatherData, WeatherKeys).None? ==>
      WeatherText(st.weatherData).Returns? && r == responder(st.query, WeatherText(st.weatherData).value)
  {
    match WeatherText(st.weatherData)
    case Fails(e) => Fails(e)
    case Returns(text) => responder(st.query, text)
  }

  // ---------------------------------------------------------------------
  // The document branch

  /** One prior message as the retrieval chain takes it; a message whose role
      is neither "human" nor "ai" is dropped. */
  function Convert(m: Message): (r: seq<ChatMessage>)
    ensures |r| <= 1
    ensures r == [] <==> m.role != "human" && m.role != "ai"
    ensures r != [] ==> r[0].content == m.content && (r[0].Human? <==> m.role == "human")
  {
    if m.role == "human" then [Human(m.content)]
    else if m.role == "ai" then [Ai(m.content)]
    else []
  }

  /** The history conversion of `_query_documents`, message by message. */
  function Formatted(history: seq<Message>): (r: seq<ChatMessage>)
    ensures |r| <= |history|
    decreases |history|
  {
    if history == [] then [] else Formatted(ButLast(history)) + Convert(Last(history))
  }

  /** The conversion works message by message, so it distributes over
      concatenation. */
  lemma {:induction false} FormattedAppend(a: seq<Message>, b: seq<Message>)
    ensures Formatted(a + b) == Formatted(a) + Formatted(b)
    decreases |b|
  {
    if b == [] {
      assert a + b == a;
    } else {
      assert ButLast(a + b) == a + ButLast(b);
      assert Last(a + b) == Last(b);
      FormattedAppend(a, ButLast(b));
    }
  }

  /** A history of human and AI messages only loses nothing: each message
      becomes one chat message of the same kind and content. */
  lemma {:induction false} FormattedKeepsTurns(history: seq<Message>)
    requires forall k :: 0 <= k < |history| ==> history[k].role == "human" || history[k].role == "ai"
    ensures |Formatted(history)| == |history|
    ensures forall k :: 0 <= k < |history| ==>
      Formatted(history)[k] == if history[k].role == "human" then Human(history[k].content) else Ai(history[k].content)
    decreases |history|
  {
    if history != [] {
      FormattedKeepsTurns(ButLast(history));
    }
  }

  /** The replay the chat log gives for a session reaches the retrieval chain
      whole: its query and answer pairs, in order, as human and AI messages. */
  lemma ReplayKeepsTurns(rows: seq<Database.Row>, s: string, k: nat)
    requires k < Database.Count(rows, s)
    ensures |Formatted(Database.History(rows, s))| == 2 * Database.Count(rows, s)
    ensures Formatted(Database.History(rows, s))[2 * k] == Human(Database.SessionRows(rows, s)[k].userQuery)
    ensures Formatted(Database.History(rows, s))[2 * k + 1] == Ai(Database.SessionRows(rows, s)[k].aiResponse)
  {
    var h := Database.History(rows, s);
    assert forall j :: 0 <= j < |h| ==> h[j].role == (if j % 2 == 0 then "human" else "ai");
    FormattedKeepsTurns(h);
    Database.HistoryPairs(rows, s, k);
  }

  /** The conversion loop of `_query_documents`. */
  method FormatHistory(history: seq<Message>) returns (formatted: seq<ChatMessage>)
    ensures formatted == Formatted(history)
  {
    formatted := [];
    var i := 0;
    while i < |history|
      invariant 0 <= i <= |history|
      invariant formatted == Formatted(history[..i])
    {
      assert ButLast(history[..i + 1]) == history[..i];
      var msg := history[i];
      if msg.role == "human" {
        formatted := formatted + [Human(msg.content)];
      } else if msg.role == "ai" {
        formatted := formatted + [Ai(msg.content)];
      }
      i := i + 1;
    }
    assert history[..i] == history;
  }

  /** `_query_documents`: only `ragResponse` and, on failure, `error` change;
      the tool's answer to the query and converted history, or the fixed
      failure answer with no sources. */
  function QueryDocuments(st: AgentState, documents: (string, seq<ChatMessage>) -> Call<Rag.RagResponse>): (r: AgentState)
    ensures r == st.(ragResponse := r.ragResponse, error := r.error)
    ensures r.ragResponse.Some?
    ensures var c := documents(st.query, Formatted(st.chatHistory));
      c.Returns? ==> r.ragResponse == Some(c.value) && r.error == st.error
    ensures var c := documents(st.query, Formatted(st.chatHistory));
      c.Fails? ==> r.ragResponse == Some(Rag.RagResponse(RetrievalFailed, [])) && r.error == "RAG query failed: " + c.cause
  {
    match documents(st.query, Formatted(st.chatHistory))
    case Returns(response) => st.(ragResponse := Some(response))
    case Fails(e) => st.(error := "RAG query failed: " + e, ragResponse := Some(Rag.RagResponse(RetrievalFailed, [])))
  }

  // ---------------------------------------------------------------------
  // The answer

  /** `_generate_response`: only `finalAnswer` and, on failure, `error`
      change. A weather question with no record gets the fixed apology, one
      with a record the model's answer about its report (or the fixed error
      answer when the report or the model fails); any other question gets
      the stored retrieval answer, or the fixed "no answer" text. */
  function GenerateResponse(st: AgentState, responder: (string, string) -> Call<string>): (r: AgentState)
    ensures r == st.(finalAnswer := r.finalAnswer, error := r.error)
    ensures st.intent != Weather ==>
      r.error == st.error && r.finalAnswer == (if st.ragResponse.Some? then st.ragResponse.value.answer else NoAnswer)
    ensures st.intent == Weather && st.weatherData == map[] ==> r.error == st.error && r.finalAnswer == NoWeather
    ensures st.intent == Weather && st.weatherData != map[] && WeatherReply(st, responder).Returns? ==>
      r.error == st.error && r.finalAnswer == WeatherReply(st, responder).value
    ensures st.intent == Weather && st.weatherData != map[] && WeatherReply(st, responder).Fails? ==>
      r.error == "Response generation failed: " + WeatherReply(st, responder).cause && r.finalAnswer == GenerationFailed
  {
    if st.intent == Weather then
      if st.weatherData == map[] then st.(finalAnswer := NoWeather)
      else
        match WeatherReply(st, responder)
        case Returns(answer) => st.(finalAnswer := answer)
        case Fails(e) => st.(error := "Response generation failed: " + e, finalAnswer := GenerationFailed)
    else
      st.(finalAnswer := if st.ragResponse.Some? then st.ragResponse.value.answer else NoAnswer)
  }

  // ---------------------------------------------------------------------
  // The graph

  datatype Node = ClassifyIntentNode | ExtractCityNode | FetchWeatherNode | QueryDocumentsNode | GenerateResponseNode

  /** Where control goes after a node: another node, the end, or nowhere
      because the router returned a label its path map does not have (the
      graph library raises in that case). */
  datatype Edge = Goto(target: Node) | Finish | NoRoute(returned: string)

  /** Longest remaining path, so every edge goes down. */
  function Rank(n: Node): nat {
    match n
    case ClassifyIntentNode => 4
    case ExtractCityNode => 3
    case FetchWeatherNode => 2
    case QueryDocumentsNode => 2
    case GenerateResponseNode => 1
  }

  /** `_route_intent` with the path map of the conditional edge: "weather"
      leads to city extraction, "document" to the retrieval node. */
  function RouteIntent(st: AgentState): (e: Edge)
    ensures e.Goto? <==> st.intent == Weather || st.intent == Document
    ensures e == Goto(ExtractCityNode) <==> st.intent == Weather
    ensures e == Goto(QueryDocumentsNode) <==> st.intent == Document
    ensures e.NoRoute? ==> e.returned == st.intent
  {
    if st.intent == Weather then Goto(ExtractCityNode)
    else if st.intent == Document then Goto(QueryDocumentsNode)
    else NoRoute(st.intent)
  }

  /** The wiring of `_build_graph`: the conditional edge out of
      classification, the two fixed chains, and the end after the answer. */
  function Next(n: Node, st: AgentState): (e: Edge)
    ensures e.Goto? ==> Rank(e.target) < Rank(n)
    ensures e == Finish <==> n == GenerateResponseNode
    ensures e.NoRoute? ==> n == ClassifyIntentNode
  {
    match n
    case ClassifyIntentNode => RouteIntent(st)
    case ExtractCityNode => Goto(FetchWeatherNode)
    case FetchWeatherNode => Goto(GenerateResponseNode)
    case QueryDocumentsNode => Goto(GenerateResponseNode)
    case GenerateResponseNode => Finish
  }

  /** Whether a node's guarded block raises on the state it is given. */
  predicate Raises(n: Node, st: AgentState, sv: Services) {
    match n
    case ClassifyIntentNode => sv.llm.classifier(st.query).Fails?
    case ExtractCityNode => sv.llm.cityExtractor(st.query).Fails?
    case FetchWeatherNode => sv.weather(st.city).Fails?
    case QueryDocumentsNode => sv.documents(st.query, Formatted(st.chatHistory)).Fails?
    case GenerateResponseNode =>
      st.intent == Weather && st.weatherData != map[] && WeatherReply(st, sv.llm.responder).Fails?
  }

  /** The node's stage. A stage that raises records a non-empty error; one
      that does not leaves the error as it was. */
  function Apply(n: Node, st: AgentState, sv: Services): (r: AgentState)
    ensures Raises(n, st, sv) ==> r.error != ""
    ensures !Raises(n, st, sv) ==> r.error == st.error
    ensures r.query == st.query && r.chatHistory == st.chatHistory
  {
    match n
    case ClassifyIntentNode => ClassifyIntent(st, sv.llm.classifier)
    case ExtractCityNode => ExtractCity(st, sv.llm.cityExtractor)
    case FetchWeatherNode => FetchWeather(st, sv.weather)
    case QueryDocumentsNode => QueryDocuments(st, sv.documents)
    case GenerateResponseNode => GenerateResponse(st, sv.llm.responder)
  }

  /** A run of the graph from one node: the final state, the nodes visited
      with the state each was given, and whether it reached the end. */
  datatype Execution = Execution(state: AgentState, trace: seq<Node>, inputs: seq<AgentState>, completed: bool)

  function Execute(n: Node, st: AgentState, sv: Services): (x: Execution)
    ensures |x.trace| == |x.inputs| && 1 <= |x.trace| <= Rank(n)
    ensures x.trace[0] == n && x.inputs[0] == st
    ensures x.state.query == st.query && x.state.chatHistory == st.chatHistory
    decreases Rank(n)
  {
    var after := Apply(n, st, sv);
    match Next(n, after)
    case Finish => Execution(after, [n], [st], true)
    case NoRoute(_) => Execution(after, [n], [st], false)
    case Goto(m) =>
      var rest := Execute(m, after, sv);
      Execution(rest.state, [n] + rest.trace, [st] + rest.inputs, rest.completed)
  }

  /** `graph.invoke`: a run from the entry point. */
  function Invoke(st: AgentState, sv: Services): (x: Execution)
    ensures |x.trace| == |x.inputs| && 1 <= |x.trace| <= 4
    ensures x.trace[0] == ClassifyIntentNode && x.inputs[0] == st
    ensures x.state.query == st.query && x.state.chatHistory == st.chatHistory
  {
    Execute(ClassifyIntentNode, st, sv)
  }

  /** Prepending to a sequence display gives the longer display. The route
      lemmas below use these to build a trace one node at a time; stated for
      any element type, the step costs the verifier little. */
  lemma Prepend2<T>(a: T, b: T)
    ensures [a] + [b] == [a, b]
  {
  }

  lemma Prepend3<T>(a: T, b: T, c: T)
    ensures [a] + [b, c] == [a, b, c]
  {
  }

  lemma Prepend4<T>(a: T, b: T, c: T, d: T)
    ensures [a] + [b, c, d] == [a, b, c, d]
  {
  }

  /** The answer node is the last: it ends the run. */
  lemma LastStep(st: AgentState, sv: Services)
    ensures Execute(GenerateResponseNode, st, sv) ==
      Execution(GenerateResponse(st, sv.llm.responder), [GenerateResponseNode], [st], true)
  {
  }

  /** A node whose outgoing edge leads to m runs its stage and then the run
      from m. */
  lemma ChainStep(n: Node, m: Node, st: AgentState, sv: Services, rest: Execution)
    requires Next(n, Apply(n, st, sv)) == Goto(m)
    requires Execute(m, Apply(n, st, sv), sv) == rest
    ensures Execute(n, st, sv) == Execution(rest.state, [n] + rest.trace, [st] + rest.inputs, rest.completed)
  {
  }

  /** A question classified as weather visits classification, city
      extraction, the weather fetch and the answer, each given the previous
      stage's state. */
  lemma WeatherRoute(st: AgentState, sv: Services)
    requires ClassifyIntent(st, sv.llm.classifier).intent == Weather
    ensures var s1 := ClassifyIntent(st, sv.llm.classifier);
      var s2 := ExtractCity(s1, sv.llm.cityExtractor);
      var s3 := FetchWeather(s2, sv.weather);
      Invoke(st, sv) == Execution(GenerateResponse(s3, sv.llm.responder),
        [ClassifyIntentNode, ExtractCityNode, FetchWeatherNode, GenerateResponseNode], [st, s1, s2, s3], true)
  {
    var s1 := ClassifyIntent(st, sv.llm.classifier);
    var s2 := ExtractCity(s1, sv.llm.cityExtractor);
    var s3 := FetchWeather(s2, sv.weather);
    var s4 := GenerateResponse(s3, sv.llm.responder);
    LastStep(s3, sv);
    ChainStep(FetchWeatherNode, GenerateResponseNode, s2, sv, Execution(s4, [GenerateResponseNode], [s3], true));
    Prepend2(FetchWeatherNode, GenerateResponseNode);
    Prepend2(s2, s3);
    var x2 := Execution(s4, [FetchWeatherNode, GenerateResponseNode], [s2, s3], true);
    ChainStep(ExtractCityNode, FetchWeatherNode, s1, sv, x2);
    Prepend3(ExtractCityNode, FetchWeatherNode, GenerateResponseNode);
    Prepend3(s1, s2, s3);
    var x1 := Execution(s4, [ExtractCityNode, FetchWeatherNode, GenerateResponseNode], [s1, s2, s3], true);
    assert Next(ClassifyIntentNode, s1) == Goto(ExtractCityNode);
    ChainStep(ClassifyIntentNode, ExtractCityNode, st, sv, x1);
    Prepend4(ClassifyIntentNode, ExtractCityNode, FetchWeatherNode, GenerateResponseNode);
    Prepend4(st, s1, s2, s3);
  }

  /** A question classified as a document question visits classification,
      retrieval and the answer. */
  lemma DocumentRoute(st: AgentState, sv: Services)
    requires ClassifyIntent(st, sv.llm.classifier).intent == Document
    ensures var s1 := ClassifyIntent(st, sv.llm.classifier);
      var s2 := QueryDocuments(s1, sv.documents);
      Invoke(st, sv) == Execution(GenerateResponse(s2, sv.llm.responder),
        [ClassifyIntentNode, QueryDocumentsNode, GenerateResponseNode], [st, s1, s2], true)
  {
    var s1 := ClassifyIntent(st, sv.llm.classifier);
    var s2 := QueryDocuments(s1, sv.documents);
    var s3 := GenerateResponse(s2, sv.llm.responder);
    LastStep(s2, sv);
    ChainStep(QueryDocumentsNode, GenerateResponseNode, s1, sv, Execution(s3, [GenerateResponseNode], [s2], true));
    Prepend2(QueryDocumentsNode, GenerateResponseNode);
    Prepend2(s1, s2);
    var x1 := Execution(s3, [QueryDocumentsNode, GenerateResponseNode], [s1, s2], true);
    assert Next(ClassifyIntentNode, s1) == Goto(QueryDocumentsNode);
    ChainStep(ClassifyIntentNode, QueryDocumentsNode, st, sv, x1);
    Prepend3(ClassifyIntentNode, QueryDocumentsNode, GenerateResponseNode);
    Prepend3(st, s1, s2);
  }

  /** Every run ends: a weather question visits classification, city
      extraction, the weather fetch and the answer; any other visits
      classification, retrieval and the answer. The final state is the
      composition of those stages. */
  lemma InvokeRoutes(st: AgentState, sv: Services)
    ensures var x := Invoke(st, sv);
      && x.completed
      && (x.state.intent == Weather || x.state.intent == Document)
      && (x.state.intent == Weather ==>
            x.trace == [ClassifyIntentNode, ExtractCityNode, FetchWeatherNode, GenerateResponseNode] &&
            x.state == GenerateResponse(FetchWeather(ExtractCity(ClassifyIntent(st, sv.llm.classifier),
                sv.llm.cityExtractor), sv.weather), sv.llm.responder))
      && (x.state.intent == Document ==>
            x.trace == [ClassifyIntentNode, QueryDocumentsNode, GenerateResponseNode] &&
            x.state == GenerateResponse(QueryDocuments(ClassifyIntent(st, sv.llm.classifier), sv.documents), sv.llm.responder))
  {
    if ClassifyIntent(st, sv.llm.classifier).intent == Weather {
      WeatherRoute(st, sv);
    } else {
      DocumentRoute(st, sv);
    }
  }

  /** A run that ends carries one of the two labels. */
  lemma InvokeLabels(st: AgentState, sv: Services)
    ensures Invoke(st, sv).state.intent == Weather || Invoke(st, sv).state.intent == Document
  {
    InvokeRoutes(st, sv);
  }

  /** No stage of a trace raised on the state it was given. */
  predicate Clean(trace: seq<Node>, inputs: seq<AgentState>, sv: Services)
    requires |trace| == |inputs|
  {
    forall k :: 0 <= k < |trace| ==> !Raises(trace[k], inputs[k], sv)
  }

  lemma CleanCons(n: Node, st: AgentState, trace: seq<Node>, inputs: seq<AgentState>, sv: Services)
    requires |trace| == |inputs|
    ensures Clean([n] + trace, [st] + inputs, sv) <==> !Raises(n, st, sv) && Clean(trace, inputs, sv)
  {
    var t, i := [n] + trace, [st] + inputs;
    assert forall k :: 1 <= k < |t| ==> t[k] == trace[k - 1] && i[k] == inputs[k - 1];
    if !Raises(n, st, sv) && Clean(trace, inputs, sv) {
      forall k | 0 <= k < |t| ensures !Raises(t[k], i[k], sv) {
        if k > 0 {
          assert !Raises(trace[k - 1], inputs[k - 1], sv);
        }
      }
    }
    if Clean(t, i, sv) {
      assert !Raises(t[0], i[0], sv);
      forall k | 0 <= k < |trace| ensures !Raises(trace[k], inputs[k], sv) {
        assert !Raises(t[k + 1], i[k + 1], sv);
      }
    }
  }

  /** The error a run ends with is empty exactly when it started empty and
      no visited stage raised. */
  lemma {:induction false} ErrorIffNoFault(n: Node, st: AgentState, sv: Services)
    ensures var x := Execute(n, st, sv);
      x.state.error == "" <==> st.error == "" && Clean(x.trace, x.inputs, sv)
    decreases Rank(n)
  {
    var after := Apply(n, st, sv);
    var x := Execute(n, st, sv);
    match Next(n, after)
    case Finish =>
      CleanCons(n, st, [], [], sv);
      assert x.trace == [n] + [] && x.inputs == [st] + [];
    case NoRoute(_) =>
      assert false;
    case Goto(m) =>
      ErrorIffNoFault(m, after, sv);
      var rest := Execute(m, after, sv);
      CleanCons(n, st, rest.trace, rest.inputs, sv);
  }

  /** A turn touches only its own branch: a weather turn stores no
      retrieval answer, a document turn neither a city nor a record; the
      query and history are never changed. */
  lemma TurnKeepsOtherBranch(query: string, chatHistory: Option<seq<Message>>, sv: Services)
    ensures var st := Initial(query, chatHistory); var x := Invoke(st, sv);
      && x.state.query == query && x.state.chatHistory == st.chatHistory
      && (x.state.intent == Weather ==> x.state.ragResponse.None?)
      && (x.state.intent == Document ==> x.state.city == "" && x.state.weatherData == map[] && x.state.ragResponse.Some?)
  {
    InvokeRoutes(Initial(query, chatHistory), sv);
  }

  /** When the model's answers and the retrieval answers are never empty,
      neither is the answer a turn ends with. */
  lemma AnswerNotEmpty(query: string, chatHistory: Option<seq<Message>>, sv: Services)
    requires forall q, t :: sv.llm.responder(q, t).Returns? ==> sv.llm.responder(q, t).value != ""
    requires forall q, h :: sv.documents(q, h).Returns? ==> sv.documents(q, h).value.answer != ""
    ensures Invoke(Initial(query, chatHistory), sv).state.finalAnswer != ""
  {
    InvokeRoutes(Initial(query, chatHistory), sv);
  }

  /** Without that premise the answer can be empty: a document question
      whose retrieval answer is empty ends with an empty answer and no
      error, since the answer stage forwards it unchecked. */
  lemma AnswerCanBeEmpty(query: string, chatHistory: Option<seq<Message>>, sv: Services)
    requires sv.llm.classifier(query) == Returns(Document)
    requires sv.documents(query, Formatted(Initial(query, chatHistory).chatHistory)).Returns?
    requires sv.documents(query, Formatted(Initial(query, chatHistory).chatHistory)).value.answer == ""
    ensures var x := Invoke(Initial(query, chatHistory), sv);
      x.completed && x.state.finalAnswer == "" && x.state.error == ""
  {
    DocumentLabel();
    DocumentRoute(Initial(query, chatHistory), sv);
  }

  // ---------------------------------------------------------------------
  // A turn

  /** The retrieval tool's `query` on the store open at the start of the
      turn; it catches its own failures. */
  function Documents(store: Option<string>, qsv: Rag.QueryServices): (string, seq<ChatMessage>) -> Call<Rag.RagResponse> {
    (q: string, h: seq<ChatMessage>) => Returns(Rag.Query(store, q, h, qsv).response)
  }

  /** The PDF name recorded with a turn: the tool's current PDF for a
      document turn while a store is open, none otherwise. */
  function TurnPdf(intent: string, store: Option<string>, current: Option<string>): (pdf: Option<string>)
    ensures pdf.Some? ==> intent == Document && store.Some? && pdf == current
    ensures intent == Document && store.Some? ==> pdf == current
  {
    if intent == Document && store.Some? then current else None
  }

  /** A PDF name recorded with a turn is the one whose collection the open
      store reads, given the tool's invariant on its current fields. */
  lemma TurnPdfNamesStore(intent: string, store: Option<string>, currentPdf: Option<string>)
    requires store.Some? ==> currentPdf.Some? && store == Some(Rag.Sanitize(currentPdf.value))
    ensures var pdf := TurnPdf(intent, store, currentPdf); pdf.Some? ==> store == Some(Rag.Sanitize(pdf.value))
  {
  }

  class AgentPipeline {
    const rag: Rag.RagTool
    const db: Database.ChatDatabase

    ghost predicate Valid()
      reads this, rag, db
    {
      rag.Valid() && db.Valid()
    }

    /** A pipeline over a fresh retrieval tool (given the collections the
        vector database already holds) and the chat log. */
    constructor (existing: map<string, seq<Rag.Doc>>, log: Database.ChatDatabase)
      requires log.Valid()
      ensures Valid() && db == log && fresh(rag)
      ensures rag.collections == existing && rag.vectorstore.None?
    {
      rag := new Rag.RagTool(existing);
      db := log;
    }

    /** `run`: the graph run from the initial state, then exactly one row
        appended to the chat log with the turn's query, answer, intent and
        PDF. The session's replay grows by that turn; no other session's
        replay changes. */
    method Run(query: string, sessionId: string, chatHistory: Option<seq<Message>>, llm: Llm,
               weather: string -> Call<map<string, string>>, qsv: Rag.QueryServices) returns (final: AgentState)
      requires Valid()
      modifies db
      ensures Valid()
      ensures final == Invoke(Initial(query, chatHistory), Services(llm, weather, Documents(rag.vectorstore, qsv))).state
      ensures final.intent == Weather || final.intent == Document
      ensures db.clock == old(db.clock) + 1
      ensures db.rows == old(db.rows) + [Database.Row(sessionId, query, final.finalAnswer, final.intent,
                                                     TurnPdf(final.intent, rag.vectorstore, rag.currentPdfName), old(db.clock))]
      ensures var pdf := TurnPdf(final.intent, rag.vectorstore, rag.currentPdfName);
        pdf.Some? ==> rag.vectorstore == Some(Rag.Sanitize(pdf.value))
      ensures Database.History(db.rows, sessionId) ==
        old(Database.History(db.rows, sessionId)) + [Message("human", query), Message("ai", final.finalAnswer)]
      ensures forall t :: t != sessionId ==> Database.History(db.rows, t) == old(Database.History(db.rows, t))
    {
      var initial := Initial(query, chatHistory);
      var sv := Services(llm, weather, Documents(rag.vectorstore, qsv));
      var run := Invoke(initial, sv);
      InvokeLabels(initial, sv);
      final := run.state;
      var pdf: Option<string> := None;
      if final.intent == Document && rag.vectorstore.Some? {
        pdf := rag.currentPdfName;
      }
      TurnPdfNamesStore(final.intent, rag.vectorstore, rag.currentPdfName);
      var before := db.rows;
      var row := Database.Row(sessionId, query, final.finalAnswer, final.intent, pdf, db.clock);
      db.InsertMessage(sessionId, query, final.finalAnswer, final.intent, pdf);
      Database.AppendRow(before, row, sessionId);
      Database.AppendRowOthers(before, row);
    }
  }
}
