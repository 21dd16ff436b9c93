/**
 * The chat-model adapter `HfApiModel` without its network side: how it
 * normalises the messages it is given, how it sends them to the inference
 * client (retrying once without stop sequences), how it recognises an
 * agent-style system prompt, and the keyword rule by which it replaces a
 * reply that lacks the agent markers with a templated mission-plan call.
 * The inference client is a function from request to reply.
 */
module HfModel {
  import opened Wrappers
  import opened Text

  /**
   * A value found in a message dict: a `str`, or an object of some other
   * type, given by its type name and an identity that stands for the value
   * itself, so that two such values are equal exactly when both agree.
   */
  datatype Value = Str(s: string) | Other(typeName: string, identity: int)

  /** A message as a caller passes it: a dict with string keys. */
  type RawMessage = map<string, Value>

  /** A message as the adapter sends it: a dict with exactly the keys "role" and "content". */
  datatype ChatMessage = ChatMessage(role: Value, content: Value)

  /** The prompt argument of `__call__` and `generate`. */
  datatype Prompt =
    | PStr(text: string)
    | PDict(entries: RawMessage)
    | PList(items: seq<Prompt>)
    | POther(typeName: string)

  /** The keyword arguments of one `chat_completion` call; `stopSequences` is None when the key is absent. */
  datatype Request = Request(
    messages: seq<ChatMessage>,
    maxTokens: int,
    temperature: real,
    stopSequences: Option<seq<string>>)

  /** What one call of the inference client yields: the reply's content, or the text of the exception it raised. */
  datatype Reply = Completion(content: string) | Raised(error: string)

  /** The adapter's `Message`; its other attributes are the constants "", 0 and []. */
  datatype Message = Message(content: string)

  const DefaultModelId: string := "Qwen/Qwen2.5-Coder-32B-Instruct"
  const DefaultMaxTokens: int := 2096
  const DefaultTemperature: real := 0.5
  const ErrorPrefix: string := "Error generating response: "

  // ---------------------------------------------------------------------
  // Message normalisation

  /** One message as `_format_messages` rewrites it. */
  function Normalise(conversions: map<Value, Value>, msg: RawMessage): ChatMessage
  {
    var role := if "role" in msg then msg["role"] else Str("user");
    var content := if "content" in msg then msg["content"] else Str("");
    ChatMessage(if role in conversions then conversions[role] else role, content)
  }

  /** A normalised message read back as a dict. */
  function AsDict(m: ChatMessage): (d: RawMessage)
    ensures d.Keys == {"role", "content"}
  {
    map["role" := m.role, "content" := m.content]
  }

  /** No role is mapped to a role that is mapped on to something else. */
  predicate ConversionsSettle(conversions: map<Value, Value>)
  {
    forall r :: r in conversions && conversions[r] in conversions ==> conversions[conversions[r]] == conversions[r]
  }

  /**
   * Normalising a normalised message again changes nothing, provided the
   * conversions settle after one step.
   */
  lemma NormaliseIdempotent(conversions: map<Value, Value>, msg: RawMessage)
    requires ConversionsSettle(conversions)
    ensures Normalise(conversions, AsDict(Normalise(conversions, msg))) == Normalise(conversions, msg)
  {
    var role := if "role" in msg then msg["role"] else Str("user");
    if role in conversions {
      assert conversions[role] in conversions ==> conversions[conversions[role]] == conversions[role];
    }
  }

  /**
   * A message without a role is sent as a user message, and a role found in
   * the conversions (the defaulted "user" included) is replaced by its
   * mapping; a message without content is sent with the empty string.
   */
  lemma NormaliseDefaults(conversions: map<Value, Value>, msg: RawMessage)
    ensures "role" !in msg && Str("user") !in conversions ==> Normalise(conversions, msg).role == Str("user")
    ensures "role" !in msg && Str("user") in conversions ==> Normalise(conversions, msg).role == conversions[Str("user")]
    ensures "role" in msg && msg["role"] !in conversions ==> Normalise(conversions, msg).role == msg["role"]
    ensures "role" in msg && msg["role"] in conversions ==> Normalise(conversions, msg).role == conversions[msg["role"]]
    ensures "content" !in msg ==> Normalise(conversions, msg).content == Str("")
    ensures "content" in msg ==> Normalise(conversions, msg).content == msg["content"]
  {
  }

  // ---------------------------------------------------------------------
  // Agent-format detection and the first user message

  predicate HasAgentMarkers(s: string)
  {
    Contains(s, "Thought:") && Contains(s, "Code:") && Contains(s, "<end_code>")
  }

  /** A system message whose content is a string holding all three agent markers. */
  predicate IsAgentSystemMessage(m: ChatMessage)
  {
    m.role == Str("system") && m.content.Str? && HasAgentMarkers(m.content.s)
  }

  predicate IsAgentFormat(messages: seq<ChatMessage>)
  {
    exists i :: 0 <= i < |messages| && IsAgentSystemMessage(messages[i])
  }

  /** The detection loop of `_generate_chat_response`. */
  method DetectAgentFormat(messages: seq<ChatMessage>) returns (found: bool)
    ensures found == IsAgentFormat(messages)
  {
    found := false;
    var i := 0;
    while i < |messages|
      invariant 0 <= i <= |messages|
      invariant forall j :: 0 <= j < i ==> !IsAgentSystemMessage(messages[j])
    {
      var msg := messages[i];
      if msg.role == Str("system") && msg.content.Str? {
        var systemContent := msg.content.s;
        if Contains(systemContent, "Thought:") && Contains(systemContent, "Code:") && Contains(systemContent, "<end_code>") {
          found := true;
          break;
        }
      }
      i := i + 1;
    }
  }

  /** Message `i` is the first whose role is "user". */
  predicate FirstUserAt(messages: seq<ChatMessage>, i: int)
  {
    0 <= i < |messages| && messages[i].role == Str("user") &&
    forall j :: 0 <= j < i ==> messages[j].role != Str("user")
  }

  /** The content of the first message whose role is "user", or "" when there is none. */
  function FirstUserContent(messages: seq<ChatMessage>): (c: Value)
    ensures (forall i :: 0 <= i < |messages| ==> messages[i].role != Str("user")) ==> c == Str("")
    ensures forall i :: FirstUserAt(messages, i) ==> c == messages[i].content
  {
    if messages == [] then Str("")
    else if messages[0].role == Str("user") then messages[0].content
    else
      var rest := messages[1..];
      assert forall i :: 1 <= i < |messages| ==> rest[i - 1] == messages[i];
      assert forall i :: FirstUserAt(messages, i) ==> FirstUserAt(rest, i - 1);
      FirstUserContent(rest)
  }

  /** The search loop for the user message. */
  method FindUserContent(messages: seq<ChatMessage>) returns (userMessage: Value)
    ensures userMessage == FirstUserContent(messages)
  {
    userMessage := Str("");
    var i := 0;
    while i < |messages|
      invariant 0 <= i <= |messages|
      invariant forall j :: 0 <= j < i ==> messages[j].role != Str("user")
      invariant userMessage == Str("")
    {
      if messages[i].role == Str("user") {
        userMessage := messages[i].content;
        return;
      }
      i := i + 1;
    }
  }

  // ---------------------------------------------------------------------
  // Keyword routing and the templated reply

  datatype MissionType = Survey | Inspection | Delivery | Custom

  function MissionTypeName(t: MissionType): string
  {
    match t
    case Survey => "survey"
    case Inspection => "inspection"
    case Delivery => "delivery"
    case Custom => "custom"
  }

  /** The mission type and the duration in minutes chosen for a request. */
  datatype Intent = Intent(mission: MissionType, duration: nat)

  /** The router: the lower-cased user message is tested against four keywords in turn. */
  function Route(userMessage: string): Intent
  {
    var text := Lower(userMessage);
    if Contains(text, "survey") then Intent(Survey, 20)
    else if Contains(text, "inspect") then Intent(Inspection, 15)
    else if Contains(text, "delivery") then Intent(Delivery, 10)
    else if Contains(text, "square") then Intent(Survey, 10)
    else Intent(Custom, 15)
  }

  /** The router's rules as a table, in the order they are tried, and its fallback. */
  const RoutingRules: seq<(string, Intent)> := [
    ("survey", Intent(Survey, 20)),
    ("inspect", Intent(Inspection, 15)),
    ("delivery", Intent(Delivery, 10)),
    ("square", Intent(Survey, 10))
  ]
  const FallbackIntent: Intent := Intent(Custom, 15)

  /** Rule `i` is the first whose keyword occurs in `text`. */
  predicate FirstRuleAt(rules: seq<(string, Intent)>, text: string, i: int)
  {
    0 <= i < |rules| && Contains(text, rules[i].0) &&
    forall j :: 0 <= j < i ==> !Contains(text, rules[j].0)
  }

  /** A generic first-match-wins rule table: the first rule whose keyword occurs in `text` decides. */
  function FirstMatch(rules: seq<(string, Intent)>, text: string, fallback: Intent): (r: Intent)
    ensures (forall i :: 0 <= i < |rules| ==> !Contains(text, rules[i].0)) ==> r == fallback
    ensures forall i :: FirstRuleAt(rules, text, i) ==> r == rules[i].1
  {
    if rules == [] then fallback
    else if Contains(text, rules[0].0) then rules[0].1
    else
      var rest := rules[1..];
      assert forall i :: 1 <= i < |rules| ==> rest[i - 1] == rules[i];
      assert forall i :: FirstRuleAt(rules, text, i) ==> FirstRuleAt(rest, text, i - 1);
      FirstMatch(rest, text, fallback)
  }

  /** The router is the first-match table over the lower-cased message. */
  lemma RouteIsFirstMatch(userMessage: string)
    ensures Route(userMessage) == FirstMatch(RoutingRules, Lower(userMessage), FallbackIntent)
  {
    var text := Lower(userMessage);
    var rules := RoutingRules;
    var r := FirstMatch(rules, text, FallbackIntent);
    assert rules[0].0 == "survey" && rules[1].0 == "inspect";
    assert rules[2].0 == "delivery" && rules[3].0 == "square";
    if Contains(text, "survey") {
      assert r == rules[0].1;
    } else if Contains(text, "inspect") {
      assert r == rules[1].1;
    } else if Contains(text, "delivery") {
      assert r == rules[2].1;
    } else if Contains(text, "square") {
      assert r == rules[3].1;
    } else {
      assert forall i :: 0 <= i < |rules| ==> !Contains(text, rules[i].0);
    }
  }

  /** The router ignores letter case. */
  lemma RouteIgnoresCase(userMessage: string)
    ensures Route(Lower(userMessage)) == Route(userMessage)
  {
    LowerIdempotent(userMessage);
  }

  /** The call the templated reply asks the agent to run. */
  function PlanCall(intent: Intent): string
  {
    "generate_mission_plan(mission_type=\"" + MissionTypeName(intent.mission) +
    "\", duration_minutes=" + NatToString(intent.duration) + ")"
  }

  /** The shape of the templated reply: a thought, a code block around the call, the end marker. */
  function AgentLayout(thought: string, opening: string, call: string, closing: string): string
  {
    "Thought:" + thought + "Code:" + opening + call + closing + "<end_code>"
  }

  lemma AgentLayoutContents(thought: string, opening: string, call: string, closing: string)
    ensures HasAgentMarkers(AgentLayout(thought, opening, call, closing))
    ensures Contains(AgentLayout(thought, opening, call, closing), call)
  {
    var r := AgentLayout(thought, opening, call, closing);
    var rest := thought + "Code:" + opening + call + closing + "<end_code>";
    assert r == [] + "Thought:" + rest;
    ContainsMiddle([], "Thought:", rest);
    assert r == ("Thought:" + thought) + "Code:" + (opening + call + closing + "<end_code>");
    ContainsMiddle("Thought:" + thought, "Code:", opening + call + closing + "<end_code>");
    assert r == ("Thought:" + thought + "Code:" + opening) + call + (closing + "<end_code>");
    ContainsMiddle("Thought:" + thought + "Code:" + opening, call, closing + "<end_code>");
    assert r == ("Thought:" + thought + "Code:" + opening + call + closing) + "<end_code>" + [];
    ContainsMiddle("Thought:" + thought + "Code:" + opening + call + closing, "<end_code>", []);
  }

  /** The agent-style reply written when the model's own reply lacks the markers. */
  function AgentReply(intent: Intent): (r: string)
    ensures HasAgentMarkers(r)
    ensures Contains(r, PlanCall(intent))
  {
    var name := MissionTypeName(intent.mission);
    var minutes := NatToString(intent.duration);
    var thought := " I will create a " + name + " mission plan for " + minutes +
      " minutes and execute it on the simulator.\n";
    var opening := "\n```py\nmission_plan = ";
    var closing := "\nprint(f\"Generated mission plan: {mission_plan}\")\nfinal_answer(f\"I've created a " +
      name + " mission plan that will take approximately " + minutes +
      " minutes to execute. The plan includes waypoints for a square pattern around your current position.\")\n```";
    AgentLayoutContents(thought, opening, PlanCall(intent), closing);
    AgentLayout(thought, opening, PlanCall(intent), closing)
  }

  // ---------------------------------------------------------------------
  // Talking to the inference client

  /** `if stop_sequences:` — present and non-empty. */
  predicate Truthy(stop: Option<seq<string>>)
  {
    stop.Some? && stop.value != []
  }

  /** The requests sent to the client, in order, and the reply that counts. */
  datatype Exchange = Exchange(sent: seq<Request>, reply: Reply)

  /**
   * One completion: with stop sequences the request carries them, and if
   * that call fails it is sent once more without them.
   */
  function Complete(client: Request -> Reply, params: Request, stop: Option<seq<string>>): (x: Exchange)
    requires params.stopSequences.None?
    ensures 1 <= |x.sent| <= 2
    ensures x.sent[0] == if Truthy(stop) then params.(stopSequences := stop) else params
    ensures |x.sent| == 2 <==> Truthy(stop) && client(x.sent[0]).Raised?
    ensures |x.sent| == 2 ==> x.sent[1] == params
    ensures x.reply == client(x.sent[|x.sent| - 1])
  {
    if Truthy(stop) then
      var first := params.(stopSequences := stop);
      if client(first).Raised? then Exchange([first, params], client(params))
      else Exchange([first], client(first))
    else
      Exchange([params], client(params))
  }

  /** The text of the exception `.lower()` raises on a non-string. */
  function NoLowerError(typeName: string): string
  {
    "'" + typeName + "' object has no attribute 'lower'"
  }

  /** What becomes of the reply's content: kept, or replaced by the templated reply. */
  function FinishReply(messages: seq<ChatMessage>, content: string): Result<string, string>
  {
    if IsAgentFormat(messages) && !HasAgentMarkers(content) then
      match FirstUserContent(messages)
      case Str(u) => Ok(AgentReply(Route(u)))
      case Other(t, _) => Err(NoLowerError(t))
    else
      Ok(content)
  }

  /** `_generate_chat_response`: the reply's content, or the text of the exception it ends in. */
  function ChatResponse(
    client: Request -> Reply, messages: seq<ChatMessage>, maxTokens: int, temperature: real,
    stop: Option<seq<string>>): Result<string, string>
  {
    match Complete(client, Request(messages, maxTokens, temperature, None), stop).reply
    case Raised(e) => Err(e)
    case Completion(content) => FinishReply(messages, content)
  }

  /**
   * The completion's outcome decides the result: an exception comes back as
   * its own text, and a reply's content goes through the rewrite rule.
   */
  lemma ChatResponseOutcome(
    client: Request -> Reply, messages: seq<ChatMessage>, maxTokens: int, temperature: real,
    stop: Option<seq<string>>)
    ensures var x := Complete(client, Request(messages, maxTokens, temperature, None), stop);
      var r := ChatResponse(client, messages, maxTokens, temperature, stop);
      && (x.reply.Raised? ==> r == Err(x.reply.error))
      && (x.reply.Completion? ==> r == FinishReply(messages, x.reply.content))
  {
  }

  /** Without an agent-style system prompt, or when the reply already has the markers, the reply is passed on as it is. */
  lemma ReplyKeptUnlessNeeded(
    client: Request -> Reply, messages: seq<ChatMessage>, maxTokens: int, temperature: real,
    stop: Option<seq<string>>)
    ensures var x := Complete(client, Request(messages, maxTokens, temperature, None), stop);
      x.reply.Completion? && (!IsAgentFormat(messages) || HasAgentMarkers(x.reply.content)) ==>
        ChatResponse(client, messages, maxTokens, temperature, stop) == Ok(x.reply.content)
  {
  }

  /** With an agent-style system prompt, every reply that gets through carries all three markers. */
  lemma AgentRepliesHaveMarkers(
    client: Request -> Reply, messages: seq<ChatMessage>, maxTokens: int, temperature: real,
    stop: Option<seq<string>>)
    requires IsAgentFormat(messages)
    ensures var r := ChatResponse(client, messages, maxTokens, temperature, stop);
      r.Ok? ==> HasAgentMarkers(r.value)
  {
  }

  /** A rewritten reply is the template for the intent the router picked from the first user message. */
  lemma RewriteUsesFirstUserMessage(
    client: Request -> Reply, messages: seq<ChatMessage>, maxTokens: int, temperature: real,
    stop: Option<seq<string>>)
    requires IsAgentFormat(messages) && FirstUserContent(messages).Str?
    ensures var x := Complete(client, Request(messages, maxTokens, temperature, None), stop);
      var r := ChatResponse(client, messages, maxTokens, temperature, stop);
      var intent := Route(FirstUserContent(messages).s);
      x.reply.Completion? && !HasAgentMarkers(x.reply.content) ==>
        r == Ok(AgentReply(intent)) && Contains(r.value, PlanCall(intent))
  {
  }

  /** A model that already answers with a templated reply is passed on unchanged: the rewrite is stable. */
  lemma TemplatedReplyStable(
    client: Request -> Reply, messages: seq<ChatMessage>, maxTokens: int, temperature: real,
    stop: Option<seq<string>>, intent: Intent)
    requires Complete(client, Request(messages, maxTokens, temperature, None), stop).reply == Completion(AgentReply(intent))
    ensures ChatResponse(client, messages, maxTokens, temperature, stop) == Ok(AgentReply(intent))
  {
    assert HasAgentMarkers(AgentReply(intent));
  }

  // ---------------------------------------------------------------------
  // Prompt dispatch

  /** A list whose elements are all dicts is a chat; anything else is text. */
  predicate IsChatList(p: Prompt)
  {
    p.PList? && forall i :: 0 <= i < |p.items| ==> p.items[i].PDict?
  }

  function ChatDicts(p: Prompt): seq<RawMessage>
    requires IsChatList(p)
  {
    seq(|p.items|, i requires 0 <= i < |p.items| => p.items[i].entries)
  }

  /** `str(prompt)`; `render` stands for Python's rendering of a non-string object. */
  function PromptText(p: Prompt, render: Prompt -> string): string
  {
    if p.PStr? then p.text else render(p)
  }

  /** The messages a prompt is sent as. */
  function PromptMessages(conversions: map<Value, Value>, render: Prompt -> string, p: Prompt): seq<ChatMessage>
  {
    if IsChatList(p) then
      var dicts := ChatDicts(p);
      seq(|dicts|, i requires 0 <= i < |dicts| => Normalise(conversions, dicts[i]))
    else
      [ChatMessage(Str("user"), Str(PromptText(p, render)))]
  }

  /** What `__call__` and `generate` return for a prompt, given the settings in force. */
  function Respond(
    client: Request -> Reply, render: Prompt -> string, conversions: map<Value, Value>,
    maxTokens: int, temperature: real, p: Prompt, stop: Option<seq<string>>): Message
  {
    match ChatResponse(client, PromptMessages(conversions, render, p), maxTokens, temperature, stop)
    case Ok(content) => Message(content)
    case Err(e) => Message(ErrorPrefix + e)
  }

  /**
   * Dispatch: a chat list is sent message by message, normalised and in order;
   * any other prompt is sent as its text in one user message; the request
   * carries the settings in force; a failure comes back as a Message holding
   * the error prefix followed by the exception's text.
   */
  lemma DispatchShape(
    client: Request -> Reply, render: Prompt -> string, conversions: map<Value, Value>,
    maxTokens: int, temperature: real, p: Prompt, stop: Option<seq<string>>)
    ensures var msgs := PromptMessages(conversions, render, p);
      var first := Complete(client, Request(msgs, maxTokens, temperature, None), stop).sent[0];
      && first.maxTokens == maxTokens && first.temperature == temperature
      && (IsChatList(p) ==>
            && |first.messages| == |p.items|
            && forall i :: 0 <= i < |p.items| ==> first.messages[i] == Normalise(conversions, p.items[i].entries))
      && (!IsChatList(p) ==> first.messages == [ChatMessage(Str("user"), Str(PromptText(p, render)))])
      && (p.PStr? ==> first.messages == [ChatMessage(Str("user"), Str(p.text))])
    ensures var r := ChatResponse(client, PromptMessages(conversions, render, p), maxTokens, temperature, stop);
      var m := Respond(client, render, conversions, maxTokens, temperature, p, stop);
      && (r.Ok? ==> m.content == r.value)
      && (r.Err? ==> m.content == ErrorPrefix + r.error)
  {
  }

  // ---------------------------------------------------------------------
  // The adapter object

  class HfApiModel {
    const modelId: string
    var maxTokens: int
    var temperature: real
    const roleConversions: map<Value, Value>

    /** `custom_role_conversions or {}`: no map, or an empty one, leaves no conversions. */
    constructor (
      modelId: string := DefaultModelId, maxTokens: int := DefaultMaxTokens,
      temperature: real := DefaultTemperature, customRoleConversions: Option<map<Value, Value>> := None)
      ensures this.modelId == modelId && this.maxTokens == maxTokens && this.temperature == temperature
      ensures roleConversions == if customRoleConversions.Some? then customRoleConversions.value else map[]
    {
      this.modelId := modelId;
      this.maxTokens := maxTokens;
      this.temperature := temperature;
      this.roleConversions := if customRoleConversions.Some? && customRoleConversions.value != map[]
        then customRoleConversions.value else map[];
    }

    /** `_format_messages`: one normalised message per input message, in the same order. */
    method FormatMessages(messages: seq<RawMessage>) returns (formatted: seq<ChatMessage>)
      ensures |formatted| == |messages|
      ensures forall i :: 0 <= i < |messages| ==> formatted[i] == Normalise(roleConversions, messages[i])
    {
      formatted := [];
      for i := 0 to |messages|
        invariant |formatted| == i
        invariant forall j :: 0 <= j < i ==> formatted[j] == Normalise(roleConversions, messages[j])
      {
        var msg := messages[i];
        var role := if "role" in msg then msg["role"] else Str("user");
        var content := if "content" in msg then msg["content"] else Str("");
        if role in roleConversions {
          role := roleConversions[role];
        }
        formatted := formatted + [ChatMessage(role, content)];
      }
    }

    /** `_generate_chat_response`, with the settings the object holds now. */
    method GenerateChatResponse(messages: seq<ChatMessage>, stopSequences: Option<seq<string>>, client: Request -> Reply)
      returns (r: Result<string, string>)
      ensures r == ChatResponse(client, messages, maxTokens, temperature, stopSequences)
    {
      var params := Request(messages, maxTokens, temperature, None);
      var reply: Reply;
      if Truthy(stopSequences) {
        reply := client(params.(stopSequences := stopSequences));
        if reply.Raised? {
          reply := client(params);
        }
      } else {
        reply := client(params);
      }
      assert reply == Complete(client, params, stopSequences).reply;
      ghost var spec := ChatResponse(client, messages, maxTokens, temperature, stopSequences);
      assert reply.Raised? ==> spec == Err(reply.error);
      assert reply.Completion? ==> spec == FinishReply(messages, reply.content);
      if reply.Raised? {
        return Err(reply.error);
      }
      var content := reply.content;
      var isAgentFormat := DetectAgentFormat(messages);
      if isAgentFormat && !HasAgentMarkers(content) {
        var userMessage := FindUserContent(messages);
        if userMessage.Other? {
          r := Err(NoLowerError(userMessage.typeName));
          assert r == FinishReply(messages, content);
          assert r == spec;
          return;
        }
        r := Ok(AgentReply(Route(userMessage.s)));
        assert r == FinishReply(messages, content);
        assert r == spec;
        return;
      }
      r := Ok(content);
      assert r == FinishReply(messages, content);
    }

    /** `_generate_text_response`: the text goes out as a single user message. */
    method GenerateTextResponse(prompt: string, stopSequences: Option<seq<string>>, client: Request -> Reply)
      returns (r: Result<string, string>)
      ensures r == ChatResponse(client, [ChatMessage(Str("user"), Str(prompt))], maxTokens, temperature, stopSequences)
    {
      r := GenerateChatResponse([ChatMessage(Str("user"), Str(prompt))], stopSequences, client);
    }

    /** The dispatch shared by `__call__` and `generate`, with the error turned into a Message. */
    method Dispatch(p: Prompt, stopSequences: Option<seq<string>>, client: Request -> Reply, render: Prompt -> string)
      returns (m: Message)
      ensures m == Respond(client, render, roleConversions, maxTokens, temperature, p, stopSequences)
    {
      var r: Result<string, string>;
      if p.PDict? || p.PList? {
        if IsChatList(p) {
          var messages := FormatMessages(ChatDicts(p));
          assert messages == PromptMessages(roleConversions, render, p);
          r := GenerateChatResponse(messages, stopSequences, client);
        } else {
          r := GenerateTextResponse(render(p), stopSequences, client);
        }
      } else {
        r := GenerateTextResponse(PromptText(p, render), stopSequences, client);
      }
      m := if r.Ok? then Message(r.value) else Message(ErrorPrefix + r.error);
    }

    /** `__call__`: no stop sequences, the object's own settings. */
    method Call(p: Prompt, client: Request -> Reply, render: Prompt -> string) returns (m: Message)
      ensures m == Respond(client, render, roleConversions, maxTokens, temperature, p, None)
    {
      m := Dispatch(p, None, client, render);
    }

    /**
     * `generate`: an override given for `max_tokens` or `temperature` is in
     * force for this one call, and the object's settings are restored after it.
     */
    method Generate(
      p: Prompt, stopSequences: Option<seq<string>>, seed: Option<int>,
      maxTokensOverride: Option<int>, temperatureOverride: Option<real>,
      client: Request -> Reply, render: Prompt -> string)
      returns (m: Message)
      modifies this
      ensures maxTokens == old(maxTokens) && temperature == old(temperature)
      ensures m == Respond(client, render, roleConversions,
        if maxTokensOverride.Some? then maxTokensOverride.value else old(maxTokens),
        if temperatureOverride.Some? then temperatureOverride.value else old(temperature),
        p, stopSequences)
    {
      var oldMaxTokens := maxTokens;
      var oldTemperature := temperature;
      if maxTokensOverride.Some? {
        maxTokens := maxTokensOverride.value;
      }
      if temperatureOverride.Some? {
        temperature := temperatureOverride.value;
      }
      m := Dispatch(p, stopSequences, client, render);
      if maxTokensOverride.Some? {
        maxTokens := oldMaxTokens;
      }
      if temperatureOverride.Some? {
        temperature := oldTemperature;
      }
    }
  }
}
