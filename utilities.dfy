/**
 * The model client of utilities.py: assembling the chat-completion prompt from the
 * recent chat history (`generate_message_history`) and turning the outcome of a
 * request into the text handed back to the add-on (`get_model_response`).
 */
module Utilities {
  import opened Wrappers
  import opened Strings

  /** An item of the chat history, with its `type` and `content` string properties. */
  datatype Entry = Entry(kind: string, content: string)

  /** One message of the assembled prompt, with its `role` and `content` keys. */
  datatype Message = Message(role: string, content: string)

  /** How many of the most recent history entries the prompt carries. */
  const HistoryWindow: nat := 10

  const FenceOpen := "```\n"
  const FenceClose := "\n```"

  const InstructionPrefix := "Can you please write Blender code for me that accomplishes the following task: "
  const InstructionSuffix := "? \n. Do not respond with anything that is not Python code. Do not provide explanations"

  function Min(a: nat, b: nat): nat {
    if a <= b then a else b
  }

  /** Python's `chat_history[-10:]`: the most recent entries, all of them when there are fewer. */
  function RecentEntries(history: seq<Entry>): (recent: seq<Entry>)
    ensures |recent| == Min(|history|, HistoryWindow)
    ensures recent == history[|history| - |recent|..]
    ensures |history| <= HistoryWindow ==> recent == history
  {
    if |history| <= HistoryWindow then history else history[|history| - HistoryWindow..]
  }

  /** An assistant reply as the prompt quotes it: inside a code fence. */
  function Fenced(code: string): string {
    FenceOpen + code + FenceClose
  }

  /** The inverse of Fenced: the text between an opening and a closing fence, if the string has both. */
  function Unfenced(s: string): Option<string> {
    if |s| >= |FenceOpen| + |FenceClose| && s[..|FenceOpen|] == FenceOpen && s[|s| - |FenceClose|..] == FenceClose
    then Some(s[|FenceOpen|..|s| - |FenceClose|])
    else None
  }

  lemma UnfencedFenced(code: string)
    ensures Unfenced(Fenced(code)) == Some(code)
  {
  }

  /**
   * How one history entry appears in the prompt: an entry of type exactly "assistant"
   * is fenced, any other keeps its content and has its type lower-cased as its role.
   */
  function FormatEntry(e: Entry): (m: Message)
    ensures m.role == Lower(e.kind)
    ensures m.content == e.content <==> e.kind != "assistant"
    ensures e.kind == "assistant" ==> Unfenced(m.content) == Some(e.content)
  {
    if e.kind == "assistant" then
      Message("assistant", Fenced(e.content))
    else
      Message(Lower(e.kind), e.content)
  }

  /** The final user message, which embeds the task. */
  function Instruction(prompt: string): Message {
    Message("user", InstructionPrefix + prompt + InstructionSuffix)
  }

  /** Recovers the task from the content of an instruction message. */
  function TaskOf(content: string): Option<string> {
    if |content| >= |InstructionPrefix| + |InstructionSuffix|
       && content[..|InstructionPrefix|] == InstructionPrefix
       && content[|content| - |InstructionSuffix|..] == InstructionSuffix
    then Some(content[|InstructionPrefix|..|content| - |InstructionSuffix|])
    else None
  }

  /** The instruction determines its task: distinct tasks give distinct final messages. */
  lemma TaskOfInstruction(prompt: string)
    ensures Instruction(prompt).role == "user"
    ensures TaskOf(Instruction(prompt).content) == Some(prompt)
  {
  }

  /** One step of the loop of `generate_message_history`: appends the prompt form of `message`. */
  method AppendEntry(messages: seq<Message>, message: Entry) returns (extended: seq<Message>)
    ensures extended == messages + [FormatEntry(message)]
  {
    if message.kind == "assistant" {
      extended := messages + [Message("assistant", Fenced(message.content))];
    } else {
      extended := messages + [Message(Lower(message.kind), message.content)];
    }
  }

  /**
   * `generate_message_history`: the system message, then the last (at most ten) history
   * entries in their original order, formatted one by one, then the instruction.
   */
  method GenerateMessageHistory(history: seq<Entry>, systemPrompt: string, prompt: string)
    returns (messages: seq<Message>)
    ensures |messages| == Min(|history|, HistoryWindow) + 2
    ensures messages[0] == Message("system", systemPrompt)
    ensures forall i :: 1 <= i < |messages| - 1 ==>
              messages[i] == FormatEntry(history[|history| - Min(|history|, HistoryWindow) + i - 1])
    ensures messages[|messages| - 1] == Instruction(prompt)
  {
    messages := [Message("system", systemPrompt)];
    var recent := RecentEntries(history);
    for i := 0 to |recent|
      invariant |messages| == i + 1
      invariant messages[0] == Message("system", systemPrompt)
      invariant forall j :: 1 <= j <= i ==> messages[j] == FormatEntry(recent[j - 1])
    {
      messages := AppendEntry(messages, recent[i]);
    }
    messages := messages + [Instruction(prompt)];
  }

  /** A value of the JSON payload posted to the local model server. */
  datatype Value = Str(s: string) | Int(n: int) | Float(x: real) | Entries(entries: seq<Entry>)

  type Payload = map<string, Value>

  /** The decoded body of the local server's reply: a JSON object, or any other JSON value. */
  datatype Body = Object(fields: map<string, string>) | NotObject

  /**
   * What the `requests` call produced: a reply with a decoded body, a failure the library
   * classifies as a `RequestException` (no connection, an error status raised by
   * `raise_for_status`), or any other exception.
   */
  datatype Transport = Replied(body: Body) | RequestFailed | OtherFailure

  const DefaultParams: map<string, Value> := map["temperature" := Float(0.7), "top_p" := Float(0.9), "max_tokens" := Int(1500)]

  const NoResponseText := "No response from model"
  const RequestFailedText := "Error: Request to model failed"
  const UnexpectedText := "Error: Unexpected issue occurred"

  /** `model_params or {...}`: both a missing and an empty mapping give the defaults. */
  function EffectiveParams(params: Option<map<string, Value>>): (r: map<string, Value>)
    ensures params.None? || params == Some(map[]) ==> r == DefaultParams
    ensures params.Some? && params.value != map[] ==> r == params.value
  {
    if params.None? || params.value == map[] then DefaultParams else params.value
  }

  /** The JSON body of the local request: four fixed keys, then the parameters, which win on a clash. */
  function LocalPayload(prompt: string, history: seq<Entry>, systemPrompt: string, params: Option<map<string, Value>>)
    : (p: Payload)
    ensures p.Keys == {"model", "prompt", "chat_history", "system_prompt"} + EffectiveParams(params).Keys
    ensures forall k :: k in EffectiveParams(params) ==> p[k] == EffectiveParams(params)[k]
    ensures "model" !in EffectiveParams(params) ==> p["model"] == Str("llama")
    ensures "prompt" !in EffectiveParams(params) ==> p["prompt"] == Str(prompt)
    ensures "chat_history" !in EffectiveParams(params) ==> p["chat_history"] == Entries(history)
    ensures "system_prompt" !in EffectiveParams(params) ==> p["system_prompt"] == Str(systemPrompt)
  {
    var ps := EffectiveParams(params);
    map["model" := Str("llama"), "prompt" := Str(prompt), "chat_history" := Entries(history),
        "system_prompt" := Str(systemPrompt)]
      + ps
  }

  /** Without parameters, or with an empty mapping, the request carries the default sampling settings next to the task. */
  lemma DefaultPayload(prompt: string, history: seq<Entry>, systemPrompt: string, params: Option<map<string, Value>>)
    requires params.None? || params == Some(map[])
    ensures var p := LocalPayload(prompt, history, systemPrompt, params);
      p.Keys == {"model", "prompt", "chat_history", "system_prompt", "temperature", "top_p", "max_tokens"}
      && p["temperature"] == Float(0.7) && p["top_p"] == Float(0.9) && p["max_tokens"] == Int(1500)
      && p["model"] == Str("llama") && p["prompt"] == Str(prompt)
      && p["chat_history"] == Entries(history) && p["system_prompt"] == Str(systemPrompt)
  {
  }

  /**
   * `get_model_response`, with the HTTP round trip given as `post`. An unknown model type
   * falls through every branch and yields `None`. The "openai" branch names a module that
   * utilities.py never imports, so evaluating it raises and the generic handler answers.
   * On the local branch the reply's "text" is returned, a fixed fallback when it has none,
   * and a fixed error text for each kind of failure; nothing is raised past this function.
   */
  function ModelResponse(prompt: string, modelType: string, history: seq<Entry>, systemPrompt: string,
                         params: Option<map<string, Value>>, post: Payload -> Transport): (r: Option<string>)
    ensures r.None? <==> modelType != "local" && modelType != "openai"
    ensures modelType == "openai" ==> r == Some(UnexpectedText)
    ensures modelType == "local" ==>
      var t := post(LocalPayload(prompt, history, systemPrompt, params));
      && (t.RequestFailed? ==> r == Some(RequestFailedText))
      && (t.OtherFailure? || t == Replied(NotObject) ==> r == Some(UnexpectedText))
      && (t.Replied? && t.body.Object? && "text" in t.body.fields ==> r == Some(t.body.fields["text"]))
      && (t.Replied? && t.body.Object? && "text" !in t.body.fields ==> r == Some(NoResponseText))
  {
    if modelType == "local" then
      match post(LocalPayload(prompt, history, systemPrompt, params))
      case RequestFailed => Some(RequestFailedText)
      case OtherFailure => Some(UnexpectedText)
      case Replied(NotObject) => Some(UnexpectedText)
      case Replied(Object(fields)) => Some(if "text" in fields then fields["text"] else NoResponseText)
    else if modelType == "openai" then
      Some(UnexpectedText)
    else
      None
  }
}
