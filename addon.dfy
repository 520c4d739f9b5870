/**
 * The session bookkeeping of the add-on's operators in __init__.py. The scene holds the
 * chat history, the text typed into the message field and the flag that makes the panel
 * show a wait label. Sending a message resolves the API key, asks the code generator for
 * a reply, records the exchange in the history and runs the reply as Blender code.
 */
module Addon {
  import opened Wrappers
  import opened Strings
  import opened Utilities

  /** The instructions given to the code generator with every request. */
  const SystemPrompt := "\nYou are an assistant made for the purposes of helping the user with Blender, the 3D software. \n"
    + "- Respond only with Python code wrapped in triple backticks (```).\n"
    + "- Focus on executing Python code with Blender-specific commands to modify meshes, create objects, and manage the scene.\n"
    + "- Avoid unnecessary imports, and minimize any destructive operations.\n"
    + "- Ensure code execution is as efficient as possible, making use of available hardware acceleration.\n"

  const ApiKeyMissingText := "API key not found. Please provide a valid OpenAI API key."
  const ExecErrorPrefix := "Error executing Blender code: "

  /** The value an operator's `execute` returns to Blender. */
  datatype Status = Finished | Cancelled

  /** Python truthiness of a string that may be `None`. */
  predicate Truthy(s: Option<string>) {
    s.Some? && s.value != ""
  }

  /**
   * `set_api_key`: the key stored in the add-on preferences, else the `OPENAI_API_KEY`
   * environment variable; a `ValueError` when neither is set to a non-empty string.
   */
  function SetApiKey(preference: Option<string>, environment: Option<string>): (r: Result<string, string>)
    ensures r.Ok? <==> Truthy(preference) || Truthy(environment)
    ensures r.Ok? ==> r.value != ""
    ensures r.Ok? && Truthy(preference) ==> r.value == preference.value
    ensures r.Ok? && !Truthy(preference) ==> r.value == environment.value
    ensures r.Err? ==> r.error == ApiKeyMissingText
  {
    var key := if Truthy(preference) then preference else environment;
    if Truthy(key) then Ok(key.value) else Err(ApiKeyMissingText)
  }

  /** The result of running a snippet: it finished, or it raised with the given message. */
  datatype Outcome = Pass | Fail(message: string)

  /**
   * `execute_blender_code`. `exec` stands for Python's `exec` of the snippet and gives the
   * text of the exception it raised, if any; every such exception is turned into one whose
   * message carries a fixed prefix.
   */
  function ExecuteBlenderCode(code: string, exec: string -> Option<string>): (o: Outcome)
    ensures o.Pass? <==> exec(code).None?
    ensures o.Fail? ==> |o.message| == |ExecErrorPrefix| + |exec(code).value|
    ensures o.Fail? ==> o.message[..|ExecErrorPrefix|] == ExecErrorPrefix
    ensures o.Fail? ==> o.message[|ExecErrorPrefix|..] == exec(code).value
  {
    match exec(code)
    case None => Pass
    case Some(e) => Fail(ExecErrorPrefix + e)
  }

  /** The three scene properties the operators read and write. */
  datatype SceneState = SceneState(history: seq<Entry>, input: string, busy: bool)

  /** What `GPT4_OT_Execute.execute` leaves behind: the new scene, its status and the error it reported. */
  datatype Run = Run(state: SceneState, status: Status, report: Option<string>)

  /** The code generator's reply ("" when it gives nothing), as a function of what it is shown. */
  type Generator = (string, seq<Entry>, string) -> string

  /**
   * `GPT4_OT_Execute.execute` on values. Without an API key it reports the error and
   * cancels, touching nothing. Otherwise it shows the generator the typed message and the
   * history as they were, appends the message as a user entry, clears the input, appends a
   * non-empty reply as an assistant entry and runs it; a failing run cancels, keeping both
   * entries. Every path after the key check clears the busy flag.
   */
  function ExecuteStep(s: SceneState, preference: Option<string>, environment: Option<string>,
                       generate: Generator, exec: string -> Option<string>): (r: Run)
    ensures !(Truthy(preference) || Truthy(environment)) ==> r == Run(s, Cancelled, Some(ApiKeyMissingText))
    ensures Truthy(preference) || Truthy(environment) ==>
      var reply := generate(s.input, s.history, SystemPrompt);
      && r.state.input == ""
      && !r.state.busy
      && |r.state.history| == |s.history| + (if reply != "" then 2 else 1)
      && r.state.history[..|s.history|] == s.history
      && r.state.history[|s.history|] == Entry("user", s.input)
      && (reply != "" ==> r.state.history[|s.history| + 1] == Entry("assistant", reply))
      && (r.status == Cancelled <==> reply != "" && exec(reply).Some?)
      && (r.status == Cancelled ==> r.report == Some(ExecuteBlenderCode(reply, exec).message))
      && (r.status == Finished ==> r.report == None)
  {
    match SetApiKey(preference, environment)
    case Err(e) => Run(s, Cancelled, Some(e))
    case Ok(_) =>
      var code := generate(s.input, s.history, SystemPrompt);
      var history := s.history + [Entry("user", s.input)];
      if code == "" then
        Run(SceneState(history, "", false), Finished, None)
      else
        var history' := history + [Entry("assistant", code)];
        match ExecuteBlenderCode(code, exec)
        case Fail(e) => Run(SceneState(history', "", false), Cancelled, Some(e))
        case Pass => Run(SceneState(history', "", false), Finished, None)
  }

  /** The history with the entry at `index` removed and the others kept in order. */
  function RemoveAt(history: seq<Entry>, index: nat): (r: seq<Entry>)
    requires index < |history|
    ensures |r| == |history| - 1
    ensures forall j :: 0 <= j < index ==> r[j] == history[j]
    ensures forall j :: index <= j < |r| ==> r[j] == history[j + 1]
    ensures multiset(r) + multiset{history[index]} == multiset(history)
  {
    assert history == history[..index] + [history[index]] + history[index + 1..];
    history[..index] + history[index + 1..]
  }

  /** The only entries the operators create: user entries, and assistant entries with a non-empty reply. */
  predicate WellFormed(history: seq<Entry>) {
    forall i :: 0 <= i < |history| ==>
      history[i].kind == "user" || (history[i].kind == "assistant" && history[i].content != "")
  }

  /** Sending a message keeps the history well formed. */
  lemma ExecuteStepWellFormed(s: SceneState, preference: Option<string>, environment: Option<string>,
                              generate: Generator, exec: string -> Option<string>)
    requires WellFormed(s.history)
    ensures WellFormed(ExecuteStep(s, preference, environment, generate, exec).state.history)
  {
  }

  /** Removing an entry keeps the history well formed. */
  lemma RemoveAtWellFormed(history: seq<Entry>, index: nat)
    requires WellFormed(history) && index < |history|
    ensures WellFormed(RemoveAt(history, index))
  {
  }

  /**
   * For a history the operators built, the prompt keeps each entry's type as its role
   * unchanged, and quotes exactly the assistant entries inside a code fence.
   */
  lemma PromptOfWellFormedHistory(history: seq<Entry>)
    requires WellFormed(history)
    ensures forall i :: 0 <= i < |history| ==> FormatEntry(history[i]).role == history[i].kind
    ensures forall i :: 0 <= i < |history| ==>
      (FormatEntry(history[i]).content == history[i].content <==> history[i].kind == "user")
  {
  }

  /**
   * If the generator hands back one of the model client's failure texts, that text is
   * non-empty, so it is recorded as an assistant entry right after the user entry and run.
   */
  lemma FailureTextIsRecorded(s: SceneState, preference: Option<string>, environment: Option<string>,
                              generate: Generator, exec: string -> Option<string>)
    requires Truthy(preference) || Truthy(environment)
    requires generate(s.input, s.history, SystemPrompt) in {RequestFailedText, UnexpectedText, NoResponseText}
    ensures var r := ExecuteStep(s, preference, environment, generate, exec);
      |r.state.history| == |s.history| + 2
      && r.state.history[|s.history| + 1] == Entry("assistant", generate(s.input, s.history, SystemPrompt))
  {
  }

  /** The operators over one scene. */
  class Scene {
    var history: seq<Entry>
    var input: string
    var busy: bool

    function State(): SceneState
      reads this
    {
      SceneState(history, input, busy)
    }

    /** The property defaults of `init_props`. */
    constructor ()
      ensures State() == SceneState([], "", false)
    {
      history, input, busy := [], "", false;
    }

    /** `GPT4_OT_Execute.execute`. */
    method Execute(preference: Option<string>, environment: Option<string>,
                   generate: Generator, exec: string -> Option<string>)
      returns (status: Status, report: Option<string>)
      modifies this
      ensures Run(State(), status, report) == ExecuteStep(old(State()), preference, environment, generate, exec)
      ensures WellFormed(old(history)) ==> WellFormed(history)
    {
      ghost var s := State();
      var key := SetApiKey(preference, environment);
      if key.Err? {
        return Cancelled, Some(key.error);
      }
      busy := true;
      var code := generate(input, history, SystemPrompt);
      history := history + [Entry("user", input)];
      input := "";
      if code != "" {
        history := history + [Entry("assistant", code)];
        var outcome := ExecuteBlenderCode(code, exec);
        if outcome.Fail? {
          busy := false;
          if WellFormed(s.history) { ExecuteStepWellFormed(s, preference, environment, generate, exec); }
          return Cancelled, Some(outcome.message);
        }
      }
      busy := false;
      if WellFormed(s.history) { ExecuteStepWellFormed(s, preference, environment, generate, exec); }
      return Finished, None;
    }

    /** `GPT4_OT_ClearChat.execute`: the history becomes empty; nothing else changes. */
    method ClearChat() returns (status: Status)
      modifies this
      ensures history == [] && input == old(input) && busy == old(busy)
      ensures status == Finished
    {
      history := [];
      return Finished;
    }

    /**
     * `GPT4_OT_DeleteMessage.execute`. An index inside the collection removes that entry and
     * the operator returns FINISHED. What the collection's `remove` does with any other index
     * is not visible in the source: `removeRaises` says whether it raises (the operator then
     * fails) or ignores the call (the operator then returns FINISHED). The history is left as
     * it was either way.
     */
    method DeleteMessage(messageIndex: int, removeRaises: bool) returns (r: Result<Status, string>)
      modifies this
      ensures 0 <= messageIndex < |old(history)| ==>
                r == Ok(Finished) && history == RemoveAt(old(history), messageIndex)
      ensures !(0 <= messageIndex < |old(history)|) ==>
                history == old(history) && (r.Err? <==> removeRaises) && (r.Ok? ==> r.value == Finished)
      ensures input == old(input) && busy == old(busy)
      ensures WellFormed(old(history)) ==> WellFormed(history)
    {
      if !(0 <= messageIndex < |history|) {
        if removeRaises {
          return Err("collection index out of range");
        }
        return Ok(Finished);
      }
      if WellFormed(history) { RemoveAtWellFormed(history, messageIndex); }
      history := RemoveAt(history, messageIndex);
      return Ok(Finished);
    }
  }
}
