# BlenderGPT conversation handling, modelled in Dafny

BlenderGPT is a Blender add-on. The user types a request into a panel. The add-on sends
the request and the recent chat history to a language model, records the exchange in the
scene's chat history and runs the returned Python snippet against the scene. This project
models the two parts of that flow that have a precise meaning:

- **Prompt assembly and the model client** (`utilities.py`, module `Utilities`).
  `GenerateMessageHistory` builds the prompt in a loop, as the source does. The prompt is a
  system message, then the last ten or fewer history entries in order, then one fixed
  instruction that embeds the task. Assistant entries are quoted inside a code fence. Other
  entries keep their content, and their role is their lower-cased type.
  `ModelResponse` is `get_model_response`. The HTTP round trip is a function parameter
  (`post`) from the JSON payload to a transport outcome. The client's answer depends only on
  that outcome.
- **Session bookkeeping of the operators** (`__init__.py`, module `Addon`). The class
  `Scene` holds the three scene properties: `history`, `input` and `busy`. Its methods are the
  `execute` methods of the send, clear-chat and delete-message operators.
  `Scene.Execute` is proved equal to the value-level transition `ExecuteStep`, and the
  source's promises are stated on `ExecuteStep`.
  `WellFormed` is the history invariant: the operators only ever create user entries and
  assistant entries with a non-empty reply. Every operator keeps it.

Calls into code the model cannot see are inputs:

- the preference key returned by `get_api_key`, and the `OPENAI_API_KEY` environment variable;
- the reply of `generate_blender_code`;
- whether `exec` of the snippet raises, and with what message.

`get_api_key` and `generate_blender_code` are defined in neither of the two files, so they
are not part of this model. As the two files are written, both names are unbound: calling
`get_api_key` raises `NameError`, which the `except ValueError` at __init__.py:154 does not
catch, and so would calling `generate_blender_code` at __init__.py:161, after `busy` is set,
leaving it set. The model assumes definitions of both exist outside these files.

The generator is a function of the typed message, the history and the system prompt. So the contract of `ExecuteStep` can say that the generator sees the
history as it was before the call, without the new user entry. A `None` from Python and the
empty string are both falsy there. Both are modelled as `""` for the reply, and as `None` or
`Some("")` for the keys.

Supporting modules: `Wrappers` (Option, Result) and `Strings` (lower-casing).

Some behaviours of the code worth knowing:

- A missing API key is not a failure value of the model client. `set_api_key` raises
  `ValueError`, and the send operator reports it and returns CANCELLED (`ExecuteStep`).
- The client returns plain strings, not tagged failures. A failed request gives
  `"Error: Request to model failed"`. Any other exception gives
  `"Error: Unexpected issue occurred"`. A reply without `"text"` gives
  `"No response from model"`.
- A failed request still produces an assistant entry: the client's failure texts are
  non-empty, and the operator appends and runs any non-empty reply (`FailureTextIsRecorded`).
- The `"openai"` branch of `get_model_response` uses the name `openai`, which `utilities.py`
  never imports. Evaluating that branch raises `NameError`, and the generic handler answers
  `"Error: Unexpected issue occurred"` whatever the transport would have done
  (`ModelResponse`).
- `model_params or {...}` also takes the defaults when the mapping is empty, not only when it
  is `None` (`EffectiveParams`, `DefaultPayload`).

## Model

| member | source | states |
|---|---|---|
| Strings.Lower | utilities.py:50 | lower-casing keeps the length and maps every character on its own, A–Z to a–z |
| Utilities.RecentEntries | utilities.py:46 | `chat_history[-10:]` is the suffix of length min(n, 10): the whole history when it has at most ten entries |
| Utilities.UnfencedFenced | utilities.py:48 | the code fence around an assistant entry can be stripped again to give back exactly its content |
| Utilities.FormatEntry | utilities.py:47-50 | an entry's role in the prompt is its lower-cased type; its content is unchanged exactly when its type is not "assistant"; an assistant entry's content is its own content inside the fence |
| Utilities.TaskOfInstruction | utilities.py:52 | the final message has role "user" and is the fixed prefix, the task and the fixed suffix: the task can be read back from it |
| Utilities.AppendEntry | utilities.py:47-50 | one pass of the loop appends exactly the prompt form of the entry (FormatEntry) and keeps the messages already built |
| Utilities.GenerateMessageHistory | utilities.py:44-53 | the prompt has min(n, 10) + 2 messages: first the system prompt with role "system"; then the last min(n, 10) history entries, formatted one by one, in their original order, with older ones dropped; last the instruction for the task |
| Utilities.LocalPayload | utilities.py:12-23 | the local request carries model "llama", the task, the history and the system prompt next to the parameters, and a parameter with the same name as a fixed key overrides that key |
| Utilities.EffectiveParams | utilities.py:12 | `model_params or {...}`: a missing or empty mapping gives the defaults, any other mapping is used as given |
| Utilities.DefaultPayload | utilities.py:12 | with no parameters or an empty mapping the request carries temperature 0.7, top_p 0.9 and the integer max_tokens 1500 next to the four fixed keys |
| Utilities.ModelResponse | utilities.py:10-42 | an unknown model type gives None; "openai" always gives the unexpected-error text; on the local backend a request failure gives "Error: Request to model failed", any other failure or a body that is not an object gives "Error: Unexpected issue occurred", and a reply gives its "text" or "No response from model" |
| Addon.SetApiKey | __init__.py:49-52 | a key is found exactly when the preference or the environment variable is a non-empty string; the preference wins; otherwise the fixed "API key not found" error |
| Addon.ExecuteBlenderCode | __init__.py:55-59 | the snippet passes exactly when `exec` raises nothing; a failure's message is "Error executing Blender code: " followed by the exception's text |
| Addon.ExecuteStep | __init__.py:149-182 | without a key: CANCELLED with the key error, scene unchanged; with a key: input becomes "", busy becomes false, the old history is kept as a prefix, one user entry with the old input is appended, then an assistant entry with the reply exactly when the reply is non-empty (growth 1 or 2); the generator is shown the input and history from before the call; CANCELLED exactly when a non-empty reply fails to run, with the wrapped error reported, and FINISHED with nothing reported otherwise |
| Addon.RemoveAt | __init__.py:70 | removing index i drops exactly that entry: one entry shorter, entries before i unchanged, entries after i shifted down by one, same multiset apart from the removed entry |
| Addon.ExecuteStepWellFormed | __init__.py:162-171 | sending a message adds only a user entry and a non-empty assistant entry, so a well-formed history stays well formed |
| Addon.RemoveAtWellFormed | __init__.py:69-71 | deleting an entry keeps a well-formed history well formed |
| Addon.PromptOfWellFormedHistory | utilities.py:47-50 | for a history built by the operators, every entry's role in the prompt is its type unchanged, and its content is unchanged exactly for user entries |
| Addon.FailureTextIsRecorded | __init__.py:168-171 | a failure text from the model client used as the reply is appended as an assistant entry right after the user entry |
| Addon.Scene.constructor | utilities.py:76-81 | a new scene starts with an empty history, an empty input and busy false |
| Addon.Scene.Execute | __init__.py:149-182 | the operator's new scene, status and report are those of ExecuteStep on the old scene, and it keeps the history well formed |
| Addon.Scene.ClearChat | __init__.py:137-139 | the history becomes empty, input and busy are unchanged, and the status is FINISHED |
| Addon.Scene.DeleteMessage | __init__.py:69-71 | an index inside the history removes exactly that entry and returns FINISHED; any other index leaves the history as it was, and the operator fails exactly when the collection's `remove` raises for it (an input); input and busy are unchanged |

## Left out

- The HTTP POST to the local server and the hosted chat-completion call (utilities.py:24-35): network I/O, modelled only as the transport outcome.
- Strings.Lower: maps only the ASCII letters A–Z, while Python's `str.lower()` also maps other Unicode letters.
- Utilities.ModelResponse: the server's `"text"` field is modelled as a string; a JSON value of another type returned in that field is not modelled. A body that cannot be decoded counts as a request failure, as in recent versions of the `requests` library.
- Payload values are modelled as strings, integers, floats and the history; other JSON values and the JSON serialisation of the history are not modelled.
- The logging calls in `get_model_response` (utilities.py:38, 41): output only.
- The Gradio interface and its `launch()` at import time (utilities.py:55-63): UI and server I/O.
- What `exec` does to the scene (__init__.py:57): foreign, unsandboxed code. Only whether it raises is kept, and the model assumes the snippet does not edit the chat-history properties.
- The assignment to the global `openai.api_key` in `set_api_key`: SetApiKey returns the chosen key instead.
- Exceptions raised by the code generator, and exceptions outside `Exception` (such as `KeyboardInterrupt`) raised by the snippet: the model assumes neither happens. In Python they would leave `busy` set.
- `self.report` is modelled as the returned report text; its severity and how Blender shows it are not modelled.
- Addon.Scene.DeleteMessage: what the collection's `remove` does with an index outside the collection is not in the source; it is an input (`removeRaises`), and the model assumes the history is unchanged either way. The kind and text of such an exception are not modelled.
- The panel `draw`, `GPT4_OT_ShowCode`, `split_area_to_text_editor`, `menu_func`, `register`/`unregister`, `clear_props` and the model-selection property: Blender UI glue.
- The redraw timer (__init__.py:159): a UI refresh with no effect on the modelled state.
- `configure_gpu` (__init__.py:41-46), which does nothing, and the `sys.path` set-up (__init__.py:13-15).
