# Agent output normaliser and session-history store

This project models the two pieces of the movie-recommender chat app's own logic
(`app.py`) that sit between the chat UI and the tool-calling agent:

- `ensure_string_output`, which runs on every answer the agent produces and makes
  the `'output'` entry of the agent's result dictionary one str. A str is left as
  it is. A list of content blocks becomes the in-order concatenation of the
  `'text'` of every dict block whose `'type'` is `'text'` and of every bare str
  item; every other item (tool-call blocks, numbers, None) is dropped. Any other
  value, including a missing entry, becomes its `str()`. The dictionary is
  updated in place and returned.
- `get_session_history`, the get-or-create lookup the message-history wrapper
  uses: it creates the per-UI-session store if there is none, inserts a fresh,
  empty `ChatMessageHistory` for an unknown session id, and returns the history
  stored under the id.

Layout:

- `py_values.dfy` (module `PyValues`): the Python values the normaliser sees
  (`None`, str, list, dict with str keys, any other object), `dict.get` and
  `str()`.
- `output_normaliser.dfy` (module `OutputNormaliser`): `Flatten`, the loop over
  a list output as a function of the items; `Concatenate`, the loop itself,
  proved equal to `Flatten`; `Normalise`, the whole call as a function from the
  old dictionary to the new one; the class `AgentResult`, whose
  `EnsureStringOutput` updates its `entries` map in place and is proved to
  produce `Normalise` of the old entries; lemmas on all of these.
- `session_store.dfy` (module `SessionStore`): `GetOrCreate`, the store
  transition as a function; the class `SessionState`, whose `store` field is
  absent until first use and whose `GetSessionHistory` method is proved to
  follow `GetOrCreate`; the class `ChatMessageHistory`.

Two behaviours of the code worth noting, which the model follows:

- Bare str items in a list output are kept, not only `'text'`-typed blocks
  (app.py:76-77).
- A `'text'`-typed block whose `'text'` entry is present but not a str (None, a
  number, a list) makes `concatenated_text += ...` raise TypeError
  (app.py:75). The model returns `Err(ConcatTypeError(operand))` for it, and
  the dictionary is left unchanged, since the write on app.py:78 comes after
  the loop. A `'text'`-typed block with no `'text'` entry adds the empty str.

## Model

| member | source | states |
|---|---|---|
| `OutputNormaliser.Flatten` | app.py:72-77 | the loop over a list output succeeds exactly when no `'text'`-typed block has a non-str text |
| `OutputNormaliser.Concatenate` | app.py:72-77 | the loop, building the text item by item and stopping at the TypeError, returns exactly `Flatten` of the items |
| `OutputNormaliser.FlattenAppend` | app.py:73-77 | running the loop over `xs + ys` is running it over `xs` and then over `ys`: the first error wins, otherwise the texts are joined |
| `OutputNormaliser.FlattenStopsAtError` | app.py:75 | once an item raises, the items after it do not change the outcome |
| `OutputNormaliser.FlattenIsConcatOfKept` | app.py:72-77 | when no item raises, the result is the in-order join of the text of each `'text'` block (empty when it has no `'text'` entry) and of each bare str, an independent head-first definition |
| `OutputNormaliser.FlattenFirstError` | app.py:74-75 | the error raised carries the text of the first block that raises |
| `OutputNormaliser.FlattenDropsOtherItems` | app.py:74-77 | an item that is neither a `'text'`-typed dict nor a str contributes nothing, wherever it stands in the list |
| `OutputNormaliser.FlattenExamples` | app.py:72-77 | two text blocks "A" and "B" give "AB"; a tool-call block between text and a bare str is dropped; a text block without text gives ""; an empty list gives "" |
| `OutputNormaliser.Normalise` | app.py:69-81 | on success 'output' is a str, the key set is the old one plus 'output', and no other entry changes; it fails exactly when 'output' is a list with an item that raises, with that loop's error |
| `OutputNormaliser.NormaliseOutput` | app.py:70-80 | a str output is left unchanged; a list output becomes the join of its kept texts; a missing output becomes "None"; any other output becomes its `str()` |
| `OutputNormaliser.NormaliseIdempotent` | app.py:70-81 | normalising an already normalised dictionary changes nothing |
| `OutputNormaliser.AgentResult.EnsureStringOutput` | app.py:69-81 | updates the dictionary in place to `Normalise` of its old entries and returns the same dictionary, or returns the TypeError and leaves the dictionary unchanged |
| `SessionStore.GetOrCreate` | app.py:63-67 | the returned history is the one stored under the id afterwards; the keys become the old keys plus the id; existing entries keep their histories; a hit changes nothing; a miss adds exactly one entry holding the new history |
| `SessionStore.GetOrCreateRepeat` | app.py:65-67 | a second lookup of the same id returns the same history and leaves the store unchanged |
| `SessionStore.GetOrCreateIndependent` | app.py:65-66 | lookups of two different ids return the same histories and the same store in either order |
| `SessionStore.ChatMessageHistory.constructor` | app.py:66 | a new history holds no turns |
| `SessionStore.SessionState.constructor` | app.py:63 | a new UI session has no store |
| `SessionStore.SessionState.GetSessionHistory` | app.py:62-67 | the store exists afterwards and follows `GetOrCreate`; on a hit the stored history object is returned and the store is untouched; on a miss the returned history is a fresh, empty object |
| `SessionStore.SessionState.ClearHistory` | app.py:37 | the store becomes empty |

## Left out

- Python's `str()` on objects other than None: a parameter `render` of the model, since what an object's `__str__` returns is not visible in this repository.
- Objects whose `__radd__` accepts being added to a str, str and list subclasses, and objects with a custom `__eq__` compared with `'text'`: the model treats every non-str text as raising TypeError and only the str `'text'` as equal to `'text'`.
- Dict keys other than str in content blocks and in the result dictionary: the model's dicts have str keys.
- The chat display list `st.session_state.messages`, which "Clear History" also empties (app.py:36), and everything else of the Streamlit UI: page setup, sidebar, widgets, reruns, rendering and avatars (app.py:22-36, 38-54, 114-137).
- `get_tools`, `initialize_agent` and the agent call (app.py:56-60, 83-112, 129-132): they only compose third-party LangChain, Gemini, DuckDuckGo and Wikipedia objects and remote calls; what the wrapper appends to a `ChatMessageHistory` is that library's behaviour.
- `cargar_css` (app.py:15-20): file I/O that ignores a missing stylesheet.
