# Chat with PDF: session bookkeeping

This is a model of the state the Chat-with-PDF page keeps for each browser session. The page is a script that the UI framework reruns from the top on every interaction. Across reruns it keeps:

- an ordered list of session ids;
- the active id, or none;
- four dictionaries keyed by session id: the uploaded files, the chat history, the answers and the questions.

The model covers its five operations and the rerun that composes them:

- starting a session;
- choosing a session in the sidebar;
- storing an upload;
- recording a question/answer exchange;
- rendering the conversation history newest first.

Two modules:

- `SessionState` (session_state.dfy) states every operation as a function on a `State` value. Beside the functions it has the invariants:
  - `WellFormed`: listed ids are unique and non-empty, the four dictionaries share one key set, the two logs of a session have equal length, and the active id has records.
  - `Tracked`: the ids with records are exactly the listed ids.
  - `HistoryMirrorsLogs`: each history interleaves that session's questions and answers.

  It also holds the lemmas that every run keeps these invariants and touches only its target session.
- `Registry` (registry.dfy) holds the class `SessionRegistry`. Its six fields are updated in place, one method per piece of the script. Each method is proved to leave the fields equal to the matching `SessionState` function of the old fields. `ConversationHistory` is the countdown loop of the transcript. `Rerun` is one whole run of the script.

The chain's reply is opaque. `ChainOutcome` is either a response with an `answer`, a response without one, or an exception. The API key is reduced to a boolean (`Step.hasApiKey`). The uploaded files are names and bytes.

Four behaviours of the code are easy to miss:

- Choosing a session never fails. The select box offers only listed ids, and the code creates records for a chosen id that has none in the files dictionary.
- One exception: the sidebar identifies its new-session entry by comparing the selected string with the label "➕ New Session". Starting a session with exactly that id is accepted, because the id is non-empty and not listed yet. But choosing that session later takes the new-session branch, so the page never switches to it. `Sidebar` mirrors this comparison, and `LabelSessionNeverSelectable` states it.
- The four writes of an exchange are not atomic in the code. A missing dictionary entry raises after the history was already extended, and the same `except` that catches chain failures swallows the error. `Record` models these partial writes. `RecordAllOrNothing` proves that, with the keys shared, the writes come all or none.
- The exchange is recorded only on a run that also has a non-empty upload. The chat part of the page sits inside `if uploaded_files:`, so a question is never handled on a run whose uploader is empty (`ChatNeedsKeyAndUpload`).
- Loading and indexing the uploaded files happen outside the `try` that guards the chain call. A failure there ends the run after the file list was stored: the question is not handled and no conversation history is rendered. This is `Step.ingestionFails` (`IngestionFailureEndsRun`).

## Model

| member | source | states |
|---|---|---|
| SessionState.Initialise | app.py:29-48 | a key already in the store keeps its value; a missing key gets its empty value (empty list, none, empty dictionaries) |
| SessionState.InitialiseUnset | app.py:29-48 | on a store that has never run the script, the guards give the empty state, and that state is consistent |
| SessionState.InitialiseKeeps | app.py:29-48 | on a store left by an earlier run, the guards change nothing, so a rerun does not wipe sessions |
| SessionState.ResetRecords | app.py:50-54 | the session gets no files, an empty history and empty answer and question logs; the list, the active id and every other session's records are unchanged |
| SessionState.Create | app.py:78-87 | an empty or already-listed id is rejected and the state is unchanged; otherwise the id is appended at the end of the list and made active, its four records are freshly initialised, and every other session keeps its records |
| SessionState.Select | app.py:88-93 | choosing the active id changes nothing; otherwise the id becomes active. If it already had records, all records are untouched; if not, it gets fresh records and no other session changes |
| SessionState.Upload | app.py:139-140 | an empty upload changes nothing; a non-empty one makes the session's file list exactly the uploaded list, replacing what was there, and changes no other record or session |
| SessionState.Record | app.py:235-258 | with no `answer` or an exception, nothing changes. With an answer, the history gains the question then the answer, the question log gains the question and the answer log the answer, each only as far as the dictionaries hold the id. Other sessions, the file lists, the list and the active id are untouched |
| SessionState.Interleave | app.py:243-248 | the interleaving of n questions and n answers has 2n messages |
| SessionState.NewestFirst | app.py:262-266 | the rendered history has one entry per question, and entry k pairs question n-1-k with answer n-1-k, so every index from newest to oldest appears exactly once |
| SessionState.InterleaveSnoc | app.py:243-248 | appending one question and one answer to the logs appends a Human message and then an Ai message to the mirrored history |
| SessionState.InterleaveAt | app.py:243-248 | in a mirrored history, message 2k is question k from the user and message 2k+1 is answer k from the model |
| SessionState.CreateKeepsWellFormed | app.py:81-84 | creating a session keeps ids unique and non-empty, the key sets shared and the logs aligned |
| SessionState.SidebarKeepsWellFormed | app.py:78-93 | every sidebar action (none, start or choose) keeps the well-formedness invariant |
| SessionState.RecordKeepsWellFormed | app.py:241-248 | recording an exchange keeps the key sets shared and the two logs of equal length |
| SessionState.PageRunKeepsWellFormed | app.py:78-248 | a whole run of the script keeps the well-formedness invariant |
| SessionState.RecordAllOrNothing | app.py:241-258 | when the key sets are shared, an answered question makes all four appends and the logs stay equal in length; without an answer, or for an id without records, the state is unchanged |
| SessionState.SelectListedKeepsRecords | app.py:72-92 | when every listed id has records, choosing a listed session only switches the active id and initialises nothing |
| SessionState.SelectRoundTrip | app.py:88-93 | switching to A, then B, then back to A leaves A's records exactly as they were |
| SessionState.PageRunIsolation | app.py:78-248 | a run never drops or reorders listed ids, and every session other than the one active after the run keeps its records |
| SessionState.SidebarIsolation | app.py:78-93 | the sidebar only appends to the list and only touches the session it makes active |
| SessionState.MainAreaIsolation | app.py:96-248 | the main area changes neither the list nor the active id and touches only the active session |
| SessionState.CreateKeepsConsistent | app.py:78-87 | creating a session keeps the full invariant, including the mirrored history of the new session |
| SessionState.SelectKeepsConsistent | app.py:88-93 | choosing a listed session keeps the full invariant |
| SessionState.UploadKeepsConsistent | app.py:139-140 | storing an upload for a session with records keeps the full invariant |
| SessionState.RecordKeepsConsistent | app.py:241-248 | recording an exchange keeps every history equal to the interleaving of its logs |
| SessionState.SidebarKeepsConsistent | app.py:78-93 | a sidebar action whose choice the select box offered keeps the full invariant |
| SessionState.MainAreaKeepsConsistent | app.py:96-248 | storing the upload and recording the exchange keep the full invariant |
| SessionState.PageRunKeepsConsistent | app.py:78-248 | a run whose sidebar choice the select box offered keeps the full invariant |
| SessionState.ChatNeedsKeyAndUpload | app.py:100-140 | without an API key or without files in the uploader, a run changes nothing beyond the sidebar's effect: no upload is stored and no exchange is recorded |
| SessionState.IngestionFailureEndsRun | app.py:139-168 | when loading or indexing the upload raises, the run ends with the file list stored and nothing else changed, and no conversation history is rendered |
| SessionState.LabelSessionNeverSelectable | app.py:74-92 | an id equal to the select box's "➕ New Session" label is accepted as a new session, yet choosing it in the select box leaves the state unchanged |
| SessionState.FirstQuestionScenario | app.py:78-266 | starting "s1", then uploading one file and asking one answered question, gives one entry in each log, a two-message history, the stored file list and that one exchange rendered |
| SessionState.ReplayKeepsConsistent | app.py:78-248 | any sequence of admissible runs keeps the full invariant |
| SessionState.ReachableConsistent | app.py:29-248 | every state reachable from a fresh store is consistent: unique ids, shared keys, aligned logs, mirrored histories, records exactly for listed ids |
| SessionState.ReplayExtendsSessions | app.py:81-82 | over any number of runs the session list only grows at its end |
| Registry.SessionRegistry.constructor | app.py:29-48 | the first run leaves the fields equal to the initialised empty store, which is consistent |
| Registry.SessionRegistry.ResetSessionStates | app.py:50-54 | the fields become `ResetRecords` of the old fields |
| Registry.SessionRegistry.StartSession | app.py:78-87 | returns whether the id was accepted (non-empty and not listed); the fields become `Create` of the old fields |
| Registry.SessionRegistry.SelectSession | app.py:88-93 | the fields become `Select` of the old fields |
| Registry.SessionRegistry.StoreUpload | app.py:139-140 | the fields become `Upload` of the old fields |
| Registry.SessionRegistry.RecordExchange | app.py:235-258 | returns whether all four appends were made; the fields become `Record` of the old fields |
| Registry.SessionRegistry.ConversationHistory | app.py:262-266 | the countdown loop returns one entry per question, entry k pairing question n-1-k with answer n-1-k, which equals `NewestFirst` of the logs |
| Registry.SessionRegistry.Rerun | app.py:78-266 | one run of the script leaves the fields equal to `PageRun` of the old fields and returns the conversation history the page renders |

`Sidebar`, `MainArea`, `PageRun`, `Replay` and `Shown` have no contract of their own. They compose the operations above, and the lemmas about them carry the properties.

## Left out

- Page layout, widgets, styling, spinners and the success, warning and error messages. These are rendering. The model keeps only the branches they sit in.
- Reading the API key from the text box and `load_dotenv`. These are credential plumbing. Whether a key is set is the parameter `Step.hasApiKey`.
- Writing each upload to a temporary file and loading it with the PDF loader. This is file I/O in a library. Whether loading or indexing raises is the input `Step.ingestionFails`, so the model does not say which files make it raise.
- Splitting into 1000-character chunks with 200 characters of overlap, embedding, the vector store and top-3 retrieval. These are library internals whose code is not part of this model.
- The prompts, chain construction and the call to the hosted model. The call's result is the `ChainOutcome` input.
- The chain's own history writes (`RunnableWithMessageHistory` adds the user and AI turns itself). Only the page's explicit appends reach the modelled history. So `HistoryMirrorsLogs` describes the model. It does not describe the live history object, which also receives whatever the chain writes.
- The sidebar's widget state. Which action a run performs is the input `Step.sidebar`. `Offered` records that the select box lists only known sessions.
