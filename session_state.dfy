/**
 * The per-session bookkeeping of the Chat-with-PDF page, as values.
 *
 * The page keeps, across reruns of its script, an ordered list of session
 * ids, the active id, and four dictionaries keyed by session id: the uploaded
 * files, the chat history, the answers and the questions. This module states
 * each operation on that store as a function on a `State` value, together
 * with the invariants the operations keep. The class in module `Registry`
 * performs the same operations in place and is proved against these
 * functions.
 */
module SessionState {

  type SessionId = string

  datatype Option<T> = None | Some(value: T)

  /** A file handed over by the upload widget: its name and its bytes. */
  datatype UploadedFile = UploadedFile(name: string, bytes: seq<bv8>)

  datatype Role = Human | Ai

  /** One entry of a chat history: who spoke, and what was said. */
  datatype Message = Message(role: Role, text: string)

  /**
   * What the conversational chain gave back for one question, as far as the
   * page can tell: a response with an `answer` entry, a response without
   * one, or an exception.
   */
  datatype ChainOutcome = Answered(answer: string) | NoAnswerKey | Raised

  /** One question/answer pair of the rendered conversation history. */
  datatype Exchange = Exchange(question: string, answer: string)

  /**
   * The session store. `files[id] == None` is the value the page stores for
   * a session that has not uploaded anything yet.
   */
  datatype State = State(
    sessions: seq<SessionId>,
    active: Option<SessionId>,
    files: map<SessionId, Option<seq<UploadedFile>>>,
    histories: map<SessionId, seq<Message>>,
    responses: map<SessionId, seq<string>>,
    inputs: map<SessionId, seq<string>>)

  /**
   * The framework's session store before the script's initialisation
   * guards run: each of the six keys may be missing.
   */
  datatype Store = Store(
    sessions: Option<seq<SessionId>>,
    active: Option<Option<SessionId>>,
    files: Option<map<SessionId, Option<seq<UploadedFile>>>>,
    histories: Option<map<SessionId, seq<Message>>>,
    responses: Option<map<SessionId, seq<string>>>,
    inputs: Option<map<SessionId, seq<string>>>)

  /** The store of a browser session that has never run the script. */
  function Unset(): (st: Store) {
    Store(None, None, None, None, None, None)
  }

  /** The store as it stands after a run that left `s` behind. */
  function Stored(s: State): (st: Store) {
    Store(Some(s.sessions), Some(s.active), Some(s.files), Some(s.histories), Some(s.responses), Some(s.inputs))
  }

  function OrElse<T>(o: Option<T>, default: T): (v: T) {
    match o
    case Some(v) => v
    case None => default
  }

  /** The guards at the top of the script: each missing key gets its empty value. */
  function Initialise(st: Store): (s: State)
    ensures st.sessions.Some? ==> s.sessions == st.sessions.value
    ensures st.active.Some? ==> s.active == st.active.value
    ensures st.files.Some? ==> s.files == st.files.value
    ensures st.histories.Some? ==> s.histories == st.histories.value
    ensures st.responses.Some? ==> s.responses == st.responses.value
    ensures st.inputs.Some? ==> s.inputs == st.inputs.value
    ensures st.sessions.None? ==> s.sessions == []
    ensures st.active.None? ==> s.active == None
    ensures st.files.None? ==> s.files == map[]
    ensures st.histories.None? ==> s.histories == map[]
    ensures st.responses.None? ==> s.responses == map[]
    ensures st.inputs.None? ==> s.inputs == map[]
  {
    State(OrElse(st.sessions, []), OrElse(st.active, None), OrElse(st.files, map[]),
          OrElse(st.histories, map[]), OrElse(st.responses, map[]), OrElse(st.inputs, map[]))
  }

  // ---------------------------------------------------------------------------
  // Invariants
  // ---------------------------------------------------------------------------

  ghost predicate NoDuplicates(ids: seq<SessionId>) {
    forall i, j :: 0 <= i < j < |ids| ==> ids[i] != ids[j]
  }

  /**
   * The shape every operation keeps: listed ids are unique and non-empty,
   * the four dictionaries share one key set, the two logs of a session have
   * equal length, and the active id (if any) has records.
   */
  ghost predicate WellFormed(s: State) {
    && NoDuplicates(s.sessions)
    && (forall i :: 0 <= i < |s.sessions| ==> s.sessions[i] != "")
    && s.histories.Keys == s.files.Keys
    && s.responses.Keys == s.files.Keys
    && s.inputs.Keys == s.files.Keys
    && (forall id :: id in s.inputs ==> |s.inputs[id]| == |s.responses[id]|)
    && (s.active.Some? ==> s.active.value in s.files)
  }

  /** The ids with records are exactly the listed ids. */
  ghost predicate Tracked(s: State) {
    forall id :: id in s.files <==> id in s.sessions
  }

  /**
   * The chat history of a session alternates question and answer:
   * `history == [Human q0, Ai a0, Human q1, Ai a1, ...]`.
   */
  function Interleave(questions: seq<string>, answers: seq<string>): (h: seq<Message>)
    requires |questions| == |answers|
    ensures |h| == 2 * |questions|
    decreases |questions|
  {
    if |questions| == 0 then []
    else
      var n := |questions| - 1;
      Interleave(questions[..n], answers[..n]) + [Message(Human, questions[n]), Message(Ai, answers[n])]
  }

  /** Each session's history is the interleaving of its two logs. */
  ghost predicate HistoryMirrorsLogs(s: State) {
    forall id :: id in s.histories ==>
      && id in s.inputs && id in s.responses
      && |s.inputs[id]| == |s.responses[id]|
      && s.histories[id] == Interleave(s.inputs[id], s.responses[id])
  }

  /** What holds of every state the page can reach from a fresh store. */
  ghost predicate Consistent(s: State) {
    WellFormed(s) && Tracked(s) && HistoryMirrorsLogs(s)
  }

  // ---------------------------------------------------------------------------
  // Record-level comparisons
  // ---------------------------------------------------------------------------

  predicate Agree<V(==)>(m: map<SessionId, V>, m': map<SessionId, V>, id: SessionId) {
    (id in m <==> id in m') && (id in m ==> m[id] == m'[id])
  }

  /** Session `id` has the same four records (or lack of them) in `s` and `t`. */
  predicate SameRecords(s: State, t: State, id: SessionId) {
    && Agree(s.files, t.files, id)
    && Agree(s.histories, t.histories, id)
    && Agree(s.responses, t.responses, id)
    && Agree(s.inputs, t.inputs, id)
  }

  /** Session `id` has its four freshly initialised records. */
  predicate HasEmptyRecords(s: State, id: SessionId) {
    && id in s.files && s.files[id] == None
    && id in s.histories && s.histories[id] == []
    && id in s.responses && s.responses[id] == []
    && id in s.inputs && s.inputs[id] == []
  }

  // ---------------------------------------------------------------------------
  // Operations
  // ---------------------------------------------------------------------------

  /** `reset_session_states`: fresh records for `id`, every other session untouched. */
  function ResetRecords(s: State, id: SessionId): (r: State)
    ensures r.sessions == s.sessions && r.active == s.active
    ensures HasEmptyRecords(r, id)
    ensures forall other :: other != id ==> SameRecords(s, r, other)
  {
    s.(files := s.files[id := None],
       histories := s.histories[id := []],
       responses := s.responses[id := []],
       inputs := s.inputs[id := []])
  }

  /** The guard of the "Start Session" button: a non-empty id not listed yet. */
  predicate Accepts(s: State, id: SessionId) {
    id != "" && id !in s.sessions
  }

  /** "Start Session": append, activate and initialise, or reject and change nothing. */
  function Create(s: State, id: SessionId): (r: State)
    ensures !Accepts(s, id) ==> r == s
    ensures Accepts(s, id) ==>
      && r.sessions == s.sessions + [id]
      && r.active == Some(id)
      && HasEmptyRecords(r, id)
      && (forall other :: other != id ==> SameRecords(s, r, other))
  {
    if Accepts(s, id) then ResetRecords(s.(sessions := s.sessions + [id], active := Some(id)), id)
    else s
  }

  /** Picking an existing session in the sidebar's select box. */
  function Select(s: State, id: SessionId): (r: State)
    ensures s.active == Some(id) ==> r == s
    ensures s.active != Some(id) ==> r.sessions == s.sessions && r.active == Some(id)
    ensures s.active != Some(id) && id in s.files ==>
      forall other :: SameRecords(s, r, other)
    ensures s.active != Some(id) && id !in s.files ==>
      HasEmptyRecords(r, id) && forall other :: other != id ==> SameRecords(s, r, other)
  {
    if s.active != Some(id) then
      var t := s.(active := Some(id));
      if id !in t.files then ResetRecords(t, id) else t
    else s
  }

  /** Storing a non-empty upload batch as the session's file list. */
  function Upload(s: State, id: SessionId, uploaded: seq<UploadedFile>): (r: State)
    ensures |uploaded| == 0 ==> r == s
    ensures |uploaded| > 0 ==>
      && id in r.files && r.files[id] == Some(uploaded)
      && r.sessions == s.sessions && r.active == s.active
      && r.histories == s.histories && r.responses == s.responses && r.inputs == s.inputs
      && (forall other :: other != id ==> Agree(s.files, r.files, other))
  {
    if |uploaded| > 0 then s.(files := s.files[id := Some(uploaded)]) else s
  }

  /**
   * Recording one exchange. The four writes are made one after another, and
   * a missing dictionary entry raises at the first write that needs it; the
   * exception is caught by the same handler that catches chain failures, so
   * the writes already made stay made.
   */
  function Record(s: State, id: SessionId, question: string, outcome: ChainOutcome): (r: State)
    ensures r.sessions == s.sessions && r.active == s.active && r.files == s.files
    ensures forall other :: other != id ==> SameRecords(s, r, other)
    ensures !outcome.Answered? || id !in s.histories ==> r == s
    ensures outcome.Answered? && id in s.histories ==>
      id in r.histories &&
      r.histories[id] == s.histories[id] + [Message(Human, question), Message(Ai, outcome.answer)]
    ensures outcome.Answered? && id in s.histories && id in s.inputs ==>
      id in r.inputs && r.inputs[id] == s.inputs[id] + [question]
    ensures !(outcome.Answered? && id in s.histories && id in s.inputs) ==> r.inputs == s.inputs
    ensures outcome.Answered? && id in s.histories && id in s.inputs && id in s.responses ==>
      id in r.responses && r.responses[id] == s.responses[id] + [outcome.answer]
    ensures !(outcome.Answered? && id in s.histories && id in s.inputs && id in s.responses) ==>
      r.responses == s.responses
  {
    match outcome
    case Answered(answer) =>
      if id !in s.histories then s
      else
        var s1 := s.(histories := s.histories[id := s.histories[id] + [Message(Human, question), Message(Ai, answer)]]);
        if id !in s1.inputs then s1
        else
          var s2 := s1.(inputs := s1.inputs[id := s1.inputs[id] + [question]]);
          if id !in s2.responses then s2
          else s2.(responses := s2.responses[id := s2.responses[id] + [answer]])
    case NoAnswerKey => s
    case Raised => s
  }

  /**
   * The rendered conversation history: newest exchange first, pairing the
   * i-th question with the i-th answer.
   */
  function NewestFirst(questions: seq<string>, answers: seq<string>): (view: seq<Exchange>)
    requires |questions| <= |answers|
    ensures |view| == |questions|
    ensures forall k :: 0 <= k < |view| ==>
      view[k] == Exchange(questions[|questions| - 1 - k], answers[|questions| - 1 - k])
    decreases |questions|
  {
    if |questions| == 0 then []
    else
      var n := |questions| - 1;
      [Exchange(questions[n], answers[n])] + NewestFirst(questions[..n], answers)
  }

  // ---------------------------------------------------------------------------
  // One run of the page script
  // ---------------------------------------------------------------------------

  /** What the user did in the sidebar on this run. */
  datatype SidebarAction =
    | Idle                        // "New Session" shown, button not pressed
    | StartSession(id: SessionId) // "Start Session" pressed with this id typed
    | Choose(option: SessionId)   // an existing session picked in the select box

  /**
   * The inputs of one run: the sidebar action, whether an API key is set,
   * the files in the uploader, whether loading and indexing them raises,
   * the submitted question ("" when none) and what the chain would return
   * for it.
   */
  datatype Step = Step(
    sidebar: SidebarAction,
    hasApiKey: bool,
    uploaded: seq<UploadedFile>,
    ingestionFails: bool,
    userInput: string,
    outcome: ChainOutcome)

  /**
   * The first entry of the select box. The sidebar tells the new-session
   * branch from a chosen session by comparing the selected string with it.
   */
  const NewSessionLabel: string := "\U{2795} New Session"

  /** The select box offers only listed sessions. */
  predicate Offered(s: State, action: SidebarAction) {
    action.Choose? ==> action.option in s.sessions
  }

  /**
   * The sidebar. Choosing a listed session whose id equals the label takes the
   * new-session branch, which without a button press changes nothing.
   */
  function Sidebar(s: State, action: SidebarAction): (r: State) {
    match action
    case Idle => s
    case StartSession(id) => Create(s, id)
    case Choose(option) => if option == NewSessionLabel then s else Select(s, option)
  }

  /** A truthy active id, an API key and a non-empty upload: the chat part of the page runs. */
  predicate ChatReached(s: State, step: Step) {
    s.active.Some? && s.active.value != "" && step.hasApiKey && |step.uploaded| > 0
  }

  /**
   * The main area after the sidebar: store the upload, then record the
   * exchange. Loading and indexing the files happen between the two, outside
   * any exception handler, so a failure there ends the run with the upload
   * stored and no question handled.
   */
  function MainArea(s: State, step: Step): (r: State) {
    if ChatReached(s, step) then
      var id := s.active.value;
      var s2 := Upload(s, id, step.uploaded);
      if step.ingestionFails || step.userInput == "" then s2
      else Record(s2, id, step.userInput, step.outcome)
    else s
  }

  /** One run of the script: the sidebar, then the main area. */
  function PageRun(s: State, step: Step): (r: State)
  {
    MainArea(Sidebar(s, step.sidebar), step)
  }

  /** Several runs in a row. */
  function Replay(s: State, steps: seq<Step>): (r: State)
    decreases |steps|
  {
    if steps == [] then s else Replay(PageRun(s, steps[0]), steps[1..])
  }

  /** Every sidebar choice along the way was one the select box offered. */
  ghost predicate Admissible(s: State, steps: seq<Step>)
    decreases |steps|
  {
    steps == [] || (Offered(s, steps[0].sidebar) && Admissible(PageRun(s, steps[0]), steps[1..]))
  }

  /** The transcript a run renders, on a well-formed state. */
  function Shown(s: State, step: Step): (view: seq<Exchange>)
    requires WellFormed(s)
  {
    var s1 := Sidebar(s, step.sidebar);
    SidebarKeepsWellFormed(s, step.sidebar);
    if ChatReached(s1, step) && !step.ingestionFails then
      var r := PageRun(s, step);
      PageRunKeepsWellFormed(s, step);
      var id := s1.active.value;
      NewestFirst(r.inputs[id], r.responses[id])
    else []
  }

  // ---------------------------------------------------------------------------
  // Lemmas
  // ---------------------------------------------------------------------------

  /** A store that has never been initialised yields the empty, consistent state. */
  lemma InitialiseUnset()
    ensures Initialise(Unset()) == State([], None, map[], map[], map[], map[])
    ensures Consistent(Initialise(Unset()))
  {
  }

  /** The guards leave an initialised store alone: a rerun does not wipe it. */
  lemma InitialiseKeeps(s: State)
    ensures Initialise(Stored(s)) == s
  {
  }

  /** Appending one exchange to both logs appends one question/answer pair to their interleaving. */
  lemma InterleaveSnoc(questions: seq<string>, answers: seq<string>, q: string, a: string)
    requires |questions| == |answers|
    ensures Interleave(questions + [q], answers + [a]) ==
            Interleave(questions, answers) + [Message(Human, q), Message(Ai, a)]
  {
  }

  /** Position 2k of a mirrored history is question k, position 2k+1 is answer k. */
  lemma {:induction false} InterleaveAt(questions: seq<string>, answers: seq<string>, k: nat)
    requires |questions| == |answers| && k < |questions|
    ensures Interleave(questions, answers)[2 * k] == Message(Human, questions[k])
    ensures Interleave(questions, answers)[2 * k + 1] == Message(Ai, answers[k])
    decreases |questions|
  {
    var n := |questions| - 1;
    if k < n {
      InterleaveAt(questions[..n], answers[..n], k);
    }
  }

  lemma CreateKeepsWellFormed(s: State, id: SessionId)
    requires WellFormed(s)
    ensures WellFormed(Create(s, id))
  {
  }

  lemma SidebarKeepsWellFormed(s: State, action: SidebarAction)
    requires WellFormed(s)
    ensures WellFormed(Sidebar(s, action))
  {
    if action.StartSession? {
      CreateKeepsWellFormed(s, action.id);
    }
  }

  lemma RecordKeepsWellFormed(s: State, id: SessionId, question: string, outcome: ChainOutcome)
    requires WellFormed(s)
    ensures WellFormed(Record(s, id, question, outcome))
  {
  }

  lemma PageRunKeepsWellFormed(s: State, step: Step)
    requires WellFormed(s)
    ensures WellFormed(PageRun(s, step))
  {
    SidebarKeepsWellFormed(s, step.sidebar);
  }

  /**
   * With the keys shared, recording is all or nothing: either all four
   * appends happen or the state is unchanged, and the logs stay aligned.
   */
  lemma RecordAllOrNothing(s: State, id: SessionId, question: string, outcome: ChainOutcome)
    requires WellFormed(s)
    ensures var r := Record(s, id, question, outcome);
      if outcome.Answered? && id in s.files then
        && r.histories[id] == s.histories[id] + [Message(Human, question), Message(Ai, outcome.answer)]
        && r.inputs[id] == s.inputs[id] + [question]
        && r.responses[id] == s.responses[id] + [outcome.answer]
        && |r.inputs[id]| == |r.responses[id]|
      else r == s
  {
  }

  /** Under the invariant, choosing a listed session only switches the active id. */
  lemma SelectListedKeepsRecords(s: State, id: SessionId)
    requires Consistent(s) && id in s.sessions
    ensures Select(s, id) == s.(active := Some(id))
  {
  }

  /** Switching A, then B, then back to A leaves A's records as they were. */
  lemma SelectRoundTrip(s: State, a: SessionId, b: SessionId)
    requires a in s.files
    ensures SameRecords(s, Select(Select(Select(s, a), b), a), a)
  {
  }

  /**
   * A run never drops or reorders listed sessions, and every session other
   * than the one active afterwards keeps its records.
   */
  lemma PageRunIsolation(s: State, step: Step, other: SessionId)
    ensures s.sessions <= PageRun(s, step).sessions
    ensures Some(other) != PageRun(s, step).active ==> SameRecords(s, PageRun(s, step), other)
  {
    SidebarIsolation(s, step.sidebar, other);
    MainAreaIsolation(Sidebar(s, step.sidebar), step, other);
  }

  lemma SidebarIsolation(s: State, action: SidebarAction, other: SessionId)
    ensures s.sessions <= Sidebar(s, action).sessions
    ensures Some(other) != Sidebar(s, action).active ==> SameRecords(s, Sidebar(s, action), other)
  {
  }

  lemma MainAreaIsolation(s: State, step: Step, other: SessionId)
    ensures MainArea(s, step).sessions == s.sessions && MainArea(s, step).active == s.active
    ensures Some(other) != s.active ==> SameRecords(s, MainArea(s, step), other)
  {
  }

  lemma CreateKeepsConsistent(s: State, id: SessionId)
    requires Consistent(s)
    ensures Consistent(Create(s, id))
  {
    CreateKeepsWellFormed(s, id);
  }

  lemma SelectKeepsConsistent(s: State, id: SessionId)
    requires Consistent(s) && id in s.sessions
    ensures Consistent(Select(s, id))
  {
  }

  lemma UploadKeepsConsistent(s: State, id: SessionId, uploaded: seq<UploadedFile>)
    requires Consistent(s) && id in s.files
    ensures Consistent(Upload(s, id, uploaded))
  {
  }

  lemma RecordKeepsConsistent(s: State, id: SessionId, question: string, outcome: ChainOutcome)
    requires Consistent(s)
    ensures Consistent(Record(s, id, question, outcome))
  {
    RecordKeepsWellFormed(s, id, question, outcome);
    if outcome.Answered? && id in s.files {
      InterleaveSnoc(s.inputs[id], s.responses[id], question, outcome.answer);
    }
  }

  lemma SidebarKeepsConsistent(s: State, action: SidebarAction)
    requires Consistent(s) && Offered(s, action)
    ensures Consistent(Sidebar(s, action))
  {
    match action {
      case Idle =>
      case StartSession(id) => CreateKeepsConsistent(s, id);
      case Choose(option) =>
        if option != NewSessionLabel {
          SelectKeepsConsistent(s, option);
        }
    }
  }

  lemma MainAreaKeepsConsistent(s: State, step: Step)
    requires Consistent(s)
    ensures Consistent(MainArea(s, step))
  {
    if ChatReached(s, step) {
      var id := s.active.value;
      var s2 := Upload(s, id, step.uploaded);
      UploadKeepsConsistent(s, id, step.uploaded);
      if !step.ingestionFails && step.userInput != "" {
        RecordKeepsConsistent(s2, id, step.userInput, step.outcome);
        assert MainArea(s, step) == Record(s2, id, step.userInput, step.outcome);
      } else {
        assert MainArea(s, step) == s2;
      }
    }
  }

  /** One run of the page keeps the full invariant. */
  lemma PageRunKeepsConsistent(s: State, step: Step)
    requires Consistent(s) && Offered(s, step.sidebar)
    ensures Consistent(PageRun(s, step))
  {
    SidebarKeepsConsistent(s, step.sidebar);
    MainAreaKeepsConsistent(Sidebar(s, step.sidebar), step);
  }

  /**
   * Without an API key or without an upload in the uploader, a run does
   * nothing beyond the sidebar: no file list is stored and no exchange is
   * recorded.
   */
  lemma ChatNeedsKeyAndUpload(s: State, step: Step)
    requires !step.hasApiKey || |step.uploaded| == 0
    ensures PageRun(s, step) == Sidebar(s, step.sidebar)
  {
  }

  /**
   * Starting session "s1", then uploading one file and asking one question
   * that the chain answers, leaves one exchange in each log, two messages in
   * the history and that exchange as the rendered conversation history.
   */
  lemma FirstQuestionScenario(file: UploadedFile, answer: string)
    ensures
      var question := "What color is the sky?";
      var s0 := Initialise(Unset());
      var s1 := PageRun(s0, Step(StartSession("s1"), true, [], false, "", Raised));
      var step := Step(Idle, true, [file], false, question, Answered(answer));
      var s2 := PageRun(s1, step);
      && WellFormed(s1)
      && s2.sessions == ["s1"] && s2.active == Some("s1")
      && s2.files["s1"] == Some([file])
      && s2.inputs["s1"] == [question] && s2.responses["s1"] == [answer]
      && s2.histories["s1"] == [Message(Human, question), Message(Ai, answer)]
      && Shown(s1, step) == [Exchange(question, answer)]
  {
    var s0 := Initialise(Unset());
    InitialiseUnset();
    var s1 := PageRun(s0, Step(StartSession("s1"), true, [], false, "", Raised));
    assert Accepts(s0, "s1");
    PageRunKeepsWellFormed(s0, Step(StartSession("s1"), true, [], false, "", Raised));
  }

  /**
   * When loading or indexing the upload raises, the run ends with the file
   * list stored and nothing else done: no exchange is recorded and no
   * conversation history is rendered.
   */
  lemma IngestionFailureEndsRun(s: State, step: Step)
    requires WellFormed(s) && step.ingestionFails
    requires ChatReached(Sidebar(s, step.sidebar), step)
    ensures var s1 := Sidebar(s, step.sidebar);
      PageRun(s, step) == Upload(s1, s1.active.value, step.uploaded)
    ensures Shown(s, step) == []
  {
  }

  /**
   * A session can be started under the select box's own label, after which
   * choosing it in the select box takes the new-session branch and never
   * switches to it.
   */
  lemma LabelSessionNeverSelectable(s: State)
    ensures Accepts(Initialise(Unset()), NewSessionLabel)
    ensures NewSessionLabel in Create(Initialise(Unset()), NewSessionLabel).sessions
    ensures Sidebar(s, Choose(NewSessionLabel)) == s
  {
  }

  /** Any admissible sequence of runs keeps the invariant. */
  lemma {:induction false} ReplayKeepsConsistent(s: State, steps: seq<Step>)
    requires Consistent(s) && Admissible(s, steps)
    ensures Consistent(Replay(s, steps))
    decreases |steps|
  {
    if steps != [] {
      PageRunKeepsConsistent(s, steps[0]);
      ReplayKeepsConsistent(PageRun(s, steps[0]), steps[1..]);
    }
  }

  /** Every state reachable from a fresh store is consistent. */
  lemma ReachableConsistent(steps: seq<Step>)
    requires Admissible(Initialise(Unset()), steps)
    ensures Consistent(Replay(Initialise(Unset()), steps))
  {
    InitialiseUnset();
    ReplayKeepsConsistent(Initialise(Unset()), steps);
  }

  /** Over any number of runs, the session list only grows at its end. */
  lemma {:induction false} ReplayExtendsSessions(s: State, steps: seq<Step>)
    ensures s.sessions <= Replay(s, steps).sessions
    decreases |steps|
  {
    if steps != [] {
      ReplayExtendsSessions(PageRun(s, steps[0]), steps[1..]);
    }
  }
}
