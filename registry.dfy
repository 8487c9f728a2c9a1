/**
 * The session store as the page holds it: one object whose six fields the
 * script updates in place on every run. Each method does what the script
 * does, statement by statement, and is proved against the matching function
 * of module `SessionState`.
 */
module Registry {
  import opened SessionState

  class SessionRegistry {
    var sessions: seq<SessionId>
    var active: Option<SessionId>
    var files: map<SessionId, Option<seq<UploadedFile>>>
    var histories: map<SessionId, seq<Message>>
    var responses: map<SessionId, seq<string>>
    var inputs: map<SessionId, seq<string>>

    /** The six fields as one value. */
    function Snapshot(): State
      reads this
    {
      State(sessions, active, files, histories, responses, inputs)
    }

    /** The first run of the script: every guard finds its key missing. */
    constructor ()
      ensures Snapshot() == Initialise(Unset())
      ensures Consistent(Snapshot())
    {
      sessions := [];
      active := None;
      files := map[];
      histories := map[];
      responses := map[];
      inputs := map[];
      InitialiseUnset();
    }

    /** `reset_session_states`: four assignments, one per dictionary. */
    method ResetSessionStates(id: SessionId)
      modifies this
      ensures Snapshot() == ResetRecords(old(Snapshot()), id)
    {
      files := files[id := None];
      histories := histories[id := []];
      responses := responses[id := []];
      inputs := inputs[id := []];
    }

    /** The "Start Session" button. */
    method StartSession(id: SessionId) returns (created: bool)
      modifies this
      ensures created == Accepts(old(Snapshot()), id)
      ensures Snapshot() == Create(old(Snapshot()), id)
    {
      if id != "" && id !in sessions {
        sessions := sessions + [id];
        active := Some(id);
        ResetSessionStates(id);
        created := true;
      } else {
        created := false;
      }
    }

    /** Picking a session in the select box. */
    method SelectSession(option: SessionId)
      modifies this
      ensures Snapshot() == Select(old(Snapshot()), option)
    {
      if Some(option) != active {
        active := Some(option);
        if option !in files {
          ResetSessionStates(option);
        }
      }
    }

    /** The uploader's value, stored when it is non-empty. */
    method StoreUpload(id: SessionId, uploaded: seq<UploadedFile>)
      modifies this
      ensures Snapshot() == Upload(old(Snapshot()), id, uploaded)
    {
      if |uploaded| > 0 {
        files := files[id := Some(uploaded)];
      }
    }

    /**
     * Handling the chain's outcome for one question. Returns whether all four
     * appends were made.
     */
    method RecordExchange(id: SessionId, question: string, outcome: ChainOutcome) returns (appended: bool)
      modifies this
      ensures appended == (outcome.Answered? && id in old(histories) && id in old(inputs) && id in old(responses))
      ensures Snapshot() == Record(old(Snapshot()), id, question, outcome)
    {
      appended := false;
      match outcome {
        case Answered(answer) =>
          if id in histories {
            histories := histories[id := histories[id] + [Message(Human, question), Message(Ai, answer)]];
            if id in inputs {
              inputs := inputs[id := inputs[id] + [question]];
              if id in responses {
                responses := responses[id := responses[id] + [answer]];
                appended := true;
              }
            }
          }
        case NoAnswerKey =>
        case Raised =>
      }
    }

    /**
     * The conversation-history loop: indices from the newest down to 0, each
     * question paired with the answer at the same index.
     */
    method ConversationHistory(id: SessionId) returns (view: seq<Exchange>)
      requires id in inputs && id in responses && |inputs[id]| <= |responses[id]|
      ensures |view| == |inputs[id]|
      ensures forall k :: 0 <= k < |view| ==>
        view[k] == Exchange(inputs[id][|view| - 1 - k], responses[id][|view| - 1 - k])
      ensures view == NewestFirst(inputs[id], responses[id])
    {
      var questions, answers := inputs[id], responses[id];
      var n := |questions|;
      view := [];
      var i := n - 1;
      while i >= 0
        invariant -1 <= i < n
        invariant |view| == n - 1 - i
        invariant forall k :: 0 <= k < |view| ==> view[k] == Exchange(questions[n - 1 - k], answers[n - 1 - k])
      {
        view := view + [Exchange(questions[i], answers[i])];
        i := i - 1;
      }
      ghost var spec := NewestFirst(questions, answers);
      assert |view| == |spec|;
      assert forall k :: 0 <= k < |view| ==> view[k] == spec[k];
    }

    /**
     * One run of the script over the store: the sidebar, then, when the chat
     * part of the page is reached, the upload, the exchange and the rendered
     * conversation history (empty when the page does not render it).
     */
    method Rerun(step: Step) returns (shown: seq<Exchange>)
      requires WellFormed(Snapshot())
      modifies this
      ensures Snapshot() == PageRun(old(Snapshot()), step)
      ensures shown == Shown(old(Snapshot()), step)
    {
      match step.sidebar {
        case Idle =>
        case StartSession(id) =>
          var created := StartSession(id);
        case Choose(option) =>
          if option != NewSessionLabel {
            SelectSession(option);
          }
      }
      SidebarKeepsWellFormed(old(Snapshot()), step.sidebar);
      shown := [];
      if active.Some? && active.value != "" && step.hasApiKey && |step.uploaded| > 0 {
        var id := active.value;
        StoreUpload(id, step.uploaded);
        // Loading and indexing the files sit here; a failure ends the run.
        if !step.ingestionFails {
          if step.userInput != "" {
            var appended := RecordExchange(id, step.userInput, step.outcome);
          }
          PageRunKeepsWellFormed(old(Snapshot()), step);
          if |inputs[id]| > 0 {
            shown := ConversationHistory(id);
          }
        }
      }
    }
  }
}
