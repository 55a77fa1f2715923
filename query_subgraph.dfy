/**
 * The query-understanding subgraph's nodes: word segmentation, entity
 * extraction and intent recognition each check for a query, record their
 * output and add their name to the shared `completed_tasks` set; the join
 * node reports which of the three have not completed.
 */
module QuerySubgraph {
  import opened Wrappers
  import opened Text

  /**
   * The `completed_tasks` set. Nodes copy the state shallowly, so every state
   * derived from the one that created the set shares it and sees each `add`.
   */
  class TaskSet {
    var tasks: set<string>

    constructor()
      ensures tasks == {}
    {
      tasks := {};
    }

    method Add(task: string)
      modifies this
      ensures tasks == old(tasks) + {task}
    {
      tasks := tasks + {task};
    }
  }

  datatype Entity = Entity(text: string, entityType: string)

  /** `QuState`; an absent key is `None`. */
  datatype QuState = QuState(
    query: Option<string>,
    segmentedWords: Option<seq<string>>,
    entities: Option<seq<Entity>>,
    intent: Option<seq<string>>,
    error: Option<string>,
    completedTasks: Option<TaskSet>)

  const QueryMissing := "Query is missing in state."

  /** `if not query`: absent or empty queries stop a node. */
  predicate HasQuery(state: QuState)
  {
    state.query.Some? && state.query.value != ""
  }

  /** The objects a node may change: the state's task set, when it has one. */
  function TaskFrame(state: QuState): set<object>
  {
    if state.completedTasks.Some? then {state.completedTasks.value} else {}
  }

  /** The tasks recorded in the state's set; none when it has no set. */
  function Completed(state: QuState): set<string>
    reads TaskFrame(state)
  {
    if state.completedTasks.Some? then state.completedTasks.value.tasks else {}
  }

  /**
   * `state.get("completed_tasks", set())` followed by `.add(task)`: the state's own
   * set grows, or a fresh one is made when the state has none.
   */
  method Complete(state: QuState, task: string) returns (s: TaskSet)
    modifies TaskFrame(state)
    ensures s.tasks == old(Completed(state)) + {task}
    ensures state.completedTasks.Some? ==> s == state.completedTasks.value
    ensures state.completedTasks.None? ==> fresh(s)
  {
    if state.completedTasks.Some? {
      s := state.completedTasks.value;
    } else {
      s := new TaskSet();
    }
    s.Add(task);
  }

  /**
   * `word_segmentation_node`; `segment` is the segmenter, which either returns the
   * words or raises with the given text.
   */
  method WordSegmentation(state: QuState, segment: string -> Result<seq<string>>) returns (r: QuState)
    modifies TaskFrame(state)
    ensures !HasQuery(state) ==> r == state.(error := Some(QueryMissing)) && Completed(state) == old(Completed(state))
    ensures HasQuery(state) && segment(state.query.value).Err? ==>
      r == state.(error := Some("Error in word segmentation: " + segment(state.query.value).error))
      && Completed(state) == old(Completed(state))
    ensures HasQuery(state) && segment(state.query.value).Ok? ==>
      r.completedTasks.Some? && r == state.(segmentedWords := Some(segment(state.query.value).value), completedTasks := r.completedTasks)
      && Completed(r) == old(Completed(state)) + {"word_segmentation"}
      && (state.completedTasks.Some? ==> r.completedTasks == state.completedTasks)
  {
    if !HasQuery(state) {
      return state.(error := Some(QueryMissing));
    }
    var segmented := segment(state.query.value);
    if segmented.Err? {
      return state.(error := Some("Error in word segmentation: " + segmented.error));
    }
    var completed := Complete(state, "word_segmentation");
    r := state.(segmentedWords := Some(segmented.value), completedTasks := Some(completed));
  }

  /** The placeholder entity list: one `UNKNOWN` entity per whitespace-separated word. */
  function WordEntities(query: string): (es: seq<Entity>)
    ensures |es| == |Words(query)|
    ensures forall i :: 0 <= i < |es| ==> es[i] == Entity(Words(query)[i], "UNKNOWN")
  {
    var ws := Words(query);
    seq(|ws|, i requires 0 <= i < |ws| => Entity(ws[i], "UNKNOWN"))
  }

  /** The entities carry no whitespace and are never empty. */
  lemma WordEntitiesFacts(query: string)
    ensures forall e :: e in WordEntities(query) ==> e.text != [] && NoSpace(e.text) && e.entityType == "UNKNOWN"
  {
    WordsFacts(query);
  }

  /** `ner_node`; `loadFailure` is the text raised when the model cannot be constructed, if it cannot. */
  method Ner(state: QuState, loadFailure: Option<string>) returns (r: QuState)
    modifies TaskFrame(state)
    ensures !HasQuery(state) ==> r == state.(error := Some(QueryMissing)) && Completed(state) == old(Completed(state))
    ensures HasQuery(state) && loadFailure.Some? ==>
      r == state.(error := Some("Error in NER: " + loadFailure.value)) && Completed(state) == old(Completed(state))
    ensures HasQuery(state) && loadFailure.None? ==>
      r.completedTasks.Some? && r == state.(entities := Some(WordEntities(state.query.value)), completedTasks := r.completedTasks)
      && Completed(r) == old(Completed(state)) + {"ner"}
      && (state.completedTasks.Some? ==> r.completedTasks == state.completedTasks)
  {
    if !HasQuery(state) {
      return state.(error := Some(QueryMissing));
    }
    if loadFailure.Some? {
      return state.(error := Some("Error in NER: " + loadFailure.value));
    }
    var entities := WordEntities(state.query.value);
    var completed := Complete(state, "ner");
    r := state.(entities := Some(entities), completedTasks := Some(completed));
  }

  /** `intent_recognition_node`: the placeholder intent, or the model's construction failure. */
  method IntentRecognition(state: QuState, loadFailure: Option<string>) returns (r: QuState)
    modifies TaskFrame(state)
    ensures !HasQuery(state) ==> r == state.(error := Some(QueryMissing)) && Completed(state) == old(Completed(state))
    ensures HasQuery(state) && loadFailure.Some? ==>
      r == state.(error := Some("Error in intent recognition: " + loadFailure.value)) && Completed(state) == old(Completed(state))
    ensures HasQuery(state) && loadFailure.None? ==>
      r.completedTasks.Some? && r == state.(intent := Some(["QUERY_INTENT"]), completedTasks := r.completedTasks)
      && Completed(r) == old(Completed(state)) + {"intent_recognition"}
      && (state.completedTasks.Some? ==> r.completedTasks == state.completedTasks)
  {
    if !HasQuery(state) {
      return state.(error := Some(QueryMissing));
    }
    if loadFailure.Some? {
      return state.(error := Some("Error in intent recognition: " + loadFailure.value));
    }
    var completed := Complete(state, "intent_recognition");
    r := state.(intent := Some(["QUERY_INTENT"]), completedTasks := Some(completed));
  }

  /** The three tasks the join waits for. */
  const ExpectedTasks: set<string> := {"word_segmentation", "ner", "intent_recognition"}

  /** `expected_tasks - completed_tasks`, listed in the order the tasks are named above. */
  function MissingTasks(done: set<string>): seq<string>
  {
    (if "word_segmentation" in done then [] else ["word_segmentation"])
    + (if "ner" in done then [] else ["ner"])
    + (if "intent_recognition" in done then [] else ["intent_recognition"])
  }

  /** Exactly the expected tasks not done are listed, each once; none are exactly when all three are done. */
  lemma MissingTasksExact(done: set<string>)
    ensures forall t :: t in MissingTasks(done) <==> t in ExpectedTasks && t !in done
    ensures forall i, j :: 0 <= i < j < |MissingTasks(done)| ==> MissingTasks(done)[i] != MissingTasks(done)[j]
    ensures MissingTasks(done) == [] <==> ExpectedTasks <= done
  {
    var a := if "word_segmentation" in done then [] else ["word_segmentation"];
    var b := if "ner" in done then [] else ["ner"];
    var c := if "intent_recognition" in done then [] else ["intent_recognition"];
    assert MissingTasks(done) == a + b + c;
    assert "ner" != "word_segmentation" && "ner" != "intent_recognition" && "word_segmentation" != "intent_recognition";
  }

  /** Python's rendering of a set of task names. */
  function SetText(names: seq<string>): string
  {
    "{" + Join(", ", seq(|names|, i requires 0 <= i < |names| => "'" + names[i] + "'")) + "}"
  }

  /** `join_results_node`: the state as it is when all three tasks are done, else an error naming the missing ones. */
  function JoinResults(state: QuState): (r: QuState)
    reads TaskFrame(state)
  {
    var missing := MissingTasks(Completed(state));
    if missing == [] then state
    else state.(error := Some("Missing results from tasks: " + SetText(missing)))
  }

  /** The join passes the state through iff the three tasks are recorded, and otherwise changes only the error. */
  lemma JoinResultsFacts(state: QuState)
    ensures JoinResults(state) == state <==> (ExpectedTasks <= Completed(state)
      || state.error == Some("Missing results from tasks: " + SetText(MissingTasks(Completed(state)))))
    ensures JoinResults(state) == state.(error := JoinResults(state).error)
    ensures !(ExpectedTasks <= Completed(state)) ==>
      JoinResults(state).error == Some("Missing results from tasks: " + SetText(MissingTasks(Completed(state))))
  {
    MissingTasksExact(Completed(state));
  }
}
