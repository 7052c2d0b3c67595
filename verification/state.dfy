/**
 * The shared workflow state (`WorkflowState` in master_agent/utils/state_manager.py):
 * a dict with three overwrite-only slots, one append-only list of creative
 * suggestions, a reset, and persistence to one JSON file.
 *
 * The dict is modelled as a map from key to a JSON value, so that a state
 * loaded from a file with missing or extra keys is representable. The file
 * itself is abstract: absent, unreadable, or holding a dict.
 */
module WorkflowStore {
  import opened Wrappers

  /** The values the dict holds: the JSON value domain. */
  datatype Value =
    | Null
    | Bool(b: bool)
    | Int(i: int)
    | Str(s: string)
    | List(items: seq<Value>)
    | Object(fields: map<string, Value>)

  /** `v.get(key)` on a dict value; `None` for anything else. */
  function Field(v: Value, key: string): Value {
    if v.Object? && key in v.fields then v.fields[key] else Null
  }

  /** A Python list of strings. */
  function StrList(xs: seq<string>): (v: Value)
    ensures v.List? && |v.items| == |xs|
    ensures forall k :: 0 <= k < |xs| ==> v.items[k] == Str(xs[k])
  {
    List(seq(|xs|, k requires 0 <= k < |xs| => Str(xs[k])))
  }

  /** The Python type name of a value, as an `AttributeError` message shows it. */
  function TypeName(v: Value): string {
    match v
    case Null => "NoneType"
    case Bool(_) => "bool"
    case Int(_) => "int"
    case Str(_) => "str"
    case List(_) => "list"
    case Object(_) => "dict"
  }

  const ResearchKey: string := "research_data"
  const DraftKey: string := "draft_content"
  const FinalKey: string := "final_content"
  const SuggestionsKey: string := "creative_suggestions"

  /** The store; `state` is the Python object's `self.state` dict. */
  datatype WorkflowState = WorkflowState(state: map<string, Value>)

  /** What a tool call returns to the agent, with the store as the call leaves it. */
  datatype ToolResult = ToolResult(reply: string, store: WorkflowState)

  /** The three overwrite-only slots. */
  datatype Slot = Research | Draft | Final

  function KeyOf(slot: Slot): string {
    match slot
    case Research => ResearchKey
    case Draft => DraftKey
    case Final => FinalKey
  }

  /** `self.state.get(key)`: the stored value, or `None` when the key is missing. */
  function Lookup(w: WorkflowState, key: string): Value {
    if key in w.state then w.state[key] else Null
  }

  /** `self.state[key] = v`. */
  function Store(w: WorkflowState, key: string, v: Value): (r: WorkflowState)
    ensures key in r.state && Lookup(r, key) == v
    ensures r.state - {key} == w.state - {key}
  {
    WorkflowState(w.state[key := v])
  }

  /** The dict `__init__` and `clear` build. */
  function Initial(): (w: WorkflowState)
    ensures forall slot :: Lookup(w, KeyOf(slot)) == Null
    ensures GetCreativeSuggestions(w) == List([])
  {
    WorkflowState(map[ResearchKey := Null, DraftKey := Null, FinalKey := Null, SuggestionsKey := List([])])
  }

  function GetSlot(w: WorkflowState, slot: Slot): Value {
    Lookup(w, KeyOf(slot))
  }

  /** Overwrites one slot: reading it back gives `v`, and no other key changes. */
  function SetSlot(w: WorkflowState, slot: Slot, v: Value): (r: WorkflowState)
    ensures GetSlot(r, slot) == v
    ensures r.state - {KeyOf(slot)} == w.state - {KeyOf(slot)}
  {
    Store(w, KeyOf(slot), v)
  }

  function SetResearchData(w: WorkflowState, data: Value): (r: WorkflowState)
    ensures GetResearchData(r) == data
    ensures r.state - {ResearchKey} == w.state - {ResearchKey}
  {
    SetSlot(w, Research, data)
  }

  function GetResearchData(w: WorkflowState): Value {
    GetSlot(w, Research)
  }

  function SetDraftContent(w: WorkflowState, content: Value): (r: WorkflowState)
    ensures GetDraftContent(r) == content
    ensures r.state - {DraftKey} == w.state - {DraftKey}
  {
    SetSlot(w, Draft, content)
  }

  function GetDraftContent(w: WorkflowState): Value {
    GetSlot(w, Draft)
  }

  function SetFinalContent(w: WorkflowState, content: Value): (r: WorkflowState)
    ensures GetFinalContent(r) == content
    ensures r.state - {FinalKey} == w.state - {FinalKey}
  {
    SetSlot(w, Final, content)
  }

  function GetFinalContent(w: WorkflowState): Value {
    GetSlot(w, Final)
  }

  /** `self.state.get("creative_suggestions", [])`. */
  function GetCreativeSuggestions(w: WorkflowState): Value {
    if SuggestionsKey in w.state then w.state[SuggestionsKey] else List([])
  }

  /**
   * `add_creative_suggestion`: recreates a missing list, then appends. When
   * the key holds something other than a list (possible after a load), the
   * `.append` call raises and the failure carries Python's message.
   */
  function AddCreativeSuggestion(w: WorkflowState, suggestion: Value): (r: Result<WorkflowState, string>)
    ensures r.Success? <==> GetCreativeSuggestions(w).List?
    ensures r.Success? ==>
      GetCreativeSuggestions(r.value) == List(GetCreativeSuggestions(w).items + [suggestion])
    ensures r.Success? ==> r.value.state - {SuggestionsKey} == w.state - {SuggestionsKey}
  {
    var current := GetCreativeSuggestions(w);
    if current.List? then Success(Store(w, SuggestionsKey, List(current.items + [suggestion])))
    else Failure("'" + TypeName(current) + "' object has no attribute 'append'")
  }

  /** `clear`: every slot back to its empty value, whatever was stored before. */
  function Clear(w: WorkflowState): (r: WorkflowState)
    ensures GetResearchData(r) == Null && GetDraftContent(r) == Null && GetFinalContent(r) == Null
    ensures GetCreativeSuggestions(r) == List([])
    ensures r.state.Keys == {ResearchKey, DraftKey, FinalKey, SuggestionsKey}
  {
    Initial()
  }

  // ---------------------------------------------------------------------------
  // Persistence

  /** The state file on disk, with the JSON encoding left abstract. */
  datatype StateFile = Absent | Unreadable | Holds(contents: map<string, Value>)

  /**
   * How the write in `save_to_file` went: completely, not at all (the open
   * failed, the old file stays), or part-way (the open truncated the file,
   * leaving text that does not parse).
   */
  datatype WriteResult = Written | OpenFailed | FailedMidway

  /**
   * `save_to_file`: the new contents of the file. The in-memory state is not
   * an output: the Python method only logs a failure.
   */
  function SaveToFile(w: WorkflowState, file: StateFile, outcome: WriteResult): (f: StateFile)
    ensures outcome.Written? ==> f == Holds(w.state)
    ensures outcome.OpenFailed? ==> f == file
    ensures outcome.FailedMidway? ==> f == Unreadable
  {
    match outcome
    case Written => Holds(w.state)
    case OpenFailed => file
    case FailedMidway => Unreadable
  }

  /**
   * `load_from_file`: a readable file replaces the whole dict; a missing or
   * unreadable one leaves the state as it was.
   */
  function LoadFromFile(w: WorkflowState, file: StateFile): (r: WorkflowState)
    ensures file.Holds? ==> r.state == file.contents
    ensures !file.Holds? ==> r == w
  {
    if file.Holds? then WorkflowState(file.contents) else w
  }

  /** Saving and loading back into any store reproduces the saved state. */
  lemma SaveLoadRoundTrip(w: WorkflowState, other: WorkflowState, file: StateFile)
    ensures LoadFromFile(other, SaveToFile(w, file, Written)) == w
  {}

  /**
   * After loading a dict that lacks a key, the getters read `None` for the
   * missing slots and `[]` for the suggestions, and a suggestion added then
   * starts a fresh one-element list.
   */
  lemma MissingKeysReadEmpty(contents: map<string, Value>, s: Value)
    requires ResearchKey !in contents && DraftKey !in contents && FinalKey !in contents
    requires SuggestionsKey !in contents
    ensures var w := LoadFromFile(Initial(), Holds(contents));
      && GetResearchData(w) == Null && GetDraftContent(w) == Null && GetFinalContent(w) == Null
      && GetCreativeSuggestions(w) == List([])
      && AddCreativeSuggestion(w, s).Success?
      && GetCreativeSuggestions(AddCreativeSuggestion(w, s).value) == List([s])
  {}

  /** A second set of a slot replaces the first: no history is kept. */
  lemma SetOverwrites(w: WorkflowState, slot: Slot, a: Value, b: Value)
    ensures SetSlot(SetSlot(w, slot, a), slot, b) == SetSlot(w, slot, b)
  {
    assert SetSlot(SetSlot(w, slot, a), slot, b).state == SetSlot(w, slot, b).state;
  }

  // ---------------------------------------------------------------------------
  // Sequences of calls

  /** One call on the store. */
  datatype Call = Set(slot: Slot, value: Value) | Add(suggestion: Value) | ClearAll

  function Apply(w: WorkflowState, c: Call): Result<WorkflowState, string> {
    match c
    case Set(slot, v) => Success(SetSlot(w, slot, v))
    case Add(v) => AddCreativeSuggestion(w, v)
    case ClearAll => Success(Clear(w))
  }

  /** The calls performed one after another, stopping at the first that raises. */
  function Run(w: WorkflowState, calls: seq<Call>): Result<WorkflowState, string>
    decreases |calls|
  {
    if |calls| == 0 then Success(w)
    else
      match Run(w, calls[..|calls| - 1])
      case Failure(e) => Failure(e)
      case Success(w') => Apply(w', calls[|calls| - 1])
  }

  /** The value the last `Set` of `slot` stored, `None` if a clear came later, else `before`. */
  function LatestValue(calls: seq<Call>, slot: Slot, before: Value): Value
    decreases |calls|
  {
    if |calls| == 0 then before
    else
      match calls[|calls| - 1]
      case Set(s, v) => if s == slot then v else LatestValue(calls[..|calls| - 1], slot, before)
      case Add(_) => LatestValue(calls[..|calls| - 1], slot, before)
      case ClearAll => Null
  }

  /** The suggestions added since the last clear, in call order, after `before`. */
  function History(calls: seq<Call>, before: seq<Value>): seq<Value>
    decreases |calls|
  {
    if |calls| == 0 then before
    else
      match calls[|calls| - 1]
      case Set(_, _) => History(calls[..|calls| - 1], before)
      case Add(v) => History(calls[..|calls| - 1], before) + [v]
      case ClearAll => []
  }

  /**
   * For every sequence of calls on a store whose suggestion slot is a list:
   * no call raises, each getter returns the value of the last set since the
   * last clear, and the suggestions are exactly those added since the last
   * clear, in call order, none lost.
   */
  lemma {:induction false} RunReadsLatest(w: WorkflowState, calls: seq<Call>)
    requires GetCreativeSuggestions(w).List?
    ensures Run(w, calls).Success?
    ensures forall slot :: GetSlot(Run(w, calls).value, slot) == LatestValue(calls, slot, GetSlot(w, slot))
    ensures GetCreativeSuggestions(Run(w, calls).value) == List(History(calls, GetCreativeSuggestions(w).items))
    decreases |calls|
  {
    if |calls| > 0 {
      var prefix := calls[..|calls| - 1];
      RunReadsLatest(w, prefix);
      var mid := Run(w, prefix).value;
      match calls[|calls| - 1]
      case Set(s, v) =>
        var r := SetSlot(mid, s, v);
        forall slot
          ensures GetSlot(r, slot) == LatestValue(calls, slot, GetSlot(w, slot))
        {
          if slot != s {
            assert KeyOf(slot) != KeyOf(s);
            assert KeyOf(slot) in r.state - {KeyOf(s)} <==> KeyOf(slot) in mid.state - {KeyOf(s)};
          }
        }
        assert SuggestionsKey in r.state - {KeyOf(s)} <==> SuggestionsKey in mid.state - {KeyOf(s)};
      case Add(v) =>
        var r := AddCreativeSuggestion(mid, v).value;
        forall slot
          ensures GetSlot(r, slot) == LatestValue(calls, slot, GetSlot(w, slot))
        {
          assert KeyOf(slot) in r.state - {SuggestionsKey} <==> KeyOf(slot) in mid.state - {SuggestionsKey};
        }
      case ClearAll =>
    }
  }
}
