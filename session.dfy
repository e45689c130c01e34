/** The session document the agent keeps per conversation, and the in-memory copy of it
    that one turn works on. */
module Session {
  import opened Wrappers

  /** A Python dictionary, as its items in insertion order. */
  type Dict<T> = seq<(string, T)>

  /** A dictionary never holds a key twice. */
  predicate UniqueKeys<T>(d: Dict<T>) {
    forall i, j :: 0 <= i < j < |d| ==> d[i].0 != d[j].0
  }

  /** `d.get(k)`. */
  function Lookup<T>(d: Dict<T>, k: string): Option<T>
  {
    if d == [] then None
    else if d[|d| - 1].0 == k then Some(d[|d| - 1].1)
    else Lookup(d[..|d| - 1], k)
  }

  /** A missing key is not found, and a key not found is missing. */
  lemma {:induction false} LookupAbsent<T>(d: Dict<T>, k: string)
    ensures Lookup(d, k).None? <==> forall i :: 0 <= i < |d| ==> d[i].0 != k
  {
    if d != [] {
      LookupAbsent(d[..|d| - 1], k);
    }
  }

  /** The state of one extraction target. */
  datatype Status = NotInitialized | Initialized | Success | Failure

  predicate IsTerminal(s: Status) { s == Success || s == Failure }

  /** `{"state": ..., "remaining_iterations": ...}`. */
  datatype Target = Target(state: Status, remaining: int)

  /** `{"type": ..., "value": ...}`: a finding under a key with no dedicated field. */
  datatype DynRecord = DynRecord(kind: string, value: string)

  /** `{"user": ..., "agent": ...}`: one history entry. */
  datatype Turn = Turn(user: string, agent: string)

  /** The seven keys with a target entry in a new session. */
  const TargetKeys: seq<string> := ["upi", "bank_account", "url", "ip", "phone", "ifsc", "email"]

  /** The keys with a dedicated list under `extracted_data`. "ip" has none: it starts as
      null and nothing ever adds to it. */
  const StandardKeys: seq<string> := ["upi", "bank_account", "ifsc", "phone", "url", "email", "suspicious_keywords"]

  const InitialRemaining: int := 3

  /** `extracted_data` as stored: one list per standard key, and the dynamic records. A key
      that is absent stands for a missing or null entry (the initial "ip": null). */
  datatype StoredData = StoredData(fields: map<string, seq<string>>, dynamic: seq<DynRecord>)

  /** One document of the `active_sessions` collection (the creation time is left out). */
  datatype SessionDoc = SessionDoc(
    id: string,
    status: string,
    scamConfirmed: bool,
    persona: string,
    focus: Option<string>,
    targets: map<string, Target>,
    data: StoredData,
    history: seq<Turn>)

  /** The persona every new session starts with (the text is abbreviated in this model). */
  const DefaultPersona: string := "You are a middle-aged person responding to an unknown contact. Polite but cautious."

  function InitialTargets(): (t: map<string, Target>)
    ensures forall k :: k in t <==> k in TargetKeys
    ensures forall k :: k in t ==> t[k] == Target(NotInitialized, InitialRemaining)
  {
    map k | k in TargetKeys :: Target(NotInitialized, InitialRemaining)
  }

  function InitialData(): (d: StoredData)
    ensures forall k :: k in d.fields <==> k in StandardKeys
    ensures forall k :: k in d.fields ==> d.fields[k] == []
    ensures d.dynamic == []
  {
    StoredData(map k | k in StandardKeys :: [], [])
  }

  /** The document `get_or_create_session` inserts for an id it has not seen. */
  function NewSessionDoc(id: string): (d: SessionDoc)
    ensures d.id == id && d.status == "ACTIVE" && !d.scamConfirmed && d.persona == DefaultPersona
    ensures d.focus == None && d.history == []
    ensures d.targets.Keys == set k | k in TargetKeys
    ensures forall k :: k in d.targets ==> d.targets[k] == Target(NotInitialized, 3)
    ensures d.data.fields.Keys == set k | k in StandardKeys
    ensures "ip" !in d.data.fields && d.data.dynamic == []
  {
    SessionDoc(id, "ACTIVE", false, DefaultPersona, None, InitialTargets(), InitialData(), [])
  }

  /** The local copy of `extracted_data` one turn works on. The standard lists are sets:
      the code rebuilds them with `list(set(...))`, whose order it never relies on. */
  datatype LocalData = LocalData(fields: map<string, set<string>>, dynamic: seq<DynRecord>)

  function AsSet(s: seq<string>): (r: set<string>)
    ensures forall x :: x in r <==> x in s
  {
    set x | x in s
  }

  function LocalOf(d: StoredData): (l: LocalData)
    ensures l.fields.Keys == d.fields.Keys && l.dynamic == d.dynamic
    ensures forall k :: k in d.fields ==> (forall x :: x in l.fields[k] <==> x in d.fields[k])
  {
    LocalData(map k | k in d.fields :: AsSet(d.fields[k]), d.dynamic)
  }

  /** The dictionary `process_turn` loads and then changes step by step. */
  class SessionState {
    var id: string
    var scamConfirmed: bool
    var persona: string
    var focus: Option<string>
    var targets: map<string, Target>
    var data: LocalData
    var history: seq<Turn>

    /** A copy of a stored document. */
    constructor FromDoc(doc: SessionDoc)
      ensures id == doc.id && scamConfirmed == doc.scamConfirmed && persona == doc.persona
      ensures focus == doc.focus && targets == doc.targets && history == doc.history
      ensures data == LocalOf(doc.data)
    {
      id := doc.id;
      scamConfirmed := doc.scamConfirmed;
      persona := doc.persona;
      focus := doc.focus;
      targets := doc.targets;
      data := LocalOf(doc.data);
      history := doc.history;
    }
  }
}
