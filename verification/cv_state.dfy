/**
 * The shared state of the CV-evaluation workflow (`AgentState`) and the merge
 * of a node's partial update into it.
 *
 * The declared TypedDict has five fields; `cv_type` is written by the
 * classification node and read by the router without being declared, so it is
 * added here as a sixth optional field. Keys outside the schema that the
 * caller passes in (such as `doc_id`) travel in `extra`. A partial update has
 * the same shape as a state: an absent field is a key the update does not set.
 */
module CvState {
  import opened Wrappers

  datatype State = State(
    safe: Option<bool>,
    calibrationScheduled: Option<bool>,
    calibrationNeeded: Option<bool>,
    relatedApplications: Option<string>,
    promptInjection: Option<bool>,
    cvType: Option<string>,
    extra: map<string, string>)

  /** The empty update `{}`, and the state with no key set. */
  const Empty := State(None, None, None, None, None, None, map[])

  /** The later value wins where the update sets one. */
  function Pick<T>(old_: Option<T>, new_: Option<T>): Option<T> {
    if new_.Some? then new_ else old_
  }

  /** Merge partial update `u` into `s`: key by key, the merged state holds
      the update's value where the update sets one and the state's value
      otherwise. */
  function Merge(s: State, u: State): (r: State)
    ensures forall k :: Lookup(r, k) == if Lookup(u, k).Some? then Lookup(u, k) else Lookup(s, k)
  {
    State(
      Pick(s.safe, u.safe),
      Pick(s.calibrationScheduled, u.calibrationScheduled),
      Pick(s.calibrationNeeded, u.calibrationNeeded),
      Pick(s.relatedApplications, u.relatedApplications),
      Pick(s.promptInjection, u.promptInjection),
      Pick(s.cvType, u.cvType),
      s.extra + u.extra)
  }

  // ---------------------------------------------------------------------------
  // The state as the Python dict it stands for.

  datatype Key =
    | Safe | CalibrationScheduled | CalibrationNeeded
    | RelatedApplications | PromptInjection | CvType
    | Undeclared(name: string)

  datatype Val = Flag(b: bool) | Text(t: string)

  /** `s.get(k)`: the value of key `k`, when present. */
  function Lookup(s: State, k: Key): Option<Val> {
    match k
    case Safe => if s.safe.Some? then Some(Flag(s.safe.value)) else None
    case CalibrationScheduled =>
      if s.calibrationScheduled.Some? then Some(Flag(s.calibrationScheduled.value)) else None
    case CalibrationNeeded =>
      if s.calibrationNeeded.Some? then Some(Flag(s.calibrationNeeded.value)) else None
    case RelatedApplications =>
      if s.relatedApplications.Some? then Some(Text(s.relatedApplications.value)) else None
    case PromptInjection =>
      if s.promptInjection.Some? then Some(Flag(s.promptInjection.value)) else None
    case CvType => if s.cvType.Some? then Some(Text(s.cvType.value)) else None
    case Undeclared(n) => if n in s.extra then Some(Text(s.extra[n])) else None
  }

  /** The keys present in `s`. */
  function Keys(s: State): set<Key> {
    (set k | k in {Safe, CalibrationScheduled, CalibrationNeeded, RelatedApplications,
                   PromptInjection, CvType} && Lookup(s, k).Some?)
    + (set n | n in s.extra :: Undeclared(n))
  }

  /** The dict a state stands for: exactly the keys that are present. */
  function ToMap(s: State): (m: map<Key, Val>)
    ensures forall k :: k in m <==> Lookup(s, k).Some?
    ensures forall k :: k in m ==> m[k] == Lookup(s, k).value
  {
    map k | k in Keys(s) :: Lookup(s, k).value
  }

  /** The Python name of a key. */
  function KeyName(k: Key): string {
    match k
    case Safe => "safe"
    case CalibrationScheduled => "calibration_scheduled"
    case CalibrationNeeded => "calibration_needed"
    case RelatedApplications => "related_applications"
    case PromptInjection => "prompt_injection"
    case CvType => "cv_type"
    case Undeclared(n) => n
  }

  /** The names of the six fields the record holds apart from `extra`. */
  const DeclaredNames: set<string> := {
    "safe", "calibration_scheduled", "calibration_needed",
    "related_applications", "prompt_injection", "cv_type"}

  /** `extra` holds no declared name, so no Python key is carried twice. Only
      such states stand for a Python dict. */
  predicate Tidy(s: State) {
    forall n :: n in s.extra ==> n !in DeclaredNames
  }

  /** In a tidy state, distinct present keys have distinct Python names, so
      `ToMap` is a dict keyed by those names. */
  lemma TidyNamesDistinct(s: State, k: Key, l: Key)
    requires Tidy(s)
    requires k in ToMap(s) && l in ToMap(s) && KeyName(k) == KeyName(l)
    ensures k == l
  {
  }

  /** Merging tidy states gives a tidy state. */
  lemma MergeTidy(s: State, u: State)
    requires Tidy(s) && Tidy(u)
    ensures Tidy(Merge(s, u))
  {
  }

  /** Distinct states stand for distinct dicts, so facts about dicts are facts
      about states. */
  lemma ToMapInjective(s: State, t: State)
    requires ToMap(s) == ToMap(t)
    ensures s == t
  {
    assert forall k :: Lookup(s, k) == Lookup(t, k) by {
      forall k ensures Lookup(s, k) == Lookup(t, k) {
        if Lookup(s, k).Some? {
          assert ToMap(s)[k] == ToMap(t)[k];
        } else {
          assert k !in ToMap(t);
        }
      }
    }
    assert Lookup(s, Safe) == Lookup(t, Safe);
    assert Lookup(s, CalibrationScheduled) == Lookup(t, CalibrationScheduled);
    assert Lookup(s, CalibrationNeeded) == Lookup(t, CalibrationNeeded);
    assert Lookup(s, RelatedApplications) == Lookup(t, RelatedApplications);
    assert Lookup(s, PromptInjection) == Lookup(t, PromptInjection);
    assert Lookup(s, CvType) == Lookup(t, CvType);
    assert s.extra == t.extra by {
      forall n | n in s.extra ensures n in t.extra && s.extra[n] == t.extra[n] {
        assert Lookup(s, Undeclared(n)) == Lookup(t, Undeclared(n));
      }
      forall n | n in t.extra ensures n in s.extra {
        assert Lookup(s, Undeclared(n)) == Lookup(t, Undeclared(n));
      }
    }
  }

  /** Merging is Python's dict update `{**s, **u}`: keys in the update
      overwrite, every other key is kept, no key is deleted. */
  lemma MergeIsDictUpdate(s: State, u: State)
    ensures ToMap(Merge(s, u)) == ToMap(s) + ToMap(u)
  {
    var l, r := ToMap(Merge(s, u)), ToMap(s) + ToMap(u);
    forall k
      ensures (k in l <==> k in r) && (k in l ==> l[k] == r[k])
    {
    }
  }

  /** The empty update leaves every state unchanged. */
  lemma MergeEmpty(s: State)
    ensures Merge(s, Empty) == s
  {
  }

  /** Every key the update sets takes the update's value, also when the state
      lacked it; every other key keeps its value; no key disappears. */
  lemma MergeOverwritesAndKeeps(s: State, u: State, k: Key)
    ensures k in ToMap(u) ==> k in ToMap(Merge(s, u)) && ToMap(Merge(s, u))[k] == ToMap(u)[k]
    ensures k !in ToMap(u) && k in ToMap(s) ==> k in ToMap(Merge(s, u)) && ToMap(Merge(s, u))[k] == ToMap(s)[k]
    ensures k in ToMap(Merge(s, u)) <==> k in ToMap(s) || k in ToMap(u)
  {
    MergeIsDictUpdate(s, u);
  }

  /** Applying the same update twice is applying it once. */
  lemma MergeIdempotent(s: State, u: State)
    ensures Merge(Merge(s, u), u) == Merge(s, u)
  {
    MergeIsDictUpdate(s, u);
    MergeIsDictUpdate(Merge(s, u), u);
    assert ToMap(s) + ToMap(u) + ToMap(u) == ToMap(s) + ToMap(u);
    ToMapInjective(Merge(Merge(s, u), u), Merge(s, u));
  }
}
