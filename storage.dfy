/** The stored record under the 'counterState' key: what JSON.parse makes of
    it, how loadState checks it field by field against the defaults, and what
    JSON.stringify writes back. */
module Storage {
  import opened Wrappers
  import opened Counter

  /** A JSON value as a field of the parsed record holds it. An array holds
      the integers that Number() makes of its elements. */
  datatype Value = Null | Bool(b: bool) | Num(n: int) | Str(s: string) | Arr(items: seq<int>) | Obj

  /** The root of the parsed text: an object with its keys, or any other
      JSON value (null, a number, a string, an array, a boolean). */
  datatype Parsed = Record(fields: map<string, Value>) | NonObject(root: Value)

  /** What storage holds under the key: nothing (or the empty string), text
      that JSON.parse rejects, or text that it parses. */
  datatype Stored = Absent | Unparseable | Text(parsed: Parsed)

  /** parsed[key]: a missing key reads as undefined, here None. */
  function Field(fields: map<string, Value>, key: string): Option<Value> {
    if key in fields then Some(fields[key]) else None
  }

  /** Number.isFinite(parsed.count). */
  predicate CountValid(f: Option<Value>) {
    f.Some? && f.value.Num?
  }

  /** Number.isFinite(parsed.goal) && parsed.goal > 0. */
  predicate GoalValid(f: Option<Value>) {
    f.Some? && f.value.Num? && f.value.n > 0
  }

  /** Array.isArray(f) && f.length === arity. */
  predicate PresetsValid(f: Option<Value>, arity: nat) {
    f.Some? && f.value.Arr? && |f.value.items| == arity
  }

  function LoadCount(f: Option<Value>): int {
    if CountValid(f) then f.value.n else Default.count
  }

  function LoadGoal(f: Option<Value>): (goal: int)
    ensures goal > 0
  {
    if GoalValid(f) then f.value.n else DefaultGoal
  }

  function LoadPresets(f: Option<Value>, arity: nat, fallback: seq<int>): (presets: seq<int>)
    requires |fallback| == arity
    ensures |presets| == arity
  {
    if PresetsValid(f, arity) then f.value.items else fallback
  }

  /** loadState(): the defaults when nothing usable is stored; otherwise each
      of the four fields is checked on its own and replaced by its default
      when it fails. The count is not compared with the goal here. */
  function Load(stored: Stored): (s: Snapshot)
    ensures s.WellFormed()
    ensures !(stored.Text? && stored.parsed.Record?) ==> s == Default
  {
    match stored
    case Text(Record(m)) =>
      Snapshot(LoadCount(Field(m, "count")), LoadGoal(Field(m, "goal")),
               LoadPresets(Field(m, "plus"), 4, DefaultPlus),
               LoadPresets(Field(m, "minus"), 2, DefaultMinus))
    case _ => Default
  }

  /** JSON.stringify(state) as it is saved under the key: an object with
      exactly the four keys, each holding its field. */
  function Encode(s: Snapshot): (stored: Stored)
    ensures stored.Text? && stored.parsed.Record?
    ensures stored.parsed.fields.Keys == {"count", "goal", "plus", "minus"}
    ensures Field(stored.parsed.fields, "count") == Some(Num(s.count))
    ensures Field(stored.parsed.fields, "goal") == Some(Num(s.goal))
    ensures Field(stored.parsed.fields, "plus") == Some(Arr(s.plus))
    ensures Field(stored.parsed.fields, "minus") == Some(Arr(s.minus))
  {
    Text(Record(map["count" := Num(s.count), "goal" := Num(s.goal),
                    "plus" := Arr(s.plus), "minus" := Arr(s.minus)]))
  }

  // ---------------------------------------------------------------------
  // Lemmas

  /** Each field of a loaded record is the stored field when that field is
      valid and the default otherwise, whatever the other fields hold. */
  lemma LoadPerField(m: map<string, Value>)
    ensures var s := Load(Text(Record(m)));
      (CountValid(Field(m, "count")) ==> s.count == m["count"].n) &&
      (!CountValid(Field(m, "count")) ==> s.count == Default.count) &&
      (GoalValid(Field(m, "goal")) ==> s.goal == m["goal"].n) &&
      (!GoalValid(Field(m, "goal")) ==> s.goal == DefaultGoal) &&
      (PresetsValid(Field(m, "plus"), 4) ==> s.plus == m["plus"].items) &&
      (!PresetsValid(Field(m, "plus"), 4) ==> s.plus == DefaultPlus) &&
      (PresetsValid(Field(m, "minus"), 2) ==> s.minus == m["minus"].items) &&
      (!PresetsValid(Field(m, "minus"), 2) ==> s.minus == DefaultMinus)
  {
  }

  /** Fields are loaded independently: two stored records that agree on one
      key give the same value for that field. */
  lemma LoadFieldsIndependent(m1: map<string, Value>, m2: map<string, Value>)
    ensures Field(m1, "count") == Field(m2, "count") ==>
      Load(Text(Record(m1))).count == Load(Text(Record(m2))).count
    ensures Field(m1, "goal") == Field(m2, "goal") ==>
      Load(Text(Record(m1))).goal == Load(Text(Record(m2))).goal
    ensures Field(m1, "plus") == Field(m2, "plus") ==>
      Load(Text(Record(m1))).plus == Load(Text(Record(m2))).plus
    ensures Field(m1, "minus") == Field(m2, "minus") ==>
      Load(Text(Record(m1))).minus == Load(Text(Record(m2))).minus
  {
  }

  /** A plus field that is not an array falls back to the default presets
      while a valid minus field beside it is kept. */
  lemma LoadKeepsValidMinus(m: map<string, Value>, minus: seq<int>)
    requires "minus" in m && m["minus"] == Arr(minus) && |minus| == 2
    requires "plus" in m && !m["plus"].Arr?
    ensures Load(Text(Record(m))).plus == DefaultPlus
    ensures Load(Text(Record(m))).minus == minus
  {
  }

  /** What is saved loads back as the same record, for every record whose
      goal is positive and whose preset rows have four and two entries. */
  lemma LoadEncode(s: Snapshot)
    requires s.WellFormed()
    ensures Load(Encode(s)) == s
  {
  }

  /** Saving a loaded record and loading it again changes nothing. */
  lemma LoadSaveLoad(stored: Stored)
    ensures Load(Encode(Load(stored))) == Load(stored)
  {
  }
}
