/**
 * `configSet` and the two setters of src/config.c: which key reaches which field,
 * what an unknown key does, and what a known key changes.
 */
module ConfigSetter {

  import opened Wrappers
  import opened ConfigSpec

  /** No key appears twice in the table. */
  lemma KeysDistinct()
    ensures forall i, j :: 0 <= i < j < |Params| ==> Params[i].key != Params[j].key
  {
  }

  /** The entry a known key selects is its own entry. */
  lemma KnownKey(c: Settings, i: nat, value: string)
    requires i < |Params|
    ensures ParamIndex(Params[i].key) == i
    ensures SetValue(c, Params[i].key, value) == Assign(c, Params[i].field, value)
  {
    KeysDistinct();
  }

  /** A key missing from the table changes nothing and is not an error. */
  lemma UnknownKey(c: Settings, key: string, value: string)
    requires forall i :: 0 <= i < |Params| ==> Params[i].key != key
    ensures SetValue(c, key, value) == Ok(c)
  {
    assert ParamIndex(key) == |Params|;
  }

  /** The only failure `configSet` can report is an integer setter refusing its value. */
  lemma SetFailure(c: Settings, key: string, value: string)
    ensures SetValue(c, key, value).Err? ==> SetValue(c, key, value).error == BadInteger(value)
    ensures SetValue(c, key, value).Err? ==>
      ParamIndex(key) < |Params| && Params[ParamIndex(key)].field.IntField? && ConfigInt(value).Err?
  {
  }

  /** What the setter of field `f` makes of `value`: the value stored, or none when it refuses. */
  function Parsed(f: Field, value: string): (p: Option<Value>)
    ensures f.StrField? ==> p == Some(StrValue(value))
    ensures f.IntField? ==> (p.Some? <==> ConfigInt(value).Ok?)
  {
    match f
    case IntField(_) => (
      match ConfigInt(value)
      case Ok(n) => Some(IntValue(n))
      case Err(_) => None)
    case StrField(_) => Some(StrValue(value))
  }

  /**
   * A known key succeeds exactly when its setter accepts the value, and then its
   * field holds what the setter made of it and no other field changes.
   */
  lemma SetParsed(c: Settings, i: nat, value: string)
    requires i < |Params|
    ensures SetValue(c, Params[i].key, value).Ok? <==> Parsed(Params[i].field, value).Some?
    ensures SetValue(c, Params[i].key, value).Ok? ==>
      var r := SetValue(c, Params[i].key, value).value;
      Some(Get(r, Params[i].field)) == Parsed(Params[i].field, value)
      && forall f :: f != Params[i].field ==> Get(r, f) == Get(c, f)
  {
    KnownKey(c, i, value);
    match Params[i].field
    case IntField(s) =>
      if ConfigInt(value).Ok? {
        WithIntFrame(c, s, ConfigInt(value).value);
      }
    case StrField(s) => WithStrFrame(c, s, value);
  }
}
