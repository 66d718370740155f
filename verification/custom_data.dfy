/**
 * The custom-data store: an ordered list of (kind, key, value) records with a
 * filter on what is persisted and an update-or-append on the key.
 */
module CustomStore {
  import opened Wrappers
  import opened CarlaTypes

  predicate StartsWith(s: string, prefix: string)
  {
    |prefix| <= |s| && s[..|prefix|] == prefix
  }

  /**
   * What `set_custom_data` keeps: never an invalid kind, and never a string
   * whose key starts with "OSC:" or is "guiVisible" (live remote-control
   * bookkeeping); anything else is kept.
   */
  function Persisted(kind: CustomDataType, key: string): (keep: bool)
    ensures kind == CustomDataInvalid ==> !keep
    ensures kind.CustomDataOther? ==> keep
    ensures kind == CustomDataString ==> (keep <==> !StartsWith(key, "OSC:") && key != "guiVisible")
  {
    match kind
    case CustomDataInvalid => false
    case CustomDataString => !(StartsWith(key, "OSC:") || key == "guiVisible")
    case CustomDataOther(_) => true
  }

  /** Position of the first record with this key. */
  function KeyIndex(custom: seq<CustomData>, key: string): (r: Option<nat>)
    ensures r.Some? ==> r.value < |custom| && custom[r.value].key == key
    ensures r.Some? ==> forall j :: 0 <= j < r.value ==> custom[j].key != key
    ensures r.None? <==> forall j :: 0 <= j < |custom| ==> custom[j].key != key
  {
    FirstMatch(custom, (d: CustomData) => d.key == key)
  }

  /** The value stored under `key`, as a reader scanning the list would see it. */
  function Lookup(custom: seq<CustomData>, key: string): (r: Option<string>)
    ensures r.None? <==> forall j :: 0 <= j < |custom| ==> custom[j].key != key
  {
    match KeyIndex(custom, key)
    case Some(i) => Some(custom[i].value)
    case None => None
  }

  /** No two records share a key. */
  ghost predicate UniqueKeys(custom: seq<CustomData>)
  {
    forall i, j :: 0 <= i < j < |custom| ==> custom[i].key != custom[j].key
  }

  /**
   * `set_custom_data`'s effect on the list: a filtered-out submission changes
   * nothing; a key already present has its value replaced and keeps its kind;
   * a new key is appended as (kind, key, value).
   */
  function Upsert(custom: seq<CustomData>, kind: CustomDataType, key: string, value: string): (r: seq<CustomData>)
    ensures !Persisted(kind, key) ==> r == custom
    ensures |custom| <= |r| <= |custom| + 1
    ensures forall j :: 0 <= j < |custom| ==> r[j].key == custom[j].key && r[j].kind == custom[j].kind
    ensures |r| == |custom| + 1 ==> r[|custom|] == CustomData(kind, key, value)
  {
    if !Persisted(kind, key) then custom
    else match KeyIndex(custom, key)
      case Some(i) => custom[i := custom[i].(value := value)]
      case None => custom + [CustomData(kind, key, value)]
  }

  /** Keys stay unique under any number of `set_custom_data` calls. */
  lemma UpsertKeepsKeysUnique(custom: seq<CustomData>, kind: CustomDataType, key: string, value: string)
    requires UniqueKeys(custom)
    ensures UniqueKeys(Upsert(custom, kind, key, value))
  {
  }

  /** The first record holding `key` is the one `KeyIndex` finds. */
  lemma KeyIndexAt(custom: seq<CustomData>, key: string, i: nat)
    requires i < |custom| && custom[i].key == key
    requires forall j :: 0 <= j < i ==> custom[j].key != key
    ensures KeyIndex(custom, key) == Some(i)
  {
  }

  /** Last writer wins: after a persisted submission the key reads back as the submitted value. */
  lemma UpsertLookup(custom: seq<CustomData>, kind: CustomDataType, key: string, value: string)
    requires Persisted(kind, key)
    ensures Lookup(Upsert(custom, kind, key, value), key) == Some(value)
  {
    var r := Upsert(custom, kind, key, value);
    match KeyIndex(custom, key) {
      case Some(i) =>
        KeyIndexAt(r, key, i);
      case None =>
        KeyIndexAt(r, key, |custom|);
    }
  }

  /** A submission under one key leaves what every other key reads back unchanged. */
  lemma UpsertLeavesOtherKeys(custom: seq<CustomData>, kind: CustomDataType, key: string, value: string, other: string)
    requires other != key
    ensures Lookup(Upsert(custom, kind, key, value), other) == Lookup(custom, other)
  {
    var r := Upsert(custom, kind, key, value);
    if Persisted(kind, key) {
      match KeyIndex(custom, other) {
        case Some(k) =>
          KeyIndexAt(r, other, k);
          assert r[k].value == custom[k].value;
        case None =>
          assert forall j :: 0 <= j < |r| ==> r[j].key != other;
      }
    }
  }

  /** The list grows only when the key is new and the submission passes the filter. */
  lemma UpsertGrowsOnlyForNewKeys(custom: seq<CustomData>, kind: CustomDataType, key: string, value: string)
    ensures |Upsert(custom, kind, key, value)| == |custom| + 1 <==>
              Persisted(kind, key) && forall j :: 0 <= j < |custom| ==> custom[j].key != key
  {
  }
}
