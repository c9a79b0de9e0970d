/**
 * The strongly typed Diagrid state-store component and the flat metadata map
 * its JSON serialization produces (properties named by their JSON names, null
 * properties omitted).
 */
module DiagridStateStore {
  import opened Wrappers

  /** The component type tag every Diagrid state store carries. */
  const StateStoreType: string := "state.diagrid"

  /** The JSON property names of the metadata record. */
  const JsonNames: set<string> :=
    {"state", "keyPrefix", "outboxDiscardWhenMissingState", "outboxPublishPubsub", "outboxPublishTopic", "outboxPubsub"}

  /** The metadata record: one required property and five optional ones. */
  datatype StateSpecMetadata = StateSpecMetadata(
    state: string,
    keyPrefix: Option<string>,
    outboxDiscardWhenMissingState: Option<string>,
    outboxPublishPubsub: Option<string>,
    outboxPublishTopic: Option<string>,
    outboxPubsub: Option<string>)

  /** A state-store component: its authorised app ids and its metadata. */
  datatype StateStore = StateStore(scopes: seq<string>, metadata: StateSpecMetadata)
  {
    /** The type tag does not depend on the instance. */
    function Type(): (t: string)
      ensures t == StateStoreType
    {
      StateStoreType
    }
  }

  /** `new DiagridStateStore { Metadata = m }`: the scopes default to the empty list. */
  function NewStateStore(metadata: StateSpecMetadata): (s: StateStore)
    ensures s.scopes == [] && s.metadata == metadata && s.Type() == "state.diagrid"
  {
    StateStore([], metadata)
  }

  /** Adds `name` to the map only when the property is not null. */
  function PutIfPresent(m: map<string, string>, name: string, value: Option<string>): map<string, string>
  {
    if value.Some? then m[name := value.value] else m
  }

  /** Serializing the record with nulls skipped and reading it back as a string-keyed map. */
  function Flatten(m: StateSpecMetadata): (r: map<string, string>)
    ensures "state" in r && r["state"] == m.state
    ensures ("keyPrefix" in r <==> m.keyPrefix.Some?) && (m.keyPrefix.Some? ==> r["keyPrefix"] == m.keyPrefix.value)
    ensures ("outboxDiscardWhenMissingState" in r <==> m.outboxDiscardWhenMissingState.Some?)
         && (m.outboxDiscardWhenMissingState.Some? ==> r["outboxDiscardWhenMissingState"] == m.outboxDiscardWhenMissingState.value)
    ensures ("outboxPublishPubsub" in r <==> m.outboxPublishPubsub.Some?)
         && (m.outboxPublishPubsub.Some? ==> r["outboxPublishPubsub"] == m.outboxPublishPubsub.value)
    ensures ("outboxPublishTopic" in r <==> m.outboxPublishTopic.Some?)
         && (m.outboxPublishTopic.Some? ==> r["outboxPublishTopic"] == m.outboxPublishTopic.value)
    ensures ("outboxPubsub" in r <==> m.outboxPubsub.Some?)
         && (m.outboxPubsub.Some? ==> r["outboxPubsub"] == m.outboxPubsub.value)
    ensures r.Keys <= JsonNames
  {
    var r0 := map["state" := m.state];
    var r1 := PutIfPresent(r0, "keyPrefix", m.keyPrefix);
    var r2 := PutIfPresent(r1, "outboxDiscardWhenMissingState", m.outboxDiscardWhenMissingState);
    var r3 := PutIfPresent(r2, "outboxPublishPubsub", m.outboxPublishPubsub);
    var r4 := PutIfPresent(r3, "outboxPublishTopic", m.outboxPublishTopic);
    PutIfPresent(r4, "outboxPubsub", m.outboxPubsub)
  }

  /** The value stored under `name`, or null. */
  function Get(r: map<string, string>, name: string): Option<string>
  {
    if name in r then Some(r[name]) else None
  }

  /** An optional field read from `r`: present exactly when `name` is, with its value. */
  predicate ReadBack(field: Option<string>, r: map<string, string>, name: string)
  {
    (field.Some? <==> name in r) && (field.Some? ==> field.value == r[name])
  }

  /** Reading a flat map back into the record; the required `state` must be there. */
  function Unflatten(r: map<string, string>): (m: Option<StateSpecMetadata>)
    ensures m.Some? <==> "state" in r
    ensures m.Some? ==> m.value.state == r["state"]
    ensures m.Some? ==>
      && ReadBack(m.value.keyPrefix, r, "keyPrefix")
      && ReadBack(m.value.outboxDiscardWhenMissingState, r, "outboxDiscardWhenMissingState")
      && ReadBack(m.value.outboxPublishPubsub, r, "outboxPublishPubsub")
      && ReadBack(m.value.outboxPublishTopic, r, "outboxPublishTopic")
      && ReadBack(m.value.outboxPubsub, r, "outboxPubsub")
  {
    if "state" !in r then None
    else Some(StateSpecMetadata(
      r["state"],
      Get(r, "keyPrefix"),
      Get(r, "outboxDiscardWhenMissingState"),
      Get(r, "outboxPublishPubsub"),
      Get(r, "outboxPublishTopic"),
      Get(r, "outboxPubsub")))
  }

  /** Flattening loses nothing: the record can be read back from its map. */
  lemma UnflattenFlatten(m: StateSpecMetadata)
    ensures Unflatten(Flatten(m)) == Some(m)
  {
  }

  /** Every map over the JSON names that holds `state` is the flattening of some record. */
  lemma FlattenUnflatten(r: map<string, string>)
    requires "state" in r && r.Keys <= JsonNames
    ensures Unflatten(r).Some? && Flatten(Unflatten(r).value) == r
  {
    var r' := Flatten(Unflatten(r).value);
    assert r'.Keys == r.Keys;
  }

  /** The flattened metadata has at most six entries. */
  lemma FlattenSize(m: StateSpecMetadata)
    ensures 1 <= |Flatten(m)| <= 6
  {
    var r := Flatten(m);
    SubsetCardinality(r.Keys, JsonNames);
    assert |JsonNames| == 6;
    assert "state" in r.Keys;
    SubsetCardinality({"state"}, r.Keys);
  }

  lemma {:induction false} SubsetCardinality(a: set<string>, b: set<string>)
    requires a <= b
    ensures |a| <= |b|
  {
    if a != {} {
      var x :| x in a;
      SubsetCardinality(a - {x}, b - {x});
    }
  }

  /** The metadata of the sample key-value component is exactly `state ↦ name`. */
  lemma SampleMetadata(name: string)
    ensures Flatten(StateSpecMetadata(name, None, None, None, None, None)) == map["state" := name]
  {
  }
}
