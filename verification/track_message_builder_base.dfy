/**
 The part of the Track message shared by the Track and Alias builders: the
 static tables binding input names to the Track properties, and the core
 two-level message `{ "event": ..., "properties": { "token": ... } }`.
 */
module TrackMessageBuilderBase {
  import opened Results
  import opened OrderedMap
  import opened Values
  import opened PropertyNames
  import opened MessageBuilderBase

  /** The names the Track bindings resolve to. */
  const CanonicalTrackNames: set<string> := {TrackEvent, TrackToken, TrackDistinctId}

  /** Input names accepted for the distinct id, both bound to `TrackDistinctId`. */
  const DistinctIdPropsBindingsInternal: Entries<string> :=
    [(TrackDistinctId, TrackDistinctId), ("distinctid", TrackDistinctId)]

  /** The core table as its initialiser declares it, before the static constructor runs. */
  const DeclaredCoreSpecialPropsBindings: Entries<string> :=
    [(TrackEvent, TrackEvent), (TrackToken, TrackToken)]

  /**
   The core table after the static constructor has `Add`ed every distinct-id
   binding to the declared one. `Add` would throw on a shared key; the two
   tables share none, so initialisation succeeds and keeps every entry of both.
   */
  function CoreSpecialPropsBindings(): (r: Result<Entries<string>>)
    ensures r.Ok?
    ensures r.value == DeclaredCoreSpecialPropsBindings + DistinctIdPropsBindingsInternal
    ensures UniqueKeys(r.value)
    ensures KeySet(r.value) == {TrackEvent, TrackToken, TrackDistinctId, "distinctid"}
    ensures forall i :: 0 <= i < |r.value| ==> r.value[i].1 in CanonicalTrackNames
  {
    SmallLiterals(DeclaredCoreSpecialPropsBindings[0], DeclaredCoreSpecialPropsBindings[1]);
    SmallLiterals(DistinctIdPropsBindingsInternal[0], DistinctIdPropsBindingsInternal[1]);
    AddAllSucceedsIffDisjoint(DeclaredCoreSpecialPropsBindings, DistinctIdPropsBindingsInternal);
    KeySetAppend(DeclaredCoreSpecialPropsBindings, DistinctIdPropsBindingsInternal);
    AddAll(DeclaredCoreSpecialPropsBindings, DistinctIdPropsBindingsInternal)
  }

  /**
   The static constructor's loop fails on any distinct-id table sharing a key
   with the declared core table: the disjointness it relies on is necessary.
   */
  lemma StaticInitNeedsDisjointTables(distinctIdBindings: Entries<string>)
    requires UniqueKeys(distinctIdBindings)
    ensures AddAll(DeclaredCoreSpecialPropsBindings, distinctIdBindings).Ok?
        <==> (TrackEvent !in KeySet(distinctIdBindings) && TrackToken !in KeySet(distinctIdBindings))
  {
    SmallLiterals(DeclaredCoreSpecialPropsBindings[0], DeclaredCoreSpecialPropsBindings[1]);
    AddAllSucceedsIffDisjoint(DeclaredCoreSpecialPropsBindings, distinctIdBindings);
  }

  /** The `DistinctIdPropsBindings` property: the internal distinct-id table, as it is. */
  function DistinctIdPropsBindings(): (r: Entries<string>)
    ensures UniqueKeys(r)
    ensures KeySet(r) == {TrackDistinctId, "distinctid"}
    ensures forall i :: 0 <= i < |r| ==> r[i].1 == TrackDistinctId
  {
    SmallLiterals(DistinctIdPropsBindingsInternal[0], DistinctIdPropsBindingsInternal[1]);
    DistinctIdPropsBindingsInternal
  }

  /** Both accepted spellings, and nothing else, resolve to the distinct id. */
  lemma DistinctIdBindingsResolve(name: string)
    ensures name == TrackDistinctId || name == "distinctid"
        ==> Find(DistinctIdPropsBindings(), name) == Some(TrackDistinctId)
    ensures name != TrackDistinctId && name != "distinctid"
        ==> Find(DistinctIdPropsBindings(), name) == None
  {
    SmallLiterals(DistinctIdPropsBindingsInternal[0], DistinctIdPropsBindingsInternal[1]);
  }

  /**
   `GetCoreMessageObject`: the event at the top level and a nested
   properties object holding the token, both as their string form. The event
   is checked first, so when both are unusable the failure names the event.
   */
  function GetCoreMessageObject(data: Entries<Value>): (r: Result<Value>)
    ensures r.Ok? <==> Present(data, TrackEvent) && Present(data, TrackToken)
    ensures !Present(data, TrackEvent) ==> r == Fail(MissingRequiredProperty(TrackEvent))
    ensures Present(data, TrackEvent) && !Present(data, TrackToken)
        ==> r == Fail(MissingRequiredProperty(TrackToken))
    ensures r.Ok? ==>
      && r.value.Dict?
      && |r.value.entries| == 2
      && UniqueKeys(r.value.entries)
      && KeySet(r.value.entries) == {TrackEvent, TrackProperties}
      && Find(r.value.entries, TrackEvent) == Some(Str(Show(Find(data, TrackEvent).value)))
      && Find(r.value.entries, TrackProperties)
         == Some(Dict([(TrackToken, Str(Show(Find(data, TrackToken).value)))]))
  {
    var event :- RequiredProperty(data, TrackEvent);
    var token :- RequiredProperty(data, TrackToken);
    var properties := [(TrackToken, Str(Show(token)))];
    var msg := [(TrackEvent, Str(Show(event))), (TrackProperties, Dict(properties))];
    SmallLiterals(msg[0], msg[1]);
    Ok(Dict(msg))
  }

  /** A string event and token reach the message unchanged. */
  lemma CoreMessageKeepsStrings(data: Entries<Value>, event: string, token: string)
    requires Find(data, TrackEvent) == Some(Str(event)) && event != ""
    requires Find(data, TrackToken) == Some(Str(token)) && token != ""
    ensures GetCoreMessageObject(data)
         == Ok(Dict([(TrackEvent, Str(event)), (TrackProperties, Dict([(TrackToken, Str(token))]))]))
  {
  }
}
