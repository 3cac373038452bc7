/** realm_admin_payload of scripts/sync-keycloak-demo-data.py. */
module RealmPlan {
  import opened Wrappers
  import opened Json
  import opened NamedEntries

  const SCALAR_FIELDS: set<string> := {
    "realm", "enabled", "sslRequired", "defaultSignatureAlgorithm",
    "accessCodeLifespan", "revokeRefreshToken", "refreshTokenMaxReuse"
  }

  const REALM_ADMIN_FIELDS: set<string> := SCALAR_FIELDS + {"clientPolicies", "clientProfiles"}

  /** dict.get(key, default) */
  function GetOr(o: Object, key: string, default: Json): Json {
    if key in o then o[key] else default
  }

  /** One of the two policy groups after merging the desired entries into the live ones. */
  function MergedGroup(current: Object, desired: Object, field: string, collection: string): Result<Json> {
    var liveGroup := GetOr(current, field, Obj(map[]));
    var desiredGroup := Get(desired, field);
    if !liveGroup.Obj? || !desiredGroup.Obj? then Err
    else
      var live := GetOr(liveGroup.fields, collection, Arr([]));
      var wanted := GetOr(desiredGroup.fields, collection, Arr([]));
      if !WellNamed(live) || !WellNamed(wanted) then Err
      else Ok(Obj(liveGroup.fields[collection := Arr(Merged(live.items, wanted.items))]))
  }

  /** Every field the reconciler manages, at the value it should have. */
  function FullPayload(current: Json, desired: Json): Result<Object> {
    if !current.Obj? || !desired.Obj? || !(REALM_ADMIN_FIELDS <= desired.fields.Keys) then Err
    else
      var policies :- MergedGroup(current.fields, desired.fields, "clientPolicies", "policies");
      var profiles :- MergedGroup(current.fields, desired.fields, "clientProfiles", "profiles");
      var scalars := map f | f in SCALAR_FIELDS :: Get(desired.fields, f);
      Ok(scalars["clientPolicies" := policies]["clientProfiles" := profiles])
  }

  /** realm_admin_payload: the managed fields whose live value differs. */
  function RealmPayload(current: Json, desired: Json): Result<Object> {
    var payload :- FullPayload(current, desired);
    Ok(map f | f in payload && Get(current.fields, f) != payload[f] :: payload[f])
  }

  /** The method form: the group is copied, merged and stored, once for each collection. */
  method MergeGroup(current: Object, desired: Object, field: string, collection: string)
    returns (r: Result<Json>)
    ensures r == MergedGroup(current, desired, field, collection)
  {
    var liveGroup := GetOr(current, field, Obj(map[]));
    var desiredGroup := Get(desired, field);
    if !liveGroup.Obj? || !desiredGroup.Obj? {
      return Err;
    }
    var merged := MergeNamedEntries(GetOr(liveGroup.fields, collection, Arr([])),
                                    GetOr(desiredGroup.fields, collection, Arr([])));
    if merged.Err? {
      return Err;
    }
    return Ok(Obj(liveGroup.fields[collection := Arr(merged.value)]));
  }

  /** Overwriting the realm with its payload leaves nothing to merge into a group. */
  lemma {:induction false} GroupIsStable(current: Object, desired: Object, field: string, collection: string, g: Json,
                                         later: Object)
    requires MergedGroup(current, desired, field, collection) == Ok(g)
    requires Get(later, field) == g
    ensures MergedGroup(later, desired, field, collection) == Ok(g)
  {
    var live := GetOr(GetOr(current, field, Obj(map[])).fields, collection, Arr([])).items;
    var wanted := GetOr(Get(desired, field).fields, collection, Arr([])).items;
    MergeKeepsAndSets(live, wanted);
    MergeIsIdempotent(live, wanted);
    assert GetOr(later, field, Obj(map[])) == g;
    assert g.fields[collection := g.fields[collection]] == g.fields;
  }

  /** After a PUT of the payload the next payload is empty; in particular the two merged
      policy groups and the scalar settings are all in place. */
  lemma {:induction false} RealmConverges(current: Json, desired: Json)
    requires RealmPayload(current, desired).Ok?
    ensures RealmPayload(Obj(current.fields + RealmPayload(current, desired).value), desired) == Ok(map[])
  {
    var full := FullPayload(current, desired).value;
    var sent := RealmPayload(current, desired).value;
    var later := current.fields + sent;
    forall f | f in full ensures Get(later, f) == full[f] {
    }
    GroupIsStable(current.fields, desired.fields, "clientPolicies", "policies", full["clientPolicies"], later);
    GroupIsStable(current.fields, desired.fields, "clientProfiles", "profiles", full["clientProfiles"], later);
    assert FullPayload(Obj(later), desired) == Ok(full);
  }

  /** An empty payload says exactly that every managed setting is in place: scalars as desired,
      and both policy groups already equal to their own merge. */
  lemma {:induction false} EmptyPayloadMeansInPlace(current: Json, desired: Json)
    requires RealmPayload(current, desired).Ok?
    ensures RealmPayload(current, desired).value == map[] <==>
      && (forall f :: f in SCALAR_FIELDS ==> Get(current.fields, f) == Get(desired.fields, f))
      && MergedGroup(current.fields, desired.fields, "clientPolicies", "policies")
         == Ok(Get(current.fields, "clientPolicies"))
      && MergedGroup(current.fields, desired.fields, "clientProfiles", "profiles")
         == Ok(Get(current.fields, "clientProfiles"))
  {
    var full := FullPayload(current, desired).value;
    var sent := RealmPayload(current, desired).value;
    assert full.Keys == REALM_ADMIN_FIELDS;
    if sent == map[] {
      forall f | f in full ensures Get(current.fields, f) == full[f] {
        assert f !in sent;
      }
    } else {
      var f :| f in sent;
    }
  }
}
