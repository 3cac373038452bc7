/** The client, mapper and key provider planners of scripts/sync-keycloak-demo-data.py. */
module ClientPlan {
  import opened Wrappers
  import opened Json
  import opened NamedEntries

  const CLIENT_IDS: set<string> := {
    "third-party-fapi-mtls", "third-party-fapi-pkj-mtls", "api-gateway-introspection"
  }

  const CLIENT_ADMIN_FIELDS: set<string> := {
    "clientId", "name", "enabled", "protocol", "publicClient", "consentRequired", "fullScopeAllowed",
    "clientAuthenticatorType", "standardFlowEnabled", "implicitFlowEnabled", "directAccessGrantsEnabled",
    "serviceAccountsEnabled", "redirectUris", "webOrigins", "attributes"
  }

  const MAPPER_ADMIN_FIELDS: set<string> := {"name", "protocol", "protocolMapper", "config"}

  const KEY_PROVIDER_TYPE := "org.keycloak.keys.KeyProvider"
  const MANAGED_KEY_PROVIDER_NAME := "fapi-demo-ps256-rsa-generated"
  const MANAGED_KEY_PROVIDER_ID := "rsa-generated"
  const MANAGED_KEY_PROVIDER_CONFIG: Object := map[
    "priority" := Arr([Str("101")]),
    "enabled" := Arr([Str("true")]),
    "active" := Arr([Str("true")]),
    "keySize" := Arr([Str("3072")]),
    "algorithm" := Arr([Str("PS256")])
  ]
  const PROVIDER_PAYLOAD: Object := map[
    "name" := Str(MANAGED_KEY_PROVIDER_NAME),
    "providerId" := Str(MANAGED_KEY_PROVIDER_ID),
    "providerType" := Str(KEY_PROVIDER_TYPE),
    "config" := Obj(MANAGED_KEY_PROVIDER_CONFIG)
  ]

  /** The live object agrees with the payload on every payload field (`{f: cur.get(f)} == payload`). */
  predicate Agrees(current: Object, payload: Object) {
    forall f :: f in payload ==> Get(current, f) == payload[f]
  }

  /** A plan built so far, continued by the plan of what is left. */
  ghost function Continued<T>(plan: seq<T>, rest: Result<seq<T>>): (r: Result<seq<T>>)
    ensures plan == [] ==> r == rest
    ensures rest == Ok([]) ==> r == Ok(plan)
  {
    if rest.Err? then Err
    else
      assert plan + [] == plan && (plan == [] ==> plan + rest.value == rest.value);
      Ok(plan + rest.value)
  }

  lemma {:induction false} ContinuedByOne<T>(plan: seq<T>, x: T, rest: Result<seq<T>>)
    ensures Continued(plan, Continued([x], rest)) == Continued(plan + [x], rest)
  {
    if rest.Ok? {
      assert plan + ([x] + rest.value) == (plan + [x]) + rest.value;
    }
  }

  /* ---------------- protocol mappers ---------------- */

  /** mapper_admin_payload accepts exactly these. */
  predicate IsMapperPayload(j: Json) {
    && j.Obj? && j.fields.Keys == MAPPER_ADMIN_FIELDS
    && IsText(j.fields["name"]) && IsText(j.fields["protocol"]) && IsText(j.fields["protocolMapper"])
    && j.fields["config"].Obj?
    && forall k :: k in j.fields["config"].fields ==> j.fields["config"].fields[k].Str?
  }

  type MapperPayload = j: Json | IsMapperPayload(j)
    witness Obj(map["name" := Str("m"), "protocol" := Str("p"), "protocolMapper" := Str("q"), "config" := Obj(map[])])

  datatype MapperAction =
    | CreateMapper(payload: MapperPayload)
    | UpdateMapper(id: string, payload: MapperPayload)

  /** The action one desired mapper calls for; None when the live one already agrees. */
  function PlanMapper(desired: MapperPayload, live: seq<NamedEntry>): Result<Option<MapperAction>> {
    match Find(live, NameOf(desired))
    case None => Ok(Some(CreateMapper(desired)))
    case Some(current) =>
      if !IsText(Get(current.fields, "id")) then Err
      else if Agrees(current.fields, desired.fields) then Ok(None)
      else Ok(Some(UpdateMapper(Get(current.fields, "id").s, desired)))
  }

  function PlanMapperActions(desired: seq<MapperPayload>, live: seq<NamedEntry>): Result<seq<MapperAction>> {
    if desired == [] then Ok([])
    else
      var first :- PlanMapper(desired[0], live);
      var rest :- PlanMapperActions(desired[1..], live);
      Ok(if first.Some? then [first.value] + rest else rest)
  }

  /** The desired mapper list the planner accepts. */
  predicate WellFormedMappers(desired: seq<Json>) {
    (forall i :: 0 <= i < |desired| ==> IsMapperPayload(desired[i])) && AllNamed(desired) && DistinctNames(desired)
  }

  /** plan_mapper_sync */
  function PlanMappers(desired: seq<Json>, live: Json): Result<seq<MapperAction>> {
    if !WellFormedMappers(desired) || !WellNamed(live) then Err
    else PlanMapperActions(desired, live.items)
  }

  /** plan_mapper_sync as written: index the live mappers by name, then append to the plan. */
  method PlanMapperSync(desired: seq<Json>, live: Json) returns (r: Result<seq<MapperAction>>)
    ensures r == PlanMappers(desired, live)
  {
    if !WellFormedMappers(desired) || !live.Arr? {
      return Err;
    }
    var indexed := IndexEntries(live.items);
    if indexed.Err? {
      return Err;
    }
    var liveByName: map<string, nat> := indexed.value;
    var mappers: seq<NamedEntry> := live.items;
    var wanted: seq<MapperPayload> := desired;
    var plan: seq<MapperAction> := [];
    assert wanted[0..] == wanted;
    for i := 0 to |wanted|
      invariant PlanMapperActions(wanted, mappers) == Continued(plan, PlanMapperActions(wanted[i..], mappers))
    {
      assert wanted[i..][0] == wanted[i] && wanted[i..][1..] == wanted[i + 1..];
      var name := NameOf(wanted[i]);
      FindByIndex(mappers, liveByName, name);
      if name !in liveByName {
        ContinuedByOne(plan, CreateMapper(wanted[i]), PlanMapperActions(wanted[i + 1..], mappers));
        plan := plan + [CreateMapper(wanted[i])];
      } else {
        var current := mappers[liveByName[name]];
        if !IsText(Get(current.fields, "id")) {
          return Err;
        }
        if !Agrees(current.fields, wanted[i].fields) {
          var action := UpdateMapper(Get(current.fields, "id").s, wanted[i]);
          ContinuedByOne(plan, action, PlanMapperActions(wanted[i + 1..], mappers));
          plan := plan + [action];
        }
      }
    }
    return Ok(plan);
  }

  lemma {:induction false} FindByIndex(xs: seq<NamedEntry>, positions: map<string, nat>, name: string)
    requires Indexes(positions, xs)
    ensures Find(xs, name) == if name in positions then Some(xs[positions[name]]) else None
  {
    FindNames(xs, name);
    if name in positions {
      var e := Find(xs, name).value;
      var i :| 0 <= i < |xs| && xs[i] == e;
      assert positions[NameOf(xs[i])] == i;
    }
  }

  /* ---------------- clients ---------------- */

  /** client_admin_payload accepts exactly these. */
  predicate IsDesiredClient(j: Json) {
    && j.Obj?
    && j.fields.Keys == CLIENT_ADMIN_FIELDS + {"protocolMappers"}
    && IsText(j.fields["clientId"])
    && j.fields["attributes"].Obj?
    && j.fields["redirectUris"].Arr? && j.fields["webOrigins"].Arr?
    && j.fields["protocolMappers"].Arr?
    && var mappers := j.fields["protocolMappers"].items;
       AllNamed(mappers) && DistinctNames(mappers)
       && forall i :: 0 <= i < |mappers| ==> NameOf(mappers[i]) != ""
  }

  /** The managed part of a desired client. */
  function ClientPayload(j: Json): Object
    requires IsDesiredClient(j)
  {
    j.fields - {"protocolMappers"}
  }

  datatype ClientAction =
    | CreateClient(clientId: string, payload: Object)
    | UpdateClient(clientId: string, uuid: string, payload: Object, current: Object)
    | KeepClient(clientId: string, uuid: string)

  /** The live client needs no update: every field but the attributes agrees, and the
      attributes agree or contain the desired ones. */
  predicate ClientInPlace(current: Object, payload: Object)
    requires "attributes" in payload && payload["attributes"].Obj?
  {
    var live := Get(current, "attributes");
    && Agrees(current, payload - {"attributes"})
    && (live == payload["attributes"] || (live.Obj? && Agrees(live.fields, payload["attributes"].fields)))
  }

  function PlanClient(desired: Json, matches: Json): Result<ClientAction> {
    if !IsDesiredClient(desired) || !matches.Arr? || |matches.items| > 1 then Err
    else
      var payload := ClientPayload(desired);
      var clientId := payload["clientId"].s;
      if matches.items == [] then Ok(CreateClient(clientId, payload))
      else
        var current := matches.items[0];
        if !current.Obj? || Get(current.fields, "clientId") != Str(clientId) then Err
        else if !IsText(Get(current.fields, "id")) then Err
        else if ClientInPlace(current.fields, payload) then
          Ok(KeepClient(clientId, Get(current.fields, "id").s))
        else Ok(UpdateClient(clientId, Get(current.fields, "id").s, payload, current.fields))
  }

  /** The inventory check: exactly the three fixed clients, in any order. */
  predicate FixedInventory(desired: seq<Json>) {
    && |desired| == 3
    && (forall i :: 0 <= i < |desired| ==> desired[i].Obj? && Get(desired[i].fields, "clientId").Str?)
    && (set i | 0 <= i < |desired| :: Get(desired[i].fields, "clientId").s) == CLIENT_IDS
  }

  /** `matches_by_client_id.get(client_id)` for the client at hand */
  function MatchesFor(desired: Json, matches: Object): Json {
    if desired.Obj? && Get(desired.fields, "clientId").Str? then Get(matches, Get(desired.fields, "clientId").s)
    else Null
  }

  function PlanClientActions(desired: seq<Json>, matches: Object): Result<seq<ClientAction>> {
    if desired == [] then Ok([])
    else
      var first :- PlanClient(desired[0], MatchesFor(desired[0], matches));
      var rest :- PlanClientActions(desired[1..], matches);
      Ok([first] + rest)
  }

  /** plan_client_sync */
  function PlanClients(desired: Json, matches: Object): Result<seq<ClientAction>> {
    if !desired.Arr? || !FixedInventory(desired.items) then Err
    else PlanClientActions(desired.items, matches)
  }

  /** plan_client_sync as written: one action appended for each desired client. */
  method PlanClientSync(desired: Json, matches: Object) returns (r: Result<seq<ClientAction>>)
    ensures r == PlanClients(desired, matches)
  {
    if !desired.Arr? || !FixedInventory(desired.items) {
      return Err;
    }
    var plan: seq<ClientAction> := [];
    assert desired.items[0..] == desired.items;
    for i := 0 to |desired.items|
      invariant PlanClientActions(desired.items, matches)
             == Continued(plan, PlanClientActions(desired.items[i..], matches))
    {
      assert desired.items[i..][0] == desired.items[i] && desired.items[i..][1..] == desired.items[i + 1..];
      var action := PlanClient(desired.items[i], MatchesFor(desired.items[i], matches));
      if action.Err? {
        return Err;
      }
      ContinuedByOne(plan, action.value, PlanClientActions(desired.items[i + 1..], matches));
      plan := plan + [action.value];
    }
    return Ok(plan);
  }

  /** `{**current_attributes, **payload["attributes"]}`, sent when the live attributes are an object. */
  function UpdateBody(uuid: string, payload: Object, current: Object): Object
    requires "attributes" in payload && payload["attributes"].Obj?
  {
    var live := Get(current, "attributes");
    var attributes := if live.Obj? then Obj(live.fields + payload["attributes"].fields) else payload["attributes"];
    payload["id" := Str(uuid)]["attributes" := attributes]
  }

  /** An update puts its client in place and keeps every other attribute. */
  lemma {:induction false} UpdateSettlesClient(desired: Json, uuid: string, current: Object)
    requires IsDesiredClient(desired)
    ensures var payload := ClientPayload(desired); var body := UpdateBody(uuid, payload, current);
      && ClientInPlace(current + body, payload)
      && (Get(current, "attributes").Obj? ==>
            forall a :: a in Get(current, "attributes").fields && a !in payload["attributes"].fields ==>
              Get(Get(current + body, "attributes").fields, a) == Get(current, "attributes").fields[a])
  {
  }

  /* ---------------- the signing key provider ---------------- */

  datatype ProviderAction =
    | CreateProvider
    | UpdateProvider(id: string)
    | KeepProvider(id: string)

  /** key_provider_admin_payload: the desired realm must hold exactly the managed provider. */
  predicate DesiredProviderOk(realm: Json) {
    && realm.Obj? && Get(realm.fields, "components").Obj?
    && var providers := Get(Get(realm.fields, "components").fields, KEY_PROVIDER_TYPE);
       providers.Arr? && AllNamed(providers.items)
       && |Managed(providers.items)| == 1
       && Managed(providers.items)[0].fields == PROVIDER_PAYLOAD - {"providerType"}
  }

  /** The managed entries of a component list, in order. */
  function Managed(components: seq<NamedEntry>): seq<NamedEntry> {
    if components == [] then []
    else (if NameOf(components[0]) == MANAGED_KEY_PROVIDER_NAME then [components[0]] else []) + Managed(components[1..])
  }

  predicate IsProviderConfig(config: Json) {
    && config.Obj?
    && forall k :: k in config.fields ==> IsTextList(config.fields[k])
  }

  predicate IsTextList(j: Json) {
    j.Arr? && forall i :: 0 <= i < |j.items| ==> j.items[i].Str?
  }

  function PlanManagedProvider(matches: seq<NamedEntry>): Result<ProviderAction> {
    if |matches| > 1 then Err
    else if matches == [] then Ok(CreateProvider)
    else
      var current := matches[0].fields;
      if !IsText(Get(current, "id")) then Err
      else if Get(current, "providerId") != Str(MANAGED_KEY_PROVIDER_ID)
           || Get(current, "providerType") != Str(KEY_PROVIDER_TYPE) then Err
      else if !IsProviderConfig(Get(current, "config")) then Err
      else if Agrees(Get(current, "config").fields, MANAGED_KEY_PROVIDER_CONFIG) then
        Ok(KeepProvider(Get(current, "id").s))
      else Ok(UpdateProvider(Get(current, "id").s))
  }

  /** plan_key_provider_sync on the component list the server returned */
  function PlanProvider(live: Json): Result<ProviderAction> {
    if !live.Arr? || !AllNamed(live.items) then Err else PlanManagedProvider(Managed(live.items))
  }

  /** plan_key_provider_sync as written: collect the managed components, then decide. */
  method PlanKeyProviderSync(live: Json) returns (r: Result<ProviderAction>)
    ensures r == PlanProvider(live)
  {
    if !live.Arr? {
      return Err;
    }
    var matches: seq<NamedEntry> := [];
    for i := 0 to |live.items|
      invariant AllNamed(live.items[..i])
      invariant matches == Managed(live.items[..i])
    {
      if !IsNamed(live.items[i]) {
        return Err;
      }
      var component: NamedEntry := live.items[i];
      assert live.items[..i + 1] == live.items[..i] + [component];
      ManagedAppend(live.items[..i], component);
      if NameOf(component) == MANAGED_KEY_PROVIDER_NAME {
        matches := matches + [component];
      }
    }
    assert live.items[..|live.items|] == live.items;
    return PlanManagedProvider(matches);
  }

  lemma {:induction false} ManagedAppend(xs: seq<NamedEntry>, x: NamedEntry)
    ensures Managed(xs + [x]) == Managed(xs) + if NameOf(x) == MANAGED_KEY_PROVIDER_NAME then [x] else []
  {
    hide NameOf;
    if xs == [] {
      assert xs + [x] == [x];
    } else {
      var head := if NameOf(xs[0]) == MANAGED_KEY_PROVIDER_NAME then [xs[0]] else [];
      var last := if NameOf(x) == MANAGED_KEY_PROVIDER_NAME then [x] else [];
      ManagedAppend(xs[1..], x);
      assert (xs + [x])[1..] == xs[1..] + [x];
      assert Managed(xs + [x]) == head + Managed(xs[1..] + [x]) && Managed(xs) == head + Managed(xs[1..]);
      hide Managed;
      assert head + (Managed(xs[1..]) + last) == head + Managed(xs[1..]) + last;
    }
  }
}
