/** What every run of the reconciler leaves alone. */
module Survival {
  import opened Wrappers
  import opened Json
  import opened NamedEntries
  import opened RealmPlan
  import opened ClientPlan
  import opened AdminState
  import opened Convergence
  import opened ReconcilerTheorems

  function DesiredClients(desired: Json): seq<Json> {
    if desired.Obj? && Get(desired.fields, "clients").Arr? then Get(desired.fields, "clients").items else []
  }

  /** The desired client of that clientId asks for this attribute. */
  predicate WantsAttribute(desired: Json, clientId: Json, attribute: string) {
    exists d :: d in DesiredClients(desired) && IsDesiredClient(d) && d.fields["clientId"] == clientId
      && attribute in d.fields["attributes"].fields
  }

  /** The desired client of that clientId asks for a mapper of this name. */
  predicate WantsMapper(desired: Json, clientId: Json, name: Json) {
    exists d :: d in DesiredClients(desired) && IsDesiredClient(d) && d.fields["clientId"] == clientId
      && exists m :: m in d.fields["protocolMappers"].items && IsMapperPayload(m) && m.fields["name"] == name
  }

  /** now is was with at most the listed fields changed. */
  predicate SameOutside(was: Object, now: Object, fields: set<string>) {
    forall f :: f in was && f !in fields ==> f in now && now[f] == was[f]
  }

  predicate Kept(was: Object, now: Object, key: string)
    requires key in was
  {
    key in now && now[key] == was[key]
  }

  predicate ClientSurvives(desired: Json, was: Json, now: Json) {
    if was.Obj? && Get(was.fields, "clientId").Str? && Get(was.fields, "clientId").s in CLIENT_IDS then
      && now.Obj? && IdOf(now) == IdOf(was) && Get(now.fields, "clientId") == Get(was.fields, "clientId")
      && SameOutside(was.fields, now.fields, CLIENT_ADMIN_FIELDS)
      && (Get(was.fields, "attributes").Obj? ==>
            && Get(now.fields, "attributes").Obj?
            && forall a ::
                 && a in Get(was.fields, "attributes").fields
                 && !WantsAttribute(desired, Get(was.fields, "clientId"), a) ==>
                 Kept(Get(was.fields, "attributes").fields, Get(now.fields, "attributes").fields, a))
    else now == was
  }

  predicate MapperSurvives(desired: Json, clientId: Json, was: Json, now: Json) {
    if was.Obj? && WantsMapper(desired, clientId, Get(was.fields, "name")) then
      && now.Obj? && Get(now.fields, "name") == Get(was.fields, "name")
      && SameOutside(was.fields, now.fields, MAPPER_ADMIN_FIELDS)
    else now == was
  }

  predicate ComponentSurvives(was: Json, now: Json) {
    if Matches(was, "name", MANAGED_KEY_PROVIDER_NAME) then
      && now.Obj? && Matches(now, "name", MANAGED_KEY_PROVIDER_NAME)
      && SameOutside(was.fields, now.fields, PROVIDER_PAYLOAD.Keys)
      && (Get(was.fields, "config").Obj? ==>
            && Get(now.fields, "config").Obj?
            && SameOutside(Get(was.fields, "config").fields, Get(now.fields, "config").fields,
                           MANAGED_KEY_PROVIDER_CONFIG.Keys))
    else now == was
  }

  /** The clientId of the client stored under that id, if there is one. */
  function OwnerOf(s: Server, uuid: string): Json {
    var k := Position(s.clients, uuid);
    if k < |s.clients| then Get(s.clients[k].fields, "clientId") else Null
  }

  ghost predicate MappersSurvive(desired: Json, clientId: Json, was: seq<Json>, now: seq<Json>) {
    |was| <= |now| && forall i :: 0 <= i < |was| ==> MapperSurvives(desired, clientId, was[i], now[i])
  }

  ghost predicate ClientsSurvive(desired: Json, was: seq<Json>, now: seq<Json>) {
    |was| <= |now| && forall i :: 0 <= i < |was| ==> ClientSurvives(desired, was[i], now[i])
  }

  ghost predicate ComponentsSurvive(was: seq<Json>, now: seq<Json>) {
    |was| <= |now| && forall i :: 0 <= i < |was| ==> ComponentSurvives(was[i], now[i])
  }

  ghost predicate OwnersSurvive(was: Server, now: Server) {
    forall u :: u in was.mappers ==> OwnerOf(now, u) == OwnerOf(was, u)
  }

  ghost predicate AllMappersSurvive(desired: Json, was: Server, now: Server) {
    forall u :: u in was.mappers ==>
      u in now.mappers && MappersSurvive(desired, OwnerOf(was, u), was.mappers[u], now.mappers[u])
  }

  /** Nothing is deleted or moved; clients outside the fixed set, other components and mappers
      nobody asked for are untouched; managed objects keep every unmanaged field, attribute and
      config key; the realm keeps every unmanaged field. */
  ghost predicate Survives(desired: Json, was: Server, now: Server) {
    && ClientsSurvive(desired, was.clients, now.clients)
    && ComponentsSurvive(was.components, now.components)
    && OwnersSurvive(was, now)
    && AllMappersSurvive(desired, was, now)
    && (was.realm.Obj? ==> now.realm.Obj? && SameOutside(was.realm.fields, now.realm.fields, REALM_ADMIN_FIELDS))
  }

  lemma {:induction false} SurvivesTransitive(desired: Json, a: Server, b: Server, c: Server)
    requires Survives(desired, a, b) && Survives(desired, b, c)
    ensures Survives(desired, a, c)
  {
    forall i | 0 <= i < |a.clients| ensures ClientSurvives(desired, a.clients[i], c.clients[i]) {
      assert ClientSurvives(desired, a.clients[i], b.clients[i]) && ClientSurvives(desired, b.clients[i], c.clients[i]);
    }
    forall i | 0 <= i < |a.components| ensures ComponentSurvives(a.components[i], c.components[i]) {
      assert ComponentSurvives(a.components[i], b.components[i]) && ComponentSurvives(b.components[i], c.components[i]);
    }
    forall u | u in a.mappers
      ensures u in c.mappers && OwnerOf(c, u) == OwnerOf(a, u)
        && MappersSurvive(desired, OwnerOf(a, u), a.mappers[u], c.mappers[u])
    {
      forall i | 0 <= i < |a.mappers[u]|
        ensures MapperSurvives(desired, OwnerOf(a, u), a.mappers[u][i], c.mappers[u][i])
      {
        assert MapperSurvives(desired, OwnerOf(a, u), a.mappers[u][i], b.mappers[u][i]);
        assert MapperSurvives(desired, OwnerOf(a, u), b.mappers[u][i], c.mappers[u][i]);
      }
    }
  }

  lemma {:induction false} OwnerSame(s: Server, s': Server, u: string)
    requires |s.clients| <= |s'.clients|
    requires forall i :: 0 <= i < |s.clients| ==> SameOwner(s.clients[i], s'.clients[i])
    requires forall i :: |s.clients| <= i < |s'.clients| ==> IdOf(s'.clients[i]) != Some(u)
    ensures OwnerOf(s', u) == OwnerOf(s, u)
  {
    var k, k' := Position(s.clients, u), Position(s'.clients, u);
    assert k < |s.clients| ==> IdOf(s'.clients[k]) == Some(u);
    assert k' < |s.clients| ==> IdOf(s.clients[k']) == Some(u);
  }

  predicate SameOwner(was: Json, now: Json) {
    IdOf(now) == IdOf(was) && (IdOf(was).Some? ==> Get(now.fields, "clientId") == Get(was.fields, "clientId"))
  }

  lemma {:induction false} Unchanged(desired: Json, s: Server)
    ensures ClientsSurvive(desired, s.clients, s.clients)
    ensures ComponentsSurvive(s.components, s.components)
    ensures forall u :: u in s.mappers ==> MappersSurvive(desired, OwnerOf(s, u), s.mappers[u], s.mappers[u])
  {
  }

  /** A state that differs in one component. */
  lemma {:induction false} OneComponent(desired: Json, s: Server, k: nat, now: Json)
    requires k < |s.components| && ComponentSurvives(s.components[k], now)
    ensures Survives(desired, s, s.(components := s.components[k := now]))
  {
    Unchanged(desired, s);
    assert ComponentsSurvive(s.components, s.components[k := now]);
  }

  /** A state that differs in one client of the fixed set. */
  lemma {:induction false} OneClient(desired: Json, s: Server, k: nat, now: Json)
    requires k < |s.clients| && ClientSurvives(desired, s.clients[k], now) && SameOwner(s.clients[k], now)
    ensures Survives(desired, s, s.(clients := s.clients[k := now]))
  {
    var s' := s.(clients := s.clients[k := now]);
    Unchanged(desired, s);
    assert ClientsSurvive(desired, s.clients, s.clients[k := now]);
    forall u | u in s.mappers ensures OwnerOf(s', u) == OwnerOf(s, u) {
      OwnerSame(s, s', u);
    }
  }

  /** A state that differs in the mappers of one client. */
  lemma {:induction false} OneMapperList(desired: Json, s: Server, uuid: string, now: seq<Json>)
    requires MappersSurvive(desired, OwnerOf(s, uuid), MappersOf(s, uuid), now)
    ensures Survives(desired, s, s.(mappers := s.mappers[uuid := now]))
  {
    Unchanged(desired, s);
    assert AllMappersSurvive(desired, s, s.(mappers := s.mappers[uuid := now]));
  }

  lemma {:induction false} ProviderPutSurvives(desired: Json, s: Server, id: string, c: Choice)
    requires WellKept(s) && PrepareProvider(s) == Ok(UpdateProvider(id))
    ensures Survives(desired, s, Exec(s, PutProvider(id), c))
  {
    ProviderLookup(s);
    var k := WhereFinds(s.components, "name", MANAGED_KEY_PROVIDER_NAME, 0);
    PutComponentIs(s.components, k, id);
    UpdatedProviderSurvives(s.components[k], id);
    OneComponent(desired, s, k, UpdatedProvider(s.components[k].fields, id));
  }

  lemma {:induction false} UpdatedProviderSurvives(was: Json, id: string)
    requires Matches(was, "name", MANAGED_KEY_PROVIDER_NAME) && Get(was.fields, "config").Obj?
    requires IdOf(was) == Some(id)
    ensures ComponentSurvives(was, UpdatedProvider(was.fields, id))
  {
    var now := UpdatedProvider(was.fields, id);
    assert Get(now.fields, "name") == Str(MANAGED_KEY_PROVIDER_NAME);
  }

  lemma {:induction false} ProviderWriteSurvives(desired: Json, s: Server, w: Write, c: Choice)
    requires WellKept(s) && PrepareProvider(s).Ok? && ProviderWrites(PrepareProvider(s).value) == [w]
    ensures Survives(desired, s, Exec(s, w, c))
  {
    if w.PutProvider? {
      ProviderPutSurvives(desired, s, w.id, c);
    } else {
      Unchanged(desired, s);
      assert ComponentsSurvive(s.components, s.components + [Created(PROVIDER_PAYLOAD, c.id, c.defaults)]);
    }
  }

  /** The body of a client update spares every attribute nobody asks for. */
  lemma {:induction false} UpdatedClientSurvives(desired: Json, d: Json, was: Json, uuid: string)
    requires d in DesiredClients(desired) && IsDesiredClient(d) && d.fields["clientId"].s in CLIENT_IDS
    requires Matches(was, "clientId", d.fields["clientId"].s) && IdOf(was) == Some(uuid)
    ensures ClientSurvives(desired, was, Obj(was.fields + UpdateBody(uuid, ClientPayload(d), was.fields)))
    ensures SameOwner(was, Obj(was.fields + UpdateBody(uuid, ClientPayload(d), was.fields)))
  {
    var now := Obj(was.fields + UpdateBody(uuid, ClientPayload(d), was.fields));
    var live, wanted := Get(was.fields, "attributes"), d.fields["attributes"].fields;
    assert SameOutside(was.fields, now.fields, CLIENT_ADMIN_FIELDS);
    if live.Obj? {
      assert Get(now.fields, "attributes") == Obj(live.fields + wanted);
      forall a | a in live.fields && !WantsAttribute(desired, Get(was.fields, "clientId"), a) ensures a !in wanted {
      }
    }
  }

  /** A client PUT overwrites the one client found for d. */
  lemma {:induction false} PutOverwrites(d: Json, s: Server, p: Prepared, w: Write, c: Choice) returns (k: nat)
    requires WellKept(s) && PrepareClient(d, s) == Ok(p) && p.action.UpdateClient? && ClientWrite(p.action) == [w]
    ensures IsDesiredClient(d) && k < |s.clients| && IdOf(s.clients[k]) == Some(p.action.uuid)
    ensures s.clients[k].Obj? && Get(s.clients[k].fields, "clientId") == d.fields["clientId"]
    ensures Exec(s, w, c)
         == s.(clients := s.clients[k := Obj(
              s.clients[k].fields + UpdateBody(p.action.uuid, ClientPayload(d), s.clients[k].fields))])
  {
    k := FoundClient(d, s);
    PositionIs(s.clients, k, p.action.uuid);
  }

  lemma {:induction false} ClientPutSurvives(desired: Json, d: Json, s: Server, p: Prepared, w: Write, c: Choice)
    requires WellKept(s) && d in DesiredClients(desired) && PrepareClient(d, s) == Ok(p) && p.action.UpdateClient?
    requires d.fields["clientId"].s in CLIENT_IDS && ClientWrite(p.action) == [w]
    ensures Survives(desired, s, Exec(s, w, c))
  {
    var k := PutOverwrites(d, s, p, w, c);
    var was := s.clients[k];
    hide PrepareClient, WellKept, Survives, ClientSurvives, ClientPayload, UpdateBody, SameOwner, Exec, ClientWrite;
    UpdatedClientSurvives(desired, d, was, p.action.uuid);
    OneClient(desired, s, k, Obj(was.fields + UpdateBody(p.action.uuid, ClientPayload(d), was.fields)));
  }

  lemma {:induction false} ClientPostSurvives(desired: Json, s: Server, payload: Object, c: Choice)
    requires Allocates(s, PostClient(payload), c)
    ensures Survives(desired, s, Exec(s, PostClient(payload), c))
  {
    var s' := Exec(s, PostClient(payload), c);
    Unchanged(desired, s);
    assert ClientsSurvive(desired, s.clients, s'.clients);
    forall u | u in s.mappers ensures OwnerOf(s', u) == OwnerOf(s, u) {
      OwnerSame(s, s', u);
    }
  }

  lemma {:induction false} MapperActionSurvives(desired: Json, d: Json, live: seq<Json>, c: Choice)
    requires d in DesiredClients(desired) && IsDesiredClient(d) && DistinctIds(live)
    requires var plan := PlanMappers(d.fields["protocolMappers"].items, Arr(live)); plan.Ok? && plan.value != []
    ensures MappersSurvive(desired, d.fields["clientId"], live,
              AfterMapper(live, PlanMappers(d.fields["protocolMappers"].items, Arr(live)).value[0], c))
  {
    var wanted: seq<MapperPayload> := d.fields["protocolMappers"].items;
    var a := PlanMapperActions(wanted, live).value[0];
    PlannedIsDesired(wanted, live);
    assert WantsMapper(desired, d.fields["clientId"], a.payload.fields["name"]);
    hide PlanMapperActions, IsDesiredClient, WantsMapper, MapperSurvives;
    if a.UpdateMapper? {
      MapperPutSurvives(desired, d.fields["clientId"], live, a.id, a.payload);
    } else {
      forall i | 0 <= i < |live| ensures MapperSurvives(desired, d.fields["clientId"], live[i], live[i]) {
        MapperUntouched(desired, d.fields["clientId"], live[i]);
      }
    }
  }

  lemma {:induction false} MapperUntouched(desired: Json, clientId: Json, m: Json)
    ensures MapperSurvives(desired, clientId, m, m)
  {
    hide WantsMapper;
  }

  lemma {:induction false} MapperPutSurvives(desired: Json, clientId: Json, live: seq<NamedEntry>, id: string,
                                             m: MapperPayload)
    requires DistinctIds(live) && WantsMapper(desired, clientId, m.fields["name"])
    requires Find(live, NameOf(m)).Some? && Get(Find(live, NameOf(m)).value.fields, "id") == Str(id) && id != ""
    ensures MappersSurvive(desired, clientId, live, Put(live, id, m.fields["id" := Str(id)]))
  {
    hide WantsMapper;
    FindNames(live, NameOf(m));
    var i :| 0 <= i < |live| && live[i] == Find(live, NameOf(m)).value;
    PositionIs(live, i, id);
    hide Find, MapperSurvives;
    forall k | 0 <= k < |live| ensures MapperSurvives(desired, clientId, live[k], live[k]) {
      MapperUntouched(desired, clientId, live[k]);
    }
    MapperOverwritten(desired, clientId, live[i], id, m);
  }

  lemma {:induction false} MapperOverwritten(desired: Json, clientId: Json, was: NamedEntry, id: string,
                                             m: MapperPayload)
    requires WantsMapper(desired, clientId, m.fields["name"]) && NameOf(was) == NameOf(m)
    requires Get(was.fields, "id") == Str(id)
    ensures MapperSurvives(desired, clientId, was, Obj(was.fields + m.fields["id" := Str(id)]))
  {
    hide WantsMapper;
  }

  lemma {:induction false} MapperWriteSurvives(desired: Json, d: Json, s: Server, p: Prepared, w: Write, c: Choice)
    requires WellKept(s) && d in DesiredClients(desired) && PrepareClient(d, s) == Ok(p)
    requires ClientWrite(p.action) == [] && p.mapperPlan != [] && w == MapperWrite(p.action.clientId, p.mapperPlan[0])
    ensures Survives(desired, s, Exec(s, w, c))
  {
    PreparedMappers(d, s, p);
    hide *;
    var uuid, a := p.action.uuid, p.mapperPlan[0];
    MapperActionSurvives(desired, d, MappersOf(s, uuid), c);
    OneMapperList(desired, s, uuid, AfterMapper(MappersOf(s, uuid), a, c));
    ExecMapper(s, p.action.clientId, uuid, a, c);
  }

  /** A client that needs no write keeps its mappers under the id it is found by. */
  lemma {:induction false} PreparedMappers(d: Json, s: Server, p: Prepared)
    requires WellKept(s) && PrepareClient(d, s) == Ok(p) && ClientWrite(p.action) == []
    ensures IsDesiredClient(d) && p.action.KeepClient? && UuidOf(s, p.action.clientId) == p.action.uuid
    ensures OwnerOf(s, p.action.uuid) == d.fields["clientId"] && DistinctIds(MappersOf(s, p.action.uuid))
    ensures PlanMappers(d.fields["protocolMappers"].items, Arr(MappersOf(s, p.action.uuid))) == Ok(p.mapperPlan)
  {
    var k := FoundClient(d, s);
    hide PlanMappers;
    PositionIs(s.clients, k, p.action.uuid);
  }

  lemma {:induction false} ExecMapper(s: Server, clientId: string, uuid: string, a: MapperAction, c: Choice)
    requires UuidOf(s, clientId) == uuid
    ensures Exec(s, MapperWrite(clientId, a), c)
         == s.(mappers := s.mappers[uuid := AfterMapper(MappersOf(s, uuid), a, c)])
  {
    hide UuidOf, MappersOf;
  }

  /** Every planned write leaves everything unmanaged alone. */
  lemma {:induction false} StepSurvives(desired: Json, s: Server, c: Choice)
    requires WellKept(s) && PlanRun(desired, s).Ok?
    requires Writes(PlanRun(desired, s).value) != []
    requires Allocates(s, Writes(PlanRun(desired, s).value)[0], c)
    ensures Survives(desired, s, Exec(s, Writes(PlanRun(desired, s).value)[0], c))
  {
    var p := PlanRun(desired, s).value;
    var w := Writes(p)[0];
    SplitFirst(ProviderWrites(p.provider), ClientWrites(p.clients), MapperWrites(p.clients), RealmWrites(p.realm));
    if ProviderWrites(p.provider) != [] {
      ProviderWriteSurvives(desired, s, w, c);
    } else if ClientWrites(p.clients) != [] || MapperWrites(p.clients) != [] {
      ClientPhaseSurvives(desired, s, p, w, c);
    } else {
      RealmPutSurvives(desired, s, p.realm, c);
    }
  }

  lemma {:induction false} RealmPutSurvives(desired: Json, s: Server, payload: Object, c: Choice)
    requires RealmPayload(s.realm, desired) == Ok(payload)
    ensures Survives(desired, s, Exec(s, PutRealm(payload), c))
  {
    ExecRealm(s, payload, c);
    Unchanged(desired, s);
    assert payload.Keys <= REALM_ADMIN_FIELDS;
    assert SameOutside(s.realm.fields, s.realm.fields + payload, REALM_ADMIN_FIELDS);
  }

  lemma {:induction false} ClientPhaseSurvives(desired: Json, s: Server, p: Plan, w: Write, c: Choice)
    requires WellKept(s) && PlanRun(desired, s) == Ok(p) && Allocates(s, w, c)
    requires if ClientWrites(p.clients) != [] then w == ClientWrites(p.clients)[0]
             else MapperWrites(p.clients) != [] && w == MapperWrites(p.clients)[0]
    ensures Survives(desired, s, Exec(s, w, c))
  {
    hide *;
    if ClientWrites(p.clients) != [] {
      FirstPassSurvives(desired, s, p, w, c);
    } else {
      SecondPassSurvives(desired, s, p, w, c);
    }
  }

  lemma {:induction false} FirstPassSurvives(desired: Json, s: Server, p: Plan, w: Write, c: Choice)
    requires WellKept(s) && PlanRun(desired, s) == Ok(p) && Allocates(s, w, c)
    requires ClientWrites(p.clients) != [] && w == ClientWrites(p.clients)[0]
    ensures Survives(desired, s, Exec(s, w, c))
  {
    hide Survives, Exec, Allocates, IsDesiredClient, WellKept, PrepareClient, MapperWrites;
    var clients := Get(desired.fields, "clients").items;
    PrepareAllPointwise(clients, s);
    var j := FirstClientWrite(p.clients);
    var d, q := clients[j], p.clients[j];
    assert Get(d.fields, "clientId").s in set i | 0 <= i < |clients| :: Get(clients[i].fields, "clientId").s;
    if q.action.CreateClient? {
      ClientPostSurvives(desired, s, w.payload, c);
    } else {
      ClientPutSurvives(desired, d, s, q, w, c);
    }
  }

  lemma {:induction false} SecondPassSurvives(desired: Json, s: Server, p: Plan, w: Write, c: Choice)
    requires WellKept(s) && PlanRun(desired, s) == Ok(p) && Allocates(s, w, c)
    requires ClientWrites(p.clients) == [] && MapperWrites(p.clients) != [] && w == MapperWrites(p.clients)[0]
    ensures Survives(desired, s, Exec(s, w, c))
  {
    hide Survives, Exec, Allocates, IsDesiredClient, WellKept, PrepareClient;
    var clients := Get(desired.fields, "clients").items;
    PrepareAllPointwise(clients, s);
    var j := FirstMapperWrite(p.clients);
    NoClientWrite(p.clients, j);
    MapperWriteSurvives(desired, clients[j], s, p.clients[j], w, c);
  }

  lemma {:induction false} RunsToStep(s: Server, ws: seq<Write>, cs: seq<Choice>, final: Server)
    requires RunsTo(s, ws, cs, final) && ws != []
    ensures Allocates(s, ws[0], cs[0]) && RunsTo(Exec(s, ws[0], cs[0]), ws[1..], cs[1..], final)
  {
  }

  lemma {:induction false} FirstStep(desired: Json, s: Server, done: seq<Write>, rest: seq<Write>, c: Choice)
    requires WellKept(s) && PlanRun(desired, s).Ok? && done + rest == Writes(PlanRun(desired, s).value)
    requires done != [] && Allocates(s, done[0], c)
    ensures var s' := Exec(s, done[0], c);
      && Survives(desired, s, s') && WellKept(s') && PlanRun(desired, s').Ok?
      && done[1..] + rest == Writes(PlanRun(desired, s').value)
  {
    hide PlanRun, WellKept, Survives, Exec, Allocates, Writes;
    assert (done + rest)[1..] == done[1..] + rest && (done + rest)[0] == done[0];
    NextWrite(desired, s, c);
    StepSurvives(desired, s, c);
  }

  lemma {:induction false} NothingRun(desired: Json, s: Server, cs: seq<Choice>, cut: Server)
    requires RunsTo(s, [], cs, cut)
    ensures Survives(desired, s, cut)
  {
    Unchanged(desired, s);
  }

  /** Over a run cut after any number of writes nothing is deleted, and everything nobody
      asked to change is as it was. */
  lemma {:induction false} RunSurvives(desired: Json, s: Server, done: seq<Write>, rest: seq<Write>,
                                       cs: seq<Choice>, cut: Server)
    requires WellKept(s) && PlanRun(desired, s).Ok? && done + rest == Writes(PlanRun(desired, s).value)
    requires RunsTo(s, done, cs, cut)
    ensures Survives(desired, s, cut)
    decreases |done|
  {
    if done == [] {
      NothingRun(desired, s, cs, cut);
    } else {
      hide *;
      var s' := Exec(s, done[0], cs[0]);
      RunsToStep(s, done, cs, cut);
      FirstStep(desired, s, done, rest, cs[0]);
      RunSurvives(desired, s', done[1..], rest, cs[1..], cut);
      SurvivesTransitive(desired, s, s', cut);
    }
  }
}
