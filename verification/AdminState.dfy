/** The Keycloak Admin server as the reconciler meets it, and the plan it computes from it. */
module AdminState {
  import opened Wrappers
  import opened Json
  import opened NamedEntries
  import opened RealmPlan
  import opened ClientPlan

  /** What the server stores: the realm representation, the clients, each client's protocol
      mappers by client id, and the components. */
  datatype Server = Server(
    realm: Json,
    clients: seq<Json>,
    mappers: map<string, seq<Json>>,
    components: seq<Json>
  )

  /** The non-empty "id" an object carries, if it does. */
  function IdOf(e: Json): Option<string> {
    if e.Obj? && IsText(Get(e.fields, "id")) then Some(Get(e.fields, "id").s) else None
  }

  predicate DistinctIds(es: seq<Json>) {
    forall i, j :: 0 <= i < j < |es| && IdOf(es[i]).Some? ==> IdOf(es[i]) != IdOf(es[j])
  }

  /** The one thing assumed of a stored state: no two objects of a collection share an id. */
  predicate WellKept(s: Server) {
    && DistinctIds(s.clients) && DistinctIds(s.components)
    && forall u :: u in s.mappers ==> DistinctIds(s.mappers[u])
  }

  /* ---------------- requests ---------------- */

  predicate Matches(e: Json, field: string, value: string) {
    e.Obj? && Get(e.fields, field) == Str(value)
  }

  /** GET collection?field=value */
  function Where(es: seq<Json>, field: string, value: string): seq<Json> {
    if es == [] then []
    else (if Matches(es[0], field, value) then [es[0]] else []) + Where(es[1..], field, value)
  }

  /** Position of the object with that id; the length if there is none. */
  function Position(es: seq<Json>, id: string): (k: nat)
    ensures k <= |es|
    ensures k < |es| ==> IdOf(es[k]) == Some(id)
    ensures forall i :: 0 <= i < k ==> IdOf(es[i]) != Some(id)
  {
    if es == [] then 0
    else if IdOf(es[0]) == Some(id) then 0
    else
      var k := Position(es[1..], id);
      assert forall i :: 0 < i < k + 1 ==> es[i] == es[1..][i - 1];
      k + 1
  }

  /** PUT collection/id: overwrite exactly the fields sent. */
  function Put(es: seq<Json>, id: string, body: Object): seq<Json> {
    var k := Position(es, id);
    if k < |es| then es[k := Obj(es[k].fields + body)] else es
  }

  /** POST collection: the body plus whatever defaults the server adds, under a fresh id. */
  function Created(body: Object, id: string, defaults: Object): Json {
    Obj((defaults + body)["id" := Str(id)])
  }

  /** Component PUT: config keys that are not sent keep their values. */
  function PutComponent(es: seq<Json>, id: string, body: Object): seq<Json> {
    var k := Position(es, id);
    if k < |es| && Get(es[k].fields, "config").Obj? && Get(body, "config").Obj? then
      Put(es, id, body["config" := Obj(Get(es[k].fields, "config").fields + body["config"].fields)])
    else Put(es, id, body)
  }

  function MappersOf(s: Server, uuid: string): seq<Json> {
    if uuid in s.mappers then s.mappers[uuid] else []
  }

  /** The id under which a client is found by its clientId. */
  function UuidOf(s: Server, clientId: string): string {
    var found := Where(s.clients, "clientId", clientId);
    if |found| == 1 && IdOf(found[0]).Some? then IdOf(found[0]).value else ""
  }

  /* ---------------- the plan ---------------- */

  datatype Prepared = Prepared(action: ClientAction, mapperPlan: seq<MapperAction>)

  datatype Plan = Plan(realm: Object, clients: seq<Prepared>, provider: ProviderAction)

  /** One client of prepare_client_sync: look it up, plan it, and plan its mappers against the
      live ones (none for a client still to be created). */
  function PrepareClient(desired: Json, s: Server): Result<Prepared> {
    if !IsDesiredClient(desired) then Err
    else
      var found := Where(s.clients, "clientId", desired.fields["clientId"].s);
      var action :- PlanClient(desired, Arr(found));
      var live := if action.CreateClient? then [] else MappersOf(s, action.uuid);
      var mapperPlan :- PlanMappers(desired.fields["protocolMappers"].items, Arr(live));
      Ok(Prepared(action, mapperPlan))
  }

  function PrepareAll(desired: seq<Json>, s: Server): Result<seq<Prepared>> {
    if desired == [] then Ok([])
    else
      var first :- PrepareClient(desired[0], s);
      var rest :- PrepareAll(desired[1..], s);
      Ok([first] + rest)
  }

  /** prepare_client_sync */
  function PrepareClients(desired: Json, s: Server): Result<seq<Prepared>> {
    if !desired.Arr? || !FixedInventory(desired.items) then Err else PrepareAll(desired.items, s)
  }

  function PrepareProvider(s: Server): Result<ProviderAction> {
    PlanProvider(Arr(Where(s.components, "name", MANAGED_KEY_PROVIDER_NAME)))
  }

  /** The three plans main computes before it writes anything. */
  function PlanRun(desired: Json, s: Server): Result<Plan> {
    if !DesiredProviderOk(desired) then Err
    else
      var realm :- RealmPayload(s.realm, desired);
      var clients :- PrepareClients(Get(desired.fields, "clients"), s);
      var provider :- PrepareProvider(s);
      Ok(Plan(realm, clients, provider))
  }

  /* ---------------- the writes a plan stands for ---------------- */

  datatype Write =
    | PostComponent
    | PutProvider(id: string)
    | PostClient(payload: Object)
    | PutClient(uuid: string, body: Object)
    | PostMapper(clientId: string, mapper: MapperPayload)
    | PutMapper(clientId: string, id: string, mapper: MapperPayload)
    | PutRealm(payload: Object)

  function ProviderWrites(a: ProviderAction): seq<Write> {
    match a
    case KeepProvider(_) => []
    case CreateProvider => [PostComponent]
    case UpdateProvider(id) => [PutProvider(id)]
  }

  function ClientWrite(a: ClientAction): seq<Write> {
    match a
    case KeepClient(_, _) => []
    case CreateClient(_, payload) => [PostClient(payload)]
    case UpdateClient(_, uuid, payload, current) =>
      if "attributes" in payload && payload["attributes"].Obj? then
        [PutClient(uuid, UpdateBody(uuid, payload, current))]
      else []
  }

  function ClientWrites(ps: seq<Prepared>): seq<Write> {
    if ps == [] then [] else ClientWrite(ps[0].action) + ClientWrites(ps[1..])
  }

  function MapperWrite(clientId: string, a: MapperAction): Write {
    match a
    case CreateMapper(payload) => PostMapper(clientId, payload)
    case UpdateMapper(id, payload) => PutMapper(clientId, id, payload)
  }

  function MapperWritesOf(p: Prepared): seq<Write> {
    seq(|p.mapperPlan|, k requires 0 <= k < |p.mapperPlan| => MapperWrite(p.action.clientId, p.mapperPlan[k]))
  }

  function MapperWrites(ps: seq<Prepared>): seq<Write> {
    if ps == [] then [] else MapperWritesOf(ps[0]) + MapperWrites(ps[1..])
  }

  function RealmWrites(payload: Object): seq<Write> {
    if payload == map[] then [] else [PutRealm(payload)]
  }

  /** The writes in the order main issues them: provider, clients, mappers, realm. */
  function Writes(p: Plan): seq<Write> {
    ProviderWrites(p.provider) + ClientWrites(p.clients) + MapperWrites(p.clients) + RealmWrites(p.realm)
  }

  /** What the server may choose when it creates an object. */
  datatype Choice = Choice(id: string, defaults: Object)

  /** The id is new in the collection the write creates in. */
  predicate Allocates(s: Server, w: Write, c: Choice) {
    && c.id != ""
    && match w
       case PostComponent => forall i :: 0 <= i < |s.components| ==> IdOf(s.components[i]) != Some(c.id)
       case PostClient(_) => c.id !in s.mappers && forall i :: 0 <= i < |s.clients| ==> IdOf(s.clients[i]) != Some(c.id)
       case PostMapper(clientId, _) =>
         var live := MappersOf(s, UuidOf(s, clientId));
         forall i :: 0 <= i < |live| ==> IdOf(live[i]) != Some(c.id)
       case _ => true
  }

  /** The server after one write. */
  function Exec(s: Server, w: Write, c: Choice): Server {
    match w
    case PostComponent => s.(components := s.components + [Created(PROVIDER_PAYLOAD, c.id, c.defaults)])
    case PutProvider(id) => s.(components := PutComponent(s.components, id, PROVIDER_PAYLOAD["id" := Str(id)]))
    case PostClient(payload) =>
      s.(clients := s.clients + [Created(payload, c.id, c.defaults)], mappers := s.mappers[c.id := []])
    case PutClient(uuid, body) => s.(clients := Put(s.clients, uuid, body))
    case PostMapper(clientId, payload) =>
      var uuid := UuidOf(s, clientId);
      s.(mappers := s.mappers[uuid := MappersOf(s, uuid) + [Created(payload.fields, c.id, c.defaults)]])
    case PutMapper(clientId, id, payload) =>
      var uuid := UuidOf(s, clientId);
      s.(mappers := s.mappers[uuid := Put(MappersOf(s, uuid), id, payload.fields["id" := Str(id)])])
    case PutRealm(payload) => if s.realm.Obj? then s.(realm := Obj(s.realm.fields + payload)) else s
  }

  /* ---------------- facts about lookups ---------------- */

  lemma {:induction false} WhereAppend(es: seq<Json>, x: Json, f: string, v: string)
    ensures Where(es + [x], f, v) == Where(es, f, v) + if Matches(x, f, v) then [x] else []
  {
    hide Matches;
    if es == [] {
      assert es + [x] == [x];
    } else {
      WhereAppend(es[1..], x, f, v);
      var all := es + [x];
      assert all[0] == es[0] && all[1..] == es[1..] + [x];
      var head := if Matches(es[0], f, v) then [es[0]] else [];
      var tail := if Matches(x, f, v) then [x] else [];
      assert Where(all, f, v) == head + (Where(es[1..], f, v) + tail);
    }
  }

  /** An update that does not change whether the object matches is an update of the result. */
  lemma {:induction false} WhereUpdate(es: seq<Json>, k: nat, x: Json, f: string, v: string)
    requires k < |es| && Matches(x, f, v) == Matches(es[k], f, v)
    ensures !Matches(x, f, v) ==> Where(es[k := x], f, v) == Where(es, f, v)
    ensures Matches(x, f, v) && |Where(es, f, v)| == 1 ==> Where(es, f, v) == [es[k]] && Where(es[k := x], f, v) == [x]
  {
    if k == 0 {
      assert es[0 := x][1..] == es[1..];
    } else {
      assert es[k := x][1..] == es[1..][k - 1 := x];
      WhereUpdate(es[1..], k - 1, x, f, v);
      if Matches(x, f, v) {
        WhereHas(es[1..], k - 1, f, v);
      }
    }
  }

  lemma {:induction false} WhereHas(es: seq<Json>, k: nat, f: string, v: string)
    requires k < |es| && Matches(es[k], f, v)
    ensures es[k] in Where(es, f, v) && |Where(es, f, v)| >= 1
  {
    if k > 0 {
      WhereHas(es[1..], k - 1, f, v);
    }
  }

  /** Everything a lookup returns is stored and matches. */
  lemma {:induction false} WhereFinds(es: seq<Json>, f: string, v: string, i: nat) returns (k: nat)
    requires i < |Where(es, f, v)|
    ensures k < |es| && es[k] == Where(es, f, v)[i] && Matches(es[k], f, v)
  {
    if Matches(es[0], f, v) {
      if i == 0 {
        k := 0;
      } else {
        var k' := WhereFinds(es[1..], f, v, i - 1);
        k := k' + 1;
      }
    } else {
      var k' := WhereFinds(es[1..], f, v, i);
      k := k' + 1;
    }
  }

  /** With distinct ids the object found under an id is the one that carries it. */
  lemma {:induction false} PositionIs(es: seq<Json>, k: nat, id: string)
    requires DistinctIds(es) && k < |es| && IdOf(es[k]) == Some(id)
    ensures Position(es, id) == k
  {
    var p := Position(es, id);
    assert p <= k;
  }

  lemma {:induction false} PutKeepsDistinct(es: seq<Json>, id: string, body: Object)
    requires DistinctIds(es) && Get(body, "id") == Str(id) && id != ""
    ensures DistinctIds(Put(es, id, body))
  {
  }

  lemma {:induction false} AppendKeepsDistinct(es: seq<Json>, x: Json)
    requires DistinctIds(es) && forall i :: 0 <= i < |es| ==> IdOf(es[i]) != IdOf(x)
    ensures DistinctIds(es + [x])
  {
  }

  /** PrepareAll succeeds exactly when every client can be prepared, each on its own. */
  lemma {:induction false} PrepareAllPointwise(desired: seq<Json>, s: Server)
    ensures PrepareAll(desired, s).Ok? <==> forall i :: 0 <= i < |desired| ==> PrepareClient(desired[i], s).Ok?
    ensures PrepareAll(desired, s).Ok? ==>
              && |PrepareAll(desired, s).value| == |desired|
              && forall i :: 0 <= i < |desired| ==> PrepareClient(desired[i], s) == Ok(PrepareAll(desired, s).value[i])
  {
    hide PrepareClient;
    if desired != [] {
      PrepareAllPointwise(desired[1..], s);
      assert forall i :: 0 < i < |desired| ==> desired[i] == desired[1..][i - 1];
      assert desired[1..] == [] || desired[1] == desired[1..][0];
      if PrepareAll(desired[1..], s).Err? {
        var i :| 0 <= i < |desired[1..]| && PrepareClient(desired[1..][i], s).Err?;
        assert desired[i + 1] == desired[1..][i];
      }
    }
  }

  /* ---------------- prepare_client_sync as written ---------------- */

  /** The lookups made first, one for each fixed client. */
  function Lookups(s: Server): Object {
    map id | id in CLIENT_IDS :: Arr(Where(s.clients, "clientId", id))
  }

  /** What one client is prepared to, given its planned action. */
  function WithMappers(desired: Json, action: ClientAction, s: Server): Result<Prepared>
    requires IsDesiredClient(desired)
  {
    var live := if action.CreateClient? then [] else MappersOf(s, action.uuid);
    var mapperPlan :- PlanMappers(desired.fields["protocolMappers"].items, Arr(live));
    Ok(Prepared(action, mapperPlan))
  }

  lemma {:induction false} InventoryIds(desired: seq<Json>)
    requires FixedInventory(desired)
    ensures forall i :: 0 <= i < |desired| ==> Get(desired[i].fields, "clientId").s in CLIENT_IDS
  {
    forall i | 0 <= i < |desired| ensures Get(desired[i].fields, "clientId").s in CLIENT_IDS {
      assert Get(desired[i].fields, "clientId").s in set k | 0 <= k < |desired| :: Get(desired[k].fields, "clientId").s;
    }
  }

  lemma {:induction false} PlannedAlone(d: Json, s: Server)
    requires d.Obj? && Get(d.fields, "clientId").Str? && Get(d.fields, "clientId").s in CLIENT_IDS
    ensures var action := PlanClient(d, MatchesFor(d, Lookups(s)));
      && (action.Ok? ==> IsDesiredClient(d))
      && PrepareClient(d, s) == if action.Ok? then WithMappers(d, action.value, s) else Err
  {
    hide PlanMappers;
    assert MatchesFor(d, Lookups(s)) == Arr(Where(s.clients, "clientId", Get(d.fields, "clientId").s));
    if IsDesiredClient(d) {
      assert Get(d.fields, "clientId") == d.fields["clientId"];
    }
  }

  /** PlanClientActions read off its members. */
  lemma {:induction false} ActionsPointwise(desired: seq<Json>, matches: Object)
    ensures var plan := PlanClientActions(desired, matches);
      && (plan.Ok? <==> forall i :: 0 <= i < |desired| ==> PlanClient(desired[i], MatchesFor(desired[i], matches)).Ok?)
      && (plan.Ok? ==>
            && |plan.value| == |desired|
            && forall i :: 0 <= i < |desired| ==>
                 PlanClient(desired[i], MatchesFor(desired[i], matches)) == Ok(plan.value[i]))
  {
    hide PlanClient, MatchesFor;
    if desired != [] {
      ActionsPointwise(desired[1..], matches);
      assert forall i :: 0 < i < |desired| ==> desired[i] == desired[1..][i - 1];
      if PlanClientActions(desired[1..], matches).Err? {
        var i :| 0 <= i < |desired[1..]| && PlanClient(desired[1..][i], MatchesFor(desired[1..][i], matches)).Err?;
        assert desired[i + 1] == desired[1..][i];
      }
    }
  }

  /** All clients are looked up and planned first, then the mappers of each are read and
      planned; the outcome is that of preparing each client on its own. */
  method PrepareClientSync(desired: Json, s: Server) returns (r: Result<seq<Prepared>>)
    ensures r == PrepareClients(desired, s)
  {
    hide PlanClient, MatchesFor, WithMappers, PrepareClient, PrepareAll;
    hide PlanClientActions, Lookups, IsDesiredClient, FixedInventory;
    var plan := PlanClientSync(desired, Lookups(s));
    if !desired.Arr? || !FixedInventory(desired.items) {
      PlanNeedsInventory(desired, Lookups(s));
      return Err;
    }
    InventoryShape(desired.items);
    InventoryIds(desired.items);
    forall i | 0 <= i < |desired.items| ensures
      var action := PlanClient(desired.items[i], MatchesFor(desired.items[i], Lookups(s)));
      && (action.Ok? ==> IsDesiredClient(desired.items[i]))
      && PrepareClient(desired.items[i], s)
           == if action.Ok? then WithMappers(desired.items[i], action.value, s) else Err
    {
      PlannedAlone(desired.items[i], s);
    }
    ActionsPointwise(desired.items, Lookups(s));
    PrepareAllPointwise(desired.items, s);
    if plan.Err? {
      return Err;
    }
    var prepared: seq<Prepared> := [];
    for i := 0 to |desired.items|
      invariant |prepared| == i
      invariant forall k :: 0 <= k < i ==> PrepareClient(desired.items[k], s) == Ok(prepared[k])
    {
      var one := WithMappers(desired.items[i], plan.value[i], s);
      if one.Err? {
        return Err;
      }
      prepared := prepared + [one.value];
    }
    assert PrepareAll(desired.items, s).Ok?;
    assert PrepareAll(desired.items, s).value == prepared;
    return Ok(prepared);
  }

  lemma {:induction false} PlanNeedsInventory(desired: Json, matches: Object)
    requires !desired.Arr? || !FixedInventory(desired.items)
    ensures PlanClients(desired, matches) == Err
  {
  }

  lemma {:induction false} InventoryShape(desired: seq<Json>)
    requires FixedInventory(desired)
    ensures forall i :: 0 <= i < |desired| ==> desired[i].Obj? && Get(desired[i].fields, "clientId").Str?
  {
  }
}
