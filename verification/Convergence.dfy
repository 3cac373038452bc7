/** Why applying a plan converges: carrying out the first planned write leaves exactly the
    rest of the plan. */
module Convergence {
  import opened Wrappers
  import opened Json
  import opened NamedEntries
  import opened RealmPlan
  import opened ClientPlan
  import opened AdminState

  /* ---------------- one write of each kind ---------------- */

  lemma {:induction false} ManagedAll(xs: seq<NamedEntry>)
    requires forall i :: 0 <= i < |xs| ==> NameOf(xs[i]) == MANAGED_KEY_PROVIDER_NAME
    ensures Managed(xs) == xs
  {
    if xs != [] {
      ManagedAll(xs[1..]);
    }
  }

  /** The provider lookup when it returns a single component. */
  lemma {:induction false} ProviderOf(s: Server, e: Json)
    requires Where(s.components, "name", MANAGED_KEY_PROVIDER_NAME) == [e]
    requires Matches(e, "name", MANAGED_KEY_PROVIDER_NAME)
    ensures PrepareProvider(s) == PlanManagedProvider([e])
  {
    ManagedAll([e]);
  }

  /** A provider lookup that can be planned returns nothing or a single component. */
  lemma {:induction false} ProviderLookup(s: Server)
    requires PrepareProvider(s).Ok?
    ensures var found := Where(s.components, "name", MANAGED_KEY_PROVIDER_NAME);
      |found| <= 1 && AllNamed(found) && PrepareProvider(s) == PlanManagedProvider(found)
  {
    var found := Where(s.components, "name", MANAGED_KEY_PROVIDER_NAME);
    forall i | 0 <= i < |found| ensures IsNamed(found[i]) && NameOf(found[i]) == MANAGED_KEY_PROVIDER_NAME {
      var k := WhereFinds(s.components, "name", MANAGED_KEY_PROVIDER_NAME, i);
    }
    ManagedAll(found);
  }

  /** A component that carries the payload and contains the managed config needs nothing. */
  lemma {:induction false} ProviderSettled(e: Json, id: string)
    requires e.Obj? && IdOf(e) == Some(id)
    requires forall f :: f in PROVIDER_PAYLOAD && f != "config" ==> Get(e.fields, f) == PROVIDER_PAYLOAD[f]
    requires IsProviderConfig(Get(e.fields, "config"))
    requires Agrees(Get(e.fields, "config").fields, MANAGED_KEY_PROVIDER_CONFIG)
    ensures Matches(e, "name", MANAGED_KEY_PROVIDER_NAME)
    ensures PlanManagedProvider([e]) == Ok(KeepProvider(id))
  {
    assert "name" in PROVIDER_PAYLOAD && "providerId" in PROVIDER_PAYLOAD && "providerType" in PROVIDER_PAYLOAD;
  }

  lemma {:induction false} CreateProviderStep(s: Server, c: Choice)
    requires WellKept(s) && Where(s.components, "name", MANAGED_KEY_PROVIDER_NAME) == []
    requires Allocates(s, PostComponent, c)
    ensures WellKept(Exec(s, PostComponent, c))
    ensures PrepareProvider(Exec(s, PostComponent, c)) == Ok(KeepProvider(c.id))
  {
    var e := Created(PROVIDER_PAYLOAD, c.id, c.defaults);
    ProviderSettled(e, c.id);
    WhereAppend(s.components, e, "name", MANAGED_KEY_PROVIDER_NAME);
    AppendKeepsDistinct(s.components, e);
    ProviderOf(Exec(s, PostComponent, c), e);
  }

  /** What the server makes of the provider PUT: managed config keys overwritten, others kept. */
  function UpdatedProvider(current: Object, id: string): Json
    requires Get(current, "config").Obj?
  {
    Obj(current + PROVIDER_PAYLOAD["id" := Str(id)]
          ["config" := Obj(Get(current, "config").fields + MANAGED_KEY_PROVIDER_CONFIG)])
  }

  lemma {:induction false} UpdatedProviderSettled(current: Object, id: string)
    requires id != "" && IsProviderConfig(Get(current, "config"))
    ensures Matches(UpdatedProvider(current, id), "name", MANAGED_KEY_PROVIDER_NAME)
    ensures PlanManagedProvider([UpdatedProvider(current, id)]) == Ok(KeepProvider(id))
  {
    var e := UpdatedProvider(current, id);
    assert Get(e.fields, "id") == Str(id);
    assert forall k :: k in MANAGED_KEY_PROVIDER_CONFIG ==> IsTextList(MANAGED_KEY_PROVIDER_CONFIG[k]);
    ProviderSettled(e, id);
  }

  lemma {:induction false} PutComponentIs(es: seq<Json>, k: nat, id: string)
    requires DistinctIds(es) && k < |es| && IdOf(es[k]) == Some(id) && Get(es[k].fields, "config").Obj?
    ensures PutComponent(es, id, PROVIDER_PAYLOAD["id" := Str(id)]) == es[k := UpdatedProvider(es[k].fields, id)]
  {
    PositionIs(es, k, id);
    assert PROVIDER_PAYLOAD["id" := Str(id)]["config"].fields == MANAGED_KEY_PROVIDER_CONFIG;
  }

  lemma {:induction false} UpdateProviderStep(s: Server, id: string, c: Choice)
    requires WellKept(s) && PrepareProvider(s) == Ok(UpdateProvider(id))
    ensures WellKept(Exec(s, PutProvider(id), c))
    ensures PrepareProvider(Exec(s, PutProvider(id), c)) == Ok(KeepProvider(id))
  {
    ProviderLookup(s);
    var k := WhereFinds(s.components, "name", MANAGED_KEY_PROVIDER_NAME, 0);
    PutComponentIs(s.components, k, id);
    UpdatedProviderSettled(s.components[k].fields, id);
    var e := UpdatedProvider(s.components[k].fields, id);
    assert IdOf(e) == Some(id);
    assert DistinctIds(s.components[k := e]);
    WhereUpdate(s.components, k, e, "name", MANAGED_KEY_PROVIDER_NAME);
    ProviderOf(Exec(s, PutProvider(id), c), e);
  }

  lemma {:induction false} ProviderStep(s: Server, w: Write, c: Choice)
    requires WellKept(s) && PrepareProvider(s).Ok? && ProviderWrites(PrepareProvider(s).value) == [w]
    requires Allocates(s, w, c)
    ensures WellKept(Exec(s, w, c))
    ensures PrepareProvider(Exec(s, w, c)).Ok? && ProviderWrites(PrepareProvider(Exec(s, w, c)).value) == []
  {
    ProviderLookup(s);
    if w.PostComponent? {
      CreateProviderStep(s, c);
    } else {
      UpdateProviderStep(s, w.id, c);
    }
  }

  /** A prepared client depends only on its lookup and on the mappers of the client found. */
  lemma {:induction false} ClientFrame(desired: Json, s: Server, s': Server)
    requires IsDesiredClient(desired)
    requires var found := Where(s.clients, "clientId", desired.fields["clientId"].s);
      && Where(s'.clients, "clientId", desired.fields["clientId"].s) == found
      && forall i :: 0 <= i < |found| && IdOf(found[i]).Some? ==>
           MappersOf(s', IdOf(found[i]).value) == MappersOf(s, IdOf(found[i]).value)
    ensures PrepareClient(desired, s') == PrepareClient(desired, s)
  {
  }

  /** Two different clientIds are found under two different ids. */
  lemma {:induction false} OtherClient(s: Server, a: string, b: string, i: nat, k: nat)
    requires WellKept(s) && a != b
    requires i < |Where(s.clients, "clientId", a)|
    requires k < |s.clients| && Matches(s.clients[k], "clientId", b) && IdOf(s.clients[k]).Some?
    ensures IdOf(Where(s.clients, "clientId", a)[i]) != IdOf(s.clients[k])
  {
    var j := WhereFinds(s.clients, "clientId", a, i);
  }

  /** What the prepared action says about the server when the client exists. */
  lemma {:induction false} FoundClient(desired: Json, s: Server) returns (k: nat)
    requires PrepareClient(desired, s).Ok? && !PrepareClient(desired, s).value.action.CreateClient?
    ensures var a := PrepareClient(desired, s).value.action; var clientId := desired.fields["clientId"].s;
      && a.clientId == clientId
      && k < |s.clients| && Where(s.clients, "clientId", clientId) == [s.clients[k]]
      && Matches(s.clients[k], "clientId", clientId) && IdOf(s.clients[k]) == Some(a.uuid)
      && UuidOf(s, clientId) == a.uuid
      && PlanClient(desired, Arr([s.clients[k]])) == Ok(a)
  {
    k := WhereFinds(s.clients, "clientId", desired.fields["clientId"].s, 0);
  }

  lemma {:induction false} UpdateClientStep(desired: Json, s: Server, p: Prepared, w: Write, c: Choice)
    requires WellKept(s) && PrepareClient(desired, s) == Ok(p) && p.action.UpdateClient?
    requires ClientWrite(p.action) == [w]
    ensures var s' := Exec(s, w, c);
      && WellKept(s')
      && PrepareClient(desired, s') == Ok(Prepared(KeepClient(p.action.clientId, p.action.uuid), p.mapperPlan))
    ensures forall d :: IsDesiredClient(d) && d.fields["clientId"] != desired.fields["clientId"] ==>
      PrepareClient(d, Exec(s, w, c)) == PrepareClient(d, s)
  {
    hide PlanMappers, ClientInPlace;
    var s' := Exec(s, w, c);
    var k := FoundClient(desired, s);
    var uuid, payload := p.action.uuid, ClientPayload(desired);
    var body := UpdateBody(uuid, payload, s.clients[k].fields);
    PositionIs(s.clients, k, uuid);
    PutKeepsDistinct(s.clients, uuid, body);
    var e := Obj(s.clients[k].fields + body);
    assert s'.clients == s.clients[k := e];
    UpdateSettlesClient(desired, uuid, s.clients[k].fields);
    WhereUpdate(s.clients, k, e, "clientId", p.action.clientId);
    assert PlanClient(desired, Arr([e])) == Ok(KeepClient(p.action.clientId, uuid));
    forall d | IsDesiredClient(d) && d.fields["clientId"] != desired.fields["clientId"]
      ensures PrepareClient(d, s') == PrepareClient(d, s)
    {
      WhereUpdate(s.clients, k, e, "clientId", d.fields["clientId"].s);
      ClientFrame(d, s, s');
    }
  }

  /** A client created under a fresh id and another clientId is invisible to the rest. */
  lemma {:induction false} CreateClientFrame(d: Json, s: Server, payload: Object, c: Choice)
    requires IsDesiredClient(d) && Allocates(s, PostClient(payload), c)
    requires Get(payload, "clientId") != d.fields["clientId"] && Get(payload, "clientId").Str?
    ensures PrepareClient(d, Exec(s, PostClient(payload), c)) == PrepareClient(d, s)
  {
    var s' := Exec(s, PostClient(payload), c);
    var clientId := d.fields["clientId"].s;
    var found := Where(s.clients, "clientId", clientId);
    WhereAppend(s.clients, Created(payload, c.id, c.defaults), "clientId", clientId);
    forall i | 0 <= i < |found| && IdOf(found[i]).Some?
      ensures MappersOf(s', IdOf(found[i]).value) == MappersOf(s, IdOf(found[i]).value)
    {
      var j := WhereFinds(s.clients, "clientId", clientId, i);
    }
    ClientFrame(d, s, s');
  }

  lemma {:induction false} CreatedClientSettled(desired: Json, c: Choice)
    requires IsDesiredClient(desired) && c.id != ""
    ensures var e := Created(ClientPayload(desired), c.id, c.defaults); var clientId := desired.fields["clientId"].s;
      && IdOf(e) == Some(c.id) && Matches(e, "clientId", clientId)
      && PlanClient(desired, Arr([e])) == Ok(KeepClient(clientId, c.id))
  {
    var payload := ClientPayload(desired);
    var e := Created(payload, c.id, c.defaults);
    assert ClientInPlace(e.fields, payload);
  }

  lemma {:induction false} CreateIsPlanned(desired: Json, s: Server, p: Prepared)
    requires PrepareClient(desired, s) == Ok(p) && p.action.CreateClient?
    ensures IsDesiredClient(desired) && p.action == CreateClient(desired.fields["clientId"].s, ClientPayload(desired))
    ensures Where(s.clients, "clientId", desired.fields["clientId"].s) == []
    ensures PlanMappers(desired.fields["protocolMappers"].items, Arr([])) == Ok(p.mapperPlan)
  {
  }

  lemma {:induction false} CreateClientStep(desired: Json, s: Server, p: Prepared, w: Write, c: Choice)
    requires WellKept(s) && PrepareClient(desired, s) == Ok(p) && p.action.CreateClient?
    requires ClientWrite(p.action) == [w] && Allocates(s, w, c)
    ensures var s' := Exec(s, w, c);
      WellKept(s') && PrepareClient(desired, s') == Ok(Prepared(KeepClient(p.action.clientId, c.id), p.mapperPlan))
    ensures forall d :: IsDesiredClient(d) && d.fields["clientId"] != desired.fields["clientId"] ==>
      PrepareClient(d, Exec(s, w, c)) == PrepareClient(d, s)
  {
    hide PlanMappers, PlanClient, ClientInPlace;
    CreateIsPlanned(desired, s, p);
    var s' := Exec(s, w, c);
    var payload := ClientPayload(desired);
    var e := Created(payload, c.id, c.defaults);
    CreatedClientSettled(desired, c);
    AppendKeepsDistinct(s.clients, e);
    WhereAppend(s.clients, e, "clientId", p.action.clientId);
    assert Where(s'.clients, "clientId", p.action.clientId) == [e];
    assert MappersOf(s', c.id) == [];
    forall d | IsDesiredClient(d) && d.fields["clientId"] != desired.fields["clientId"]
      ensures PrepareClient(d, s') == PrepareClient(d, s)
    {
      CreateClientFrame(d, s, payload, c);
    }
  }

  /** Once a live list answers the first planned mapper, and answers the others as before,
      the plan is the old one without its first action. */
  lemma {:induction false} MapperPlanAdvances(desired: seq<MapperPayload>, live: seq<NamedEntry>,
                                              live': seq<NamedEntry>)
    requires DistinctNames(desired)
    requires PlanMapperActions(desired, live).Ok? && PlanMapperActions(desired, live).value != []
    requires var done := PlanMapperActions(desired, live).value[0].payload;
      && (forall n :: n != NameOf(done) ==> Find(live', n) == Find(live, n))
      && Find(live', NameOf(done)).Some?
      && IsText(Get(Find(live', NameOf(done)).value.fields, "id"))
      && Agrees(Find(live', NameOf(done)).value.fields, done.fields)
    ensures PlanMapperActions(desired, live') == Ok(PlanMapperActions(desired, live).value[1..])
  {
    var first := PlanMapper(desired[0], live).value;
    var done := PlanMapperActions(desired, live).value[0].payload;
    if first.Some? {
      assert done == desired[0];
      MapperPlanUnchanged(desired[1..], live, live', NameOf(done));
    } else {
      PlannedIsDesired(desired[1..], live);
      assert NameOf(desired[0]) != NameOf(done);
      MapperPlanAdvances(desired[1..], live, live');
    }
  }

  lemma {:induction false} PlannedIsDesired(desired: seq<MapperPayload>, live: seq<NamedEntry>)
    requires PlanMapperActions(desired, live).Ok? && PlanMapperActions(desired, live).value != []
    ensures exists i :: 0 <= i < |desired| && desired[i] == PlanMapperActions(desired, live).value[0].payload
    ensures PlanMapperActions(desired, live).value[0] in PlanMapperActions(desired, live).value
    ensures var a := PlanMapperActions(desired, live).value[0];
      match a
      case CreateMapper(m) => Find(live, NameOf(m)).None?
      case UpdateMapper(id, m) =>
        Find(live, NameOf(m)).Some? && Get(Find(live, NameOf(m)).value.fields, "id") == Str(id) && id != ""
  {
    if PlanMapper(desired[0], live).value.None? {
      PlannedIsDesired(desired[1..], live);
      var i :| 0 <= i < |desired[1..]| && desired[1..][i] == PlanMapperActions(desired, live).value[0].payload;
      assert desired[i + 1] == desired[1..][i];
    } else {
      assert desired[0] == PlanMapperActions(desired, live).value[0].payload;
    }
  }

  lemma {:induction false} MapperPlanUnchanged(desired: seq<MapperPayload>, live: seq<NamedEntry>,
                                               live': seq<NamedEntry>, name: string)
    requires forall i :: 0 <= i < |desired| ==> NameOf(desired[i]) != name
    requires forall n :: n != name ==> Find(live', n) == Find(live, n)
    ensures PlanMapperActions(desired, live') == PlanMapperActions(desired, live)
  {
    if desired != [] {
      MapperPlanUnchanged(desired[1..], live, live', name);
    }
  }

  /** Find under an update that keeps the name. */
  lemma {:induction false} FindUpdate(live: seq<NamedEntry>, k: nat, x: NamedEntry, name: string)
    requires DistinctNames(live) && k < |live| && NameOf(x) == NameOf(live[k])
    ensures DistinctNames(live[k := x])
    ensures Find(live[k := x], name) == if name == NameOf(x) then Some(x) else Find(live, name)
  {
    FindNames(live, name);
    FindNames(live[k := x], name);
    if name == NameOf(x) {
      assert live[k := x][k] == x;
      var y := Find(live[k := x], name).value;
      var i :| 0 <= i < |live| && live[k := x][i] == y;
    } else if Find(live, name).Some? {
      var y := Find(live, name).value;
      var i :| 0 <= i < |live| && live[i] == y;
      assert live[k := x][i] == y;
      var z := Find(live[k := x], name).value;
      var j :| 0 <= j < |live| && live[k := x][j] == z;
      assert NameOf(live[j]) == NameOf(live[i]);
    }
  }

  /** The mapper list after the first write of its plan. */
  function AfterMapper(live: seq<Json>, a: MapperAction, c: Choice): seq<Json> {
    match a
    case CreateMapper(m) => live + [Created(m.fields, c.id, c.defaults)]
    case UpdateMapper(id, m) => Put(live, id, m.fields["id" := Str(id)])
  }

  lemma {:induction false} CreateMapperStep(desired: seq<MapperPayload>, live: seq<NamedEntry>, c: Choice)
    requires DistinctNames(desired) && DistinctNames(live) && DistinctIds(live) && c.id != ""
    requires PlanMapperActions(desired, live).Ok? && PlanMapperActions(desired, live).value != []
    requires PlanMapperActions(desired, live).value[0].CreateMapper?
    requires forall i :: 0 <= i < |live| ==> IdOf(live[i]) != Some(c.id)
    ensures var plan := PlanMapperActions(desired, live).value; var live' := AfterMapper(live, plan[0], c);
      && DistinctIds(live') && AllNamed(live') && DistinctNames(live')
      && PlanMapperActions(desired, live') == Ok(plan[1..])
  {
    var m := PlanMapperActions(desired, live).value[0].payload;
    PlannedIsDesired(desired, live);
    var x := Created(m.fields, c.id, c.defaults);
    AppendKeepsDistinct(live, x);
    FindNames(live, NameOf(m));
    forall n
      ensures Find(live + [x], n)
           == if Find(live, n).Some? then Find(live, n) else if n == NameOf(m) then Some(x) else None
    {
      FindAppend(live, x, n);
    }
    MapperPlanAdvances(desired, live, live + [x]);
  }

  lemma {:induction false} UpdateMapperStep(desired: seq<MapperPayload>, live: seq<NamedEntry>, c: Choice)
    requires DistinctNames(desired) && DistinctNames(live) && DistinctIds(live)
    requires PlanMapperActions(desired, live).Ok? && PlanMapperActions(desired, live).value != []
    requires PlanMapperActions(desired, live).value[0].UpdateMapper?
    ensures var plan := PlanMapperActions(desired, live).value; var live' := AfterMapper(live, plan[0], c);
      && DistinctIds(live') && AllNamed(live') && DistinctNames(live')
      && PlanMapperActions(desired, live') == Ok(plan[1..])
  {
    hide PlanMapperActions, Find;
    var m, id := PlanMapperActions(desired, live).value[0].payload, PlanMapperActions(desired, live).value[0].id;
    PlannedIsDesired(desired, live);
    FindNames(live, NameOf(m));
    var k :| 0 <= k < |live| && live[k] == Find(live, NameOf(m)).value;
    PositionIs(live, k, id);
    var x := Obj(live[k].fields + m.fields["id" := Str(id)]);
    PutKeepsDistinct(live, id, m.fields["id" := Str(id)]);
    forall n
      ensures DistinctNames(live[k := x]) && Find(live[k := x], n) == if n == NameOf(m) then Some(x) else Find(live, n)
    {
      FindUpdate(live, k, x, n);
    }
    MapperPlanAdvances(desired, live, live[k := x]);
  }

  lemma {:induction false} MapperListStep(desired: seq<Json>, live: seq<Json>, c: Choice)
    requires PlanMappers(desired, Arr(live)).Ok? && PlanMappers(desired, Arr(live)).value != []
    requires DistinctIds(live) && c.id != ""
    requires PlanMappers(desired, Arr(live)).value[0].CreateMapper? ==>
      forall i :: 0 <= i < |live| ==> IdOf(live[i]) != Some(c.id)
    ensures var plan := PlanMappers(desired, Arr(live)).value; var live' := AfterMapper(live, plan[0], c);
      DistinctIds(live') && PlanMappers(desired, Arr(live')) == Ok(plan[1..])
  {
    if PlanMappers(desired, Arr(live)).value[0].CreateMapper? {
      CreateMapperStep(desired, live, c);
    } else {
      UpdateMapperStep(desired, live, c);
    }
  }

  lemma {:induction false} MapperStep(desired: Json, s: Server, p: Prepared, w: Write, c: Choice)
    requires WellKept(s) && PrepareClient(desired, s) == Ok(p) && ClientWrite(p.action) == [] && p.mapperPlan != []
    requires w == MapperWrite(p.action.clientId, p.mapperPlan[0]) && Allocates(s, w, c)
    ensures var s' := Exec(s, w, c);
      WellKept(s') && PrepareClient(desired, s') == Ok(Prepared(p.action, p.mapperPlan[1..]))
    ensures forall d :: IsDesiredClient(d) && d.fields["clientId"] != desired.fields["clientId"] ==>
      PrepareClient(d, Exec(s, w, c)) == PrepareClient(d, s)
  {
    var s' := Exec(s, w, c);
    var k := FoundClient(desired, s);
    var uuid := p.action.uuid;
    MapperListStep(desired.fields["protocolMappers"].items, MappersOf(s, uuid), c);
    assert s' == s.(mappers := s.mappers[uuid := AfterMapper(MappersOf(s, uuid), p.mapperPlan[0], c)]);
    forall d | IsDesiredClient(d) && d.fields["clientId"] != desired.fields["clientId"]
      ensures PrepareClient(d, s') == PrepareClient(d, s)
    {
      var found := Where(s.clients, "clientId", d.fields["clientId"].s);
      forall i | 0 <= i < |found| && IdOf(found[i]).Some?
        ensures MappersOf(s', IdOf(found[i]).value) == MappersOf(s, IdOf(found[i]).value)
      {
        OtherClient(s, d.fields["clientId"].s, p.action.clientId, i, k);
      }
      ClientFrame(d, s, s');
    }
  }

  /* ---------------- the list of writes ---------------- */

  lemma {:induction false} FirstClientWrite(ps: seq<Prepared>) returns (j: nat)
    requires ClientWrites(ps) != []
    ensures j < |ps| && ClientWrite(ps[j].action) == [ClientWrites(ps)[0]]
    ensures forall q: Prepared :: ClientWrite(q.action) == [] ==> ClientWrites(ps[j := q]) == ClientWrites(ps)[1..]
  {
    if ClientWrite(ps[0].action) != [] {
      j := 0;
      forall q: Prepared | ClientWrite(q.action) == [] ensures ClientWrites(ps[0 := q]) == ClientWrites(ps)[1..] {
        assert ps[0 := q][1..] == ps[1..];
      }
    } else {
      var j' := FirstClientWrite(ps[1..]);
      j := j' + 1;
      forall q: Prepared | ClientWrite(q.action) == [] ensures ClientWrites(ps[j := q]) == ClientWrites(ps)[1..] {
        assert ps[j := q][1..] == ps[1..][j' := q];
      }
    }
  }

  lemma {:induction false} FirstMapperWrite(ps: seq<Prepared>) returns (j: nat)
    requires MapperWrites(ps) != []
    ensures j < |ps| && ps[j].mapperPlan != []
    ensures MapperWrite(ps[j].action.clientId, ps[j].mapperPlan[0]) == MapperWrites(ps)[0]
    ensures MapperWrites(ps[j := Prepared(ps[j].action, ps[j].mapperPlan[1..])]) == MapperWrites(ps)[1..]
  {
    if ps[0].mapperPlan != [] {
      j := 0;
      var q := Prepared(ps[0].action, ps[0].mapperPlan[1..]);
      assert ps[0 := q][1..] == ps[1..];
      assert MapperWritesOf(q) == MapperWritesOf(ps[0])[1..];
    } else {
      assert MapperWritesOf(ps[0]) == [];
      var j' := FirstMapperWrite(ps[1..]);
      j := j' + 1;
      var q := Prepared(ps[j].action, ps[j].mapperPlan[1..]);
      assert ps[j := q][1..] == ps[1..][j' := q];
    }
  }

  /** Replacing a prepared client by one with the same writes changes no list of writes. */
  lemma {:induction false} SameWrites(ps: seq<Prepared>, j: nat, q: Prepared)
    requires j < |ps|
    ensures MapperWritesOf(q) == MapperWritesOf(ps[j]) ==> MapperWrites(ps[j := q]) == MapperWrites(ps)
    ensures ClientWrite(q.action) == ClientWrite(ps[j].action) ==> ClientWrites(ps[j := q]) == ClientWrites(ps)
  {
    if j == 0 {
      assert ps[0 := q][1..] == ps[1..];
    } else {
      assert ps[j := q][1..] == ps[1..][j - 1 := q];
      SameWrites(ps[1..], j - 1, q);
    }
  }

  /** PrepareAll read off its members. */
  lemma {:induction false} PrepareAllFrom(desired: seq<Json>, s: Server, ps: seq<Prepared>)
    requires |ps| == |desired| && forall i :: 0 <= i < |desired| ==> PrepareClient(desired[i], s) == Ok(ps[i])
    ensures PrepareAll(desired, s) == Ok(ps)
  {
    hide PrepareClient;
    if desired != [] {
      PrepareAllFrom(desired[1..], s, ps[1..]);
      assert ps == [ps[0]] + ps[1..];
    }
  }

  /** The prepared clients when only client j changed. */
  lemma {:induction false} OneClientChanged(desired: seq<Json>, s: Server, s': Server, j: nat, q: Prepared)
    requires FixedInventory(desired) && PrepareAll(desired, s).Ok? && j < |desired|
    requires PrepareClient(desired[j], s') == Ok(q)
    requires forall d :: IsDesiredClient(d) && d.fields["clientId"] != Get(desired[j].fields, "clientId") ==>
      PrepareClient(d, s') == PrepareClient(d, s)
    ensures |PrepareAll(desired, s).value| == |desired|
    ensures PrepareAll(desired, s') == Ok(PrepareAll(desired, s).value[j := q])
  {
    PrepareAllPointwise(desired, s);
    InventoryDistinct(desired);
    var ps := PrepareAll(desired, s).value;
    forall i | 0 <= i < |desired| && i != j ensures PrepareClient(desired[i], s') == Ok(ps[i]) {
      assert PrepareClient(desired[i], s) == Ok(ps[i]);
      assert Get(desired[i].fields, "clientId") != Get(desired[j].fields, "clientId");
    }
    PrepareAllFrom(desired, s', ps[j := q]);
  }

  lemma {:induction false} InventoryDistinct(desired: seq<Json>)
    requires FixedInventory(desired)
    ensures forall i, j :: 0 <= i < j < |desired| ==>
      Get(desired[i].fields, "clientId") != Get(desired[j].fields, "clientId")
  {
    var ids := set i | 0 <= i < |desired| :: Get(desired[i].fields, "clientId").s;
    var a, b := Get(desired[0].fields, "clientId").s, Get(desired[1].fields, "clientId").s;
    var c := Get(desired[2].fields, "clientId").s;
    assert ids == {a, b, c};
    assert "third-party-fapi-mtls" in ids && "third-party-fapi-pkj-mtls" in ids && "api-gateway-introspection" in ids;
  }
}
