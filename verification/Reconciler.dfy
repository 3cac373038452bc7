/** The apply steps and main of scripts/sync-keycloak-demo-data.py, run against a server that
    may stop answering at any write. */
module Reconciler {
  import opened Wrappers
  import opened Json
  import opened RealmPlan
  import opened ClientPlan
  import opened AdminState
  import opened Convergence
  import opened ReconcilerTheorems
  import opened Survival

  datatype Outcome = PlanFailed | Cut | NotConverged | Done

  /** What the server chooses for a request it carries out, and whether its answer arrives. */
  datatype Reply = Reply(choice: Choice, heard: bool)

  /** Every write is carried out and heard of in turn, and so is the lookup that follows the
      creation of a client. */
  ghost predicate AllHeard(s: Server, ws: seq<Write>, replies: seq<Reply>)
    decreases |ws|
  {
    ws == [] || (
      && replies != [] && replies[0].heard && Allocates(s, ws[0], replies[0].choice)
      && var s' := Exec(s, ws[0], replies[0].choice);
         if ws[0].PostClient? then |replies| > 1 && replies[1].heard && AllHeard(s', ws[1..], replies[2..])
         else AllHeard(s', ws[1..], replies[1..]))
  }

  /** What a mapper request sent to that client leaves behind. */
  function MapperWritten(s: Server, uuid: string, w: Write, c: Choice): Server
    requires w.PostMapper? || w.PutMapper?
  {
    var live := MappersOf(s, uuid);
    var changed := if w.PostMapper? then live + [Created(w.mapper.fields, c.id, c.defaults)]
                   else Put(live, w.id, w.mapper.fields["id" := Str(w.id)]);
    s.(mappers := s.mappers[uuid := changed])
  }

  lemma {:induction false} MapperWrittenIsExec(s: Server, uuid: string, w: Write, c: Choice)
    requires (w.PostMapper? || w.PutMapper?) && uuid == UuidOf(s, w.clientId)
    ensures MapperWritten(s, uuid, w, c) == Exec(s, w, c)
  {
    hide UuidOf, MappersOf, Put, Created;
  }

  class AdminServer {
    var state: Server
    /** The requests the server still carries out; one that finds none left, or asks for an id
        already taken, fails without effect. */
    var replies: seq<Reply>
    ghost var log: seq<Write>
    ghost var used: seq<Choice>
    /** A request failed although the server had carried it out: its answer did not arrive. */
    ghost var lost: bool

    constructor (state: Server, replies: seq<Reply>)
      ensures this.state == state && this.replies == replies && log == [] && used == [] && !lost
    {
      this.state, this.replies := state, replies;
      log, used, lost := [], [], false;
    }

    /** So far exactly a prefix of start's plan was written, and the rest is the plan now. */
    ghost predicate OnTrack(desired: Json, start: Server)
      reads this
      ensures OnTrack(desired, start) ==> WellKept(state) && PlanRun(desired, state).Ok?
    {
      && WellKept(state) && PlanRun(desired, state).Ok? && PlanRun(desired, start).Ok?
      && log + Writes(PlanRun(desired, state).value) == Writes(PlanRun(desired, start).value)
      && RunsTo(start, log, used, state)
    }

    /** w is the first write the current state still needs. */
    ghost predicate NextIs(desired: Json, w: Write)
      reads this
    {
      && PlanRun(desired, state).Ok? && Writes(PlanRun(desired, state).value) != []
      && Writes(PlanRun(desired, state).value)[0] == w
    }

    /** From here on every request that is left will be answered. */
    ghost predicate WillFinish(desired: Json)
      reads this
    {
      PlanRun(desired, state).Ok? && AllHeard(state, Writes(PlanRun(desired, state).value), replies)
    }

    /** The same right after a write, when the lookup that may belong to it is still to come. */
    ghost predicate WillFinishAfter(desired: Json, w: Write)
      reads this
    {
      if !w.PostClient? then WillFinish(desired)
      else
        && replies != [] && replies[0].heard && PlanRun(desired, state).Ok?
        && AllHeard(state, Writes(PlanRun(desired, state).value), replies[1..])
    }

    /** The server carries out a write, and its answer arrives or is lost. */
    method CarryOut(w: Write, next: Server, ghost desired: Json, ghost start: Server) returns (ok: bool)
      requires OnTrack(desired, start) && NextIs(desired, w) && !lost
      requires replies != [] && Allocates(state, w, replies[0].choice) && next == Exec(state, w, replies[0].choice)
      modifies this
      ensures OnTrack(desired, start) && ok == old(replies)[0].heard && lost == !ok
      ensures state == next && replies == old(replies)[1..] && log == old(log) + [w]
      ensures old(WillFinish(desired)) <==> ok && WillFinishAfter(desired, w)
    {
      hide PlanRun, Writes, RunsTo, WellKept, Allocates, AllHeard, Exec;
      ghost var ws := Writes(PlanRun(desired, state).value);
      HeardFirst(state, ws, replies);
      ok := replies[0].heard;
      Advance(desired, start, state, log, used, w, replies[0].choice);
      log, used, lost := log + [w], used + [replies[0].choice], !ok;
      state, replies := next, replies[1..];
    }

    /** One write request. */
    method Send(w: Write, ghost desired: Json, ghost start: Server) returns (ok: bool)
      requires OnTrack(desired, start) && NextIs(desired, w) && !lost
      modifies this
      ensures OnTrack(desired, start) && (ok ==> !lost)
      ensures ok || lost ==>
        && old(replies) != [] && Allocates(old(state), w, old(replies)[0].choice) && ok == old(replies)[0].heard
        && state == Exec(old(state), w, old(replies)[0].choice) && replies == old(replies)[1..]
        && log == old(log) + [w]
      ensures !ok && !lost ==> state == old(state) && log == old(log) && NextIs(desired, w)
      ensures old(WillFinish(desired)) <==> ok && WillFinishAfter(desired, w)
    {
      if replies == [] || !Allocates(state, w, replies[0].choice) {
        NotHeard(state, Writes(PlanRun(desired, state).value), replies);
        return false;
      }
      hide *;
      ok := CarryOut(w, Exec(state, w, replies[0].choice), desired, start);
    }

    /** A mapper request is addressed by the client id remembered for its clientId. */
    method SendMapper(uuid: string, w: Write, ghost desired: Json, ghost start: Server) returns (ok: bool)
      requires w.PostMapper? || w.PutMapper?
      requires uuid == UuidOf(state, w.clientId)
      requires OnTrack(desired, start) && NextIs(desired, w) && !lost
      modifies this
      ensures OnTrack(desired, start) && (ok ==> !lost)
      ensures ok || lost ==>
        && old(replies) != [] && Allocates(old(state), w, old(replies)[0].choice) && ok == old(replies)[0].heard
        && state == Exec(old(state), w, old(replies)[0].choice) && replies == old(replies)[1..]
        && log == old(log) + [w]
      ensures !ok && !lost ==> state == old(state) && log == old(log) && NextIs(desired, w)
      ensures old(WillFinish(desired)) <==> ok && WillFinishAfter(desired, w)
    {
      if replies == [] || !Allocates(state, w, replies[0].choice) {
        NotHeard(state, Writes(PlanRun(desired, state).value), replies);
        return false;
      }
      var next := MapperWritten(state, uuid, w, replies[0].choice);
      MapperWrittenIsExec(state, uuid, w, replies[0].choice);
      hide *;
      ok := CarryOut(w, next, desired, start);
    }

    /** One read request. */
    method Look() returns (ok: bool)
      requires !lost
      modifies this
      ensures state == old(state) && log == old(log) && used == old(used)
      ensures lost <==> !ok
      ensures ok <==> old(replies) != [] && old(replies)[0].heard
      ensures ok ==> replies == old(replies)[1..]
    {
      ok := replies != [] && replies[0].heard;
      if ok {
        replies := replies[1..];
      }
      lost := !ok;
    }

    /** apply_key_provider_sync */
    method ApplyKeyProvider(action: ProviderAction, ghost desired: Json, ghost start: Server) returns (ok: bool)
      requires OnTrack(desired, start) && !lost && PlanRun(desired, state).value.provider == action
      modifies this
      ensures OnTrack(desired, start) && (ok ==> !lost)
      ensures ok ==> PlanRun(desired, state).value.clients == old(PlanRun(desired, state).value.clients)
      ensures ok ==> PlanRun(desired, state).value.realm == old(PlanRun(desired, state).value.realm)
      ensures !ok ==> lost || Writes(PlanRun(desired, state).value) != []
      ensures ok <==> !lost && ProviderWrites(PlanRun(desired, state).value.provider) == []
      ensures old(WillFinish(desired)) <==> ok && WillFinish(desired)
    {
      hide PlanRun, Writes, WellKept, RunsTo, Exec, Allocates, AllHeard;
      match action {
        case KeepProvider(_) =>
          return true;
        case CreateProvider =>
          HeadIsProvider(PlanRun(desired, state).value);
          ok := Send(PostComponent, desired, start);
        case UpdateProvider(id) =>
          HeadIsProvider(PlanRun(desired, state).value);
          ok := Send(PutProvider(id), desired, start);
      }
      if ok {
        ProviderIsSettled(desired, old(state), old(replies)[0].choice);
      }
    }

    /** First pass over one client: write it if it must change, and learn its id. */
    method SettleClient(plan: seq<Prepared>, uuids: map<string, string>, i: nat, ghost desired: Json,
                        ghost start: Server)
      returns (ok: bool, uuid: string)
      requires OnTrack(desired, start) && !lost && ProviderWrites(PlanRun(desired, state).value.provider) == []
      requires FirstPass(DesiredClients(desired), state, plan, uuids, i) && i < |plan|
      modifies this
      ensures OnTrack(desired, start) && (ok ==> !lost)
      ensures state.realm == old(state.realm) && state.components == old(state.components)
      ensures ProviderWrites(PlanRun(desired, state).value.provider) == []
      ensures ok ==> FirstPass(DesiredClients(desired), state, plan, uuids[plan[i].action.clientId := uuid], i + 1)
      ensures old(WillFinish(desired)) <==> ok && WillFinish(desired)
      ensures !ok ==> lost || Writes(PlanRun(desired, state).value) != []
    {
      hide PrepareAll, PrepareClient, ClientWrites, MapperWrites, Writes;
      hide RunsTo, PlanRun, ProviderWrites, FirstPass, AllHeard;
      var action := plan[i].action;
      ghost var ds := DesiredClients(desired);
      FirstPassAt(ds, state, plan, uuids, i);
      match action {
        case KeepClient(_, found) =>
          FirstPassNext(ds, state, state, plan, uuids, i, found);
          return true, found;
        case UpdateClient(_, found, payload, current) =>
          HeadIsClient(desired, state, plan, uuids, i);
          ok := Send(PutClient(found, UpdateBody(found, payload, current)), desired, start);
          SameRealmPlan(desired, old(state), state);
          if !ok {
            return false, "";
          }
          UpdateClientStep(ds[i], old(state), plan[i], ClientWrite(action)[0], old(replies)[0].choice);
          FirstPassNext(ds, old(state), state, plan, uuids, i, found);
          return true, found;
        case CreateClient(clientId, payload) =>
          HeadIsClient(desired, state, plan, uuids, i);
          ok := Send(PostClient(payload), desired, start);
          SameRealmPlan(desired, old(state), state);
          if !ok {
            return false, "";
          }
          CreateClientStep(ds[i], old(state), plan[i], ClientWrite(action)[0], old(replies)[0].choice);
          ok := Look();
          if !ok {
            return false, "";
          }
          var created := Where(state.clients, "clientId", clientId);
          CreatedIsFound(ds[i], state, old(replies)[0].choice.id);
          if |created| != 1 || !created[0].Obj? || !IsText(Get(created[0].fields, "id")) {
            assert false;
            return false, "";
          }
          uuid := Get(created[0].fields, "id").s;
          FirstPassNext(ds, old(state), state, plan, uuids, i, uuid);
          return true, uuid;
      }
    }

    /** apply_client_sync: all clients first, then all mappers under the ids learnt. */
    method ApplyClientSync(plan: seq<Prepared>, ghost desired: Json, ghost start: Server) returns (ok: bool)
      requires OnTrack(desired, start) && !lost && PlanRun(desired, state).value.clients == plan
      requires ProviderWrites(PlanRun(desired, state).value.provider) == []
      modifies this
      ensures OnTrack(desired, start) && (ok ==> !lost)
      ensures state.realm == old(state.realm) && state.components == old(state.components)
      ensures ok ==> ClientWrites(PlanRun(desired, state).value.clients) == []
      ensures ok ==> MapperWrites(PlanRun(desired, state).value.clients) == []
      ensures old(WillFinish(desired)) <==> ok && WillFinish(desired)
      ensures !ok ==> lost || Writes(PlanRun(desired, state).value) != []
    {
      hide *;
      ghost var ds := DesiredClients(desired);
      ghost var components := state.components;
      var uuids: map<string, string> := map[];
      FirstPassStarts(desired, state, plan);
      for i := 0 to |plan|
        invariant OnTrack(desired, start) && !lost && state.realm == old(state.realm) && state.components == components
        invariant WillFinish(desired) <==> old(WillFinish(desired))
        invariant ProviderWrites(PlanRun(desired, state).value.provider) == []
        invariant FirstPass(ds, state, plan, uuids, i)
      {
        var uuid;
        ok, uuid := SettleClient(plan, uuids, i, desired, start);
        if !ok {
          return false;
        }
        uuids := uuids[plan[i].action.clientId := uuid];
      }
      PassesMeet(ds, state, plan, uuids);
      for i := 0 to |plan|
        invariant OnTrack(desired, start) && !lost && state.realm == old(state.realm) && state.components == components
        invariant WillFinish(desired) <==> old(WillFinish(desired))
        invariant ProviderWrites(PlanRun(desired, state).value.provider) == []
        invariant SecondPass(ds, state, plan, uuids, i, 0)
      {
        ok := SyncMappers(plan, uuids, i, desired, start);
        if !ok {
          return false;
        }
      }
      SecondPassDone(ds, state, plan, uuids);
      PlanClientsAre(desired, state);
      return true;
    }

    /** Second pass over one client: its mapper actions in order. */
    method SyncMappers(plan: seq<Prepared>, uuids: map<string, string>, i: nat, ghost desired: Json,
                       ghost start: Server)
      returns (ok: bool)
      requires OnTrack(desired, start) && !lost && ProviderWrites(PlanRun(desired, state).value.provider) == []
      requires SecondPass(DesiredClients(desired), state, plan, uuids, i, 0) && i < |plan|
      modifies this
      ensures OnTrack(desired, start) && (ok ==> !lost)
      ensures state.realm == old(state.realm) && state.components == old(state.components)
      ensures ProviderWrites(PlanRun(desired, state).value.provider) == []
      ensures ok ==> SecondPass(DesiredClients(desired), state, plan, uuids, i + 1, 0)
      ensures old(WillFinish(desired)) <==> ok && WillFinish(desired)
      ensures !ok ==> lost || Writes(PlanRun(desired, state).value) != []
    {
      hide PrepareAll, ClientWrites, MapperWrites, Writes, ProviderWrites, RunsTo, Allocates, PrepareClient;
      hide PlanRun, WellKept, Exec, UuidOf, SecondPassClients, Prepares, AllHeard;
      ghost var ds := DesiredClients(desired);
      var clientId := plan[i].action.clientId;
      var uuid := uuids[clientId];
      for m := 0 to |plan[i].mapperPlan|
        invariant OnTrack(desired, start) && !lost && (WillFinish(desired) <==> old(WillFinish(desired)))
        invariant state.realm == old(state.realm) && state.components == old(state.components)
        invariant ProviderWrites(PlanRun(desired, state).value.provider) == []
        invariant SecondPass(ds, state, plan, uuids, i, m)
      {
        ghost var before, choices := state, replies;
        SecondPassAt(desired, state, plan, uuids, i, m);
        var w := MapperWrite(clientId, plan[i].mapperPlan[m]);
        ok := SendMapper(uuid, w, desired, start);
        if ok || lost {
          OnlyMappers(before, w, choices[0].choice);
        }
        SameRealmPlan(desired, before, state);
        if !ok {
          return false;
        }
        SecondPassNext(ds, before, plan, uuids, i, m, choices[0].choice);
      }
      SecondPassTurn(ds, state, plan, uuids, i);
      return true;
    }

    /** apply_realm_sync */
    method ApplyRealm(payload: Object, ghost desired: Json, ghost start: Server) returns (ok: bool)
      requires OnTrack(desired, start) && !lost && PlanRun(desired, state).value.realm == payload
      requires var p := PlanRun(desired, state).value;
        ProviderWrites(p.provider) == [] && ClientWrites(p.clients) == [] && MapperWrites(p.clients) == []
      modifies this
      ensures OnTrack(desired, start)
      ensures ok <==> !lost && Writes(PlanRun(desired, state).value) == []
      ensures ok <==> old(WillFinish(desired))
    {
      ghost var p := PlanRun(desired, state).value;
      assert Writes(p) == RealmWrites(payload) by {
        assert [] + [] + [] + RealmWrites(payload) == RealmWrites(payload);
      }
      if payload != map[] {
        ok := Send(PutRealm(payload), desired, start);
        if ok {
          RealmFirst(desired, old(state), p, old(replies)[0].choice);
        }
      } else {
        ok := true;
      }
    }
  }

  /** main up to the verify steps: all three plans, then provider, clients and mappers, realm. */
  method Sync(server: AdminServer, desired: Json) returns (r: Outcome)
    requires WellKept(server.state) && server.log == [] && server.used == [] && !server.lost
    modifies server
    ensures r == PlanFailed <==> !PlanRun(desired, old(server.state)).Ok?
    ensures r == PlanFailed ==> server.state == old(server.state) && server.log == []
    ensures r != NotConverged
    ensures r != PlanFailed ==>
      server.OnTrack(desired, old(server.state)) && Survives(desired, old(server.state), server.state)
    ensures r == Done ==>
      Verified(desired, server.state) && server.log == Writes(PlanRun(desired, old(server.state)).value)
    ensures r == Done <==> old(PlanRun(desired, server.state).Ok?
                               && AllHeard(server.state, Writes(PlanRun(desired, server.state).value), server.replies))
    ensures r == Done ==> !server.lost
    ensures r == Cut ==>
      server.lost || (PlanRun(desired, server.state).Ok? && Writes(PlanRun(desired, server.state).value) != [])
  {
    hide Writes, ProviderWrites, ClientWrites, MapperWrites, RunsTo, PlanRun, Survives, Distance, Verified, AllHeard;
    var planned := PlanRun(desired, server.state);
    if planned.Err? {
      return PlanFailed;
    }
    var plan := planned.value;
    ghost var start := server.state;
    assert server.log + Writes(plan) == Writes(plan);
    EmptyRun(start);
    var ok := server.ApplyKeyProvider(plan.provider, desired, start);
    if ok {
      ghost var before := server.state;
      ok := server.ApplyClientSync(plan.clients, desired, start);
      if ok {
        SameRealmPlan(desired, before, server.state);
        ok := server.ApplyRealm(plan.realm, desired, start);
      }
    }
    RunSurvives(desired, start, server.log, Writes(PlanRun(desired, server.state).value), server.used, server.state);
    if !ok {
      return Cut;
    }
    DistanceIsWrites(desired, server.state);
    VerifiedIffDistanceZero(desired, server.state);
    if !Verified(desired, server.state) {
      return NotConverged;
    }
    assert server.log + [] == server.log;
    return Done;
  }

  /** The first write of what is left decides about the rest. */
  lemma {:induction false} HeardFirst(s: Server, ws: seq<Write>, replies: seq<Reply>)
    requires ws != []
    ensures AllHeard(s, ws, replies) <==>
      && replies != [] && replies[0].heard && Allocates(s, ws[0], replies[0].choice)
      && if ws[0].PostClient? then
           && |replies| > 1 && replies[1..][0].heard
           && AllHeard(Exec(s, ws[0], replies[0].choice), ws[1..], replies[1..][1..])
         else AllHeard(Exec(s, ws[0], replies[0].choice), ws[1..], replies[1..])
  {
    hide Exec, Allocates;
    if |replies| > 1 {
      assert replies[1..][1..] == replies[2..];
    }
  }

  lemma {:induction false} NotHeard(s: Server, ws: seq<Write>, replies: seq<Reply>)
    requires ws != [] && (replies == [] || !Allocates(s, ws[0], replies[0].choice))
    ensures !AllHeard(s, ws, replies)
  {
    hide Exec, Allocates;
  }

  /** After the provider's write its plan is settled and the other two are as they were. */
  lemma {:induction false} ProviderIsSettled(desired: Json, s: Server, c: Choice)
    requires WellKept(s) && PlanRun(desired, s).Ok? && ProviderWrites(PlanRun(desired, s).value.provider) != []
    requires Allocates(s, ProviderWrites(PlanRun(desired, s).value.provider)[0], c)
    ensures var s' := Exec(s, ProviderWrites(PlanRun(desired, s).value.provider)[0], c);
      && PlanRun(desired, s').Ok? && ProviderWrites(PlanRun(desired, s').value.provider) == []
      && PlanRun(desired, s').value.clients == PlanRun(desired, s).value.clients
      && PlanRun(desired, s').value.realm == PlanRun(desired, s).value.realm
  {
    var w := ProviderWrites(PlanRun(desired, s).value.provider)[0];
    OnlyComponents(s, w, c);
    hide Exec, Allocates, PrepareAll, PrepareProvider, RealmPayload, FixedInventory;
    ProviderStep(s, w, c);
    PrepareAllSame(Get(desired.fields, "clients").items, s, Exec(s, w, c));
  }

  lemma {:induction false} OnlyComponents(s: Server, w: Write, c: Choice)
    requires w.PostComponent? || w.PutProvider?
    ensures var s' := Exec(s, w, c);
      s'.clients == s.clients && s'.mappers == s.mappers && s'.realm == s.realm
  {
  }

  lemma {:induction false} EmptyRun(s: Server)
    ensures RunsTo(s, [], [], s)
  {
  }

  lemma {:induction false} OnlyMappers(s: Server, w: Write, c: Choice)
    requires w.PostMapper? || w.PutMapper?
    ensures Exec(s, w, c).realm == s.realm && Exec(s, w, c).components == s.components
  {
  }

  lemma {:induction false} SameRealmPlan(desired: Json, s: Server, s': Server)
    requires PlanRun(desired, s).Ok? && PlanRun(desired, s').Ok?
    requires s'.realm == s.realm && s'.components == s.components
    ensures PlanRun(desired, s').value.realm == PlanRun(desired, s).value.realm
    ensures PlanRun(desired, s').value.provider == PlanRun(desired, s).value.provider
  {
    hide PrepareAll, PlanProvider, RealmPayload, FixedInventory;
  }

  /* ---------------- the two passes over the clients ---------------- */

  /** ps are the prepared clients of state s, for the inventory the plan was made for. */
  ghost predicate Prepares(ds: seq<Json>, s: Server, plan: seq<Prepared>, ps: seq<Prepared>) {
    && FixedInventory(ds) && PrepareAll(ds, s) == Ok(ps) && |ps| == |plan| == |ds|
    && forall k :: 0 <= k < |plan| ==> plan[k].action.clientId == Get(ds[k].fields, "clientId").s
  }

  /** The client in place under the id remembered for it, with what is left of its mapper plan. */
  ghost function Settled(p: Prepared, uuids: map<string, string>, left: seq<MapperAction>): Prepared {
    var clientId := p.action.clientId;
    Prepared(KeepClient(clientId, if clientId in uuids then uuids[clientId] else ""), left)
  }

  /** Clients below i are settled; the others are as planned. */
  ghost predicate FirstPass(ds: seq<Json>, s: Server, plan: seq<Prepared>, uuids: map<string, string>, i: nat) {
    && i <= |plan|
    && (forall k :: 0 <= k < i ==> plan[k].action.clientId in uuids)
    && Prepares(ds, s, plan, FirstPassClients(plan, uuids, i))
  }

  ghost function FirstPassClients(plan: seq<Prepared>, uuids: map<string, string>, i: nat): (ps: seq<Prepared>)
    ensures |ps| == |plan|
    ensures forall k :: 0 <= k < |plan| ==>
      ps[k] == if k < i then Settled(plan[k], uuids, plan[k].mapperPlan) else plan[k]
  {
    seq(|plan|, k requires 0 <= k < |plan| => if k < i then Settled(plan[k], uuids, plan[k].mapperPlan) else plan[k])
  }

  /** All clients are settled; mapper plans below i are done, and m actions of client i's. */
  ghost predicate SecondPass(ds: seq<Json>, s: Server, plan: seq<Prepared>, uuids: map<string, string>, i: nat,
                             m: nat) {
    && i <= |plan| && (i < |plan| ==> m <= |plan[i].mapperPlan|)
    && (forall k :: 0 <= k < |plan| ==> plan[k].action.clientId in uuids)
    && Prepares(ds, s, plan, SecondPassClients(plan, uuids, i, m))
  }

  ghost function SecondPassClients(plan: seq<Prepared>, uuids: map<string, string>, i: nat, m: nat): (ps: seq<Prepared>)
    requires i < |plan| ==> m <= |plan[i].mapperPlan|
    ensures |ps| == |plan|
    ensures forall k :: 0 <= k < |plan| ==> ps[k] == Settled(plan[k], uuids, LeftOf(plan[k], k, i, m))
  {
    seq(|plan|, k requires 0 <= k < |plan| => Settled(plan[k], uuids, LeftOf(plan[k], k, i, m)))
  }

  ghost function LeftOf(p: Prepared, k: nat, i: nat, m: nat): seq<MapperAction>
    requires k == i ==> m <= |p.mapperPlan|
  {
    if k < i then [] else if k == i then p.mapperPlan[m..] else p.mapperPlan
  }

  lemma {:induction false} PlanClientsAre(desired: Json, s: Server)
    requires PlanRun(desired, s).Ok?
    ensures FixedInventory(DesiredClients(desired))
    ensures PrepareAll(DesiredClients(desired), s) == Ok(PlanRun(desired, s).value.clients)
  {
  }

  lemma {:induction false} FirstPassStarts(desired: Json, s: Server, plan: seq<Prepared>)
    requires PlanRun(desired, s).Ok? && PlanRun(desired, s).value.clients == plan
    ensures FirstPass(DesiredClients(desired), s, plan, map[], 0)
  {
    var ds := DesiredClients(desired);
    PlanClientsAre(desired, s);
    assert forall k :: 0 <= k < |plan| ==> plan[k].action.clientId == Get(ds[k].fields, "clientId").s by {
      hide PrepareAll, PrepareClient, PlanRun, FixedInventory;
      PrepareAllPointwise(ds, s);
      forall k | 0 <= k < |plan| ensures plan[k].action.clientId == Get(ds[k].fields, "clientId").s {
        ActionIsFor(ds[k], s, plan[k]);
      }
    }
    assert |plan| == |ds| by {
      PrepareAllPointwise(ds, s);
    }
    assert plan == FirstPassClients(plan, map[], 0);
  }

  lemma {:induction false} ActionIsFor(d: Json, s: Server, p: Prepared)
    requires PrepareClient(d, s) == Ok(p)
    ensures IsDesiredClient(d) && p.action.clientId == d.fields["clientId"].s
  {
  }

  lemma {:induction false} FirstPassAt(ds: seq<Json>, s: Server, plan: seq<Prepared>, uuids: map<string, string>,
                                       i: nat)
    requires FirstPass(ds, s, plan, uuids, i) && i < |plan|
    ensures i < |ds| && PrepareClient(ds[i], s) == Ok(plan[i])
    ensures IsDesiredClient(ds[i]) && plan[i].action.clientId == ds[i].fields["clientId"].s
    ensures !plan[i].action.KeepClient? ==> ClientWrite(plan[i].action) != []
  {
    PrepareAllPointwise(ds, s);
    ActionIsFor(ds[i], s, plan[i]);
    assert PrepareClient(ds[i], s) == Ok(FirstPassClients(plan, uuids, i)[i]);
    if !plan[i].action.KeepClient? {
      ChangeIsWritten(ds[i], s, plan[i]);
    }
  }

  lemma {:induction false} ChangeIsWritten(d: Json, s: Server, p: Prepared)
    requires PrepareClient(d, s) == Ok(p) && !p.action.KeepClient?
    ensures ClientWrite(p.action) != []
  {
  }

  lemma {:induction false} FirstPassNext(ds: seq<Json>, s: Server, s': Server, plan: seq<Prepared>,
                                         uuids: map<string, string>, i: nat, uuid: string)
    requires FirstPass(ds, s, plan, uuids, i) && i < |plan|
    requires PrepareClient(ds[i], s') == Ok(Prepared(KeepClient(plan[i].action.clientId, uuid), plan[i].mapperPlan))
    requires forall d :: IsDesiredClient(d) && d.fields["clientId"] != Get(ds[i].fields, "clientId") ==>
      PrepareClient(d, s') == PrepareClient(d, s)
    ensures FirstPass(ds, s', plan, uuids[plan[i].action.clientId := uuid], i + 1)
  {
    InventoryDistinct(ds);
    var q := Prepared(KeepClient(plan[i].action.clientId, uuid), plan[i].mapperPlan);
    OneClientChanged(ds, s, s', i, q);
    var uuids' := uuids[plan[i].action.clientId := uuid];
    var ps := PrepareAll(ds, s).value[i := q];
    assert PrepareAll(ds, s).value == FirstPassClients(plan, uuids, i);
    forall k | 0 <= k < |plan| ensures ps[k] == FirstPassClients(plan, uuids', i + 1)[k] {
      assert k < i ==> Get(ds[k].fields, "clientId") != Get(ds[i].fields, "clientId");
    }
    assert ps == FirstPassClients(plan, uuids', i + 1);
  }

  lemma {:induction false} HeadOfClientWrites(ps: seq<Prepared>, i: nat)
    requires i < |ps| && (forall k :: 0 <= k < i ==> ps[k].action.KeepClient?) && ClientWrite(ps[i].action) != []
    ensures ClientWrites(ps) != [] && ClientWrites(ps)[0] == ClientWrite(ps[i].action)[0]
  {
    if i > 0 {
      HeadOfClientWrites(ps[1..], i - 1);
    }
  }

  lemma {:induction false} HeadOfMapperWrites(ps: seq<Prepared>, i: nat)
    requires i < |ps| && (forall k :: 0 <= k < i ==> ps[k].mapperPlan == []) && ps[i].mapperPlan != []
    ensures MapperWrites(ps) != [] && MapperWrites(ps)[0] == MapperWrite(ps[i].action.clientId, ps[i].mapperPlan[0])
  {
    if i > 0 {
      assert MapperWritesOf(ps[0]) == [];
      HeadOfMapperWrites(ps[1..], i - 1);
    }
  }

  lemma {:induction false} AllKept(ps: seq<Prepared>)
    ensures (forall k :: 0 <= k < |ps| ==> ps[k].action.KeepClient?) ==> ClientWrites(ps) == []
    ensures (forall k :: 0 <= k < |ps| ==> ps[k].mapperPlan == []) ==> MapperWrites(ps) == []
  {
    if ps != [] {
      AllKept(ps[1..]);
      assert ps[0].mapperPlan == [] ==> MapperWritesOf(ps[0]) == [];
    }
  }

  lemma {:induction false} HeadIsClient(desired: Json, s: Server, plan: seq<Prepared>, uuids: map<string, string>,
                                        i: nat)
    requires PlanRun(desired, s).Ok? && ProviderWrites(PlanRun(desired, s).value.provider) == []
    requires FirstPass(DesiredClients(desired), s, plan, uuids, i) && i < |plan| && ClientWrite(plan[i].action) != []
    ensures Writes(PlanRun(desired, s).value) != []
    ensures Writes(PlanRun(desired, s).value)[0] == ClientWrite(plan[i].action)[0]
  {
    PlanClientsAre(desired, s);
    hide PrepareAll, ClientWrites, MapperWrites, PlanRun, ProviderWrites, RealmWrites;
    var p := PlanRun(desired, s).value;
    HeadOfClientWrites(p.clients, i);
    SplitFirst(ProviderWrites(p.provider), ClientWrites(p.clients), MapperWrites(p.clients), RealmWrites(p.realm));
  }

  /** The lookup after the POST returns the one client created. */
  lemma {:induction false} CreatedIsFound(d: Json, s: Server, id: string)
    requires PrepareClient(d, s).Ok? && PrepareClient(d, s).value.action == KeepClient(d.fields["clientId"].s, id)
    ensures var found := Where(s.clients, "clientId", d.fields["clientId"].s);
      |found| == 1 && IdOf(found[0]) == Some(id)
  {
    var k := FoundClient(d, s);
  }

  lemma {:induction false} PassesMeet(ds: seq<Json>, s: Server, plan: seq<Prepared>, uuids: map<string, string>)
    requires FirstPass(ds, s, plan, uuids, |plan|)
    ensures SecondPass(ds, s, plan, uuids, 0, 0)
  {
    var ps := FirstPassClients(plan, uuids, |plan|);
    assert forall k :: 0 <= k < |plan| ==> LeftOf(plan[k], k, 0, 0) == plan[k].mapperPlan;
    assert ps == SecondPassClients(plan, uuids, 0, 0);
  }

  lemma {:induction false} SecondPassAt(desired: Json, s: Server, plan: seq<Prepared>, uuids: map<string, string>,
                                        i: nat, m: nat)
    requires PlanRun(desired, s).Ok? && ProviderWrites(PlanRun(desired, s).value.provider) == []
    requires SecondPass(DesiredClients(desired), s, plan, uuids, i, m) && i < |plan| && m < |plan[i].mapperPlan|
    ensures Writes(PlanRun(desired, s).value) != []
    ensures Writes(PlanRun(desired, s).value)[0] == MapperWrite(plan[i].action.clientId, plan[i].mapperPlan[m])
    ensures uuids[plan[i].action.clientId] == UuidOf(s, plan[i].action.clientId)
  {
    PlanClientsAre(desired, s);
    var ps := SecondPassClients(plan, uuids, i, m);
    assert PlanRun(desired, s).value.clients == ps && plan[i].action.clientId in uuids;
    hide *;
    SecondPassHead(plan, uuids, i, m);
    MappersComeNext(PlanRun(desired, s).value);
    SettledUuid(DesiredClients(desired), s, ps, i);
  }

  /** In the second pass no client write is left and the head of client i's actions comes next. */
  lemma {:induction false} SecondPassHead(plan: seq<Prepared>, uuids: map<string, string>, i: nat, m: nat)
    requires i < |plan| && m < |plan[i].mapperPlan| && plan[i].action.clientId in uuids
    ensures var ps := SecondPassClients(plan, uuids, i, m);
      && |ps| == |plan| && ClientWrites(ps) == [] && MapperWrites(ps) != []
      && MapperWrites(ps)[0] == MapperWrite(plan[i].action.clientId, plan[i].mapperPlan[m])
      && ps[i].action == KeepClient(plan[i].action.clientId, uuids[plan[i].action.clientId])
  {
    hide ClientWrites, MapperWrites;
    var ps := SecondPassClients(plan, uuids, i, m);
    AllKept(ps);
    HeadOfMapperWrites(ps, i);
  }

  lemma {:induction false} MappersComeNext(p: Plan)
    requires ProviderWrites(p.provider) == [] && ClientWrites(p.clients) == [] && MapperWrites(p.clients) != []
    ensures Writes(p) != [] && Writes(p)[0] == MapperWrites(p.clients)[0]
  {
    hide ProviderWrites, ClientWrites, MapperWrites;
    SplitFirst(ProviderWrites(p.provider), ClientWrites(p.clients), MapperWrites(p.clients), RealmWrites(p.realm));
  }

  lemma {:induction false} SettledUuid(ds: seq<Json>, s: Server, ps: seq<Prepared>, i: nat)
    requires PrepareAll(ds, s) == Ok(ps) && i < |ps| && ps[i].action.KeepClient?
    ensures UuidOf(s, ps[i].action.clientId) == ps[i].action.uuid
  {
    PrepareAllPointwise(ds, s);
    var k := FoundClient(ds[i], s);
  }

  lemma {:induction false} SecondPassNext(ds: seq<Json>, s: Server, plan: seq<Prepared>, uuids: map<string, string>,
                                          i: nat, m: nat, c: Choice)
    requires WellKept(s) && SecondPass(ds, s, plan, uuids, i, m) && i < |plan| && m < |plan[i].mapperPlan|
    requires Allocates(s, MapperWrite(plan[i].action.clientId, plan[i].mapperPlan[m]), c)
    ensures SecondPass(ds, Exec(s, MapperWrite(plan[i].action.clientId, plan[i].mapperPlan[m]), c),
                       plan, uuids, i, m + 1)
  {
    hide PrepareAll, PrepareClient, Exec, Allocates, IsDesiredClient;
    PrepareAllPointwise(ds, s);
    var ps := PrepareAll(ds, s).value;
    var w := MapperWrite(plan[i].action.clientId, plan[i].mapperPlan[m]);
    MapperStep(ds[i], s, ps[i], w, c);
    var q := Prepared(ps[i].action, ps[i].mapperPlan[1..]);
    OneClientChanged(ds, s, Exec(s, w, c), i, q);
    assert plan[i].mapperPlan[m..][1..] == plan[i].mapperPlan[m + 1..];
    assert ps[i := q] == SecondPassClients(plan, uuids, i, m + 1);
  }

  lemma {:induction false} SecondPassTurn(ds: seq<Json>, s: Server, plan: seq<Prepared>, uuids: map<string, string>,
                                          i: nat)
    requires i < |plan| && SecondPass(ds, s, plan, uuids, i, |plan[i].mapperPlan|)
    ensures SecondPass(ds, s, plan, uuids, i + 1, 0)
  {
    assert plan[i].mapperPlan[|plan[i].mapperPlan|..] == [];
    assert forall k :: 0 <= k < |plan| ==> LeftOf(plan[k], k, i, |plan[i].mapperPlan|) == LeftOf(plan[k], k, i + 1, 0);
    assert SecondPassClients(plan, uuids, i, |plan[i].mapperPlan|) == SecondPassClients(plan, uuids, i + 1, 0);
  }

  lemma {:induction false} SecondPassDone(ds: seq<Json>, s: Server, plan: seq<Prepared>, uuids: map<string, string>)
    requires SecondPass(ds, s, plan, uuids, |plan|, 0)
    ensures ClientWrites(PrepareAll(ds, s).value) == [] && MapperWrites(PrepareAll(ds, s).value) == []
  {
    AllKept(PrepareAll(ds, s).value);
  }

  lemma {:induction false} Advance(desired: Json, start: Server, now: Server, log: seq<Write>, used: seq<Choice>,
                                   w: Write, c: Choice)
    requires WellKept(now) && PlanRun(desired, now).Ok? && PlanRun(desired, start).Ok?
    requires log + Writes(PlanRun(desired, now).value) == Writes(PlanRun(desired, start).value)
    requires RunsTo(start, log, used, now)
    requires Writes(PlanRun(desired, now).value) != [] && Writes(PlanRun(desired, now).value)[0] == w
    requires Allocates(now, w, c)
    ensures var s' := Exec(now, w, c);
      && WellKept(s') && PlanRun(desired, s').Ok?
      && Writes(PlanRun(desired, s').value) == Writes(PlanRun(desired, now).value)[1..]
      && (log + [w]) + Writes(PlanRun(desired, s').value) == Writes(PlanRun(desired, start).value)
      && RunsTo(start, log + [w], used + [c], s')
  {
    hide PlanRun, RunsTo, Exec, Allocates, Writes, WellKept;
    NextWrite(desired, now, c);
    LogOne(start, log, used, now, w, c);
    var rest := Writes(PlanRun(desired, now).value);
    assert rest == [w] + rest[1..] && log + rest == (log + [w]) + rest[1..];
  }

  lemma {:induction false} LogOne(start: Server, log: seq<Write>, used: seq<Choice>, now: Server, w: Write, c: Choice)
    requires RunsTo(start, log, used, now) && Allocates(now, w, c)
    ensures RunsTo(start, log + [w], used + [c], Exec(now, w, c))
  {
    OneWriteRun(now, w, c);
    RunsCompose(start, log, used, now, [w], [c], Exec(now, w, c));
  }

  lemma {:induction false} OneWriteRun(s: Server, w: Write, c: Choice)
    requires Allocates(s, w, c)
    ensures RunsTo(s, [w], [c], Exec(s, w, c))
  {
    assert ExecAll(Exec(s, w, c), [], []) == Exec(s, w, c);
  }

  lemma {:induction false} HeadIsProvider(p: Plan)
    requires ProviderWrites(p.provider) != []
    ensures Writes(p) != [] && Writes(p)[0] == ProviderWrites(p.provider)[0]
  {
    SplitFirst(ProviderWrites(p.provider), ClientWrites(p.clients), MapperWrites(p.clients), RealmWrites(p.realm));
  }
}
