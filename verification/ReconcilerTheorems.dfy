/** Whole-run properties of the Keycloak reconciler: exact distance, convergence and resumption
    after a cut. */
module ReconcilerTheorems {
  import opened Wrappers
  import opened Json
  import opened NamedEntries
  import opened RealmPlan
  import opened ClientPlan
  import opened AdminState
  import opened Convergence

  /* ---------------- one step ---------------- */

  lemma {:induction false} PrepareClientSame(d: Json, s: Server, s': Server)
    requires s'.clients == s.clients && s'.mappers == s.mappers
    ensures PrepareClient(d, s') == PrepareClient(d, s)
  {
  }

  lemma {:induction false} PrepareAllSame(desired: seq<Json>, s: Server, s': Server)
    requires s'.clients == s.clients && s'.mappers == s.mappers
    ensures PrepareAll(desired, s') == PrepareAll(desired, s)
  {
    if desired != [] {
      PrepareClientSame(desired[0], s, s');
      hide PrepareClient;
      PrepareAllSame(desired[1..], s, s');
    }
  }

  /** The client part of a plan after its first client write. */
  lemma {:induction false} FirstPassStep(desired: seq<Json>, s: Server, c: Choice)
    requires WellKept(s) && FixedInventory(desired) && PrepareAll(desired, s).Ok?
    requires ClientWrites(PrepareAll(desired, s).value) != []
    requires Allocates(s, ClientWrites(PrepareAll(desired, s).value)[0], c)
    ensures var ps := PrepareAll(desired, s).value; var s' := Exec(s, ClientWrites(ps)[0], c);
      && WellKept(s') && PrepareAll(desired, s').Ok?
      && ClientWrites(PrepareAll(desired, s').value) == ClientWrites(ps)[1..]
      && MapperWrites(PrepareAll(desired, s').value) == MapperWrites(ps)
  {
    var ps := PrepareAll(desired, s).value;
    PrepareAllPointwise(desired, s);
    var j := FirstClientWrite(ps);
    var w := ClientWrites(ps)[0];
    ClientStepAt(desired, s, j, w, c);
    var p' := PrepareClient(desired[j], Exec(s, w, c)).value;
    OneClientChanged(desired, s, Exec(s, w, c), j, p');
    SameWrites(ps, j, p');
  }

  /** The client part of a plan after its first mapper write. */
  lemma {:induction false} SecondPassStep(desired: seq<Json>, s: Server, c: Choice)
    requires WellKept(s) && FixedInventory(desired) && PrepareAll(desired, s).Ok?
    requires ClientWrites(PrepareAll(desired, s).value) == [] && MapperWrites(PrepareAll(desired, s).value) != []
    requires Allocates(s, MapperWrites(PrepareAll(desired, s).value)[0], c)
    ensures var ps := PrepareAll(desired, s).value; var s' := Exec(s, MapperWrites(ps)[0], c);
      && WellKept(s') && PrepareAll(desired, s').Ok?
      && ClientWrites(PrepareAll(desired, s').value) == []
      && MapperWrites(PrepareAll(desired, s').value) == MapperWrites(ps)[1..]
  {
    var ps := PrepareAll(desired, s).value;
    PrepareAllPointwise(desired, s);
    var j := FirstMapperWrite(ps);
    NoClientWrite(ps, j);
    var w := MapperWrites(ps)[0];
    MapperStep(desired[j], s, ps[j], w, c);
    var p' := Prepared(ps[j].action, ps[j].mapperPlan[1..]);
    OneClientChanged(desired, s, Exec(s, w, c), j, p');
    SameWrites(ps, j, p');
  }

  lemma {:induction false} NoClientWrite(ps: seq<Prepared>, j: nat)
    requires ClientWrites(ps) == [] && j < |ps|
    ensures ClientWrite(ps[j].action) == []
  {
    if j > 0 {
      NoClientWrite(ps[1..], j - 1);
    }
  }

  lemma {:induction false} ClientStepAt(desired: seq<Json>, s: Server, j: nat, w: Write, c: Choice)
    requires WellKept(s) && j < |desired| && PrepareClient(desired[j], s).Ok?
    requires ClientWrite(PrepareClient(desired[j], s).value.action) == [w] && Allocates(s, w, c)
    ensures var s' := Exec(s, w, c); var p := PrepareClient(desired[j], s).value;
      && WellKept(s') && PrepareClient(desired[j], s').Ok?
      && var p' := PrepareClient(desired[j], s').value;
         ClientWrite(p'.action) == [] && MapperWritesOf(p') == MapperWritesOf(p)
    ensures forall d :: IsDesiredClient(d) && d.fields["clientId"] != desired[j].fields["clientId"] ==>
      PrepareClient(d, Exec(s, w, c)) == PrepareClient(d, s)
  {
    var p := PrepareClient(desired[j], s).value;
    if p.action.CreateClient? {
      CreateClientStep(desired[j], s, p, w, c);
    } else {
      UpdateClientStep(desired[j], s, p, w, c);
    }
  }

  lemma {:induction false} ClientWriteKinds(ps: seq<Prepared>)
    ensures forall i :: 0 <= i < |ClientWrites(ps)| ==>
      ClientWrites(ps)[i].PostClient? || ClientWrites(ps)[i].PutClient?
    ensures forall i :: 0 <= i < |MapperWrites(ps)| ==>
      MapperWrites(ps)[i].PostMapper? || MapperWrites(ps)[i].PutMapper?
  {
    if ps != [] {
      ClientWriteKinds(ps[1..]);
    }
  }

  /** Which of four lists the first element comes from, and what is left. */
  lemma {:induction false} SplitFirst(a: seq<Write>, b: seq<Write>, c: seq<Write>, d: seq<Write>)
    requires |a| <= 1 && |d| <= 1 && a + b + c + d != []
    ensures var all := a + b + c + d;
      if a != [] then a == [all[0]] && all[1..] == b + c + d
      else if b != [] then all[0] == b[0] && all[1..] == b[1..] + c + d
      else if c != [] then all[0] == c[0] && all[1..] == c[1..] + d
      else d == [all[0]] && all[1..] == []
  {
  }

  /** Carrying out the first write of a plan leaves a state whose plan is the rest of it,
      whatever id and defaults the server chooses. */
  lemma {:induction false} NextWrite(desired: Json, s: Server, c: Choice)
    requires WellKept(s) && PlanRun(desired, s).Ok?
    requires Writes(PlanRun(desired, s).value) != []
    requires Allocates(s, Writes(PlanRun(desired, s).value)[0], c)
    ensures var ws := Writes(PlanRun(desired, s).value); var s' := Exec(s, ws[0], c);
      WellKept(s') && PlanRun(desired, s').Ok? && Writes(PlanRun(desired, s').value) == ws[1..]
  {
    var p := PlanRun(desired, s).value;
    SplitFirst(ProviderWrites(p.provider), ClientWrites(p.clients), MapperWrites(p.clients), RealmWrites(p.realm));
    if ProviderWrites(p.provider) != [] {
      ProviderFirst(desired, s, p, c);
    } else if ClientWrites(p.clients) != [] {
      ClientFirst(desired, s, p, c);
    } else if MapperWrites(p.clients) != [] {
      MapperFirst(desired, s, p, c);
    } else {
      RealmFirst(desired, s, p, c);
    }
  }

  lemma {:induction false} ProviderFirst(desired: Json, s: Server, p: Plan, c: Choice)
    requires WellKept(s) && PlanRun(desired, s) == Ok(p)
    requires ProviderWrites(p.provider) != [] && Allocates(s, ProviderWrites(p.provider)[0], c)
    ensures var s' := Exec(s, ProviderWrites(p.provider)[0], c);
      && WellKept(s') && PlanRun(desired, s').Ok?
      && Writes(PlanRun(desired, s').value) == ClientWrites(p.clients) + MapperWrites(p.clients) + RealmWrites(p.realm)
  {
    var w := ProviderWrites(p.provider)[0];
    var s' := Exec(s, w, c);
    assert ProviderWrites(p.provider) == [w];
    ProviderStep(s, w, c);
    PrepareAllSame(Get(desired.fields, "clients").items, s, s');
    var p' := PlanRun(desired, s').value;
    assert p' == Plan(p.realm, p.clients, p'.provider);
    assert [] + ClientWrites(p.clients) == ClientWrites(p.clients);
  }

  lemma {:induction false} ClientFirst(desired: Json, s: Server, p: Plan, c: Choice)
    requires WellKept(s) && PlanRun(desired, s) == Ok(p) && ProviderWrites(p.provider) == []
    requires ClientWrites(p.clients) != [] && Allocates(s, ClientWrites(p.clients)[0], c)
    ensures var s' := Exec(s, ClientWrites(p.clients)[0], c);
      && WellKept(s') && PlanRun(desired, s').Ok?
      && Writes(PlanRun(desired, s').value)
         == ClientWrites(p.clients)[1..] + MapperWrites(p.clients) + RealmWrites(p.realm)
  {
    ClientWriteKinds(p.clients);
    FirstPassStep(Get(desired.fields, "clients").items, s, c);
    SameElsewhere(desired, s, Exec(s, ClientWrites(p.clients)[0], c), p);
  }

  lemma {:induction false} MapperFirst(desired: Json, s: Server, p: Plan, c: Choice)
    requires WellKept(s) && PlanRun(desired, s) == Ok(p) && ProviderWrites(p.provider) == []
    requires ClientWrites(p.clients) == []
    requires MapperWrites(p.clients) != [] && Allocates(s, MapperWrites(p.clients)[0], c)
    ensures var s' := Exec(s, MapperWrites(p.clients)[0], c);
      && WellKept(s') && PlanRun(desired, s').Ok?
      && Writes(PlanRun(desired, s').value) == MapperWrites(p.clients)[1..] + RealmWrites(p.realm)
  {
    ClientWriteKinds(p.clients);
    SecondPassStep(Get(desired.fields, "clients").items, s, c);
    SameElsewhere(desired, s, Exec(s, MapperWrites(p.clients)[0], c), p);
    assert [] + MapperWrites(p.clients)[1..] == MapperWrites(p.clients)[1..];
  }

  lemma {:induction false} RealmFirst(desired: Json, s: Server, p: Plan, c: Choice)
    requires WellKept(s) && PlanRun(desired, s) == Ok(p)
    requires ProviderWrites(p.provider) == [] && ClientWrites(p.clients) == [] && MapperWrites(p.clients) == []
    ensures var s' := Exec(s, PutRealm(p.realm), c);
      && WellKept(s') && PlanRun(desired, s').Ok? && Writes(PlanRun(desired, s').value) == []
  {
    RealmConverges(s.realm, desired);
    ExecRealm(s, p.realm, c);
    RealmReplaced(desired, s, Obj(s.realm.fields + p.realm), p);
  }

  lemma {:induction false} ExecRealm(s: Server, payload: Object, c: Choice)
    requires s.realm.Obj?
    ensures Exec(s, PutRealm(payload), c) == s.(realm := Obj(s.realm.fields + payload))
  {
  }

  /** Only the realm plan looks at the realm. */
  lemma {:induction false} RealmReplaced(desired: Json, s: Server, realm: Json, p: Plan)
    requires WellKept(s) && DesiredProviderOk(desired) && RealmPayload(realm, desired) == Ok(map[])
    requires PrepareClients(Get(desired.fields, "clients"), s) == Ok(p.clients) && PrepareProvider(s) == Ok(p.provider)
    requires ProviderWrites(p.provider) == [] && ClientWrites(p.clients) == [] && MapperWrites(p.clients) == []
    ensures var s' := s.(realm := realm);
      && WellKept(s') && PlanRun(desired, s').Ok? && Writes(PlanRun(desired, s').value) == []
  {
    var s' := s.(realm := realm);
    PrepareAllSame(Get(desired.fields, "clients").items, s, s');
    assert PlanRun(desired, s') == Ok(Plan(map[], p.clients, p.provider));
  }

  /** Realm and provider plans are untouched by client and mapper writes. */
  lemma {:induction false} SameElsewhere(desired: Json, s: Server, s': Server, p: Plan)
    requires PlanRun(desired, s) == Ok(p) && ProviderWrites(p.provider) == []
    requires s'.realm == s.realm && s'.components == s.components
    requires PrepareAll(Get(desired.fields, "clients").items, s').Ok?
    ensures PlanRun(desired, s') == Ok(p.(clients := PrepareAll(Get(desired.fields, "clients").items, s').value))
    ensures var p' := PlanRun(desired, s').value;
      Writes(p') == ClientWrites(p'.clients) + MapperWrites(p'.clients) + RealmWrites(p.realm)
  {
    var p' := PlanRun(desired, s').value;
    assert [] + ClientWrites(p'.clients) == ClientWrites(p'.clients);
  }

  /* ---------------- runs ---------------- */

  /** The server after a list of writes, with the choices it made. */
  function ExecAll(s: Server, ws: seq<Write>, cs: seq<Choice>): Server
    requires |ws| == |cs|
    decreases |ws|
  {
    if ws == [] then s else ExecAll(Exec(s, ws[0], cs[0]), ws[1..], cs[1..])
  }

  predicate AllocatesAll(s: Server, ws: seq<Write>, cs: seq<Choice>)
    requires |ws| == |cs|
    decreases |ws|
  {
    ws == [] || (Allocates(s, ws[0], cs[0]) && AllocatesAll(Exec(s, ws[0], cs[0]), ws[1..], cs[1..]))
  }

  /** A run cut after any number of writes: the next run's plan is exactly what was left. */
  lemma {:induction false} CutRun(desired: Json, s: Server, cs: seq<Choice>)
    requires WellKept(s) && PlanRun(desired, s).Ok? && |cs| <= |Writes(PlanRun(desired, s).value)|
    requires AllocatesAll(s, Writes(PlanRun(desired, s).value)[..|cs|], cs)
    ensures var ws := Writes(PlanRun(desired, s).value); var cut := ExecAll(s, ws[..|cs|], cs);
      WellKept(cut) && PlanRun(desired, cut).Ok? && Writes(PlanRun(desired, cut).value) == ws[|cs|..]
    decreases |cs|
  {
    hide Writes, PlanRun, Exec, Allocates, WellKept;
    var ws := Writes(PlanRun(desired, s).value);
    if cs != [] {
      NextWrite(desired, s, cs[0]);
      assert ws[..|cs|][1..] == ws[1..][..|cs| - 1];
      CutRun(desired, Exec(s, ws[0], cs[0]), cs[1..]);
      assert ws[1..][|cs| - 1..] == ws[|cs|..];
    }
  }

  /** The number of actions a plan contains that are not no-ops. */
  function ChangedClients(ps: seq<Prepared>): nat {
    if ps == [] then 0 else (if ps[0].action.KeepClient? then 0 else 1) + ChangedClients(ps[1..])
  }

  function MapperActions(ps: seq<Prepared>): nat {
    if ps == [] then 0 else |ps[0].mapperPlan| + MapperActions(ps[1..])
  }

  function Distance(p: Plan): nat {
    (if p.provider.KeepProvider? then 0 else 1) + ChangedClients(p.clients) + MapperActions(p.clients)
      + (if p.realm == map[] then 0 else 1)
  }

  lemma {:induction false} DistanceOfClients(desired: seq<Json>, s: Server)
    requires PrepareAll(desired, s).Ok?
    ensures var ps := PrepareAll(desired, s).value;
      |ClientWrites(ps)| == ChangedClients(ps) && |MapperWrites(ps)| == MapperActions(ps)
  {
    if desired != [] {
      DistanceOfClients(desired[1..], s);
      var ps := PrepareAll(desired, s).value;
      assert ps[1..] == PrepareAll(desired[1..], s).value;
    }
  }

  /** The distance is the number of writes. */
  lemma {:induction false} DistanceIsWrites(desired: Json, s: Server)
    requires PlanRun(desired, s).Ok?
    ensures Distance(PlanRun(desired, s).value) == |Writes(PlanRun(desired, s).value)|
  {
    DistanceOfClients(Get(desired.fields, "clients").items, s);
  }

  /** Every write lowers the distance by exactly one. */
  lemma {:induction false} EachWriteLowersDistance(desired: Json, s: Server, c: Choice)
    requires WellKept(s) && PlanRun(desired, s).Ok? && Distance(PlanRun(desired, s).value) > 0
    ensures Writes(PlanRun(desired, s).value) != []
    ensures var w := Writes(PlanRun(desired, s).value)[0];
      Allocates(s, w, c) ==>
        && PlanRun(desired, Exec(s, w, c)).Ok?
        && Distance(PlanRun(desired, Exec(s, w, c)).value) == Distance(PlanRun(desired, s).value) - 1
  {
    DistanceIsWrites(desired, s);
    var w := Writes(PlanRun(desired, s).value)[0];
    if Allocates(s, w, c) {
      NextWrite(desired, s, c);
      DistanceIsWrites(desired, Exec(s, w, c));
    }
  }

  /** The three verify steps of main all pass. */
  predicate Verified(desired: Json, s: Server) {
    && PrepareClients(Get(if desired.Obj? then desired.fields else map[], "clients"), s).Ok?
    && (forall i :: 0 <= i < |PrepareClients(Get(desired.fields, "clients"), s).value| ==>
          var p := PrepareClients(Get(desired.fields, "clients"), s).value[i];
          p.action.KeepClient? && p.mapperPlan == [])
    && RealmPayload(s.realm, desired) == Ok(map[])
    && DesiredProviderOk(desired)
    && PrepareProvider(s).Ok? && PrepareProvider(s).value.KeepProvider?
  }

  lemma {:induction false} NoWritesMeansKept(ps: seq<Prepared>)
    ensures ChangedClients(ps) == 0 && MapperActions(ps) == 0 <==>
      forall i :: 0 <= i < |ps| ==> ps[i].action.KeepClient? && ps[i].mapperPlan == []
  {
    if ps != [] {
      NoWritesMeansKept(ps[1..]);
      assert forall i :: 0 < i < |ps| ==> ps[i] == ps[1..][i - 1];
      if forall i :: 0 <= i < |ps| ==> ps[i].action.KeepClient? && ps[i].mapperPlan == [] {
        forall i | 0 <= i < |ps[1..]| ensures ps[1..][i].action.KeepClient? && ps[1..][i].mapperPlan == [] {
          assert ps[1..][i] == ps[i + 1];
        }
      }
    }
  }

  /** main's verification passes exactly at distance zero. */
  lemma {:induction false} VerifiedIffDistanceZero(desired: Json, s: Server)
    ensures Verified(desired, s) <==> PlanRun(desired, s).Ok? && Distance(PlanRun(desired, s).value) == 0
  {
    if PlanRun(desired, s).Ok? {
      NoWritesMeansKept(PlanRun(desired, s).value.clients);
    }
  }

  /** The server may answer the writes ws with the choices cs, and ends up in final. */
  predicate RunsTo(s: Server, ws: seq<Write>, cs: seq<Choice>, final: Server) {
    |ws| == |cs| && AllocatesAll(s, ws, cs) && final == ExecAll(s, ws, cs)
  }

  lemma {:induction false} RunsCompose(s: Server, ws: seq<Write>, cs: seq<Choice>, mid: Server,
                                       vs: seq<Write>, ds: seq<Choice>, final: Server)
    requires RunsTo(s, ws, cs, mid) && RunsTo(mid, vs, ds, final)
    ensures RunsTo(s, ws + vs, cs + ds, final)
    decreases |ws|
  {
    if ws == [] {
      assert ws + vs == vs && cs + ds == ds;
    } else {
      assert (ws + vs)[1..] == ws[1..] + vs && (cs + ds)[1..] == cs[1..] + ds;
      RunsCompose(Exec(s, ws[0], cs[0]), ws[1..], cs[1..], mid, vs, ds, final);
    }
  }

  /** A run that is not cut ends with all verify steps passing. */
  lemma {:induction false} FullRunVerifies(desired: Json, s: Server, ws: seq<Write>, cs: seq<Choice>, final: Server)
    requires WellKept(s) && PlanRun(desired, s).Ok? && ws == Writes(PlanRun(desired, s).value)
    requires RunsTo(s, ws, cs, final)
    ensures Verified(desired, final)
  {
    assert ws[..|cs|] == ws;
    CutRun(desired, s, cs);
    DistanceIsWrites(desired, final);
    VerifiedIffDistanceZero(desired, final);
  }

  lemma {:induction false} CutLeavesRest(desired: Json, s: Server, done: seq<Write>, rest: seq<Write>, cs: seq<Choice>,
                                         cut: Server)
    requires WellKept(s) && PlanRun(desired, s).Ok? && done + rest == Writes(PlanRun(desired, s).value)
    requires RunsTo(s, done, cs, cut)
    ensures WellKept(cut) && PlanRun(desired, cut).Ok? && Writes(PlanRun(desired, cut).value) == rest
  {
    var ws := Writes(PlanRun(desired, s).value);
    assert ws[..|cs|] == done && ws[|cs|..] == rest;
    CutRun(desired, s, cs);
  }

  /** A run cut anywhere and followed by a fresh one verifies, and ends in the very state an
      uninterrupted run with the same server choices ends in. */
  lemma {:induction false} CutThenRerunConverges(desired: Json, s: Server, done: seq<Write>, rest: seq<Write>,
                              first: seq<Choice>, cut: Server, second: seq<Choice>, final: Server)
    requires WellKept(s) && PlanRun(desired, s).Ok? && done + rest == Writes(PlanRun(desired, s).value)
    requires RunsTo(s, done, first, cut) && RunsTo(cut, rest, second, final)
    ensures PlanRun(desired, cut).Ok? && Writes(PlanRun(desired, cut).value) == rest
    ensures RunsTo(s, done + rest, first + second, final) && Verified(desired, final)
  {
    CutLeavesRest(desired, s, done, rest, first, cut);
    FullRunVerifies(desired, cut, rest, second, final);
    RunsCompose(s, done, first, cut, rest, second, final);
  }

  /** One run, cut after these writes, with the server's choices for them. */
  datatype Attempt = Attempt(writes: seq<Write>, choices: seq<Choice>)

  /** The attempts can be made one after the other, each planned afresh from what it finds. */
  predicate Restarts(desired: Json, s: Server, runs: seq<Attempt>)
    decreases |runs|
  {
    runs != [] ==>
      && PlanRun(desired, s).Ok? && runs[0].writes <= Writes(PlanRun(desired, s).value)
      && |runs[0].writes| == |runs[0].choices| && AllocatesAll(s, runs[0].writes, runs[0].choices)
      && Restarts(desired, ExecAll(s, runs[0].writes, runs[0].choices), runs[1..])
  }

  function AfterAll(desired: Json, s: Server, runs: seq<Attempt>): Server
    requires Restarts(desired, s, runs)
    decreases |runs|
  {
    if runs == [] then s else AfterAll(desired, ExecAll(s, runs[0].writes, runs[0].choices), runs[1..])
  }

  function AllWrites(runs: seq<Attempt>): seq<Write> {
    if runs == [] then [] else runs[0].writes + AllWrites(runs[1..])
  }

  /** However often runs are cut and started again, together they issue the writes of the first
      plan in order and none of them twice; what is left to do is the rest of it. */
  lemma {:induction false} RestartsNeverRepeat(desired: Json, s: Server, runs: seq<Attempt>)
    requires WellKept(s) && PlanRun(desired, s).Ok? && Restarts(desired, s, runs)
    ensures var end := AfterAll(desired, s, runs);
      && WellKept(end) && PlanRun(desired, end).Ok?
      && AllWrites(runs) + Writes(PlanRun(desired, end).value) == Writes(PlanRun(desired, s).value)
    decreases |runs|
  {
    hide PlanRun, Writes, WellKept, Exec, Allocates, AllocatesAll, ExecAll;
    if runs == [] {
      assert [] + Writes(PlanRun(desired, s).value) == Writes(PlanRun(desired, s).value);
    } else {
      var next := ExecAll(s, runs[0].writes, runs[0].choices);
      FirstAttempt(desired, s, runs[0]);
      RestartsNeverRepeat(desired, next, runs[1..]);
      Regroup(runs[0].writes, AllWrites(runs[1..]), Writes(PlanRun(desired, AfterAll(desired, s, runs)).value));
    }
  }

  lemma {:induction false} FirstAttempt(desired: Json, s: Server, run: Attempt)
    requires WellKept(s) && PlanRun(desired, s).Ok? && run.writes <= Writes(PlanRun(desired, s).value)
    requires |run.writes| == |run.choices| && AllocatesAll(s, run.writes, run.choices)
    ensures var next := ExecAll(s, run.writes, run.choices);
      && WellKept(next) && PlanRun(desired, next).Ok?
      && run.writes + Writes(PlanRun(desired, next).value) == Writes(PlanRun(desired, s).value)
  {
    hide PlanRun, Writes, WellKept, AllocatesAll, ExecAll;
    var ws := Writes(PlanRun(desired, s).value);
    assert run.writes + ws[|run.writes|..] == ws;
    CutLeavesRest(desired, s, run.writes, ws[|run.writes|..], run.choices, ExecAll(s, run.writes, run.choices));
  }

  lemma {:induction false} Regroup(a: seq<Write>, b: seq<Write>, c: seq<Write>)
    ensures (a + b) + c == a + (b + c)
  {
  }

  /** A live mapper of m's name agrees with m on the four managed fields. */
  predicate HasMapper(live: seq<Json>, m: Json) {
    && AllNamed(live) && IsMapperPayload(m)
    && Find(live, NameOf(m)).Some? && Agrees(Find(live, NameOf(m)).value.fields, m.fields)
  }

  /** What a verified state holds for one desired client: exactly one live client of that id,
      in place, with every desired mapper present and equal. */
  lemma {:induction false} KeptMeansInPlace(desired: Json, s: Server)
    requires PrepareClient(desired, s).Ok?
    ensures var p := PrepareClient(desired, s).value; var found := Where(s.clients, "clientId",
                                   desired.fields["clientId"].s);
      p.action.KeepClient? && p.mapperPlan == [] <==>
        && |found| == 1 && found[0].Obj? && ClientInPlace(found[0].fields, ClientPayload(desired))
        && (forall m :: m in desired.fields["protocolMappers"].items ==>
              HasMapper(MappersOf(s, IdOf(found[0]).GetOr("")), m))
  {
    var p := PrepareClient(desired, s).value;
    var found := Where(s.clients, "clientId", desired.fields["clientId"].s);
    if |found| == 1 {
      MapperPlanEmpty(desired.fields["protocolMappers"].items, MappersOf(s, IdOf(found[0]).GetOr("")));
    }
  }

  lemma {:induction false} MapperPlanEmpty(desired: seq<MapperPayload>, live: seq<NamedEntry>)
    requires PlanMapperActions(desired, live).Ok?
    ensures PlanMapperActions(desired, live).value == [] <==>
      forall m :: m in desired ==> Find(live, NameOf(m)).Some? && Agrees(Find(live, NameOf(m)).value.fields, m.fields)
  {
    if desired != [] {
      MapperPlanEmpty(desired[1..], live);
      assert forall m :: m in desired <==> m == desired[0] || m in desired[1..];
    }
  }
}
