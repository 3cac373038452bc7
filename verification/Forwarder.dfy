/** The locking protocol of LocalForwarder in scripts/wp5-demo-forward.py: any number of
    handlers and stop calls, interleaved at every shared access. */
module Forwarder {

  /** A handler's place in `handle`. Checking to AddedLocked and Discarding to DiscardedLocked
      hold the lock. */
  datatype HandlerPc =
    | Connecting | Tuning | Failing
    | Waiting | Checking | RefusingFirst | RefusingSecond | Refused | Adding | AddedLocked
    | Running | ClosingFirst | ClosingSecond
    | Leaving | Discarding | DiscardedLocked
    | Finished

  /** One accepted connection: where its handler is, which of its two sockets are open, whether
      its settimeout failed, and whether closing the client raised in its refusal. A close that
      raises has released the socket all the same. A handler stands for its pair. */
  datatype Handler = Handler(pc: HandlerPc, clientOpen: bool, upstreamOpen: bool, tuneFailed: bool, closeFailed: bool) {
    predicate Closed() { !clientOpen && !upstreamOpen }
    predicate HoldsLock() {
      pc in {Checking, RefusingFirst, RefusingSecond, Refused, Adding, AddedLocked, Discarding, DiscardedLocked}
    }
    predicate WasAdded() { InSet() || pc == DiscardedLocked || pc == Finished }
    predicate InSet() { pc in {AddedLocked, Running, ClosingFirst, ClosingSecond, Leaving, Discarding} }
  }

  datatype Side = Client | Upstream

  /** A stop call's place: before and after the flag, at the lock, with its snapshot, closing
      what the snapshot lists, done. */
  datatype StopCall =
    | Entered | Flagged | AtLock | Locked
    | Snapped(active: set<nat>)
    | Walking(clients: set<nat>, upstreams: set<nat>)
    | Returned
  {
    predicate HoldsLock() { Locked? || Snapped? }
    function Left(side: Side): set<nat>
      requires Walking?
    {
      if side.Client? then clients else upstreams
    }
    function Without(pair: nat, side: Side): StopCall
      requires Walking?
    {
      if side.Client? then Walking(clients - {pair}, upstreams) else Walking(clients, upstreams - {pair})
    }
    predicate HasSnapshot() { Snapped? || Walking? || Returned? }
  }

  datatype Owner = Nobody | OfHandler(h: nat) | OfStop(t: nat)

  datatype State = State(
    stopping: bool,
    lock: Owner,
    connections: set<nat>,
    handlers: map<nat, Handler>,
    stops: map<nat, StopCall>,
    registered: set<nat>  // history: every pair ever added
  )

  const INIT := State(false, Nobody, {}, map[], map[], {})

  datatype Action =
    | Accept(h: nat) | Connect(h: nat, ok: bool) | Tune(h: nat, ok: bool) | Fail(h: nat)
    | LockHandler(h: nat) | Check(h: nat) | Refuse(h: nat, ok: bool) | Add(h: nat) | Release(h: nat)
    | PumpsEnd(h: nat) | Close(h: nat) | LockAgain(h: nat) | Discard(h: nat)
    | CallStop(t: nat) | SetFlag(t: nat) | CloseListener(t: nat) | LockStop(t: nat)
    | Snapshot(t: nat) | ReleaseStop(t: nat) | CloseOne(t: nat, pair: nat, side: Side) | Return(t: nat)

  /* ---------------- one step ---------------- */

  predicate HandlerAt(s: State, h: nat, pc: HandlerPc) {
    h in s.handlers && s.handlers[h].pc == pc
  }

  predicate StopAt(s: State, t: nat, c: StopCall) {
    t in s.stops && s.stops[t] == c
  }

  predicate Enabled(s: State, a: Action) {
    match a
    case Accept(h) => h !in s.handlers
    case Connect(h, _) => HandlerAt(s, h, Connecting)
    case Tune(h, _) => HandlerAt(s, h, Tuning)
    case Fail(h) => HandlerAt(s, h, Failing)
    case LockHandler(h) => HandlerAt(s, h, Waiting) && s.lock == Nobody
    case Check(h) => HandlerAt(s, h, Checking)
    case Refuse(h, _) => HandlerAt(s, h, RefusingFirst) || HandlerAt(s, h, RefusingSecond)
    case Add(h) => HandlerAt(s, h, Adding)
    case Release(h) => HandlerAt(s, h, Refused) || HandlerAt(s, h, AddedLocked) || HandlerAt(s, h, DiscardedLocked)
    case PumpsEnd(h) => HandlerAt(s, h, Running)
    case Close(h) => HandlerAt(s, h, ClosingFirst) || HandlerAt(s, h, ClosingSecond)
    case LockAgain(h) => HandlerAt(s, h, Leaving) && s.lock == Nobody
    case Discard(h) => HandlerAt(s, h, Discarding)
    case CallStop(t) => t !in s.stops
    case SetFlag(t) => StopAt(s, t, Entered)
    case CloseListener(t) => StopAt(s, t, Flagged)
    case LockStop(t) => StopAt(s, t, AtLock) && s.lock == Nobody
    case Snapshot(t) => StopAt(s, t, Locked)
    case ReleaseStop(t) => t in s.stops && s.stops[t].Snapped?
    case CloseOne(t, pair, side) => t in s.stops && s.stops[t].Walking? && pair in s.stops[t].Left(side)
    case Return(t) => StopAt(s, t, Walking({}, {}))
  }

  function Move(s: State, h: nat, pc: HandlerPc): State
    requires h in s.handlers
  {
    s.(handlers := s.handlers[h := s.handlers[h].(pc := pc)])
  }

  function ClosedSide(x: Handler, side: Side): Handler {
    if side.Client? then x.(clientOpen := false) else x.(upstreamOpen := false)
  }

  function CloseSide(s: State, h: nat, side: Side): State {
    if h in s.handlers then s.(handlers := s.handlers[h := ClosedSide(s.handlers[h], side)]) else s
  }

  function Step(s: State, a: Action): State
    requires Enabled(s, a)
  {
    match a
    case Accept(h) => s.(handlers := s.handlers[h := Handler(Connecting, true, false, false, false)])
    case Connect(h, ok) =>
      if ok then s.(handlers := s.handlers[h := s.handlers[h].(pc := Tuning, upstreamOpen := true)])
      else Move(s, h, Failing)
    case Tune(h, ok) =>
      if ok then Move(s, h, Waiting)
      else s.(handlers := s.handlers[h := s.handlers[h].(pc := Failing, tuneFailed := true)])
    case Fail(h) => Move(CloseSide(s, h, Client), h, Finished)
    case LockHandler(h) => Move(s.(lock := OfHandler(h)), h, Checking)
    case Check(h) => Move(s, h, if s.stopping then RefusingFirst else Adding)
    case Refuse(h, ok) =>
      if s.handlers[h].pc == RefusingFirst then
        if ok then Move(CloseSide(s, h, Client), h, RefusingSecond)
        else s.(handlers := s.handlers[h := s.handlers[h].(pc := Refused, clientOpen := false, closeFailed := true)])
      else Move(CloseSide(s, h, Upstream), h, Refused)
    case Add(h) => Move(s.(connections := s.connections + {h}, registered := s.registered + {h}), h, AddedLocked)
    case Release(h) => Move(s.(lock := Nobody), h, if s.handlers[h].pc == AddedLocked then Running else Finished)
    case PumpsEnd(h) => Move(s, h, ClosingFirst)
    case Close(h) =>
      if s.handlers[h].pc == ClosingFirst then Move(CloseSide(s, h, Client), h, ClosingSecond)
      else Move(CloseSide(s, h, Upstream), h, Leaving)
    case LockAgain(h) => Move(s.(lock := OfHandler(h)), h, Discarding)
    case Discard(h) => Move(s.(connections := s.connections - {h}), h, DiscardedLocked)
    case CallStop(t) => s.(stops := s.stops[t := Entered])
    case SetFlag(t) => s.(stopping := true, stops := s.stops[t := Flagged])
    case CloseListener(t) => s.(stops := s.stops[t := AtLock])
    case LockStop(t) => s.(lock := OfStop(t), stops := s.stops[t := Locked])
    case Snapshot(t) => s.(stops := s.stops[t := Snapped(s.connections)])
    case ReleaseStop(t) => s.(lock := Nobody, stops := s.stops[t := Walking(s.stops[t].active, s.stops[t].active)])
    case CloseOne(t, pair, side) =>
      CloseSide(s.(stops := s.stops[t := s.stops[t].Without(pair, side)]), pair, side)
    case Return(t) => s.(stops := s.stops[t := Returned])
  }

  /* ---------------- the invariant ---------------- */

  ghost predicate LockOk(s: State) {
    && (s.lock.OfHandler? ==> s.lock.h in s.handlers) && (s.lock.OfStop? ==> s.lock.t in s.stops)
    && (forall h :: h in s.handlers ==> (s.handlers[h].HoldsLock() <==> s.lock == OfHandler(h)))
    && (forall t :: t in s.stops ==> (s.stops[t].HoldsLock() <==> s.lock == OfStop(t)))
  }

  /** What each place in `handle` says about the handler's sockets. */
  predicate HandlerOk(x: Handler) {
    match x.pc
    case Connecting => !x.upstreamOpen && !x.tuneFailed && !x.closeFailed
    case Tuning => x.upstreamOpen && !x.tuneFailed && !x.closeFailed
    case Failing => (x.upstreamOpen <==> x.tuneFailed) && !x.closeFailed
    case Waiting => x.upstreamOpen && !x.tuneFailed && !x.closeFailed
    case Checking => x.upstreamOpen && !x.tuneFailed && !x.closeFailed
    case RefusingFirst => x.upstreamOpen && !x.tuneFailed && !x.closeFailed
    case RefusingSecond => !x.clientOpen && !x.tuneFailed && !x.closeFailed
    case Refused => !x.clientOpen && !x.tuneFailed && (x.upstreamOpen <==> x.closeFailed)
    case ClosingSecond => !x.clientOpen && !x.tuneFailed && !x.closeFailed
    case Leaving => x.Closed() && !x.tuneFailed && !x.closeFailed
    case Discarding => x.Closed() && !x.tuneFailed && !x.closeFailed
    case DiscardedLocked => x.Closed() && !x.tuneFailed && !x.closeFailed
    case Finished => !x.clientOpen && (x.upstreamOpen <==> x.tuneFailed || x.closeFailed)
    case _ => !x.tuneFailed && !x.closeFailed
  }

  ghost predicate SetOk(s: State) {
    && (forall h :: h in s.handlers ==> HandlerOk(s.handlers[h]) && (h in s.connections <==> s.handlers[h].InSet()))
    && s.connections <= s.registered
    && (forall h :: h in s.registered ==>
          h in s.handlers && s.handlers[h].WasAdded() && !s.handlers[h].tuneFailed && !s.handlers[h].closeFailed
          && (h in s.connections || s.handlers[h].Closed()))
  }

  /** What a stop that has its snapshot knows: every pair ever registered is on its list, or closed. */
  ghost predicate StopOk(s: State, c: StopCall) {
    match c
    case Entered => true
    case Snapped(active) => s.stopping && active == s.connections
    case Walking(clients, upstreams) =>
      && s.stopping && clients + upstreams <= s.registered
      && forall h :: h in s.registered && h in s.handlers ==>
           (s.handlers[h].clientOpen ==> h in clients) && (s.handlers[h].upstreamOpen ==> h in upstreams)
    case Returned => s.stopping && forall h :: h in s.registered && h in s.handlers ==> s.handlers[h].Closed()
    case _ => s.stopping
  }

  ghost predicate SnapshotTaken(s: State) {
    exists t :: t in s.stops && s.stops[t].HasSnapshot()
  }

  ghost predicate Inv(s: State) {
    && LockOk(s) && SetOk(s)
    && (forall t :: t in s.stops ==> StopOk(s, s.stops[t]))
    && (forall h :: HandlerAt(s, h, Adding) ==> !SnapshotTaken(s))
  }

  /** The steps of handlers; the others are those of stop calls. */
  predicate ByHandler(a: Action) {
    || a.Accept? || a.Connect? || a.Tune? || a.Fail? || a.LockHandler? || a.Check? || a.Refuse? || a.Add? || a.Release?
    || a.PumpsEnd? || a.Close? || a.LockAgain? || a.Discard?
  }

  /** The steps up to a handler's own failure or its check. */
  predicate SetsUp(a: Action) { a.Accept? || a.Connect? || a.Tune? || a.Fail? || a.LockHandler? || a.Check? }

  lemma {:induction false} LockOfSetUp(s: State, a: Action, h: nat)
    requires LockOk(s) && Enabled(s, a) && h in Step(s, a).handlers
    requires SetsUp(a)
    ensures Step(s, a).handlers[h].HoldsLock() <==> Step(s, a).lock == OfHandler(h)
  {
  }

  lemma {:induction false} LockOfLater(s: State, a: Action, h: nat)
    requires LockOk(s) && Enabled(s, a) && h in Step(s, a).handlers
    requires ByHandler(a) && !SetsUp(a)
    ensures Step(s, a).handlers[h].HoldsLock() <==> Step(s, a).lock == OfHandler(h)
  {
  }

  lemma {:induction false} LockOfHandlersByHandler(s: State, a: Action, h: nat)
    requires LockOk(s) && Enabled(s, a) && h in Step(s, a).handlers
    requires ByHandler(a)
    ensures Step(s, a).handlers[h].HoldsLock() <==> Step(s, a).lock == OfHandler(h)
  {
    hide *;
    if SetsUp(a) {
      LockOfSetUp(s, a, h);
    } else {
      LockOfLater(s, a, h);
    }
  }

  lemma {:induction false} LockOfHandlersByStop(s: State, a: Action, h: nat)
    requires LockOk(s) && Enabled(s, a) && h in Step(s, a).handlers
    requires !ByHandler(a)
    ensures Step(s, a).handlers[h].HoldsLock() <==> Step(s, a).lock == OfHandler(h)
  {
  }

  lemma {:induction false} LockOfHandlers(s: State, a: Action, h: nat)
    requires LockOk(s) && Enabled(s, a) && h in Step(s, a).handlers
    ensures Step(s, a).handlers[h].HoldsLock() <==> Step(s, a).lock == OfHandler(h)
  {
    hide Step, Enabled, LockOk, SetOk;
    if ByHandler(a) {
      LockOfHandlersByHandler(s, a, h);
    } else {
      LockOfHandlersByStop(s, a, h);
    }
  }

  lemma {:induction false} LockOfStops(s: State, a: Action, t: nat)
    requires LockOk(s) && Enabled(s, a) && t in Step(s, a).stops
    ensures Step(s, a).stops[t].HoldsLock() <==> Step(s, a).lock == OfStop(t)
  {
  }

  lemma {:induction false} LockStep(s: State, a: Action)
    requires Inv(s) && Enabled(s, a)
    ensures LockOk(Step(s, a))
  {
    var s' := Step(s, a);
    forall h | h in s'.handlers ensures s'.handlers[h].HoldsLock() <==> s'.lock == OfHandler(h) {
      LockOfHandlers(s, a, h);
    }
    forall t | t in s'.stops ensures s'.stops[t].HoldsLock() <==> s'.lock == OfStop(t) {
      LockOfStops(s, a, t);
    }
  }

  lemma {:induction false} HandlerOkStep(s: State, a: Action, h: nat)
    requires Inv(s) && Enabled(s, a) && h in Step(s, a).handlers
    ensures HandlerOk(Step(s, a).handlers[h])
  {
    if a.CloseOne? {
      CloseOneOk(s, a.t, a.pair, a.side);
    } else {
      OwnStepOk(s, a, h);
    }
  }

  lemma {:induction false} OwnStepOk(s: State, a: Action, h: nat)
    requires Enabled(s, a) && !a.CloseOne? && h in Step(s, a).handlers
    requires h in s.handlers ==> HandlerOk(s.handlers[h])
    ensures HandlerOk(Step(s, a).handlers[h])
  {
    hide HandlerOk, Step, Enabled;
    if SetsUp(a) {
      SetUpStepOk(s, a, h);
    } else if a.Refuse? || a.Release? {
      RefusalStepOk(s, a, h);
    } else if ByHandler(a) {
      LaterStepOk(s, a, h);
    } else {
      StopsStepOk(s, a, h);
    }
  }

  lemma {:induction false} SetUpStepOk(s: State, a: Action, h: nat)
    requires Enabled(s, a) && SetsUp(a) && h in Step(s, a).handlers
    requires h in s.handlers ==> HandlerOk(s.handlers[h])
    ensures HandlerOk(Step(s, a).handlers[h])
  {
  }

  lemma {:induction false} RefusalStepOk(s: State, a: Action, h: nat)
    requires Enabled(s, a) && (a.Refuse? || a.Release?) && h in Step(s, a).handlers
    requires h in s.handlers ==> HandlerOk(s.handlers[h])
    ensures HandlerOk(Step(s, a).handlers[h])
  {
  }

  lemma {:induction false} LaterStepOk(s: State, a: Action, h: nat)
    requires Enabled(s, a) && ByHandler(a) && !SetsUp(a) && !a.Refuse? && !a.Release? && h in Step(s, a).handlers
    requires h in s.handlers ==> HandlerOk(s.handlers[h])
    ensures HandlerOk(Step(s, a).handlers[h])
  {
  }

  lemma {:induction false} StopsStepOk(s: State, a: Action, h: nat)
    requires Enabled(s, a) && !ByHandler(a) && !a.CloseOne? && h in Step(s, a).handlers
    requires h in s.handlers ==> HandlerOk(s.handlers[h])
    ensures HandlerOk(Step(s, a).handlers[h])
  {
    hide HandlerOk;
  }

  /** Closing a socket of a listed pair: its handler was registered, so nothing it says is lost. */
  lemma {:induction false} CloseOneOk(s: State, t: nat, pair: nat, side: Side)
    requires Inv(s) && Enabled(s, CloseOne(t, pair, side))
    ensures pair in s.handlers && HandlerOk(ClosedSide(s.handlers[pair], side))
  {
    assert StopOk(s, s.stops[t]);
    assert pair in s.registered;
  }

  lemma {:induction false} InSetSetUp(s: State, a: Action, h: nat)
    requires SetOk(s) && Enabled(s, a) && h in Step(s, a).handlers
    requires SetsUp(a)
    ensures h in Step(s, a).connections <==> Step(s, a).handlers[h].InSet()
  {
    hide HandlerOk;
  }

  lemma {:induction false} InSetLater(s: State, a: Action, h: nat)
    requires SetOk(s) && Enabled(s, a) && h in Step(s, a).handlers
    requires ByHandler(a) && !SetsUp(a)
    ensures h in Step(s, a).connections <==> Step(s, a).handlers[h].InSet()
  {
    hide HandlerOk;
  }

  lemma {:induction false} InSetStepByHandler(s: State, a: Action, h: nat)
    requires SetOk(s) && Enabled(s, a) && h in Step(s, a).handlers
    requires ByHandler(a)
    ensures h in Step(s, a).connections <==> Step(s, a).handlers[h].InSet()
  {
    hide *;
    if SetsUp(a) {
      InSetSetUp(s, a, h);
    } else {
      InSetLater(s, a, h);
    }
  }

  lemma {:induction false} InSetStepByStop(s: State, a: Action, h: nat)
    requires SetOk(s) && Enabled(s, a) && h in Step(s, a).handlers
    requires !ByHandler(a)
    ensures h in Step(s, a).connections <==> Step(s, a).handlers[h].InSet()
  {
    hide HandlerOk;
  }

  lemma {:induction false} InSetStep(s: State, a: Action, h: nat)
    requires SetOk(s) && Enabled(s, a) && h in Step(s, a).handlers
    ensures h in Step(s, a).connections <==> Step(s, a).handlers[h].InSet()
  {
    hide Step, Enabled, LockOk, SetOk;
    if ByHandler(a) {
      InSetStepByHandler(s, a, h);
    } else {
      InSetStepByStop(s, a, h);
    }
  }

  lemma {:induction false} RegisteredSetUp(s: State, a: Action, h: nat)
    requires SetOk(s) && Enabled(s, a) && h in Step(s, a).registered
    requires SetsUp(a)
    ensures h in Step(s, a).handlers && Step(s, a).handlers[h].WasAdded()
    ensures !Step(s, a).handlers[h].tuneFailed && !Step(s, a).handlers[h].closeFailed
    ensures h in Step(s, a).connections || Step(s, a).handlers[h].Closed()
  {
    if h in s.handlers {
      assert HandlerOk(s.handlers[h]);
    }
  }

  lemma {:induction false} RegisteredLater(s: State, a: Action, h: nat)
    requires SetOk(s) && Enabled(s, a) && h in Step(s, a).registered
    requires ByHandler(a) && !SetsUp(a)
    ensures h in Step(s, a).handlers && Step(s, a).handlers[h].WasAdded()
    ensures !Step(s, a).handlers[h].tuneFailed && !Step(s, a).handlers[h].closeFailed
    ensures h in Step(s, a).connections || Step(s, a).handlers[h].Closed()
  {
    if h in s.handlers {
      assert HandlerOk(s.handlers[h]);
    }
  }

  lemma {:induction false} RegisteredStepByHandler(s: State, a: Action, h: nat)
    requires SetOk(s) && Enabled(s, a) && h in Step(s, a).registered
    requires ByHandler(a)
    ensures h in Step(s, a).handlers && Step(s, a).handlers[h].WasAdded()
    ensures !Step(s, a).handlers[h].tuneFailed && !Step(s, a).handlers[h].closeFailed
    ensures h in Step(s, a).connections || Step(s, a).handlers[h].Closed()
  {
    hide *;
    if SetsUp(a) {
      RegisteredSetUp(s, a, h);
    } else {
      RegisteredLater(s, a, h);
    }
  }

  lemma {:induction false} RegisteredStepByStop(s: State, a: Action, h: nat)
    requires SetOk(s) && Enabled(s, a) && h in Step(s, a).registered
    requires !ByHandler(a)
    ensures h in Step(s, a).handlers && Step(s, a).handlers[h].WasAdded()
    ensures !Step(s, a).handlers[h].tuneFailed && !Step(s, a).handlers[h].closeFailed
    ensures h in Step(s, a).connections || Step(s, a).handlers[h].Closed()
  {
    if h in s.handlers {
      assert HandlerOk(s.handlers[h]);
    }
  }

  lemma {:induction false} RegisteredStep(s: State, a: Action, h: nat)
    requires SetOk(s) && Enabled(s, a) && h in Step(s, a).registered
    ensures h in Step(s, a).handlers && Step(s, a).handlers[h].WasAdded()
    ensures !Step(s, a).handlers[h].tuneFailed && !Step(s, a).handlers[h].closeFailed
    ensures h in Step(s, a).connections || Step(s, a).handlers[h].Closed()
  {
    hide Step, Enabled, LockOk, SetOk;
    if ByHandler(a) {
      RegisteredStepByHandler(s, a, h);
    } else {
      RegisteredStepByStop(s, a, h);
    }
  }

  lemma {:induction false} SetStep(s: State, a: Action)
    requires Inv(s) && Enabled(s, a)
    ensures SetOk(Step(s, a))
  {
    var s' := Step(s, a);
    forall h | h in s'.handlers ensures HandlerOk(s'.handlers[h]) && (h in s'.connections <==> s'.handlers[h].InSet()) {
      HandlerOkStep(s, a, h);
      InSetStep(s, a, h);
    }
    forall h | h in s'.registered
      ensures h in s'.handlers && s'.handlers[h].WasAdded() && !s'.handlers[h].tuneFailed && !s'.handlers[h].closeFailed
      ensures (h in s'.connections || s'.handlers[h].Closed())
    {
      RegisteredStep(s, a, h);
    }
  }

  /** After a snapshot nothing is registered, and no socket is opened again. */
  lemma {:induction false} FrozenStep(s: State, a: Action)
    requires Inv(s) && Enabled(s, a) && SnapshotTaken(s)
    ensures Step(s, a).registered == s.registered
  {
    hide LockOk, SetOk, StopOk, SnapshotTaken;
  }

  /** Sockets of registered pairs are only ever closed. */
  lemma {:induction false} RegisteredOnlyClose(s: State, a: Action, h: nat)
    requires SetOk(s) && Enabled(s, a) && h in s.registered
    ensures h in Step(s, a).handlers
    ensures Step(s, a).handlers[h].clientOpen ==> s.handlers[h].clientOpen
    ensures Step(s, a).handlers[h].upstreamOpen ==> s.handlers[h].upstreamOpen
  {
    assert h in s.handlers && s.handlers[h].WasAdded();
    hide HandlerOk, Step, Enabled, SetOk;
    if ByHandler(a) {
      OnlyCloseByHandler(s, a, h);
    } else {
      OnlyCloseByStop(s, a, h);
    }
  }

  lemma {:induction false} OnlyCloseSetUp(s: State, a: Action, h: nat)
    requires Enabled(s, a) && SetsUp(a) && h in s.handlers && s.handlers[h].WasAdded()
    ensures h in Step(s, a).handlers
    ensures Step(s, a).handlers[h].clientOpen ==> s.handlers[h].clientOpen
    ensures Step(s, a).handlers[h].upstreamOpen ==> s.handlers[h].upstreamOpen
  {
  }

  lemma {:induction false} OnlyCloseLater(s: State, a: Action, h: nat)
    requires Enabled(s, a) && ByHandler(a) && !SetsUp(a) && h in s.handlers && s.handlers[h].WasAdded()
    ensures h in Step(s, a).handlers
    ensures Step(s, a).handlers[h].clientOpen ==> s.handlers[h].clientOpen
    ensures Step(s, a).handlers[h].upstreamOpen ==> s.handlers[h].upstreamOpen
  {
  }

  lemma {:induction false} OnlyCloseByHandler(s: State, a: Action, h: nat)
    requires Enabled(s, a) && ByHandler(a) && h in s.handlers && s.handlers[h].WasAdded()
    ensures h in Step(s, a).handlers
    ensures Step(s, a).handlers[h].clientOpen ==> s.handlers[h].clientOpen
    ensures Step(s, a).handlers[h].upstreamOpen ==> s.handlers[h].upstreamOpen
  {
    hide *;
    if SetsUp(a) {
      OnlyCloseSetUp(s, a, h);
    } else {
      OnlyCloseLater(s, a, h);
    }
  }

  lemma {:induction false} OnlyCloseByStop(s: State, a: Action, h: nat)
    requires Enabled(s, a) && !ByHandler(a) && h in s.handlers
    ensures h in Step(s, a).handlers
    ensures Step(s, a).handlers[h].clientOpen ==> s.handlers[h].clientOpen
    ensures Step(s, a).handlers[h].upstreamOpen ==> s.handlers[h].upstreamOpen
  {
  }

  /** What a stop call knows stays true when pairs are only closed and none is registered. */
  lemma {:induction false} KnowsStill(s: State, s': State, c: StopCall)
    requires StopOk(s, c) && s'.stopping == s.stopping
    requires c.HasSnapshot() ==> s'.registered == s.registered && (c.Snapped? ==> s'.connections == s.connections)
    requires forall h :: h in s.registered && h in s'.handlers ==>
      && h in s.handlers
      && (s'.handlers[h].clientOpen ==> s.handlers[h].clientOpen)
      && (s'.handlers[h].upstreamOpen ==> s.handlers[h].upstreamOpen)
    ensures StopOk(s', c)
  {
  }

  lemma {:induction false} HandlerLeavesStops(s: State, a: Action)
    requires Enabled(s, a) && ByHandler(a)
    ensures Step(s, a).stops == s.stops && Step(s, a).stopping == s.stopping
    ensures Step(s, a).connections == s.connections || a.Add? || (a.Discard? && HandlerAt(s, a.h, Discarding))
  {
  }

  lemma {:induction false} StopStep(s: State, a: Action, t: nat)
    requires Inv(s) && Enabled(s, a) && t in Step(s, a).stops
    ensures StopOk(Step(s, a), Step(s, a).stops[t])
  {
    var s' := Step(s, a);
    forall h | h in s.registered
      ensures h in s'.handlers && h in s.handlers
      ensures s'.handlers[h].clientOpen ==> s.handlers[h].clientOpen
      ensures s'.handlers[h].upstreamOpen ==> s.handlers[h].upstreamOpen
    {
      RegisteredOnlyClose(s, a, h);
    }
    if ByHandler(a) {
      HandlerLeavesStops(s, a);
      HandlerKeepsStop(s, a, t);
    } else {
      OwnStopStep(s, a, t);
    }
  }

  lemma {:induction false} HandlerKeepsStop(s: State, a: Action, t: nat)
    requires Inv(s) && Enabled(s, a) && ByHandler(a) && t in s.stops && Step(s, a).stops == s.stops
    requires Step(s, a).stopping == s.stopping
    requires Step(s, a).connections == s.connections || a.Add? || (a.Discard? && HandlerAt(s, a.h, Discarding))
    requires forall h :: h in s.registered ==>
      && h in Step(s, a).handlers && h in s.handlers
      && (Step(s, a).handlers[h].clientOpen ==> s.handlers[h].clientOpen)
      && (Step(s, a).handlers[h].upstreamOpen ==> s.handlers[h].upstreamOpen)
    ensures StopOk(Step(s, a), s.stops[t])
  {
    assert StopOk(s, s.stops[t]);
    if s.stops[t].HasSnapshot() {
      FrozenStep(s, a);
      assert s.stops[t].Snapped? ==> s.lock == OfStop(t);
    }
    hide SetOk, StopOk;
    KnowsStill(s, Step(s, a), s.stops[t]);
  }

  lemma {:induction false} OwnStopStep(s: State, a: Action, t: nat)
    requires Inv(s) && Enabled(s, a) && !ByHandler(a) && t in Step(s, a).stops
    requires forall h :: h in s.registered ==>
      && h in Step(s, a).handlers && h in s.handlers
      && (Step(s, a).handlers[h].clientOpen ==> s.handlers[h].clientOpen)
      && (Step(s, a).handlers[h].upstreamOpen ==> s.handlers[h].upstreamOpen)
    ensures StopOk(Step(s, a), Step(s, a).stops[t])
  {
    if t in s.stops {
      assert StopOk(s, s.stops[t]);
      assert s.stops[t].Snapped? ==> s.lock == OfStop(t);
    }
  }

  /** Only a check that finds the flag down leads to the place before the set. */
  lemma {:induction false} ComesToAdding(s: State, a: Action, h: nat)
    requires Enabled(s, a) && HandlerAt(Step(s, a), h, Adding)
    ensures HandlerAt(s, h, Adding) || (a == Check(h) && HandlerAt(s, h, Checking) && !s.stopping)
  {
  }

  /** Only a stop that holds the lock comes by its snapshot. */
  lemma {:induction false} ComesToSnapshot(s: State, a: Action, t: nat)
    requires Enabled(s, a) && t in Step(s, a).stops
    ensures Step(s, a).stops[t].HasSnapshot() ==>
      t in s.stops && (s.stops[t].HasSnapshot() || (a == Snapshot(t) && s.stops[t] == Locked))
  {
  }

  /** While a handler is about to add its pair, or the flag is down, no stop has a snapshot; in the
      first case none holds the lock either. */
  lemma {:induction false} SnapshotsHeldOff(s: State, h: nat, t: nat)
    requires Inv(s) && t in s.stops
    ensures HandlerAt(s, h, Adding) ==> !s.stops[t].HasSnapshot() && !s.stops[t].Locked?
    ensures !s.stopping ==> !s.stops[t].HasSnapshot()
  {
    assert StopOk(s, s.stops[t]);
    hide SetOk;
    if HandlerAt(s, h, Adding) {
      assert !SnapshotTaken(s) && s.lock == OfHandler(h);
    }
  }

  lemma {:induction false} AddingStep(s: State, a: Action, h: nat)
    requires Inv(s) && Enabled(s, a) && HandlerAt(Step(s, a), h, Adding)
    ensures !SnapshotTaken(Step(s, a))
  {
    ComesToAdding(s, a, h);
    var s' := Step(s, a);
    hide Step, Enabled, Inv;
    forall t | t in s'.stops ensures !s'.stops[t].HasSnapshot() {
      ComesToSnapshot(s, a, t);
      if t in s.stops {
        SnapshotsHeldOff(s, h, t);
      }
    }
  }

  lemma {:induction false} InvStep(s: State, a: Action)
    requires Inv(s) && Enabled(s, a)
    ensures Inv(Step(s, a))
  {
    LockStep(s, a);
    SetStep(s, a);
    forall t | t in Step(s, a).stops ensures StopOk(Step(s, a), Step(s, a).stops[t]) {
      StopStep(s, a, t);
    }
    forall h | HandlerAt(Step(s, a), h, Adding) ensures !SnapshotTaken(Step(s, a)) {
      AddingStep(s, a, h);
    }
  }

  /* ---------------- whole runs ---------------- */

  /** acts can be carried out one after the other from s. */
  predicate Possible(s: State, acts: seq<Action>)
    decreases |acts|
  {
    acts == [] || (Enabled(s, acts[0]) && Possible(Step(s, acts[0]), acts[1..]))
  }

  function Run(s: State, acts: seq<Action>): State
    requires Possible(s, acts)
    decreases |acts|
  {
    if acts == [] then s else Run(Step(s, acts[0]), acts[1..])
  }

  lemma {:induction false} RunKeepsInv(s: State, acts: seq<Action>)
    requires Inv(s) && Possible(s, acts)
    ensures Inv(Run(s, acts))
    decreases |acts|
  {
    if acts != [] {
      InvStep(s, acts[0]);
      RunKeepsInv(Step(s, acts[0]), acts[1..]);
    }
  }

  lemma {:induction false} InitInv()
    ensures Inv(INIT)
  {
  }

  lemma {:induction false} SnapshotStays(s: State, a: Action, t: nat)
    requires Enabled(s, a) && t in s.stops && s.stops[t].HasSnapshot()
    ensures t in Step(s, a).stops && Step(s, a).stops[t].HasSnapshot()
    ensures s.stops[t].Returned? ==> Step(s, a).stops[t].Returned?
  {
  }

  lemma {:induction false} RunKeepsSnapshot(s: State, acts: seq<Action>, t: nat)
    requires Inv(s) && Possible(s, acts) && t in s.stops && s.stops[t].HasSnapshot()
    ensures t in Run(s, acts).stops && Run(s, acts).stops[t].HasSnapshot()
    ensures s.stops[t].Returned? ==> Run(s, acts).stops[t].Returned?
    ensures Run(s, acts).registered == s.registered
    decreases |acts|
  {
    if acts != [] {
      InvStep(s, acts[0]);
      FrozenStep(s, acts[0]);
      SnapshotStays(s, acts[0], t);
      hide Inv, Step, Enabled;
      RunKeepsSnapshot(Step(s, acts[0]), acts[1..], t);
    }
  }

  /** In every interleaving, once some stop call has taken its snapshot no pair is ever
      registered again, however the run goes on. */
  lemma {:induction false} NothingRegisteredAfterSnapshot(before: seq<Action>, after: seq<Action>, t: nat)
    requires Possible(INIT, before) && Possible(Run(INIT, before), after)
    requires var s := Run(INIT, before); t in s.stops && s.stops[t].HasSnapshot()
    ensures Run(Run(INIT, before), after).registered == Run(INIT, before).registered
  {
    InitInv();
    RunKeepsInv(INIT, before);
    RunKeepsSnapshot(Run(INIT, before), after, t);
  }

  /** In every interleaving, from the moment some stop call has returned every pair ever
      registered is closed on both sides; a socket still open then belongs to a handler that
      has not been through its check yet, or to one whose settimeout or whose refusal failed. */
  lemma {:induction false} StopClosesEverything(acts: seq<Action>, t: nat)
    requires Possible(INIT, acts) && t in Run(INIT, acts).stops && Run(INIT, acts).stops[t].Returned?
    ensures var s := Run(INIT, acts);
      && (forall h :: h in s.registered ==> h in s.handlers && s.handlers[h].Closed())
      && forall h :: h in s.handlers && !s.handlers[h].Closed() ==>
           h !in s.connections
           && (s.handlers[h].tuneFailed || s.handlers[h].closeFailed
               || s.handlers[h].pc in {Connecting, Tuning, Failing, Waiting, Checking, RefusingFirst, RefusingSecond})
  {
    InitInv();
    RunKeepsInv(INIT, acts);
    var s := Run(INIT, acts);
    assert StopOk(s, s.stops[t]);
    forall h | h in s.handlers && s.handlers[h].pc == Adding ensures false {
      assert HandlerAt(s, h, Adding);
    }
  }

  /** In every interleaving a finished handler has closed whatever it opened and left the set; it
      has not closed the upstream socket exactly if settimeout failed on it or the close of the
      client before it raised. */
  lemma {:induction false} FinishedHandlerIsClean(acts: seq<Action>, h: nat)
    requires Possible(INIT, acts) && h in Run(INIT, acts).handlers && Run(INIT, acts).handlers[h].pc == Finished
    ensures var s := Run(INIT, acts);
      && h !in s.connections && !s.handlers[h].clientOpen
      && (s.handlers[h].upstreamOpen <==> s.handlers[h].tuneFailed || s.handlers[h].closeFailed)
  {
    InitInv();
    RunKeepsInv(INIT, acts);
  }

  /** A run in which the operating system refuses settimeout on the connected socket: the handler
      returns without closing the upstream socket. */
  lemma {:induction false} TuneFailureSkipsClose()
    ensures var acts := [Accept(0), Connect(0, true), Tune(0, false), Fail(0)];
      Possible(INIT, acts) && Run(INIT, acts).handlers[0] == Handler(Finished, false, true, true, false)
  {
    var s1 := Step(INIT, Accept(0));
    var s2 := Step(s1, Connect(0, true));
    var s3 := Step(s2, Tune(0, false));
    var s4 := Step(s3, Fail(0));
    assert Possible(s4, []) && Possible(s3, [Fail(0)]);
    assert Possible(s2, [Tune(0, false), Fail(0)]);
    assert Possible(s1, [Connect(0, true), Tune(0, false), Fail(0)]);
  }

  /** Once settimeout or the refusal's first close has failed, no continuation of the run closes
      the upstream socket. */
  lemma {:induction false} SkippedStaysOpen(acts: seq<Action>, more: seq<Action>, h: nat)
    requires Possible(INIT, acts) && Possible(Run(INIT, acts), more) && h in Run(INIT, acts).handlers
    requires Run(INIT, acts).handlers[h].tuneFailed || Run(INIT, acts).handlers[h].closeFailed
    ensures h in Run(Run(INIT, acts), more).handlers && Run(Run(INIT, acts), more).handlers[h].upstreamOpen
  {
    InitInv();
    RunKeepsInv(INIT, acts);
    RunKeepsSkipped(Run(INIT, acts), more, h);
  }

  /** One of the two closes was skipped, and the upstream socket is open. */
  predicate Skipped(s: State, h: nat) {
    h in s.handlers && (s.handlers[h].tuneFailed || s.handlers[h].closeFailed)
  }

  lemma {:induction false} SkippedStays(s: State, a: Action, h: nat)
    requires Inv(s) && Enabled(s, a) && Skipped(s, h)
    ensures Skipped(Step(s, a), h)
  {
    hide Inv;
  }

  lemma {:induction false} SkippedIsOpen(s: State, h: nat)
    requires Inv(s) && Skipped(s, h)
    ensures s.handlers[h].upstreamOpen
  {
    assert HandlerOk(s.handlers[h]);
  }

  lemma {:induction false} RunKeepsSkipped(s: State, acts: seq<Action>, h: nat)
    requires Inv(s) && Possible(s, acts) && Skipped(s, h)
    ensures Skipped(Run(s, acts), h) && Run(s, acts).handlers[h].upstreamOpen
    decreases |acts|
  {
    if acts == [] {
      SkippedIsOpen(s, h);
    } else {
      InvStep(s, acts[0]);
      SkippedStays(s, acts[0], h);
      hide Inv, Step, Enabled;
      RunKeepsSkipped(Step(s, acts[0]), acts[1..], h);
    }
  }

  /** The actions can be taken one after the other and reach that state. */
  ghost predicate Reaches(s: State, acts: seq<Action>, to: State) { Possible(s, acts) && Run(s, acts) == to }

  lemma {:induction false} ReachesOn(s: State, a: Action, rest: seq<Action>, to: State)
    requires Enabled(s, a) && Reaches(Step(s, a), rest, to)
    ensures Reaches(s, [a] + rest, to)
  {
    assert ([a] + rest)[1..] == rest;
  }

  lemma {:induction false} ThreeSteps(s: State, a: Action, b: Action, c: Action, rest: seq<Action>, to: State)
    requires Enabled(s, a) && Enabled(Step(s, a), b) && Enabled(Step(Step(s, a), b), c)
    requires Reaches(Step(Step(Step(s, a), b), c), rest, to)
    ensures Reaches(s, [a, b, c] + rest, to)
  {
    hide Enabled, Step, Reaches;
    ReachesOn(Step(Step(s, a), b), c, rest, to);
    ReachesOn(Step(s, a), b, [c] + rest, to);
    ReachesOn(s, a, [b] + ([c] + rest), to);
    assert [a] + ([b] + ([c] + rest)) == [a, b, c] + rest;
  }

  /** The flag is up, and one handler is there. */
  function Refusing(lock: Owner, x: Handler): State { State(true, lock, {}, map[0 := x], map[0 := Flagged], {}) }

  lemma {:induction false} FlagUp()
    ensures var s := Refusing(Nobody, Handler(Connecting, true, false, false, false));
      && Enabled(INIT, CallStop(0)) && Enabled(Step(INIT, CallStop(0)), SetFlag(0))
      && Enabled(Step(Step(INIT, CallStop(0)), SetFlag(0)), Accept(0))
      && Step(Step(Step(INIT, CallStop(0)), SetFlag(0)), Accept(0)) == s
  {
  }

  lemma {:induction false} ToTheCheck()
    ensures var s := Refusing(Nobody, Handler(Connecting, true, false, false, false));
      && Enabled(s, Connect(0, true)) && Enabled(Step(s, Connect(0, true)), Tune(0, true))
      && Enabled(Step(Step(s, Connect(0, true)), Tune(0, true)), LockHandler(0))
      && Step(Step(Step(s, Connect(0, true)), Tune(0, true)), LockHandler(0))
         == Refusing(OfHandler(0), Handler(Checking, true, true, false, false))
  {
  }

  lemma {:induction false} ThroughTheRefusal()
    ensures var s := Refusing(OfHandler(0), Handler(Checking, true, true, false, false));
      && Enabled(s, Check(0)) && Enabled(Step(s, Check(0)), Refuse(0, false))
      && Enabled(Step(Step(s, Check(0)), Refuse(0, false)), Release(0))
      && Step(Step(Step(s, Check(0)), Refuse(0, false)), Release(0))
         == Refusing(Nobody, Handler(Finished, false, true, false, true))
  {
  }

  /** A run in which a pair is refused after the flag went up and the close of the client raises:
      the handler ends without closing the upstream socket, and the lock is free again. */
  lemma {:induction false} CloseFailureSkipsClose()
    ensures Reaches(INIT, [CallStop(0), SetFlag(0), Accept(0)] + ([Connect(0, true), Tune(0, true), LockHandler(0)]
                          + ([Check(0), Refuse(0, false), Release(0)] + [])),
                    Refusing(Nobody, Handler(Finished, false, true, false, true)))
  {
    var end := Refusing(Nobody, Handler(Finished, false, true, false, true));
    assert Reaches(end, [], end);
    FlagUp();
    ToTheCheck();
    ThroughTheRefusal();
    hide *;
    ThreeSteps(Refusing(OfHandler(0), Handler(Checking, true, true, false, false)), Check(0), Refuse(0, false),
               Release(0), [], end);
    ThreeSteps(Refusing(Nobody, Handler(Connecting, true, false, false, false)),
               Connect(0, true), Tune(0, true), LockHandler(0),
               [Check(0), Refuse(0, false), Release(0)] + [], end);
    ThreeSteps(INIT, CallStop(0), SetFlag(0), Accept(0),
               [Connect(0, true), Tune(0, true), LockHandler(0)]
               + ([Check(0), Refuse(0, false), Release(0)] + []), end);
  }
}
