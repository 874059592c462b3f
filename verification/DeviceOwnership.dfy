/** Who may drive the device.  One top-level session owns it at a time and may
    host one child.  `Apply` is the specification of one locked operation;
    histories are sequences of operations by any mix of callers. */
module DeviceOwnership {
  import opened Options

  const GENERATIONS: nat := 0x1_0000_0000_0000_0000  // the counter is a uint64

  /** "kind:generation:entropy" before formatting. */
  datatype SessionId = SessionId(kind: string, generation: nat, entropy: string)

  datatype Identity = Identity(
    runId: string, attemptId: string, sessionId: SessionId, ownerToken: string, generation: nat)

  function NewIdentity(kind: string, request: string, generation: nat, token: string): Identity {
    Identity(request, request + ":attempt-1",
             SessionId(kind, generation, if |token| <= 12 then token else token[..12]), token, generation)
  }

  datatype State = State(generation: nat, active: Option<Identity>, hosted: Option<Identity>)

  const Idle := State(0, None, None)

  datatype Operation =
    | Acquire(kind: string, request: string, token: string)
    | AcquireHosted(parent: Identity, kind: string, request: string, token: string)
    | Validate(sessionId: SessionId, ownerToken: string)
    | Release(identity: Identity)

  datatype Outcome = Granted(identity: Identity) | Owned | OwnerMismatch | Valid | Released | NotOwner

  predicate SameOwner(holder: Option<Identity>, id: Identity) {
    holder.Some? && holder.value.sessionId == id.sessionId
    && holder.value.ownerToken == id.ownerToken && holder.value.generation == id.generation
  }

  predicate SameSession(holder: Option<Identity>, sessionId: SessionId, token: string) {
    holder.Some? && holder.value.sessionId == sessionId && holder.value.ownerToken == token
  }

  function Apply(s: State, op: Operation): (State, Outcome) {
    match op
    case Acquire(kind, request, token) =>
      if s.active.Some? then (s, Owned)
      else
        var id := NewIdentity(kind, request, (s.generation + 1) % GENERATIONS, token);
        (s.(generation := id.generation, active := Some(id)), Granted(id))
    case AcquireHosted(parent, kind, request, token) =>
      if !SameOwner(s.active, parent) then (s, OwnerMismatch)
      else if s.hosted.Some? then (s, Owned)
      else
        var id := NewIdentity(kind, request, (s.generation + 1) % GENERATIONS, token);
        (s.(generation := id.generation, hosted := Some(id)), Granted(id))
    case Validate(sessionId, token) =>
      (s, if SameSession(s.hosted, sessionId, token) || SameSession(s.active, sessionId, token)
          then Valid else OwnerMismatch)
    case Release(id) =>
      if SameOwner(s.hosted, id) then (s.(hosted := None), Released)
      else if !SameOwner(s.active, id) then (s, NotOwner)
      else (s.(active := None, hosted := None), Released)
  }

  function Run(s: State, ops: seq<Operation>): State
    decreases |ops|
  {
    if ops == [] then s else Run(Apply(s, ops[0]).0, ops[1..])
  }

  /** Sessions granted over a history; the counter wraps after 2^64 of them. */
  function Grants(s: State, ops: seq<Operation>): nat
    decreases |ops|
  {
    if ops == [] then 0
    else
      var (next, outcome) := Apply(s, ops[0]);
      (if outcome.Granted? then 1 else 0) + Grants(next, ops[1..])
  }

  ghost predicate NoWrap(s: State, ops: seq<Operation>) {
    s.generation + Grants(s, ops) < GENERATIONS
  }

  /** A hosted child exists only under a live parent that is older than it. */
  ghost predicate Inv(s: State) {
    && s.generation < GENERATIONS
    && (s.active.Some? ==> 1 <= s.active.value.generation <= s.generation
                           && s.active.value.sessionId.generation == s.active.value.generation)
    && (s.hosted.Some? ==> s.active.Some?
                           && s.active.value.generation < s.hosted.value.generation <= s.generation
                           && s.hosted.value.sessionId.generation == s.hosted.value.generation)
  }

  ghost predicate Registered(s: State, id: Identity) {
    SameOwner(s.active, id) || SameOwner(s.hosted, id)
  }

  /** An identity as the coordinator makes them, that holds nothing. */
  ghost predicate Dropped(s: State, id: Identity) {
    && id.sessionId.generation == id.generation < GENERATIONS
    && !Registered(s, id)
  }

  /** What holds in every state, even after the counter has wrapped. */
  ghost predicate Formed(s: State) {
    && s.generation < GENERATIONS
    && (s.active.Some? ==> s.active.value.sessionId.generation == s.active.value.generation)
    && (s.hosted.Some? ==> s.active.Some? && s.hosted.value.sessionId.generation == s.hosted.value.generation)
  }

  /** How many sessions were granted since the identity's generation was given. */
  function Age(s: State, id: Identity): int {
    if s.generation >= id.generation then s.generation - id.generation else s.generation + GENERATIONS - id.generation
  }

  lemma StepKeepsInv(s: State, op: Operation)
    requires Inv(s) && (s.generation + 1 < GENERATIONS || !Apply(s, op).1.Granted?)
    ensures Inv(Apply(s, op).0)
    ensures Apply(s, op).0.generation == s.generation + if Apply(s, op).1.Granted? then 1 else 0
    ensures Apply(s, op).1.Granted? ==> Registered(Apply(s, op).0, Apply(s, op).1.identity)
                                        && Apply(s, op).1.identity.generation == s.generation + 1
  {
  }

  /** In every history at most one top-level owner exists (it is one field) and
      a hosted child lives only under an older parent. */
  lemma {:induction false} HistoryKeepsInv(s: State, ops: seq<Operation>)
    requires Inv(s) && NoWrap(s, ops)
    ensures Inv(Run(s, ops))
    ensures Run(s, ops).generation == s.generation + Grants(s, ops)
    decreases |ops|
  {
    if ops != [] {
      StepKeepsInv(s, ops[0]);
      HistoryKeepsInv(Apply(s, ops[0]).0, ops[1..]);
    }
  }

  predicate IsSession(id: Identity, sessionId: SessionId, token: string) {
    id.sessionId == sessionId && id.ownerToken == token
  }

  predicate IsSame(a: Identity, b: Identity) {
    a.sessionId == b.sessionId && a.ownerToken == b.ownerToken && a.generation == b.generation
  }

  /** Who gets what: the free device to anyone, a place under the owner to a
      caller that names it, once; the holders alone are valid and can release. */
  lemma AnsweredExactlyWhen(s: State, op: Operation)
    ensures var (t, outcome) := Apply(s, op);
            match op
            case Acquire(_, request, token) =>
              && (outcome.Granted? <==> s.active.None?) && (outcome == Owned <==> s.active.Some?)
              && (outcome.Granted? ==> t == State(outcome.identity.generation, Some(outcome.identity), s.hosted)
                                       && outcome.identity.runId == request && outcome.identity.ownerToken == token)
            case AcquireHosted(parent, _, request, token) =>
              && (outcome == OwnerMismatch <==> s.active.None? || !IsSame(s.active.value, parent))
              && (outcome.Granted? <==> s.active.Some? && IsSame(s.active.value, parent) && s.hosted.None?)
              && (outcome.Granted? ==> t == State(outcome.identity.generation, s.active, Some(outcome.identity))
                                       && outcome.identity.runId == request && outcome.identity.ownerToken == token)
            case Validate(sessionId, token) =>
              && t == s
              && (outcome == Valid <==> (s.active.Some? && IsSession(s.active.value, sessionId, token))
                                        || (s.hosted.Some? && IsSession(s.hosted.value, sessionId, token)))
            case Release(id) =>
              var child := s.hosted.Some? && IsSame(s.hosted.value, id);
              var owner := s.active.Some? && IsSame(s.active.value, id);
              && (outcome == Released <==> child || owner)
              && t == State(s.generation, if owner && !child then None else s.active,
                            if child || owner then None else s.hosted)
    ensures !Apply(s, op).1.Granted? && !op.Release? ==> Apply(s, op).0 == s
  {
  }

  /** Releasing a registered identity drops it; releasing the parent drops the
      child it hosts as well; releasing the child leaves the parent in place. */
  lemma ReleaseDrops(s: State, id: Identity)
    requires Inv(s) && Registered(s, id)
    ensures var (next, outcome) := Apply(s, Release(id));
            && outcome == Released
            && Dropped(next, id)
            && (SameOwner(s.active, id) && s.hosted.Some? ==> Dropped(next, s.hosted.value))
            && (SameOwner(s.hosted, id) ==> next.active == s.active)
  {
  }

  lemma StepAges(s: State, op: Operation, id: Identity)
    requires Formed(s) && Dropped(s, id)
    requires Age(s, id) + (if Apply(s, op).1.Granted? then 1 else 0) < GENERATIONS
    ensures var (next, outcome) := Apply(s, op);
            && Formed(next) && Dropped(next, id)
            && Age(next, id) == Age(s, id) + (if outcome.Granted? then 1 else 0)
  {
  }

  /** A dropped identity is inert in every later history of fewer than 2^64
      grants since its own, whoever owns the device then: it is never registered
      again, and releasing, validating or hosting with it changes nothing and
      fails. The counter may wrap meanwhile. */
  lemma {:induction false} DroppedIsInertForever(s: State, ops: seq<Operation>, id: Identity)
    requires Formed(s) && Dropped(s, id) && Age(s, id) + Grants(s, ops) < GENERATIONS
    ensures var later := Run(s, ops);
            && Formed(later) && Dropped(later, id) && Age(later, id) == Age(s, id) + Grants(s, ops)
            && Apply(later, Release(id)) == (later, NotOwner)
            && Apply(later, Validate(id.sessionId, id.ownerToken)) == (later, OwnerMismatch)
            && forall kind, request, token ::
                 Apply(later, AcquireHosted(id, kind, request, token)) == (later, OwnerMismatch)
    decreases |ops|
  {
    if ops == [] {
      assert Run(s, ops) == s;
    } else {
      StepAges(s, ops[0], id);
      DroppedIsInertForever(Apply(s, ops[0]).0, ops[1..], id);
    }
  }

  /** The top-level owner keeps the device through any history in which nobody
      releases that very identity. */
  lemma {:induction false} OwnerKeepsDevice(s: State, ops: seq<Operation>, id: Identity)
    requires Inv(s) && NoWrap(s, ops) && s.active == Some(id)
    requires forall op :: op in ops && op.Release? ==> !SameOwner(Some(id), op.identity)
    ensures Run(s, ops).active == Some(id)
    decreases |ops|
  {
    if ops != [] {
      StepKeepsInv(s, ops[0]);
      assert ops[0] in ops;
      OwnerKeepsDevice(Apply(s, ops[0]).0, ops[1..], id);
    }
  }

  // ----- The bound is exact --------------------------------------------------

  /** n sessions of the same kind, request and token, one after the other. */
  function Rounds(generation: nat, kind: string, request: string, token: string, n: nat): seq<Operation>
    decreases n
  {
    if n == 0 then []
    else
      var id := NewIdentity(kind, request, (generation + 1) % GENERATIONS, token);
      [Acquire(kind, request, token), Release(id)] + Rounds(id.generation, kind, request, token, n - 1)
  }

  lemma {:induction false} RoundsReturnToIdle(s: State, kind: string, request: string, token: string, n: nat)
    requires s.generation < GENERATIONS && s.active.None? && s.hosted.None?
    ensures Run(s, Rounds(s.generation, kind, request, token, n)) == State((s.generation + n) % GENERATIONS, None, None)
    ensures Grants(s, Rounds(s.generation, kind, request, token, n)) == n
    decreases n
  {
    if n > 0 {
      var next := State((s.generation + 1) % GENERATIONS, None, None);
      OneRound(s, kind, request, token, Rounds(next.generation, kind, request, token, n - 1));
      RoundsReturnToIdle(next, kind, request, token, n - 1);
      Successors(s.generation, n);
    }
  }

  lemma Successors(g: nat, n: nat)
    requires n >= 1
    ensures ((g + 1) % GENERATIONS + (n - 1)) % GENERATIONS == (g + n) % GENERATIONS
  {
  }

  /** One session, from a free device to a free device. */
  lemma OneRound(s: State, kind: string, request: string, token: string, rest: seq<Operation>)
    requires s.generation < GENERATIONS && s.active.None? && s.hosted.None?
    ensures var id := NewIdentity(kind, request, (s.generation + 1) % GENERATIONS, token);
            var ops := [Acquire(kind, request, token), Release(id)] + rest;
            var next := State(id.generation, None, None);
            Run(s, ops) == Run(next, rest) && Grants(s, ops) == 1 + Grants(next, rest)
  {
    var id := NewIdentity(kind, request, (s.generation + 1) % GENERATIONS, token);
    TwoSteps(s, Acquire(kind, request, token), Release(id), rest);
    assert Apply(s, Acquire(kind, request, token)) == (State(id.generation, Some(id), None), Granted(id));
  }

  lemma TwoSteps(s: State, a: Operation, b: Operation, rest: seq<Operation>)
    ensures var (s1, o1) := Apply(s, a);
            var (s2, o2) := Apply(s1, b);
            && Run(s, [a, b] + rest) == Run(s2, rest)
            && Grants(s, [a, b] + rest)
               == (if o1.Granted? then 1 else 0) + (if o2.Granted? then 1 else 0) + Grants(s2, rest)
  {
    assert ([a, b] + rest)[1..] == [b] + rest && ([b] + rest)[1..] == rest;
  }

  lemma {:induction false} OneMoreStep(s: State, ops: seq<Operation>, op: Operation)
    ensures Run(s, ops + [op]) == Apply(Run(s, ops), op).0
    ensures Grants(s, ops + [op]) == Grants(s, ops) + (if Apply(Run(s, ops), op).1.Granted? then 1 else 0)
    decreases |ops|
  {
    if ops == [] {
      assert ops + [op] == [op] && [op][1..] == [];
    } else {
      OneMoreStep(Apply(s, ops[0]).0, ops[1..], op);
      assert (ops + [op])[1..] == ops[1..] + [op];
    }
  }

  lemma FullTurn(a: nat, g: nat)
    requires a < GENERATIONS && g < GENERATIONS
    ensures var age := if a >= g then a - g else a + GENERATIONS - g;
            ((a + (GENERATIONS - age - 1)) % GENERATIONS + 1) % GENERATIONS == g
  {
    if a < g || g == 0 {
      assert a < g ==> a + (GENERATIONS - (a + GENERATIONS - g) - 1) == g - 1;
    } else {
      assert (GENERATIONS + (g - 1)) % GENERATIONS == g - 1;
    }
  }

  /** With 2^64 grants since its own an identity can be registered again, from
      every state in which the device is free, if the random token repeats. */
  lemma FullTurnCanRevive(s: State, kind: string, request: string, g: nat, token: string)
    requires s.generation < GENERATIONS && s.active.None? && s.hosted.None? && g < GENERATIONS
    ensures var id := NewIdentity(kind, request, g, token);
            Dropped(s, id) && exists ops :: Age(s, id) + Grants(s, ops) == GENERATIONS && Registered(Run(s, ops), id)
  {
    var id := NewIdentity(kind, request, g, token);
    var n := GENERATIONS - Age(s, id) - 1;
    var ops := Rounds(s.generation, kind, request, token, n);
    RoundsReturnToIdle(s, kind, request, token, n);
    OneMoreStep(s, ops, Acquire(kind, request, token));
    FullTurn(s.generation, g);
    var t := Run(s, ops);
    assert Apply(t, Acquire(kind, request, token)).0.active == Some(id);
    var all := ops + [Acquire(kind, request, token)];
    assert Registered(Run(s, all), id) && Grants(s, all) == n + 1;
  }

  /** It happens from the start: an identity is granted, released, and granted
      again after exactly 2^64 more grants. */
  lemma WrapCanReviveIdentity(kind: string, request: string, token: string)
    ensures var id := NewIdentity(kind, request, 1, token);
            var s := Run(Idle, [Acquire(kind, request, token), Release(id)]);
            && Apply(Idle, Acquire(kind, request, token)).1 == Granted(id)
            && Dropped(s, id)
            && exists ops :: Grants(s, ops) == GENERATIONS && Registered(Run(s, ops), id)
  {
    var id := NewIdentity(kind, request, 1, token);
    TwoSteps(Idle, Acquire(kind, request, token), Release(id), []);
    assert [Acquire(kind, request, token), Release(id)] + [] == [Acquire(kind, request, token), Release(id)];
    var s := State(1, None, None);
    FullTurnCanRevive(s, kind, request, 1, token);
    assert Age(s, id) == 0;
  }

  class Coordinator {
    var generation: nat
    var active: Option<Identity>
    var hosted: Option<Identity>

    ghost function View(): State
      reads this
    {
      State(generation, active, hosted)
    }

    constructor ()
      ensures View() == Idle
    {
      generation, active, hosted := 0, None, None;
    }

    method Acquire(kind: string, request: string, token: string) returns (r: Outcome)
      modifies this
      ensures (View(), r) == Apply(old(View()), Operation.Acquire(kind, request, token))
    {
      if active.Some? { return Owned; }
      generation := (generation + 1) % GENERATIONS;
      var identity := NewIdentity(kind, request, generation, token);
      active := Some(identity);
      return Granted(identity);
    }

    method AcquireHosted(parent: Identity, kind: string, request: string, token: string) returns (r: Outcome)
      modifies this
      ensures (View(), r) == Apply(old(View()), Operation.AcquireHosted(parent, kind, request, token))
    {
      if !SameOwner(active, parent) { return OwnerMismatch; }
      if hosted.Some? { return Owned; }
      generation := (generation + 1) % GENERATIONS;
      var identity := NewIdentity(kind, request, generation, token);
      hosted := Some(identity);
      return Granted(identity);
    }

    method Validate(sessionId: SessionId, token: string) returns (r: Outcome)
      ensures (View(), r) == Apply(View(), Operation.Validate(sessionId, token))
    {
      if SameSession(hosted, sessionId, token) || SameSession(active, sessionId, token) { return Valid; }
      return OwnerMismatch;
    }

    method Release(identity: Identity) returns (released: bool)
      modifies this
      ensures (View(), if released then Released else NotOwner)
              == Apply(old(View()), Operation.Release(identity))
    {
      if SameOwner(hosted, identity) {
        hosted := None;
        return true;
      }
      if !SameOwner(active, identity) { return false; }
      active, hosted := None, None;
      return true;
    }
  }
}
