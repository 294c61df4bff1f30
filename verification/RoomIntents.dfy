/**
 One socket's subscription queue as a transition system. Requests take a version when they arrive and are served one
 at a time; an action is one stretch of code between two awaits, or something the outside world does meanwhile.
 */
module RoomIntents {
  import opened Options

  const MAX_SOCKET_ROOMS: nat := 64

  /** The rooms the server puts a socket in by itself, and the rooms a client may ask for. */
  datatype Room = OwnRoom | UserRoom | PresenceRoom | AuditRoom | ClientRoom(name: string)

  datatype Kind = Subscribe | Unsubscribe

  datatype Ack = Ok | AuthorizationUnavailable | Superseded | TooManyRooms | Forbidden

  datatype Request = Request(kind: Kind, key: string, version: nat)

  datatype Acknowledged = Acknowledged(request: Request, ack: Ack)

  /** Where the request being served stands; `generation` is the health captured before its first await. */
  datatype Phase =
    | AwaitSetup
    | Authorizing(generation: nat)
    | Joining(generation: nat)
    | Confirming
    | Answering(ack: Ack)

  datatype Current = Current(request: Request, phase: Phase)

  datatype Setup = Pending | SetUp | SetupFailed

  /** `withdrawn` holds the client rooms the server itself has taken away since they were last joined. */
  datatype State = State(
    ready: bool, generation: nat,
    setup: Setup,
    rooms: set<Room>,
    versions: map<string, nat>,
    queue: seq<Request>,
    current: Option<Current>,
    arrived: seq<Request>,
    acks: seq<Acknowledged>,
    withdrawn: set<string>)

  datatype Authorization = Granted | Refused | Failed

  datatype Action =
    | Arrive(kind: Kind, key: string)
    | HealthChanged(ready: bool, newGeneration: bool)
    | SetupJoin(room: Room)
    | PrivateLeave(room: Room)
    | SetupSettled(ok: bool)
    | Revoke(key: string)
    | Disconnect
    | Begin
    | Proceed
    | Authorized(answer: Authorization)
    | JoinResumed
    | Confirmed
    | Answered

  function Version(versions: map<string, nat>, key: string): nat {
    if key in versions then versions[key] else 0
  }

  function ArriveStep(s: State, kind: Kind, key: string): State {
    var version := Version(s.versions, key) + 1;
    s.(versions := s.versions[key := version],
       queue := s.queue + [Request(kind, key, version)],
       arrived := s.arrived + [Request(kind, key, version)])
  }

  predicate Fenced(s: State, generation: nat) {
    s.ready && s.generation == generation
  }

  function Withdraw(s: State, key: string): State {
    s.(rooms := s.rooms - {ClientRoom(key)}, withdrawn := s.withdrawn + {key})
  }

  function ClientRooms(rooms: set<Room>): set<string> {
    set room | room in rooms && room.ClientRoom? :: room.name
  }

  function DisconnectStep(s: State): State {
    s.(rooms := {}, withdrawn := s.withdrawn + ClientRooms(s.rooms))
  }

  function Finish(s: State, ack: Ack): State
    requires s.current.Some?
  {
    s.(current := None, acks := s.acks + [Acknowledged(s.current.value.request, ack)])
  }

  function At(s: State, phase: Phase): State
    requires s.current.Some?
  {
    s.(current := Some(s.current.value.(phase := phase)))
  }

  function BeginStep(s: State): State {
    if s.current.Some? || s.queue == [] then s
    else
      var request := s.queue[0];
      if request.kind.Subscribe?
      then s.(queue := s.queue[1..], current := Some(Current(request, AwaitSetup)))
      else s.(queue := s.queue[1..], current := Some(Current(request, Answering(Ok))),
              rooms := s.rooms - {ClientRoom(request.key)})
  }

  function ProceedStep(s: State): State {
    if !(s.current.Some? && s.current.value.phase.AwaitSetup?) || s.setup.Pending? then s
    else
      var request := s.current.value.request;
      if s.setup.SetupFailed? || !s.ready then Finish(s, AuthorizationUnavailable)
      else if Version(s.versions, request.key) != request.version then Finish(s, Superseded)
      else if ClientRoom(request.key) in s.rooms then Finish(s, Ok)
      else if |s.rooms| >= MAX_SOCKET_ROOMS then Finish(s, TooManyRooms)
      else At(s, Authorizing(s.generation))
  }

  function AuthorizedStep(s: State, answer: Authorization): State {
    if !(s.current.Some? && s.current.value.phase.Authorizing?) then s
    else
      var key := s.current.value.request.key;
      match answer
      case Failed => Finish(s, AuthorizationUnavailable)
      case Refused => Finish(s, Forbidden)
      case Granted =>
        if !Fenced(s, s.current.value.phase.generation) then Finish(s, AuthorizationUnavailable)
        else At(s, Joining(s.current.value.phase.generation)).(
               rooms := s.rooms + {ClientRoom(key)}, withdrawn := s.withdrawn - {key})
  }

  function JoinResumedStep(s: State): State {
    if !(s.current.Some? && s.current.value.phase.Joining?) then s
    else if Fenced(s, s.current.value.phase.generation) then At(s, Confirming)
    else Withdraw(At(s, Answering(AuthorizationUnavailable)), s.current.value.request.key)
  }

  function ConfirmedStep(s: State): State {
    if !(s.current.Some? && s.current.value.phase.Confirming?) then s
    else
      var request := s.current.value.request;
      if Version(s.versions, request.key) == request.version then Finish(s, Ok)
      else Withdraw(At(s, Answering(Superseded)), request.key)
  }

  function AnsweredStep(s: State): State {
    if s.current.Some? && s.current.value.phase.Answering? then Finish(s, s.current.value.phase.ack) else s
  }

  function Apply(s: State, a: Action): State {
    match a
    case Arrive(kind, key) => ArriveStep(s, kind, key)
    case HealthChanged(ready, newGeneration) =>
      s.(ready := ready, generation := if newGeneration then s.generation + 1 else s.generation)
    case SetupJoin(room) => if room.ClientRoom? || s.setup.SetUp? then s else s.(rooms := s.rooms + {room})
    case PrivateLeave(room) => if room.ClientRoom? then s else s.(rooms := s.rooms - {room})
    case SetupSettled(ok) => if s.setup.Pending? then s.(setup := if ok then SetUp else SetupFailed) else s
    case Revoke(key) => Withdraw(s, key)
    case Disconnect => DisconnectStep(s)
    case Begin => BeginStep(s)
    case Proceed => ProceedStep(s)
    case Authorized(answer) => AuthorizedStep(s, answer)
    case JoinResumed => JoinResumedStep(s)
    case Confirmed => ConfirmedStep(s)
    case Answered => AnsweredStep(s)
  }

  function Run(s: State, actions: seq<Action>): State
    decreases |actions|
  {
    if actions == [] then s else Run(Apply(s, actions[0]), actions[1..])
  }

  predicate Init(s: State) {
    && s.setup.Pending? && s.rooms == {OwnRoom} && s.versions == map[] && s.queue == [] && s.current.None?
    && s.arrived == [] && s.acks == [] && s.withdrawn == {}
  }

  // ---------------------------------------------------------------- what a client may rely on

  /** The last request for a room that was acknowledged ok. */
  function LastOk(acks: seq<Acknowledged>, key: string): Option<Kind> {
    if acks == [] then None
    else
      var last := acks[|acks| - 1];
      if last.request.key == key && last.ack.Ok? then Some(last.request.kind) else LastOk(acks[..|acks| - 1], key)
  }

  predicate LastOkIsSubscribe(s: State, key: string) {
    LastOk(s.acks, key) == Some(Subscribe)
  }

  /** The request being served has already changed the membership its acknowledgement will report. */
  predicate Unsettled(s: State, key: string) {
    && s.current.Some? && s.current.value.request.key == key
    && (s.current.value.phase.Joining? || s.current.value.phase.Confirming?
        || (s.current.value.phase.Answering? && s.current.value.request.kind.Unsubscribe?))
  }

  ghost predicate MembershipInv(s: State) {
    && (forall key :: !Unsettled(s, key) ==>
          (ClientRoom(key) in s.rooms <==> LastOkIsSubscribe(s, key) && key !in s.withdrawn))
    && (s.current.Some? ==>
          var request, phase := s.current.value.request, s.current.value.phase;
          && (phase.Answering? ==> ClientRoom(request.key) !in s.rooms && (request.kind.Unsubscribe? <==> phase.ack.Ok?))
          && (!phase.Answering? ==> request.kind.Subscribe?)
          && (phase.Authorizing? ==> ClientRoom(request.key) !in s.rooms)
          && (phase.Joining? || phase.Confirming? ==> (ClientRoom(request.key) in s.rooms <==> request.key !in s.withdrawn)))
  }

  /** What limits the rooms, apart from their number. */
  ghost predicate SetupInv(s: State) {
    && (!s.setup.SetUp? ==> s.rooms <= {OwnRoom, UserRoom, PresenceRoom, AuditRoom})
    && (s.current.Some? && s.current.value.phase.Authorizing? ==> s.setup.SetUp? && |s.rooms| < MAX_SOCKET_ROOMS)
    && (s.current.Some? && (s.current.value.phase.Joining? || s.current.value.phase.Confirming?) ==> s.setup.SetUp?)
  }

  ghost predicate SizeInv(s: State) {
    SetupInv(s) && |s.rooms| <= MAX_SOCKET_ROOMS
  }

  function Requests(acks: seq<Acknowledged>): seq<Request> {
    seq(|acks|, i requires 0 <= i < |acks| => acks[i].request)
  }

  /** Every request that arrived is answered once, in arrival order, or still waits in line. */
  predicate ConservationInv(s: State) {
    s.arrived == Requests(s.acks) + (if s.current.Some? then [s.current.value.request] else []) + s.queue
  }

  lemma {:induction false} FinishAcks(s: State, ack: Ack, key: string)
    requires s.current.Some?
    ensures LastOk(Finish(s, ack).acks, key)
            == if s.current.value.request.key == key && ack.Ok? then Some(s.current.value.request.kind) else LastOk(s.acks, key)
    ensures Requests(Finish(s, ack).acks) == Requests(s.acks) + [s.current.value.request]
  {
    assert Finish(s, ack).acks[..|s.acks|] == s.acks;
  }

  lemma {:induction false} FinishKeepsMembership(s: State, ack: Ack)
    requires MembershipInv(s) && s.current.Some?
    requires var request := s.current.value.request;
             if ack.Ok?
             then if request.kind.Subscribe? then ClientRoom(request.key) in s.rooms <==> request.key !in s.withdrawn
                  else ClientRoom(request.key) !in s.rooms
             else !Unsettled(s, request.key)
    ensures MembershipInv(Finish(s, ack))
  {
    forall key ensures ClientRoom(key) in s.rooms <==> LastOkIsSubscribe(Finish(s, ack), key) && key !in s.withdrawn {
      FinishAcks(s, ack, key);
    }
  }

  lemma {:induction false} ServingKeepsMembership(s: State, a: Action)
    requires MembershipInv(s)
    requires a.Begin? || a.Proceed? || a.Authorized? || a.JoinResumed? || a.Confirmed? || a.Answered?
    ensures MembershipInv(Apply(s, a))
  {
    if s.current.Some? {
      forall ack | Apply(s, a) == Finish(s, ack) ensures MembershipInv(Apply(s, a)) {
        FinishKeepsMembership(s, ack);
      }
    }
  }

  lemma {:induction false} StepKeepsMembership(s: State, a: Action)
    requires MembershipInv(s)
    ensures MembershipInv(Apply(s, a))
  {
    if a.Begin? || a.Proceed? || a.Authorized? || a.JoinResumed? || a.Confirmed? || a.Answered? {
      ServingKeepsMembership(s, a);
    }
  }

  /** Only two actions add a room: a join of the setup, and the grant that follows the size check. */
  lemma {:induction false} OnlyJoinsAddRooms(s: State, a: Action)
    ensures !a.SetupJoin? && !(a.Authorized? && a.answer.Granted?) ==> Apply(s, a).rooms <= s.rooms
    ensures a.Authorized? && a.answer.Granted? && !(Apply(s, a).rooms <= s.rooms) ==>
              && s.current.Some? && s.current.value.phase.Authorizing?
              && Apply(s, a).rooms == s.rooms + {ClientRoom(s.current.value.request.key)}
  {
  }

  lemma {:induction false} StepKeepsSize(s: State, a: Action)
    requires SizeInv(s)
    ensures SizeInv(Apply(s, a))
  {
    OnlyJoinsAddRooms(s, a);
    var t := Apply(s, a);
    if t.rooms <= s.rooms { SubsetIsNoLarger(t.rooms, s.rooms); }
    if a.SetupJoin? {
      StepKeepsPrivate(s, a);
    } else {
      StepKeepsSetup(s, a);
    }
  }

  lemma {:induction false} StepKeepsPrivate(s: State, a: Action)
    requires SizeInv(s) && a.SetupJoin?
    ensures SizeInv(Apply(s, a))
  {
    if !s.setup.SetUp? { SubsetIsNoLarger(Apply(s, a).rooms, {OwnRoom, UserRoom, PresenceRoom, AuditRoom}); }
  }

  lemma {:induction false} StepKeepsSetup(s: State, a: Action)
    requires SizeInv(s) && !a.SetupJoin?
    requires Apply(s, a).rooms <= s.rooms ==> |Apply(s, a).rooms| <= |s.rooms|
    ensures SetupInv(Apply(s, a))
  {
    if a.Begin? || a.Proceed? || a.Authorized? || a.JoinResumed? || a.Confirmed? || a.Answered? {
      ServingKeepsSetup(s, a);
    }
  }

  lemma {:induction false} ServingKeepsSetup(s: State, a: Action)
    requires SizeInv(s) && (a.Begin? || a.Proceed? || a.Authorized? || a.JoinResumed? || a.Confirmed? || a.Answered?)
    ensures SetupInv(Apply(s, a))
  {
  }

  lemma {:induction false} SubsetIsNoLarger(a: set<Room>, b: set<Room>)
    requires a <= b
    ensures |a| <= |b|
  {
    if a != {} {
      var room :| room in a;
      SubsetIsNoLarger(a - {room}, b - {room});
    }
  }

  lemma {:induction false} StepKeepsConservation(s: State, a: Action)
    requires ConservationInv(s)
    ensures ConservationInv(Apply(s, a))
  {
    if s.current.Some? {
      forall ack | Apply(s, a) == Finish(s, ack) ensures ConservationInv(Apply(s, a)) {
        FinishAcks(s, ack, "");
      }
    }
  }

  // ---------------------------------------------------------------- whole runs

  lemma {:induction false} InitInv(s: State)
    requires Init(s)
    ensures Inv(s)
  {
  }

  /** The three invariants together. */
  ghost predicate Inv(s: State) {
    MembershipInv(s) && SizeInv(s) && ConservationInv(s)
  }

  lemma {:induction false} StepKeepsInv(s: State, a: Action)
    requires Inv(s)
    ensures Inv(Apply(s, a))
  {
    StepKeepsMembership(s, a);
    StepKeepsSize(s, a);
    StepKeepsConservation(s, a);
  }

  lemma {:induction false} RunKeepsInv(s: State, actions: seq<Action>)
    requires Inv(s)
    ensures Inv(Run(s, actions))
    decreases |actions|
  {
    if actions != [] {
      StepKeepsInv(s, actions[0]);
      RunKeepsInv(Apply(s, actions[0]), actions[1..]);
    }
  }

  /** The server takes nothing away by itself: neither a revocation nor a disconnection. */
  predicate NoRevocation(actions: seq<Action>) {
    forall a :: a in actions ==> !a.Revoke? && !a.Disconnect?
  }

  /** Without revocations, a room taken away again was never acknowledged as subscribed since the last departure. */
  ghost predicate UndisturbedInv(s: State) {
    && MembershipInv(s)
    && (forall key :: key in s.withdrawn ==> !LastOkIsSubscribe(s, key))
    && (s.current.Some? ==>
          var key, phase := s.current.value.request.key, s.current.value.phase;
          && (phase.Authorizing? ==> !LastOkIsSubscribe(s, key))
          && (phase.Joining? || phase.Confirming? ==> key !in s.withdrawn && !LastOkIsSubscribe(s, key)))
  }

  lemma {:induction false} StepKeepsUndisturbed(s: State, a: Action)
    requires UndisturbedInv(s) && !a.Revoke? && !a.Disconnect?
    ensures UndisturbedInv(Apply(s, a))
  {
    if a.Begin? || a.Proceed? || a.Authorized? || a.JoinResumed? || a.Confirmed? || a.Answered? {
      ServingKeepsUndisturbed(s, a);
    } else {
      StepKeepsMembership(s, a);
    }
  }

  lemma {:induction false} ServingKeepsUndisturbed(s: State, a: Action)
    requires UndisturbedInv(s)
    requires a.Begin? || a.Proceed? || a.Authorized? || a.JoinResumed? || a.Confirmed? || a.Answered?
    ensures UndisturbedInv(Apply(s, a))
  {
    ServingKeepsMembership(s, a);
    if s.current.Some? {
      forall ack, key | Apply(s, a) == Finish(s, ack)
        ensures LastOkIsSubscribe(Apply(s, a), key) ==>
                  LastOkIsSubscribe(s, key) || (key == s.current.value.request.key && ack.Ok?)
      {
        FinishAcks(s, ack, key);
      }
    }
  }

  lemma {:induction false} RunKeepsUndisturbed(s: State, actions: seq<Action>)
    requires UndisturbedInv(s) && NoRevocation(actions)
    ensures UndisturbedInv(Run(s, actions))
    decreases |actions|
  {
    if actions != [] {
      StepKeepsUndisturbed(s, actions[0]);
      RunKeepsUndisturbed(Apply(s, actions[0]), actions[1..]);
    }
  }

  /**
   After any burst of requests, whatever the interleaving: while no request for the room is being answered, the
   socket is in it exactly when the last request acknowledged ok was a subscribe and the server has not withdrawn it.
   */
  lemma {:induction false} InRoomExactlyWhen(s: State, actions: seq<Action>, key: string)
    requires Init(s)
    ensures var t := Run(s, actions);
            !Unsettled(t, key) ==> (ClientRoom(key) in t.rooms <==> LastOkIsSubscribe(t, key) && key !in t.withdrawn)
  {
    InitInv(s);
    RunKeepsInv(s, actions);
  }

  /** Absent revocation, the acknowledgements alone tell the client where it is. */
  lemma {:induction false} AcksTellMembership(s: State, actions: seq<Action>, key: string)
    requires Init(s) && NoRevocation(actions)
    ensures var t := Run(s, actions); !Unsettled(t, key) ==> (ClientRoom(key) in t.rooms <==> LastOkIsSubscribe(t, key))
  {
    InitInv(s);
    RunKeepsUndisturbed(s, actions);
  }

  /** No burst overbooks a socket. */
  lemma {:induction false} NeverOverbooked(s: State, actions: seq<Action>)
    requires Init(s)
    ensures |Run(s, actions).rooms| <= MAX_SOCKET_ROOMS
  {
    InitInv(s);
    RunKeepsInv(s, actions);
  }

  /** Every request is answered at most once, in the order of arrival, and none is lost. */
  lemma {:induction false} AnsweredInOrder(s: State, actions: seq<Action>)
    requires Init(s)
    ensures var t := Run(s, actions);
            && Requests(t.acks) <= t.arrived
            && (t.current.None? && t.queue == [] ==> Requests(t.acks) == t.arrived)
  {
    InitInv(s);
    RunKeepsInv(s, actions);
  }

  // ---------------------------------------------------------------- when a subscribe is acknowledged

  /** Versions only rise: every request that has arrived carries at most the current version of its room. */
  ghost predicate ArrivedInv(s: State) {
    forall q :: q in s.arrived ==> q.version <= Version(s.versions, q.key)
  }

  lemma {:induction false} StepKeepsArrived(s: State, a: Action)
    requires ArrivedInv(s)
    ensures ArrivedInv(Apply(s, a))
  {
    if !a.Arrive? { assert Apply(s, a).arrived == s.arrived && Apply(s, a).versions == s.versions; }
  }

  lemma {:induction false} RunKeepsArrived(s: State, actions: seq<Action>)
    requires ArrivedInv(s)
    ensures ArrivedInv(Run(s, actions))
    decreases |actions|
  {
    if actions != [] {
      StepKeepsArrived(s, actions[0]);
      RunKeepsArrived(Apply(s, actions[0]), actions[1..]);
    }
  }

  /** At most one answer is given at a time, and none is taken back. */
  lemma {:induction false} AcksGrow(s: State, a: Action)
    ensures s.acks <= Apply(s, a).acks && |Apply(s, a).acks| <= |s.acks| + 1
  {
  }

  lemma {:induction false} RunOneMore(s: State, actions: seq<Action>, k: nat)
    requires k < |actions|
    ensures Run(s, actions[..k + 1]) == Apply(Run(s, actions[..k]), actions[k])
    decreases |actions|
  {
    if k == 0 {
      assert actions[..1][1..] == [];
    } else {
      assert actions[..k + 1][1..] == actions[1..][..k] && actions[..k][1..] == actions[1..][..k - 1];
      RunOneMore(Apply(s, actions[0]), actions[1..], k - 1);
    }
  }

  lemma {:induction false} OkStep(s: State, a: Action)
    requires MembershipInv(s)
    ensures var t := Apply(s, a);
            forall i :: |s.acks| <= i < |t.acks| && t.acks[i].ack.Ok? && t.acks[i].request.kind.Subscribe? ==>
              && t.acks[i].request.version == Version(s.versions, t.acks[i].request.key)
              && (ClientRoom(t.acks[i].request.key) in t.rooms <==> t.acks[i].request.key !in t.withdrawn)
  {
    StepKeepsMembership(s, a);
  }

  /**
   In moment `k` the answer is given: no newer request for the room has arrived by then, and the socket is in the room
   unless the server has just withdrawn it.
   */
  ghost predicate AnsweredAt(s: State, actions: seq<Action>, k: nat, i: nat, given: Acknowledged) {
    k < |actions| && var before, after := Run(s, actions[..k]), Run(s, actions[..k + 1]);
    && |before.acks| == i && i < |after.acks| && after.acks[i] == given
    && (forall q :: q in before.arrived && q.key == given.request.key ==> q.version <= given.request.version)
    && (ClientRoom(given.request.key) in after.rooms <==> given.request.key !in after.withdrawn)
  }

  lemma {:induction false} AnsweredLast(s: State, actions: seq<Action>, i: nat)
    requires Init(s) && actions != []
    requires var u, t := Run(s, actions[..|actions| - 1]), Run(s, actions);
             |u.acks| == i && i < |t.acks| && t.acks[i].ack.Ok? && t.acks[i].request.kind.Subscribe?
    ensures AnsweredAt(s, actions, |actions| - 1, i, Run(s, actions).acks[i])
  {
    var n := |actions| - 1;
    RunOneMore(s, actions, n);
    assert actions[..n + 1] == actions;
    InitInv(s);
    RunKeepsInv(s, actions[..n]);
    RunKeepsArrived(s, actions[..n]);
    OkStep(Run(s, actions[..n]), actions[n]);
  }

  /** In every run, each subscribe that was acknowledged ok was the newest request for its room when it was answered. */
  lemma {:induction false} OkMeansNewest(s: State, actions: seq<Action>, i: nat) returns (k: nat)
    requires Init(s) && i < |Run(s, actions).acks|
    requires var given := Run(s, actions).acks[i]; given.ack.Ok? && given.request.kind.Subscribe?
    ensures AnsweredAt(s, actions, k, i, Run(s, actions).acks[i])
    decreases |actions|
  {
    var n := |actions| - 1;
    var u := Run(s, actions[..n]);
    RunOneMore(s, actions, n);
    assert actions[..n + 1] == actions;
    AcksGrow(u, actions[n]);
    if i < |u.acks| {
      k := OkMeansNewest(s, actions[..n], i);
      assert actions[..n][..k] == actions[..k] && actions[..n][..k + 1] == actions[..k + 1];
    } else {
      k := n;
      AnsweredLast(s, actions, i);
    }
  }
}
