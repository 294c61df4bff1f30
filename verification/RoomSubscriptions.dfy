/** The subscription handlers of one connection, as the code that runs between two awaits. */
module RoomSubscriptions {
  import opened Options
  import opened RoomIntents

  class SocketSubscriptions {
    var ready: bool
    var generation: nat
    var setup: Setup
    var rooms: set<Room>
    var roomIntentVersions: map<string, nat>
    var subscriptionQueue: seq<Request>
    var current: Option<Current>
    ghost var arrived: seq<Request>
    ghost var acks: seq<Acknowledged>
    ghost var withdrawn: set<string>

    ghost function View(): State
      reads this
    {
      State(ready, generation, setup, rooms, roomIntentVersions, subscriptionQueue, current, arrived, acks, withdrawn)
    }

    /** What the acknowledgements say holds, no room too many, no request lost. */
    ghost predicate Valid()
      reads this
    {
      Inv(View())
    }

    constructor (ready: bool, generation: nat)
      ensures Valid() && Init(View())
    {
      this.ready, this.generation, setup := ready, generation, Pending;
      rooms, roomIntentVersions, subscriptionQueue, current := {OwnRoom}, map[], [], None;
      arrived, acks, withdrawn := [], [], {};
    }

    method NextRoomIntent(key: string) returns (version: nat)
      modifies `roomIntentVersions
      ensures version == Version(old(roomIntentVersions), key) + 1
      ensures roomIntentVersions == old(roomIntentVersions)[key := version]
    {
      version := (if key in roomIntentVersions then roomIntentVersions[key] else 0) + 1;
      roomIntentVersions := roomIntentVersions[key := version];
    }

    /** Both handlers: take a version now, wait in line behind every earlier request. */
    method OnRequest(kind: Kind, key: string)
      requires Valid()
      modifies this
      ensures Valid()
      ensures View() == Apply(old(View()), Arrive(kind, key))
    {
      StepKeepsInv(View(), Arrive(kind, key));
      var version := NextRoomIntent(key);
      subscriptionQueue := subscriptionQueue + [Request(kind, key, version)];
      arrived := arrived + [Request(kind, key, version)];
    }

    method Acknowledge(ack: Ack)
      requires current.Some?
      modifies `current, `acks
      ensures View() == Finish(old(View()), ack)
    {
      acks := acks + [Acknowledged(current.value.request, ack)];
      current := None;
    }

    method LeaveRoom(key: string)
      modifies `rooms, `withdrawn
      ensures View() == Withdraw(old(View()), key)
    {
      rooms := rooms - {ClientRoom(key)};
      withdrawn := withdrawn + {key};
    }

    method TakeNext()
      modifies this
      ensures View() == Apply(old(View()), Begin)
    {
      if current.Some? || subscriptionQueue == [] { return; }
      var request := subscriptionQueue[0];
      subscriptionQueue := subscriptionQueue[1..];
      if request.kind.Unsubscribe? {
        rooms := rooms - {ClientRoom(request.key)};
        current := Some(Current(request, Answering(Ok)));
      } else {
        current := Some(Current(request, AwaitSetup));
      }
    }

    method ServeNext()
      requires Valid()
      modifies this
      ensures Valid()
      ensures View() == Apply(old(View()), Begin)
    {
      ghost var before := View();
      TakeNext();
      StepKeepsInv(before, Begin);
    }

    /** After the initial rooms are settled: readiness, then the intent, then membership, then the room limit. */
    method ActOnSetup()
      modifies this
      ensures View() == Apply(old(View()), Proceed)
    {
      if !(current.Some? && current.value.phase.AwaitSetup?) || setup.Pending? { return; }
      var request := current.value.request;
      if setup.SetupFailed? || !ready {
        Acknowledge(AuthorizationUnavailable);
        return;
      }
      if (if request.key in roomIntentVersions then roomIntentVersions[request.key] else 0) != request.version {
        Acknowledge(Superseded);
        return;
      }
      if ClientRoom(request.key) in rooms {
        Acknowledge(Ok);
        return;
      }
      if |rooms| >= MAX_SOCKET_ROOMS {
        Acknowledge(TooManyRooms);
        return;
      }
      current := Some(Current(request, Authorizing(generation)));
    }

    method SetupAwaited()
      requires Valid()
      modifies this
      ensures Valid()
      ensures View() == Apply(old(View()), Proceed)
    {
      ghost var before := View();
      ActOnSetup();
      StepKeepsInv(before, Proceed);
    }

    method ActOnAuthorization(answer: Authorization)
      modifies this
      ensures View() == Apply(old(View()), Authorized(answer))
    {
      if !(current.Some? && current.value.phase.Authorizing?) { return; }
      var request, captured := current.value.request, current.value.phase.generation;
      match answer
      case Failed => Acknowledge(AuthorizationUnavailable);
      case Refused => Acknowledge(Forbidden);
      case Granted =>
        if !ready || generation != captured {
          Acknowledge(AuthorizationUnavailable);
        } else {
          rooms := rooms + {ClientRoom(request.key)};
          withdrawn := withdrawn - {request.key};
          current := Some(Current(request, Joining(captured)));
        }
    }

    method AuthorizationReturned(answer: Authorization)
      requires Valid()
      modifies this
      ensures Valid()
      ensures View() == Apply(old(View()), Authorized(answer))
    {
      ghost var before := View();
      ActOnAuthorization(answer);
      StepKeepsInv(before, Authorized(answer));
    }

    method ResumeJoin()
      modifies this
      ensures View() == Apply(old(View()), JoinResumed)
    {
      if !(current.Some? && current.value.phase.Joining?) { return; }
      var request, captured := current.value.request, current.value.phase.generation;
      if ready && generation == captured {
        current := Some(Current(request, Confirming));
      } else {
        current := Some(Current(request, Answering(AuthorizationUnavailable)));
        LeaveRoom(request.key);
      }
    }

    method JoinAwaited()
      requires Valid()
      modifies this
      ensures Valid()
      ensures View() == Apply(old(View()), JoinResumed)
    {
      ghost var before := View();
      ResumeJoin();
      StepKeepsInv(before, JoinResumed);
    }

    method ConfirmJoin()
      modifies this
      ensures View() == Apply(old(View()), Confirmed)
    {
      if !(current.Some? && current.value.phase.Confirming?) { return; }
      var request := current.value.request;
      if (if request.key in roomIntentVersions then roomIntentVersions[request.key] else 0) == request.version {
        Acknowledge(Ok);
      } else {
        current := Some(Current(request, Answering(Superseded)));
        LeaveRoom(request.key);
      }
    }

    method JoinConfirmed()
      requires Valid()
      modifies this
      ensures Valid()
      ensures View() == Apply(old(View()), Confirmed)
    {
      ghost var before := View();
      ConfirmJoin();
      StepKeepsInv(before, Confirmed);
    }

    /** The room has been left: the acknowledgement that was waiting for it goes out. */
    method LeaveAwaited()
      requires Valid()
      modifies this
      ensures Valid()
      ensures View() == Apply(old(View()), Answered)
    {
      StepKeepsInv(View(), Answered);
      if current.Some? && current.value.phase.Answering? { Acknowledge(current.value.phase.ack); }
    }
  }
}
