/**
 Commands with receipts: the first success under a key is recorded with its content and its result, in the transaction
 of the command itself. `D` is what commands change, `K` the key, `C` the content, `N` what the server draws by itself
 (new identifiers, the time), `R` the result, and `W` what other parts of the system do to the same data.
 */
module IdempotentCommands {
  import opened Options

  datatype Execution<+D, +R> = Success(data: D, result: R) | Failure(error: string)

  datatype Receipt<+C, +R> = Receipt(content: C, result: R)

  datatype State<D, !K(==), C, R> = State(data: D, receipts: map<K, Receipt<C, R>>)

  /** A key that is too short or too long is no key. */
  datatype Request<+K, +C, +N> = Request(key: Option<K>, content: C, drawn: N)

  datatype Event<+K, +C, +N, +W> = Command(request: Request<K, C, N>) | World(change: W)

  datatype Answer<+R> = Performed(result: R) | Replayed(result: R) | KeyReused | KeyInvalid | Refused(error: string) | NoAnswer

  /** `admit` refuses a request before its receipt is looked up: missing rights, or a target that does not exist. */
  datatype System<!D, !K, !C, !N, !R, !W> = System(
    admit: (D, K, C) -> Option<string>, exec: (D, K, C, N) -> Execution<D, R>, world: (D, W) -> D)

  predicate HasReceipt<D, K(==), C(==), N, R>(s: State<D, K, C, R>, r: Request<K, C, N>) {
    r.key.Some? && r.key.value in s.receipts && s.receipts[r.key.value].content == r.content
  }

  /** One command in one transaction: its changes and its receipt are committed together, or nothing is. */
  function Perform<D, K(==), C(==), N, R, W>(
    sys: System<D, K, C, N, R, W>, s: State<D, K, C, R>, r: Request<K, C, N>): (State<D, K, C, R>, Answer<R>)
  {
    if r.key.None? then (s, KeyInvalid)
    else if sys.admit(s.data, r.key.value, r.content).Some? then
      (s, Refused(sys.admit(s.data, r.key.value, r.content).value))
    else if r.key.value in s.receipts then
      (s, if s.receipts[r.key.value].content == r.content then Replayed(s.receipts[r.key.value].result) else KeyReused)
    else
      match sys.exec(s.data, r.key.value, r.content, r.drawn)
      case Failure(error) => (s, Refused(error))
      case Success(data, result) =>
        (State(data, s.receipts[r.key.value := Receipt(r.content, result)]), Performed(result))
  }

  function Step<D, K(==), C(==), N, R, W>(
    sys: System<D, K, C, N, R, W>, s: State<D, K, C, R>, e: Event<K, C, N, W>): (State<D, K, C, R>, Answer<R>)
  {
    match e
    case Command(request) => Perform(sys, s, request)
    case World(change) => (s.(data := sys.world(s.data, change)), NoAnswer)
  }

  function Run<D, K(==), C(==), N, R, W>(
    sys: System<D, K, C, N, R, W>, s: State<D, K, C, R>, events: seq<Event<K, C, N, W>>): State<D, K, C, R>
    decreases |events|
  {
    if events == [] then s else Run(sys, Step(sys, s, events[0]).0, events[1..])
  }

  /** The trace without the copies of commands that have succeeded already. */
  function WithoutCopies<D, K(==), C(==), N, R, W>(
    sys: System<D, K, C, N, R, W>, s: State<D, K, C, R>, events: seq<Event<K, C, N, W>>): seq<Event<K, C, N, W>>
    decreases |events|
  {
    if events == [] then []
    else
      var rest := WithoutCopies(sys, Step(sys, s, events[0]).0, events[1..]);
      if events[0].Command? && HasReceipt(s, events[0].request) then rest else [events[0]] + rest
  }

  /** Copies can be dropped: the final state, receipts included, is that of the trace without them. */
  lemma {:induction false} CopiesChangeNothing<D, K, C, N, R, W>(
      sys: System<D, K, C, N, R, W>, s: State<D, K, C, R>, events: seq<Event<K, C, N, W>>)
    ensures Run(sys, s, WithoutCopies(sys, s, events)) == Run(sys, s, events)
    decreases |events|
  {
    if events != [] {
      var t := Step(sys, s, events[0]).0;
      var rest := WithoutCopies(sys, t, events[1..]);
      CopiesChangeNothing(sys, t, events[1..]);
      if !(events[0].Command? && HasReceipt(s, events[0].request)) {
        assert ([events[0]] + rest)[1..] == rest;
      }
    }
  }

  /** The trace without the commands that did nothing: only successes and outside changes are left. */
  function Effective<D, K(==), C(==), N, R, W>(
    sys: System<D, K, C, N, R, W>, s: State<D, K, C, R>, events: seq<Event<K, C, N, W>>): seq<Event<K, C, N, W>>
    decreases |events|
  {
    if events == [] then []
    else
      var (t, answer) := Step(sys, s, events[0]);
      var rest := Effective(sys, t, events[1..]);
      if events[0].World? || answer.Performed? then [events[0]] + rest else rest
  }

  /** Failed, replayed and refused commands leave nothing: dropped from the trace, books and receipts end up the same. */
  lemma {:induction false} FailuresLeaveNothing<D, K, C, N, R, W>(
      sys: System<D, K, C, N, R, W>, s: State<D, K, C, R>, events: seq<Event<K, C, N, W>>)
    ensures Run(sys, s, Effective(sys, s, events)) == Run(sys, s, events)
    decreases |events|
  {
    if events != [] {
      var (t, answer) := Step(sys, s, events[0]);
      var rest := Effective(sys, t, events[1..]);
      FailuresLeaveNothing(sys, t, events[1..]);
      if events[0].World? || answer.Performed? {
        assert ([events[0]] + rest)[1..] == rest;
      } else {
        OnlySuccessLeavesTraces(sys, s, events[0].request);
      }
    }
  }

  lemma {:induction false} RunTwice<D, K, C, N, R, W>(
      sys: System<D, K, C, N, R, W>, s: State<D, K, C, R>, a: seq<Event<K, C, N, W>>, b: seq<Event<K, C, N, W>>)
    ensures Run(sys, s, a + b) == Run(sys, Run(sys, s, a), b)
    decreases |a|
  {
    if a == [] {
      assert a + b == b;
    } else {
      assert (a + b)[1..] == a[1..] + b;
      RunTwice(sys, Step(sys, s, a[0]).0, a[1..], b);
    }
  }

  /** A receipt is never changed or lost. */
  lemma {:induction false} ReceiptsStay<D, K, C, N, R, W>(
      sys: System<D, K, C, N, R, W>, s: State<D, K, C, R>, events: seq<Event<K, C, N, W>>, key: K)
    requires key in s.receipts
    ensures key in Run(sys, s, events).receipts && Run(sys, s, events).receipts[key] == s.receipts[key]
    decreases |events|
  {
    if events != [] { ReceiptsStay(sys, Step(sys, s, events[0]).0, events[1..], key); }
  }

  /** What event `i` of a trace answers. */
  function AnswerAt<D, K(==), C(==), N, R, W>(
    sys: System<D, K, C, N, R, W>, s: State<D, K, C, R>, events: seq<Event<K, C, N, W>>, i: nat): Answer<R>
    requires i < |events|
  {
    Step(sys, Run(sys, s, events[..i]), events[i]).1
  }

  /**
   After a success, every later request under its key changes nothing; unless it is not admitted, it is answered from
   the receipt: a copy gets the first result, other content is refused.
   */
  lemma {:induction false} LaterRequests<D, K, C, N, R, W>(
      sys: System<D, K, C, N, R, W>, s: State<D, K, C, R>, events: seq<Event<K, C, N, W>>, i: nat, j: nat)
    requires i < j < |events| && events[i].Command? && events[j].Command?
    requires AnswerAt(sys, s, events, i).Performed? && events[j].request.key == events[i].request.key
    ensures var refusal := sys.admit(Run(sys, s, events[..j]).data, events[j].request.key.value, events[j].request.content);
            AnswerAt(sys, s, events, j)
            == if refusal.Some? then Refused(refusal.value)
               else if events[j].request.content == events[i].request.content
               then Replayed(AnswerAt(sys, s, events, i).result) else KeyReused
    ensures Run(sys, s, events[..j + 1]) == Run(sys, s, events[..j])
  {
    var key := events[i].request.key.value;
    var before := Run(sys, s, events[..i]);
    RunOneMore(sys, s, events, i);
    var after := Run(sys, s, events[..i + 1]);
    assert events[..j] == events[..i + 1] + events[i + 1..j];
    RunTwice(sys, s, events[..i + 1], events[i + 1..j]);
    ReceiptsStay(sys, after, events[i + 1..j], key);
    RunOneMore(sys, s, events, j);
  }

  lemma {:induction false} RunOneMore<D, K, C, N, R, W>(
      sys: System<D, K, C, N, R, W>, s: State<D, K, C, R>, events: seq<Event<K, C, N, W>>, i: nat)
    requires i < |events|
    ensures Run(sys, s, events[..i + 1]) == Step(sys, Run(sys, s, events[..i]), events[i]).0
  {
    var t := Run(sys, s, events[..i]);
    assert events[..i + 1] == events[..i] + [events[i]];
    RunTwice(sys, s, events[..i], [events[i]]);
    assert Run(sys, t, [events[i]]) == Run(sys, Step(sys, t, events[i]).0, []) by { assert [events[i]][1..] == []; }
  }

  /** A receipt that was not there at the start stems from a success of the trace with that key, content and result. */
  lemma {:induction false} ReceiptsAreSuccesses<D, K, C, N, R, W>(
      sys: System<D, K, C, N, R, W>, s: State<D, K, C, R>, events: seq<Event<K, C, N, W>>, key: K) returns (i: nat)
    requires key !in s.receipts && key in Run(sys, s, events).receipts
    ensures i < |events| && events[i].Command? && events[i].request.key == Some(key)
    ensures Run(sys, s, events).receipts[key].content == events[i].request.content
    ensures AnswerAt(sys, s, events, i) == Performed(Run(sys, s, events).receipts[key].result)
    decreases |events|
  {
    var t := Step(sys, s, events[0]).0;
    if key in t.receipts {
      i := 0;
      ReceiptsStay(sys, t, events[1..], key);
      assert events[..0] == [];
    } else {
      var k := ReceiptsAreSuccesses(sys, t, events[1..], key);
      i := k + 1;
      assert events[..i][1..] == events[1..][..k];
    }
  }

  /** Whatever a command answers other than success, it has changed nothing and left no receipt. */
  lemma {:induction false} OnlySuccessLeavesTraces<D, K, C, N, R, W>(
      sys: System<D, K, C, N, R, W>, s: State<D, K, C, R>, r: Request<K, C, N>)
    ensures !Perform(sys, s, r).1.Performed? ==> Perform(sys, s, r).0 == s
    ensures Perform(sys, s, r).1.Performed? ==>
              && r.key.Some? && r.key.value !in s.receipts
              && sys.exec(s.data, r.key.value, r.content, r.drawn)
                 == Success(Perform(sys, s, r).0.data, Perform(sys, s, r).1.result)
              && Perform(sys, s, r).0.receipts
                 == s.receipts[r.key.value := Receipt(r.content, Perform(sys, s, r).1.result)]
  {
  }

  /** A property of the data that every command and every outside change keeps holds after every trace. */
  lemma {:induction false} InvariantHolds<D(!new), K(!new), C(!new), N(!new), R, W(!new)>(
      sys: System<D, K, C, N, R, W>, s: State<D, K, C, R>, events: seq<Event<K, C, N, W>>, inv: D -> bool)
    requires inv(s.data)
    requires forall d, k, c, n :: inv(d) && sys.exec(d, k, c, n).Success? ==> inv(sys.exec(d, k, c, n).data)
    requires forall d, w :: inv(d) ==> inv(sys.world(d, w))
    ensures inv(Run(sys, s, events).data)
    decreases |events|
  {
    if events != [] { InvariantHolds(sys, Step(sys, s, events[0]).0, events[1..], inv); }
  }
}
