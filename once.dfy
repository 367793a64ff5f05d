/**
 * The process-wide client (Client, main.go:63-64 and 75-119) as a two-state machine:
 * the once-guard has either not run its initialisation body yet or has run it.
 * The socket probe and the gRPC dial are I/O, so their outcomes are inputs of each
 * call; what the body does with them is recorded as a sequence of effects.
 */
module Once {
  import opened Wrappers
  import opened Errors

  /** A gRPC client connection produced by a successful dial; `id` stands for its identity. */
  datatype Conn = Conn(id: nat)

  /** The `client` struct (main.go:42-48): five service stubs, each given by the connection it was built on. */
  datatype ContainerdClient = ContainerdClient(
    containerService: Conn,
    taskService: Conn,
    versionService: Conn,
    snapshotService: Conn,
    criService: Conn)

  /** All five stubs share one channel. */
  predicate SharesOneChannel(c: ContainerdClient)
  {
    c.taskService == c.containerService && c.versionService == c.containerService &&
    c.snapshotService == c.containerService && c.criService == c.containerService
  }

  /** The client built from a freshly dialled connection (main.go:110-116). */
  function NewClient(conn: Conn): (c: ContainerdClient)
    ensures SharesOneChannel(c) && c.containerService == conn
  {
    ContainerdClient(conn, conn, conn, conn, conn)
  }

  /** Outcome of the socket reachability probe (net.DialTimeout, main.go:79). */
  datatype Probe = ProbeOk | ProbeFailed(err: Error)

  /** Outcome of the blocking gRPC dial (grpc.DialContext, main.go:105). */
  datatype Dial = DialOk(conn: Conn) | DialFailed(err: Error)

  /** The I/O the initialisation body performs. */
  datatype Effect = ProbedSocket(address: string) | Dialed(address: string, namespace: string)

  /** The package state: the once-guard's flag and the stored client `ctrdClient`. */
  datatype OnceState = OnceState(done: bool, stored: Option<ContainerdClient>)

  /** The state at process start. */
  const Init: OnceState := OnceState(false, None)

  /** What every reachable state satisfies: no client before the body ran, and a stored client uses one channel. */
  predicate Reachable(s: OnceState)
  {
    (!s.done ==> s.stored == None) &&
    (s.stored.Some? ==> SharesOneChannel(s.stored.value))
  }

  /** One call of Client: its new state, its two results and the I/O it performed. */
  datatype Outcome = Outcome(state: OnceState, client: Option<ContainerdClient>, err: Option<Error>, effects: seq<Effect>)

  /**
   * One call of Client(address, namespace) given the outcomes of the probe and the
   * dial. `retErr` is local to the call, so only a call that runs the body can
   * report an error.
   */
  function ClientStep(s: OnceState, address: string, namespace: string, probe: Probe, dial: Dial): (r: Outcome)
    requires Reachable(s)
    ensures Reachable(r.state) && r.state.done
    ensures r.client == r.state.stored
    // a call after the first changes nothing, performs no I/O and reports no error
    ensures s.done ==> r.state == s && r.err == None && r.effects == []
    // the first call probes, and dials only when the probe succeeded
    ensures !s.done ==> r.effects == [ProbedSocket(address)] + (if probe.ProbeOk? then [Dialed(address, namespace)] else [])
    // only a successful dial stores a client, and then no error is reported
    ensures !s.done ==> (r.state.stored.Some? <==> probe.ProbeOk? && dial.DialOk?)
    ensures !s.done && probe.ProbeOk? && dial.DialOk? ==> r.state.stored == Some(NewClient(dial.conn)) && r.err == None
    // the two failures and the error each reports
    ensures !s.done && probe.ProbeFailed? ==> r.err == Some(ProbeError(probe.err))
    ensures !s.done && probe.ProbeOk? && dial.DialFailed? ==> r.err == Some(dial.err)
  {
    if s.done then
      Outcome(s, s.stored, None, [])
    else
      match probe
      case ProbeFailed(e) =>
        Outcome(OnceState(true, s.stored), s.stored, Some(ProbeError(e)), [ProbedSocket(address)])
      case ProbeOk =>
        match dial
        case DialFailed(e) =>
          Outcome(OnceState(true, s.stored), s.stored, Some(e), [ProbedSocket(address), Dialed(address, namespace)])
        case DialOk(conn) =>
          var c := NewClient(conn);
          Outcome(OnceState(true, Some(c)), Some(c), None, [ProbedSocket(address), Dialed(address, namespace)])
  }

  /** The arguments of one call together with the outcomes its I/O would have. */
  datatype Call = Call(address: string, namespace: string, probe: Probe, dial: Dial)

  /** What one call returns. */
  datatype Answer = Answer(client: Option<ContainerdClient>, err: Option<Error>)

  /** A sequence of calls: the final state, every call's answer and all I/O, in order. */
  datatype History = History(state: OnceState, answers: seq<Answer>, effects: seq<Effect>)

  /** The calls `calls`, one after the other, from state `s`. */
  function Run(s: OnceState, calls: seq<Call>): (h: History)
    requires Reachable(s)
    ensures Reachable(h.state) && |h.answers| == |calls|
    ensures calls != [] || s.done ==> h.state.done
    decreases |calls|
  {
    if calls == [] then History(s, [], [])
    else
      var c := calls[0];
      var r := ClientStep(s, c.address, c.namespace, c.probe, c.dial);
      var rest := Run(r.state, calls[1..]);
      History(rest.state, [Answer(r.client, r.err)] + rest.answers, r.effects + rest.effects)
  }

  /** Once the body has run, calls change nothing, perform no I/O and return the stored client with a nil error. */
  lemma {:induction false} DoneIsFinal(s: OnceState, calls: seq<Call>)
    requires Reachable(s) && s.done
    ensures Run(s, calls).state == s && Run(s, calls).effects == []
    ensures forall i :: 0 <= i < |calls| ==> Run(s, calls).answers[i] == Answer(s.stored, None)
    decreases |calls|
  {
    if calls != [] {
      DoneIsFinal(s, calls[1..]);
    }
  }

  /**
   * The initialisation body runs at most once in any sequence of calls: at most one
   * probe, with the first call's address, and at most one dial, after it and only
   * when that probe succeeded. The I/O of the whole run is exactly that of the first call.
   */
  lemma {:induction false} BodyRunsAtMostOnce(calls: seq<Call>)
    ensures calls != [] ==>
              Run(Init, calls).effects == ClientStep(Init, calls[0].address, calls[0].namespace, calls[0].probe, calls[0].dial).effects
    ensures var h := Run(Init, calls);
            |h.effects| <= 2 &&
            (calls == [] ==> h.effects == []) &&
            (calls != [] ==> h.effects[0] == ProbedSocket(calls[0].address)) &&
            (|h.effects| == 2 ==> calls[0].probe.ProbeOk? && h.effects[1] == Dialed(calls[0].address, calls[0].namespace))
  {
    if calls != [] {
      var c := calls[0];
      var r := ClientStep(Init, c.address, c.namespace, c.probe, c.dial);
      DoneIsFinal(r.state, calls[1..]);
      assert Run(Init, calls).effects == r.effects + [];
    }
  }

  /**
   * Every call after the first returns the client the first call stored, with a nil
   * error, whatever its own arguments and I/O outcomes; the stored client is the one
   * the first call's successful dial produced, and otherwise there is none.
   */
  lemma {:induction false} LaterCallsReturnStoredClient(calls: seq<Call>)
    requires calls != []
    ensures var h := Run(Init, calls);
            var first := ClientStep(Init, calls[0].address, calls[0].namespace, calls[0].probe, calls[0].dial);
            h.state == first.state &&
            h.answers[0] == Answer(first.client, first.err) &&
            (forall i :: 1 <= i < |calls| ==> h.answers[i] == Answer(first.state.stored, None))
    ensures var h := Run(Init, calls);
            h.state.stored.Some? <==> calls[0].probe.ProbeOk? && calls[0].dial.DialOk?
  {
    var c := calls[0];
    var first := ClientStep(Init, c.address, c.namespace, c.probe, c.dial);
    var rest := Run(first.state, calls[1..]);
    DoneIsFinal(first.state, calls[1..]);
    forall i | 1 <= i < |calls|
      ensures Run(Init, calls).answers[i] == Answer(first.state.stored, None)
    {
      assert Run(Init, calls).answers[i] == rest.answers[i - 1];
    }
  }

  /**
   * A failed first call is not remembered: it reports its error, and the next call
   * reports neither a client nor an error.
   */
  lemma {:induction false} FailedFirstCallIsForgotten(calls: seq<Call>)
    requires |calls| >= 2
    requires calls[0].probe.ProbeFailed? || calls[0].dial.DialFailed?
    ensures Run(Init, calls).answers[0].client == None && Run(Init, calls).answers[0].err.Some?
    ensures Run(Init, calls).answers[1] == Answer(None, None)
  {
    LaterCallsReturnStoredClient(calls);
  }

  // ---------------------------------------------------------------------------
  // A corrected guard: the first call's error is kept beside the stored client.
  // ---------------------------------------------------------------------------

  /** The package state with the first call's error cached. */
  datatype CachedState = CachedState(done: bool, stored: Option<ContainerdClient>, err: Option<Error>)

  const CachedInit: CachedState := CachedState(false, None, None)

  predicate CachedReachable(s: CachedState)
  {
    Reachable(OnceState(s.done, s.stored)) && (!s.done ==> s.err == None)
  }

  datatype CachedOutcome = CachedOutcome(state: CachedState, answer: Answer, effects: seq<Effect>)

  /** Like ClientStep, but a call after the first returns the first call's error again. */
  function CachedStep(s: CachedState, address: string, namespace: string, probe: Probe, dial: Dial): (r: CachedOutcome)
    requires CachedReachable(s)
    ensures CachedReachable(r.state) && r.state.done
    ensures r.answer == Answer(r.state.stored, r.state.err)
    ensures s.done ==> r.state == s && r.effects == []
    ensures !s.done ==> var o := ClientStep(OnceState(false, None), address, namespace, probe, dial);
                        r.answer == Answer(o.client, o.err) && r.effects == o.effects
  {
    if s.done then
      CachedOutcome(s, Answer(s.stored, s.err), [])
    else
      var o := ClientStep(OnceState(false, s.stored), address, namespace, probe, dial);
      CachedOutcome(CachedState(true, o.state.stored, o.err), Answer(o.client, o.err), o.effects)
  }

  /** The calls `calls`, one after the other, through the corrected guard. */
  function CachedRun(s: CachedState, calls: seq<Call>): (h: History)
    requires CachedReachable(s)
    ensures |h.answers| == |calls|
    decreases |calls|
  {
    if calls == [] then History(OnceState(s.done, s.stored), [], [])
    else
      var c := calls[0];
      var r := CachedStep(s, c.address, c.namespace, c.probe, c.dial);
      var rest := CachedRun(r.state, calls[1..]);
      History(rest.state, [r.answer] + rest.answers, r.effects + rest.effects)
  }

  /** Through the corrected guard, after the body has run, every call repeats the cached answer without I/O. */
  lemma {:induction false} CachedDoneIsFinal(s: CachedState, calls: seq<Call>)
    requires CachedReachable(s) && s.done
    ensures CachedRun(s, calls).effects == []
    ensures forall i :: 0 <= i < |calls| ==> CachedRun(s, calls).answers[i] == Answer(s.stored, s.err)
    decreases |calls|
  {
    if calls != [] {
      CachedDoneIsFinal(s, calls[1..]);
    }
  }

  /**
   * The corrected guard gives every caller the first call's answer, error included,
   * and performs exactly the I/O the as-written guard performs.
   */
  lemma {:induction false} CachedRepeatsFirstAnswer(calls: seq<Call>)
    requires calls != []
    ensures forall i :: 0 <= i < |calls| ==> CachedRun(CachedInit, calls).answers[i] == Run(Init, calls).answers[0]
    ensures CachedRun(CachedInit, calls).effects == Run(Init, calls).effects
  {
    var c := calls[0];
    var r := CachedStep(CachedInit, c.address, c.namespace, c.probe, c.dial);
    var first := ClientStep(Init, c.address, c.namespace, c.probe, c.dial);
    CachedDoneIsFinal(r.state, calls[1..]);
    DoneIsFinal(first.state, calls[1..]);
    forall i | 0 <= i < |calls|
      ensures CachedRun(CachedInit, calls).answers[i] == Run(Init, calls).answers[0]
    {
      if i > 0 {
        assert CachedRun(CachedInit, calls).answers[i] == CachedRun(r.state, calls[1..]).answers[i - 1];
      }
    }
    assert CachedRun(CachedInit, calls).effects == r.effects + [];
    assert Run(Init, calls).effects == first.effects + [];
  }

  // ---------------------------------------------------------------------------
  // The package-level state as an object whose fields the calls update in place.
  // ---------------------------------------------------------------------------

  /** The package variables `once` and `ctrdClient` (main.go:63-64), with the I/O performed so far. */
  class ClientGuard {
    var done: bool
    var stored: Option<ContainerdClient>
    ghost var effects: seq<Effect>

    function State(): OnceState
      reads this
    {
      OnceState(done, stored)
    }

    ghost predicate Valid()
      reads this
    {
      Reachable(State()) && (!done ==> effects == [])
    }

    constructor ()
      ensures Valid() && State() == Init && effects == []
    {
      done := false;
      stored := None;
      effects := [];
    }

    /** Client(address, namespace), main.go:76-119. */
    method Client(address: string, namespace: string, probe: Probe, dial: Dial)
      returns (client: Option<ContainerdClient>, err: Option<Error>)
      requires Valid()
      modifies this
      ensures Valid()
      ensures var r := ClientStep(old(State()), address, namespace, probe, dial);
              State() == r.state && client == r.client && err == r.err &&
              effects == old(effects) + r.effects
    {
      var retErr: Option<Error> := None;
      if !done {
        effects := effects + [ProbedSocket(address)];
        if probe.ProbeFailed? {
          retErr := Some(ProbeError(probe.err));
        } else {
          effects := effects + [Dialed(address, namespace)];
          if dial.DialFailed? {
            retErr := Some(dial.err);
          } else {
            stored := Some(NewClient(dial.conn));
          }
        }
        done := true;
      }
      client, err := stored, retErr;
    }
  }
}
