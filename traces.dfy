/** Arbitrary interleavings of socket events and public calls on one
    instance, and the facts that hold after any of them: the socket is
    closed at most once, and only after the instance was destroyed; it is
    closed exactly when destroyed if every `destroy` callback is a function
    or missing; `destroyed` never reverts, the logs only grow, and `messages` is always
    the last response seen per id. */
module Traces {
  import opened Js
  import opened Packets
  import opened Calls
  import opened Transport

  /** Everything that can happen to an instance after construction. */
  datatype Input =
    | SocketError(err: Failure)
    | Datagram(decoded: Decoded, from: Peer)
    | Listening(boundPort: int, joinFailure: Option<Failure>)
    | Bound
    | SendCall(value: Message, rinfo: Value, cb: Value)
    | QueryCall(q: QueryInput, qtype: Value, rinfo: Value, cb: Value, hi: Byte, lo: Byte)
    | DestroyCall(cb: Value)

  function Step(setup: Setup, s: State, input: Input): State {
    match input
    case SocketError(err) => OnError(s, err)
    case Datagram(decoded, from) => OnMessage(s, decoded, from)
    case Listening(boundPort, joinFailure) => OnListening(setup, s, boundPort, joinFailure)
    case Bound => OnBound(s)
    case SendCall(value, rinfo, cb) => Send(s, value, rinfo, cb)
    case QueryCall(q, qtype, rinfo, cb, hi, lo) => Transport.Query(s, q, qtype, rinfo, cb, hi, lo)
    case DestroyCall(cb) => Destroy(s, cb)
  }

  function Run(setup: Setup, s: State, inputs: seq<Input>): State
    decreases |inputs|
  {
    if inputs == [] then s else Run(setup, Step(setup, s, inputs[0]), inputs[1..])
  }

  /** Nothing is ever taken back: events, socket calls and deferred
      callbacks are only appended, `destroyed` stays set, and no id leaves
      `messages`. */
  ghost predicate Grows(s: State, t: State) {
    && s.events <= t.events
    && s.ops <= t.ops
    && s.deferred <= t.deferred
    && (s.destroyed ==> t.destroyed)
    && s.messages.Keys <= t.messages.Keys
  }

  /** Appending one event that is not a response leaves the invariant's
      view of `messages` intact. */
  lemma QuietEventKeepsResponses(s: State, e: Event)
    requires Valid(s) && !e.ResponseEvent?
    ensures forall id :: Lookup(s.messages, id) == LastResponse(s.events + [e], id)
  {
    forall id ensures Lookup(s.messages, id) == LastResponse(s.events + [e], id) {
      LastResponseAppend(s.events, e, id);
    }
  }

  /** A state whose only change is one more socket call that is not a close
      is still valid. */
  lemma OneMoreOpKeepsValid(s: State, t: State)
    requires Valid(s)
    requires |t.ops| == |s.ops| + 1 && t.ops[..|s.ops|] == s.ops && t.ops[|s.ops|] != Close
    requires t.(ops := s.ops) == s
    ensures Valid(t) && CloseCount(t.ops) == CloseCount(s.ops)
  {
    assert t.ops == s.ops + [t.ops[|s.ops|]];
    CloseCountAppend(s.ops, [t.ops[|s.ops|]]);
    assert CloseCount([t.ops[|s.ops|]]) == 0 by {
      assert [t.ops[|s.ops|]][..0] == [];
    }
  }

  lemma ResponseKeepsValid(s: State, msg: Message, from: Peer)
    requires Valid(s) && msg.kind == ResponseType
    ensures Valid(OnMessage(s, Ok(msg), from))
  {
    var t := OnMessage(s, Ok(msg), from);
    forall id ensures Lookup(t.messages, id) == LastResponse(t.events, id) {
      LastResponseAppend(s.events, ResponseEvent(msg, from), id);
    }
  }

  lemma ListeningKeepsValid(setup: Setup, s: State, boundPort: int, joinFailure: Option<Failure>)
    requires Valid(s)
    ensures Valid(OnListening(setup, s, boundPort, joinFailure))
    ensures CloseCount(OnListening(setup, s, boundPort, joinFailure).ops) == CloseCount(s.ops)
  {
    var t := OnListening(setup, s, boundPort, joinFailure);
    if setup.opts.multicast != Some(false) {
      var extra := [AddMembership(setup.group, setup.opts.iface),
                    SetMulticastTTL(TtlOf(setup.opts)),
                    SetMulticastLoopback(setup.opts.loopback != Some(false))];
      CloseCountAppend(s.ops, extra);
      CloseCountWithoutClose(extra);
      if joinFailure.Some? {
        QuietEventKeepsResponses(s, ErrorEvent(joinFailure.value));
      } else {
        assert t.events == s.events;
      }
    }
  }

  lemma {:induction false} StepPreservesValid(setup: Setup, s: State, input: Input)
    requires Valid(s)
    ensures Valid(Step(setup, s, input)) && Grows(s, Step(setup, s, input))
    ensures CloseCount(Step(setup, s, input).ops)
            == CloseCount(s.ops) + (if input.DestroyCall? && !s.destroyed && AcceptsCallback(input.cb) then 1 else 0)
  {
    var t := Step(setup, s, input);
    match input
    case SocketError(err) =>
      QuietEventKeepsResponses(s, Classify(err));
    case Datagram(decoded, from) =>
      match decoded {
        case Fail(err) =>
          QuietEventKeepsResponses(s, WarningEvent(err));
        case Ok(msg) =>
          if msg.kind == QueryType {
            QuietEventKeepsResponses(s, QueryEvent(msg, from));
          } else if msg.kind == ResponseType {
            ResponseKeepsValid(s, msg, from);
          }
      }
    case Listening(boundPort, joinFailure) =>
      ListeningKeepsValid(setup, s, boundPort, joinFailure);
    case Bound =>
      QuietEventKeepsResponses(s, Ready);
    case SendCall(value, rinfo, cb) =>
      OneMoreOpKeepsValid(s, t);
    case QueryCall(q, qtype, rinfo, cb, hi, lo) =>
      OneMoreOpKeepsValid(s, t);
    case DestroyCall(cb) =>
  }

  /** Every state reached from a valid one is valid and has only grown. */
  lemma {:induction false} RunPreservesValid(setup: Setup, s: State, inputs: seq<Input>)
    requires Valid(s)
    ensures Valid(Run(setup, s, inputs)) && Grows(s, Run(setup, s, inputs))
    decreases |inputs|
  {
    if inputs != [] {
      var s1 := Step(setup, s, inputs[0]);
      StepPreservesValid(setup, s, inputs[0]);
      RunPreservesValid(setup, s1, inputs[1..]);
    }
  }

  /** Whatever happens after construction, the socket has been closed at
      most once, and only after the instance was destroyed. */
  lemma ClosesAtMostOnce(opts: Options, inputs: seq<Input>)
    ensures var t := Run(SetupOf(opts), Init(opts), inputs);
            CloseCount(t.ops) <= 1 && (CloseCount(t.ops) == 1 ==> t.destroyed)
  {
    RunPreservesValid(SetupOf(opts), Init(opts), inputs);
  }

  /** Every `destroy` call among the inputs passes a function or nothing. */
  predicate CallbacksAccepted(inputs: seq<Input>) {
    forall i :: 0 <= i < |inputs| && inputs[i].DestroyCall? ==> AcceptsCallback(inputs[i].cb)
  }

  lemma {:induction false} RunClosesWhenDestroyed(setup: Setup, s: State, inputs: seq<Input>)
    requires Valid(s) && (s.destroyed ==> CloseCount(s.ops) == 1)
    requires CallbacksAccepted(inputs)
    ensures var t := Run(setup, s, inputs);
            CloseCount(t.ops) == 1 <==> t.destroyed
    decreases |inputs|
  {
    if inputs != [] {
      StepPreservesValid(setup, s, inputs[0]);
      assert CallbacksAccepted(inputs[1..]) by {
        forall i | 0 <= i < |inputs[1..]| && inputs[1..][i].DestroyCall?
          ensures AcceptsCallback(inputs[1..][i].cb)
        {
          assert inputs[1..][i] == inputs[i + 1];
        }
      }
      RunClosesWhenDestroyed(setup, Step(setup, s, inputs[0]), inputs[1..]);
    }
  }

  /** When every `destroy` callback is a function or missing, the socket has
      been closed once exactly when the instance is destroyed. */
  lemma ClosesExactlyWhenDestroyed(opts: Options, inputs: seq<Input>)
    requires CallbacksAccepted(inputs)
    ensures var t := Run(SetupOf(opts), Init(opts), inputs);
            CloseCount(t.ops) == 1 <==> t.destroyed
  {
    RunClosesWhenDestroyed(SetupOf(opts), Init(opts), inputs);
  }

  /** After any sequence of events and calls, `messages` holds for each id
      exactly the last response received with that id. */
  lemma MessagesAreLatestResponses(opts: Options, inputs: seq<Input>, id: int)
    ensures var t := Run(SetupOf(opts), Init(opts), inputs);
            && (id in t.messages <==> LastResponse(t.events, id).Some?)
            && (id in t.messages ==> t.messages[id] == LastResponse(t.events, id).value)
  {
    RunPreservesValid(SetupOf(opts), Init(opts), inputs);
    var t := Run(SetupOf(opts), Init(opts), inputs);
    assert Lookup(t.messages, id) == LastResponse(t.events, id);
  }

  /** Once destroyed, an instance stays destroyed, and later events and
      calls only append to what was already logged. */
  lemma {:induction false} DestroyedIsPermanent(setup: Setup, s: State, inputs: seq<Input>)
    requires Valid(s) && s.destroyed
    ensures var t := Run(setup, s, inputs);
            t.destroyed && s.events <= t.events && s.ops <= t.ops && CloseCount(t.ops) == CloseCount(s.ops)
    decreases |inputs|
  {
    if inputs != [] {
      StepPreservesValid(setup, s, inputs[0]);
      DestroyedIsPermanent(setup, Step(setup, s, inputs[0]), inputs[1..]);
    }
  }

  /** `me.port` and `port` agree in every reachable state, including after
      an ephemeral port was adopted on `listening`. */
  lemma MeTracksPort(opts: Options, inputs: seq<Input>)
    ensures var t := Run(SetupOf(opts), Init(opts), inputs);
            t.me.port == t.port
  {
    RunPreservesValid(SetupOf(opts), Init(opts), inputs);
  }
}
