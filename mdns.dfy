/** The `mdns` class of src/index.ts. Its fields are updated in place by the
    socket handlers and the public operations; the emitter's events and the
    calls made on the socket are logged in two append-only fields, and the
    callbacks given to `process.nextTick` in a third. Every method keeps
    `Valid()` and leaves the instance in exactly the state the matching
    function of module Transport computes from the old one. */
module MulticastDns {
  import opened Js
  import opened Packets
  import opened Calls
  import opened Transport
  import Traces

  class Mdns {
    var port: int
    var me: Endpoint
    var destroyed: bool
    var messages: map<int, Message>
    var events: seq<Event>
    var ops: seq<SocketOp>
    var deferred: seq<Value>

    /** The options and the group address the socket handlers close over. */
    const setup: Setup
    /** The packet codec's decoder, which is not part of this model. */
    const decode: seq<Byte> -> Decoded

    function Snapshot(): State
      reads this
    {
      State(port, me, destroyed, messages, events, ops, deferred)
    }

    ghost predicate Valid()
      reads this
    {
      Transport.Valid(Snapshot())
    }

    /** The constructor, with a missing options record treated as `{}`. */
    constructor (opts: Option<Options>, decode: seq<Byte> -> Decoded)
      ensures Valid()
      ensures Snapshot() == Open(opts)
      ensures setup == SetupOf(OptionsOrEmpty(opts)) && this.decode == decode
    {
      var o := if opts.None? then EmptyOptions else opts.value;
      port := if o.port.Some? then o.port.value else DefaultPort;
      me := Endpoint(AddressOf(o), port);
      destroyed := false;
      messages := map[];
      events := [];
      deferred := [];
      setup := SetupOf(o);
      this.decode := decode;
      ops := if o.hasSocket then [] else [CreateSocket(SocketTypeOf(o), o.reuseAddr != Some(false))];
      ops := ops + [Bind(port, o.iface)];
      new;
      assert Snapshot() == Open(opts);
    }

    /** The socket's `error` handler. */
    method OnSocketError(err: Failure)
      requires Valid()
      modifies this
      ensures Valid()
      ensures Snapshot() == OnError(old(Snapshot()), err)
    {
      if err.code == Some("EACCES") || err.code == Some("EADDRINUSE") {
        events := events + [ErrorEvent(err)];
      } else {
        events := events + [WarningEvent(err)];
      }
      Traces.StepPreservesValid(setup, old(Snapshot()), Traces.SocketError(err));
    }

    /** The socket's `message` handler. */
    method OnDatagram(datagram: seq<Byte>, from: Peer)
      requires Valid()
      modifies this
      ensures Valid()
      ensures Snapshot() == OnMessage(old(Snapshot()), decode(datagram), from)
    {
      var decoded := decode(datagram);
      match decoded {
        case Fail(err) =>
          events := events + [WarningEvent(err)];
        case Ok(message) =>
          if message.kind == QueryType {
            events := events + [QueryEvent(message, from)];
          }
          if message.kind == ResponseType {
            messages := messages[message.id := message];
            events := events + [ResponseEvent(message, from)];
          }
      }
      Traces.StepPreservesValid(setup, old(Snapshot()), Traces.Datagram(decoded, from));
    }

    /** The socket's `listening` handler; `boundPort` is the port the socket
        reports it is bound to, `joinFailure` what `addMembership` threw. */
    method OnListening(boundPort: int, joinFailure: Option<Failure>)
      requires Valid()
      modifies this
      ensures Valid()
      ensures Snapshot() == Transport.OnListening(setup, old(Snapshot()), boundPort, joinFailure)
    {
      if port == 0 {
        port := boundPort;
        me := me.(port := boundPort);
      }
      if setup.opts.multicast != Some(false) {
        ops := ops + [AddMembership(setup.group, setup.opts.iface)];
        if joinFailure.Some? {
          events := events + [ErrorEvent(joinFailure.value)];
        }
        ops := ops + [SetMulticastTTL(TtlOf(setup.opts))];
        ops := ops + [SetMulticastLoopback(setup.opts.loopback != Some(false))];
      }
      assert Snapshot() == Traces.Step(setup, old(Snapshot()), Traces.Listening(boundPort, joinFailure));
      Traces.StepPreservesValid(setup, old(Snapshot()), Traces.Listening(boundPort, joinFailure));
    }

    /** The bind callback. */
    method OnBindComplete()
      requires Valid()
      modifies this
      ensures Valid()
      ensures Snapshot() == OnBound(old(Snapshot()))
    {
      events := events + [Ready];
      Traces.StepPreservesValid(setup, old(Snapshot()), Traces.Bound);
    }

    /** `send(value, rinfo, cb)`. */
    method Send(value: Message, rinfo: Value, cb: Value)
      requires Valid()
      modifies this
      ensures Valid()
      ensures Snapshot() == Transport.Send(old(Snapshot()), value, rinfo, cb)
    {
      var (destination, callback) := ResolveSendArgs(rinfo, cb, MeValue(me));
      var toPort := Prop(destination, "port");
      var toAddress := Or(Prop(destination, "address"), Prop(destination, "host"));
      ops := ops + [SendDatagram(value, toPort, toAddress, callback)];
      assert Snapshot() == Traces.Step(setup, old(Snapshot()), Traces.SendCall(value, rinfo, cb));
      Traces.StepPreservesValid(setup, old(Snapshot()), Traces.SendCall(value, rinfo, cb));
    }

    /** `query(q, type, rinfo, cb)`; `hi` and `lo` are the two random bytes
        the id is read from. */
    method Query(q: QueryInput, qtype: Value, rinfo: Value, cb: Value, hi: Byte, lo: Byte)
      requires Valid()
      modifies this
      ensures Valid()
      ensures Snapshot() == Transport.Query(old(Snapshot()), q, qtype, rinfo, cb, hi, lo)
    {
      var (recordType, destination, callback) := ResolveQueryArgs(qtype, rinfo, cb);
      var message := BuildQuery(q, recordType, RandomId(hi, lo));
      Send(message, destination, callback);
    }

    /** `destroy(cb)`. `accepted` is false when the call throws because the
        callback is truthy but not a function; the fields then keep what the
        source had set before the throw. */
    method Destroy(cb: Value) returns (accepted: bool)
      requires Valid()
      modifies this
      ensures Valid()
      ensures accepted <==> AcceptsCallback(cb)
      ensures Snapshot() == Transport.Destroy(old(Snapshot()), cb)
    {
      var callback := if !Truthy(cb) then NoopCallback else cb;
      accepted := IsFunction(callback);
      if destroyed {
        if accepted {
          deferred := deferred + [callback];
        }
      } else {
        destroyed := true;
        if accepted {
          ops := ops + [OnceClose(callback)];
          ops := ops + [Close];
        }
      }
      assert Snapshot() == Traces.Step(setup, old(Snapshot()), Traces.DestroyCall(cb));
      Traces.StepPreservesValid(setup, old(Snapshot()), Traces.DestroyCall(cb));
    }
  }
}
