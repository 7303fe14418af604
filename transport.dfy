/** The `mdns` transport of src/index.ts as a state machine over values:
    the state its instance fields hold, the event log its emitter produces,
    the log of calls it makes on its UDP socket, and one transition function
    per constructor step, socket handler and public operation. The class in
    module MulticastDns is tied to these functions. */
module Transport {
  import opened Js
  import opened Packets
  import opened Calls

  datatype SocketType = Udp4 | Udp6

  /** The constructor's options record. `hasSocket` says whether a socket
      was supplied in `opts.socket`. */
  datatype Options = Options(
    port: Option<int>,
    socketType: Option<SocketType>,
    ip: Option<string>,
    host: Option<string>,
    iface: Option<string>,
    hasSocket: bool,
    reuseAddr: Option<bool>,
    multicast: Option<bool>,
    ttl: Option<int>,
    loopback: Option<bool>)

  const EmptyOptions: Options := Options(None, None, None, None, None, false, None, None, None, None)

  const DefaultPort: int := 5353
  const DefaultGroupV4: string := "224.0.0.251"
  const DefaultGroupV6: string := "FF02::FB"
  const DefaultTtl: int := 255

  /** The instance's own endpoint `me`; `address` is null for udp6 with neither ip nor host. */
  datatype Endpoint = Endpoint(address: Option<string>, port: int)

  /** What the socket handlers close over: the options and the local `ip`
      after the udp6 fallback, which is the group joined on `listening`. */
  datatype Setup = Setup(opts: Options, group: string)

  /** Events emitted by the instance. */
  datatype Event =
    | Ready
    | ErrorEvent(err: Failure)
    | WarningEvent(err: Failure)
    | QueryEvent(msg: Message, from: Peer)
    | ResponseEvent(msg: Message, from: Peer)

  /** Calls the instance makes on its socket, in order. */
  datatype SocketOp =
    | CreateSocket(socketType: SocketType, reuseAddr: bool)
    | Bind(port: int, iface: Option<string>)
    | AddMembership(group: string, iface: Option<string>)
    | SetMulticastTTL(ttl: int)
    | SetMulticastLoopback(on: bool)
    | SendDatagram(msg: Message, toPort: Value, toAddress: Value, callback: Value)
    | OnceClose(callback: Value)
    | Close

  /** The instance fields, the emitted events, the socket calls, and the
      callbacks handed to `process.nextTick`. */
  datatype State = State(
    port: int,
    me: Endpoint,
    destroyed: bool,
    messages: map<int, Message>,
    events: seq<Event>,
    ops: seq<SocketOp>,
    deferred: seq<Value>)

  // ---------------------------------------------------------------------
  // Configuration (src/index.ts:37-57)

  /** `opts.type || "udp4"`: the socket is udp6 only when udp6 was asked for. */
  function SocketTypeOf(opts: Options): (t: SocketType)
    ensures t == Udp6 <==> opts.socketType == Some(Udp6)
  {
    if opts.socketType.Some? then opts.socketType.value else Udp4
  }

  /** `opts.ip || opts.host || (type === "udp4" ? "224.0.0.251" : null)` */
  function AddressOf(opts: Options): (a: Option<string>)
    ensures Given(opts.ip) ==> a == opts.ip
    ensures !Given(opts.ip) && Given(opts.host) ==> a == opts.host
    ensures !Given(opts.ip) && !Given(opts.host) && SocketTypeOf(opts) == Udp4 ==> a == Some(DefaultGroupV4)
    ensures a.None? <==> SocketTypeOf(opts) == Udp6 && !Given(opts.ip) && !Given(opts.host)
    ensures a.Some? ==> Given(a)
  {
    if Given(opts.ip) then opts.ip
    else if Given(opts.host) then opts.host
    else if SocketTypeOf(opts) == Udp4 then Some(DefaultGroupV4)
    else assert SocketTypeOf(opts) == Udp6; None
  }

  /** The multicast group: the address, except that udp6 without an address
      or without an interface falls back to FF02::FB. */
  function GroupOf(opts: Options): (g: string)
    ensures g != ""
    ensures SocketTypeOf(opts) == Udp4 ==> AddressOf(opts) == Some(g)
    ensures SocketTypeOf(opts) == Udp6 && !Given(opts.iface) ==> g == DefaultGroupV6
    ensures SocketTypeOf(opts) == Udp6 && Given(opts.iface) && AddressOf(opts).Some? ==> AddressOf(opts) == Some(g)
    ensures AddressOf(opts) == Some(g) || g == DefaultGroupV6
  {
    var ip := AddressOf(opts);
    if SocketTypeOf(opts) == Udp6 && (!Given(ip) || !Given(opts.iface)) then DefaultGroupV6
    else ip.value
  }

  function SetupOf(opts: Options): Setup {
    Setup(opts, GroupOf(opts))
  }

  /** `opts.ttl || 255` */
  function TtlOf(opts: Options): (ttl: int)
    ensures ttl != 0
    ensures opts.ttl.Some? && opts.ttl.value != 0 ==> ttl == opts.ttl.value
    ensures opts.ttl.None? || opts.ttl.value == 0 ==> ttl == DefaultTtl
  {
    if opts.ttl.Some? && opts.ttl.value != 0 then opts.ttl.value else DefaultTtl
  }

  /** The state after the constructor: fields set, a socket created unless
      one was supplied, and bound to the port on `opts.interface`. */
  function Init(opts: Options): (s: State)
    ensures opts.port.Some? ==> s.port == opts.port.value
    ensures opts.port.None? ==> s.port == DefaultPort
    ensures s.me == Endpoint(AddressOf(opts), s.port)
    ensures !s.destroyed && s.messages == map[] && s.events == [] && s.deferred == []
    ensures s.ops == (if opts.hasSocket then [] else [CreateSocket(SocketTypeOf(opts), opts.reuseAddr != Some(false))])
                     + [Bind(s.port, opts.iface)]
    ensures !opts.hasSocket && opts.socketType.None? ==> s.ops[0] == CreateSocket(Udp4, opts.reuseAddr != Some(false))
    ensures Valid(s)
  {
    var port := if opts.port.Some? then opts.port.value else DefaultPort;
    var create := if opts.hasSocket then [] else [CreateSocket(SocketTypeOf(opts), opts.reuseAddr != Some(false))];
    var s := State(port, Endpoint(AddressOf(opts), port), false, map[], [], create + [Bind(port, opts.iface)], []);
    assert CloseCount(create + [Bind(port, opts.iface)]) == 0 by {
      CloseCountAppend(create, [Bind(port, opts.iface)]);
    }
    s
  }

  /** The constructor exactly as written: `this.opts` is the raw argument,
      so with no options record the bind reads `interface` of undefined and
      throws (None here) even though the local `opts` was defaulted. */
  function OpenAsWritten(opts: Option<Options>): (r: Option<State>)
    ensures opts.None? ==> r.None?
    ensures opts.Some? ==> r == Some(Init(opts.value))
  {
    if opts.None? then None else Some(Init(opts.value))
  }

  function OptionsOrEmpty(opts: Option<Options>): Options {
    if opts.Some? then opts.value else EmptyOptions
  }

  /** The constructor as its defaulting at line 37 intends: a missing
      options record behaves as `{}`. */
  function Open(opts: Option<Options>): (s: State)
    ensures opts.Some? ==> OpenAsWritten(opts) == Some(s)
    ensures opts.None? ==> s.port == DefaultPort && s.me == Endpoint(Some(DefaultGroupV4), DefaultPort)
                           && s.ops == [CreateSocket(Udp4, true), Bind(DefaultPort, None)]
    ensures Valid(s)
  {
    Init(OptionsOrEmpty(opts))
  }

  /** Calling the constructor with no options record: as written it throws,
      corrected it yields a usable instance on 224.0.0.251:5353. */
  lemma MissingOptionsFinding()
    ensures OpenAsWritten(None).None?
    ensures Open(None).me == Endpoint(Some(DefaultGroupV4), DefaultPort)
    ensures GroupOf(OptionsOrEmpty(None)) == DefaultGroupV4
  {
  }

  // ---------------------------------------------------------------------
  // The invariant

  function Lookup(m: map<int, Message>, id: int): Option<Message> {
    if id in m then Some(m[id]) else None
  }

  /** The most recent response event carrying a message with this id. */
  function LastResponse(events: seq<Event>, id: int): Option<Message> {
    if events == [] then None
    else
      var e := events[|events| - 1];
      if e.ResponseEvent? && e.msg.id == id then Some(e.msg)
      else LastResponse(events[..|events| - 1], id)
  }

  /** How many times the socket was closed. */
  function CloseCount(ops: seq<SocketOp>): nat {
    if ops == [] then 0
    else CloseCount(ops[..|ops| - 1]) + (if ops[|ops| - 1] == Close then 1 else 0)
  }

  lemma {:induction false} CloseCountAppend(ops: seq<SocketOp>, extra: seq<SocketOp>)
    ensures CloseCount(ops + extra) == CloseCount(ops) + CloseCount(extra)
    decreases |extra|
  {
    if extra != [] {
      var init := extra[..|extra| - 1];
      assert (ops + extra)[..|ops + extra| - 1] == ops + init;
      assert (ops + extra)[|ops + extra| - 1] == extra[|extra| - 1];
      CloseCountAppend(ops, init);
    } else {
      assert ops + extra == ops;
    }
  }

  lemma {:induction false} CloseCountWithoutClose(ops: seq<SocketOp>)
    requires forall i :: 0 <= i < |ops| ==> ops[i] != Close
    ensures CloseCount(ops) == 0
    decreases |ops|
  {
    if ops != [] {
      CloseCountWithoutClose(ops[..|ops| - 1]);
    }
  }

  lemma LastResponseAppend(events: seq<Event>, e: Event, id: int)
    ensures LastResponse(events + [e], id)
            == if e.ResponseEvent? && e.msg.id == id then Some(e.msg) else LastResponse(events, id)
  {
    assert (events + [e])[..|events|] == events;
  }

  /** What every reachable state satisfies: `me.port` tracks `port`, the
      address (when there is one) is non-empty, the socket has been closed
      at most once and only after the instance was destroyed, and
      `messages` maps each id to the last response received with that id,
      and nothing else. */
  ghost predicate Valid(s: State) {
    && s.me.port == s.port
    && (s.me.address.Some? ==> s.me.address.value != "")
    && CloseCount(s.ops) <= 1
    && (CloseCount(s.ops) == 1 ==> s.destroyed)
    && forall id :: Lookup(s.messages, id) == LastResponse(s.events, id)
  }

  // ---------------------------------------------------------------------
  // Socket handlers (src/index.ts:59-98) and the bind callback (100-102)

  /** EACCES and EADDRINUSE are fatal errors; every other socket error is a warning. */
  function Classify(err: Failure): (e: Event)
    ensures e == ErrorEvent(err) || e == WarningEvent(err)
    ensures e.ErrorEvent? <==> err.code == Some("EACCES") || err.code == Some("EADDRINUSE")
  {
    if err.code == Some("EACCES") || err.code == Some("EADDRINUSE") then ErrorEvent(err)
    else WarningEvent(err)
  }

  /** The socket's `error` handler: exactly one event is emitted, carrying
      the error, and it is fatal only for EACCES and EADDRINUSE. */
  function OnError(s: State, err: Failure): (t: State)
    ensures t.(events := s.events) == s
    ensures |t.events| == |s.events| + 1 && t.events[..|s.events|] == s.events
    ensures var e := t.events[|s.events|];
            && (e.ErrorEvent? || e.WarningEvent?) && e.err == err
            && (e.ErrorEvent? <==> err.code == Some("EACCES") || err.code == Some("EADDRINUSE"))
  {
    s.(events := s.events + [Classify(err)])
  }

  /** The socket's `message` handler, given what decoding the datagram gave. */
  function OnMessage(s: State, decoded: Decoded, from: Peer): (t: State)
    ensures t.(events := s.events, messages := s.messages) == s
    ensures decoded.Fail? ==> t.events == s.events + [WarningEvent(decoded.err)] && t.messages == s.messages
    ensures decoded.Ok? && decoded.msg.kind == QueryType ==>
              t.events == s.events + [QueryEvent(decoded.msg, from)] && t.messages == s.messages
    ensures decoded.Ok? && decoded.msg.kind == ResponseType ==>
              && t.events == s.events + [ResponseEvent(decoded.msg, from)]
              && t.messages.Keys == s.messages.Keys + {decoded.msg.id}
              && t.messages[decoded.msg.id] == decoded.msg
              && (forall k :: k in s.messages && k != decoded.msg.id ==> t.messages[k] == s.messages[k])
    ensures decoded.Ok? && decoded.msg.kind == OtherType ==> t == s
  {
    match decoded
    case Fail(err) => s.(events := s.events + [WarningEvent(err)])
    case Ok(msg) =>
      var s1 := if msg.kind == QueryType then s.(events := s.events + [QueryEvent(msg, from)]) else s;
      if msg.kind == ResponseType then
        s1.(messages := s1.messages[msg.id := msg], events := s1.events + [ResponseEvent(msg, from)])
      else s1
  }

  /** The socket's `listening` handler: adopt the bound port when the
      configured one is 0, then (unless `multicast` is false) join the group,
      reporting a failed join as an error, and set TTL and loopback. */
  function OnListening(setup: Setup, s: State, boundPort: int, joinFailure: Option<Failure>): (t: State)
    ensures s.port == 0 ==> t.port == boundPort && t.me == s.me.(port := boundPort)
    ensures s.port != 0 ==> t.port == s.port && t.me == s.me
    ensures t.destroyed == s.destroyed && t.messages == s.messages && t.deferred == s.deferred
    ensures setup.opts.multicast == Some(false) ==> t.ops == s.ops && t.events == s.events
    ensures setup.opts.multicast != Some(false) ==>
              && t.ops == s.ops + [AddMembership(setup.group, setup.opts.iface),
                                   SetMulticastTTL(TtlOf(setup.opts)),
                                   SetMulticastLoopback(setup.opts.loopback != Some(false))]
              && t.events == s.events + (if joinFailure.Some? then [ErrorEvent(joinFailure.value)] else [])
  {
    var s1 := if s.port == 0 then s.(port := boundPort, me := s.me.(port := boundPort)) else s;
    if setup.opts.multicast == Some(false) then s1
    else
      var s2 := s1.(ops := s1.ops + [AddMembership(setup.group, setup.opts.iface)]);
      var s3 := if joinFailure.Some? then s2.(events := s2.events + [ErrorEvent(joinFailure.value)]) else s2;
      s3.(ops := s3.ops + [SetMulticastTTL(TtlOf(setup.opts)), SetMulticastLoopback(setup.opts.loopback != Some(false))])
  }

  /** The bind callback: one `ready` event, and nothing else changes. */
  function OnBound(s: State): (t: State)
    ensures t.(events := s.events) == s
    ensures t.events == s.events + [Ready]
  {
    s.(events := s.events + [Ready])
  }

  // ---------------------------------------------------------------------
  // Public operations (src/index.ts:111-152)

  /** `me` as the object `{address, port}` that `send` falls back to. */
  function MeValue(me: Endpoint): (v: Value)
    ensures v.Obj?
  {
    Obj(map["address" := (if me.address.Some? then Str(me.address.value) else Null), "port" := Num(me.port)])
  }

  /** `me.address || me.host` as `send` computes it when sending to `me`. */
  function MeAddress(me: Endpoint): Value {
    if Given(me.address) then Str(me.address.value) else Undefined
  }

  /** `send`: encode the message and hand it to the socket for
      `rinfo.port` and `rinfo.address || rinfo.host`. There is no check of
      `destroyed`: a send after destroy still reaches the socket. */
  function Send(s: State, value: Message, rinfo: Value, cb: Value): (t: State)
    ensures t.(ops := s.ops) == s
    ensures |t.ops| == |s.ops| + 1 && t.ops[..|s.ops|] == s.ops
    ensures var op := t.ops[|s.ops|];
            && op.SendDatagram? && op.msg == value && Truthy(op.callback)
            && (IsFunction(rinfo) ==> op.callback == rinfo)
            && (!IsFunction(rinfo) && Truthy(cb) ==> op.callback == cb)
            && (!IsFunction(rinfo) && !Truthy(cb) ==> op.callback == NoopCallback)
            && (Truthy(rinfo) && !IsFunction(rinfo) ==>
                  op.toPort == Prop(rinfo, "port") && op.toAddress == Or(Prop(rinfo, "address"), Prop(rinfo, "host")))
            && (!Truthy(rinfo) || IsFunction(rinfo) ==>
                  op.toPort == Num(s.me.port) && op.toAddress == MeAddress(s.me))
  {
    var (destination, callback) := ResolveSendArgs(rinfo, cb, MeValue(s.me));
    s.(ops := s.ops + [SendDatagram(value, Prop(destination, "port"),
                                    Or(Prop(destination, "address"), Prop(destination, "host")), callback)])
  }

  /** `query`: resolve the optional arguments, build the query message with
      the id drawn from two random bytes, and send it. */
  function Query(s: State, q: QueryInput, qtype: Value, rinfo: Value, cb: Value, hi: Byte, lo: Byte): (t: State)
    ensures t.(ops := s.ops) == s
    ensures |t.ops| == |s.ops| + 1 && t.ops[..|s.ops|] == s.ops
    ensures var op := t.ops[|s.ops|];
            && op.SendDatagram? && op.msg.kind == QueryType
            && 0 <= op.msg.id < 0x1_0000 && op.msg.id == RandomId(hi, lo)
            && Truthy(op.callback)
  {
    var (recordType, destination, callback) := ResolveQueryArgs(qtype, rinfo, cb);
    Send(s, BuildQuery(q, recordType, RandomId(hi, lo)), destination, callback)
  }

  /** Whether `destroy(cb)` gets past handing its callback to the socket's
      `once("close", ...)` or to `process.nextTick`: both throw a TypeError
      on a truthy callback that is not a function (a missing one becomes
      the no-op first). */
  predicate AcceptsCallback(cb: Value) {
    IsFunction(Or(cb, NoopCallback))
  }

  /** `destroy`: the first call marks the instance destroyed, registers the
      callback for the socket's `close` event and closes the socket; any
      later call only defers the callback to the next tick. A truthy
      callback that is not a function makes the call throw at the
      registration: the first call then leaves the instance destroyed with
      the socket still open, and a later one defers nothing. */
  function Destroy(s: State, cb: Value): (t: State)
    ensures t.destroyed
    ensures t.port == s.port && t.me == s.me && t.messages == s.messages && t.events == s.events
    ensures AcceptsCallback(cb) && s.destroyed ==> t.ops == s.ops && t.deferred == s.deferred + [Or(cb, NoopCallback)]
    ensures AcceptsCallback(cb) && !s.destroyed ==> t.ops == s.ops + [OnceClose(Or(cb, NoopCallback)), Close] && t.deferred == s.deferred
    ensures !AcceptsCallback(cb) ==> t.ops == s.ops && t.deferred == s.deferred
    ensures CloseCount(t.ops) == CloseCount(s.ops) + (if !s.destroyed && AcceptsCallback(cb) then 1 else 0)
  {
    var callback := if !Truthy(cb) then NoopCallback else cb;
    if s.destroyed then
      if IsFunction(callback) then s.(deferred := s.deferred + [callback]) else s
    else if !IsFunction(callback) then s.(destroyed := true)
    else
      CloseCountAppend(s.ops, [OnceClose(callback), Close]);
      assert CloseCount([OnceClose(callback), Close]) == 1 by {
        var pair := [OnceClose(callback), Close];
        assert pair[..1] == [OnceClose(callback)] && pair[1] == Close;
        assert [OnceClose(callback)][..0] == [];
        assert CloseCount([OnceClose(callback)]) == 0;
      }
      s.(destroyed := true, ops := s.ops + [OnceClose(callback), Close])
  }
}
