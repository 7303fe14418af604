/** The call shapes exercised by tests/test.ts and the configuration cases
    of the constructor, stated over any valid state. */
module Scenarios {
  import opened Js
  import opened Packets
  import opened Calls
  import opened Transport

  /** `query(name)`: one question of type "ANY", sent to `me` with the no-op callback. */
  lemma QueryByNameAsksForAny(s: State, name: string, hi: Byte, lo: Byte)
    ensures Query(s, Name(name), Undefined, Undefined, Undefined, hi, lo).ops
            == s.ops + [SendDatagram(Message(QueryType, RandomId(hi, lo), [Question(name, Str("ANY"), Undefined)], [], [], []),
                                     Num(s.me.port), MeAddress(s.me), NoopCallback)]
  {
  }

  /** `query(name, cb)` as in the "works" test: the function in the type
      slot is the callback, the record type is still "ANY", and the query
      goes to `me`. */
  lemma QueryWithCallbackInTypeSlot(s: State, name: string, f: Fn, junk: Value, hi: Byte, lo: Byte)
    ensures Query(s, Name(name), Func(f), junk, junk, hi, lo).ops
            == s.ops + [SendDatagram(Message(QueryType, RandomId(hi, lo), [Question(name, Str("ANY"), Undefined)], [], [], []),
                                     Num(s.me.port), MeAddress(s.me), Func(f))]
  {
  }

  /** `query(name, "A")` and the other typed tests: the given record type is used. */
  lemma QueryByNameWithType(s: State, name: string, rtype: string, hi: Byte, lo: Byte)
    requires rtype != ""
    ensures var op := Query(s, Name(name), Str(rtype), Undefined, Undefined, hi, lo).ops[|s.ops|];
            op.msg.questions == [Question(name, Str(rtype), Undefined)]
  {
  }

  /** `query([q1, q2, ...])`: the questions go out exactly as given, in
      order, classes included (the unicast-response bit is the codec's). */
  lemma QueryListKeepsQuestions(s: State, list: seq<Question>, hi: Byte, lo: Byte)
    ensures var op := Query(s, Questions(list), Undefined, Undefined, Undefined, hi, lo).ops[|s.ops|];
            op.msg == Message(QueryType, RandomId(hi, lo), list, [], [], [])
  {
  }

  /** `query(q, {port, address}, cb)`: an object with a truthy port in the
      type slot is the destination and the next argument the callback. */
  lemma QueryToDestinationInTypeSlot(s: State, q: QueryInput, fields: map<string, Value>, cb: Value, junk: Value, hi: Byte, lo: Byte)
    requires "port" in fields && Truthy(fields["port"])
    ensures var op := Query(s, q, Obj(fields), cb, junk, hi, lo).ops[|s.ops|];
            && op.toPort == fields["port"]
            && op.toAddress == Or(Prop(Obj(fields), "address"), Prop(Obj(fields), "host"))
            && op.callback == Or(cb, NoopCallback)
            && (q.Name? ==> op.msg.questions == [Question(q.name, Str("ANY"), Undefined)])
  {
  }

  /** Destroying twice with function (or missing) callbacks: one close, and
      the second callback only deferred. */
  lemma DestroyTwiceClosesOnce(s: State, cb1: Value, cb2: Value)
    requires Valid(s) && !s.destroyed && AcceptsCallback(cb1) && AcceptsCallback(cb2)
    ensures var t := Destroy(Destroy(s, cb1), cb2);
            && t.destroyed
            && t.ops == s.ops + [OnceClose(Or(cb1, NoopCallback)), Close]
            && t.deferred == s.deferred + [Or(cb2, NoopCallback)]
            && CloseCount(t.ops) == 1
  {
  }

  /** `destroy("x")`: registering a string as the close listener throws,
      so the instance is left destroyed with its socket open, and a second
      call throws at `process.nextTick` without deferring anything. */
  lemma DestroyWithNonFunctionCallback(s: State, cb1: Value, cb2: Value)
    requires Valid(s) && !s.destroyed
    requires Truthy(cb1) && !IsFunction(cb1)
    ensures var t := Destroy(s, cb1);
            && t.destroyed && t.ops == s.ops && CloseCount(t.ops) == 0
            && Destroy(t, cb2).ops == s.ops
            && (!AcceptsCallback(cb2) ==> Destroy(t, cb2) == t)
  {
  }

  /** `send` has no guard on `destroyed`: after destroy a datagram still
      goes to the socket. */
  lemma SendAfterDestroyReachesSocket(s: State, value: Message, rinfo: Value, cb: Value)
    requires s.destroyed
    ensures var t := Send(s, value, rinfo, cb);
            t.destroyed && t.ops[|s.ops|].SendDatagram? && t.ops[|s.ops|].msg == value
  {
  }

  /** udp6 with an ip but no interface: the group joined becomes FF02::FB
      while `me.address` keeps the ip, so queries are still sent to the ip. */
  lemma Udp6FallbackOnlyChangesGroup(opts: Options)
    requires opts.socketType == Some(Udp6) && Given(opts.ip) && !Given(opts.iface)
    ensures SetupOf(opts).group == DefaultGroupV6
    ensures Init(opts).me.address == opts.ip
  {
  }

  /** udp6 with neither ip nor host: `me.address` is null, the group is FF02::FB,
      and a query sent to `me` has no address. */
  lemma Udp6WithoutAddress(opts: Options, name: string, hi: Byte, lo: Byte)
    requires opts.socketType == Some(Udp6) && !Given(opts.ip) && !Given(opts.host)
    ensures Init(opts).me.address.None?
    ensures SetupOf(opts).group == DefaultGroupV6
    ensures Query(Init(opts), Name(name), Undefined, Undefined, Undefined, hi, lo).ops[|Init(opts).ops|].toAddress == Undefined
  {
  }

  /** Port 0 is kept as given (it asks for an ephemeral port), and the
      port the socket reports on `listening` is adopted by both `port` and
      `me.port`. */
  lemma EphemeralPortAdopted(opts: Options, boundPort: int, joinFailure: Option<Failure>)
    requires opts.port == Some(0)
    ensures Init(opts).port == 0
    ensures var t := OnListening(SetupOf(opts), Init(opts), boundPort, joinFailure);
            t.port == boundPort && t.me.port == boundPort
  {
  }

  /** A failed multicast join is reported as an error, never as a warning,
      and TTL and loopback are still set; a TTL of 0 becomes 255. */
  lemma FailedJoinIsAnError(setup: Setup, s: State, boundPort: int, f: Failure)
    requires setup.opts.multicast != Some(false) && setup.opts.ttl == Some(0)
    ensures var t := OnListening(setup, s, boundPort, Some(f));
            && t.events == s.events + [ErrorEvent(f)]
            && t.ops[|s.ops| + 1] == SetMulticastTTL(DefaultTtl)
            && t.ops[|s.ops| + 2] == SetMulticastLoopback(setup.opts.loopback != Some(false))
  {
  }
}
