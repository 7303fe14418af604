/** How `send` and `query` make sense of their optional trailing arguments,
    and how `query` turns a name, a list of questions or a message object
    into the query message it sends (src/index.ts:111-144). */
module Calls {
  import opened Js
  import opened Packets

  /** The first argument of `query`. */
  datatype QueryInput =
    | Name(name: string)            // a bare domain name
    | Questions(list: seq<Question>) // an array of questions
    | Packet(msg: Message)          // a message-like object

  const NoopCallback: Value := Func(Noop)

  /** A value in the `type` slot of `query` that is taken as the destination:
      a non-null object with a truthy `port`. */
  predicate IsDestination(v: Value) {
    TypeOf(v) == "object" && Truthy(v) && Truthy(Prop(v, "port"))
  }

  /** `send`'s argument handling: a function in the `rinfo` slot is the
      callback (and the call is retried with `null` as `rinfo`), a missing
      callback becomes the no-op, a missing destination becomes `me`.
      Returns the destination and the callback. */
  function ResolveSendArgs(rinfo: Value, cb: Value, me: Value): (r: (Value, Value))
    requires me.Obj?
    ensures r.0 == (if Truthy(rinfo) && !IsFunction(rinfo) then rinfo else me)
    ensures r.1 == (if IsFunction(rinfo) then rinfo else if Truthy(cb) then cb else NoopCallback)
    ensures Truthy(r.0) && !IsFunction(r.0) && Truthy(r.1)
    decreases if IsFunction(rinfo) then 1 else 0
  {
    if IsFunction(rinfo) then ResolveSendArgs(Null, rinfo, me)
    else
      var callback := if !Truthy(cb) then NoopCallback else cb;
      var destination := if !Truthy(rinfo) then me else rinfo;
      (destination, callback)
  }

  /** How many more times `query` can re-dispatch itself on these slots. */
  function QueryRank(qtype: Value, rinfo: Value): nat {
    (if IsFunction(qtype) || IsDestination(qtype) then 2 else 0)
    + (if IsFunction(rinfo) then 1 else 0)
  }

  /** `query`'s argument handling, re-dispatching itself as the source does:
      a function in the `type` slot is the callback (no type, no
      destination); a destination object in the `type` slot moves to the
      `rinfo` slot and whatever was in the `rinfo` slot becomes the
      callback; a function in the `rinfo` slot is the callback; a missing
      callback becomes the no-op. Returns the record type, the destination
      and the callback. */
  function ResolveQueryArgs(qtype: Value, rinfo: Value, cb: Value): (r: (Value, Value, Value))
    ensures r == if IsFunction(qtype) then (Null, Null, qtype)
                 else if IsDestination(qtype) then (Null, qtype, if Truthy(rinfo) then rinfo else NoopCallback)
                 else if IsFunction(rinfo) then (qtype, Null, rinfo)
                 else (qtype, rinfo, if Truthy(cb) then cb else NoopCallback)
    ensures !IsFunction(r.0) && !IsDestination(r.0) && !IsFunction(r.1) && Truthy(r.2)
    decreases QueryRank(qtype, rinfo)
  {
    if IsFunction(qtype) then ResolveQueryArgs(Null, Null, qtype)
    else if IsDestination(qtype) then ResolveQueryArgs(Null, qtype, rinfo)
    else if IsFunction(rinfo) then ResolveQueryArgs(qtype, Null, rinfo)
    else (qtype, rinfo, if !Truthy(cb) then NoopCallback else cb)
  }

  /** Resolution is settled: resolving its own result again changes nothing,
      so `send` (which `query` hands the result to) sees no callback in its
      `rinfo` slot. */
  lemma ResolveQueryArgsSettled(qtype: Value, rinfo: Value, cb: Value)
    ensures var r := ResolveQueryArgs(qtype, rinfo, cb);
            ResolveQueryArgs(r.0, r.1, r.2) == r
  {
  }

  /** The query message: a name becomes one question of type `qtype || "ANY"`,
      an array becomes `{type: "query", questions}`, an object is used as it
      is; then `type` and `id` are overwritten. */
  function BuildQuery(q: QueryInput, qtype: Value, id: int): (m: Message)
    ensures m.kind == QueryType && m.id == id
    ensures q.Name? ==> m.questions == [Question(q.name, if Truthy(qtype) then qtype else Str("ANY"), Undefined)]
    ensures q.Questions? ==> m.questions == q.list
    ensures !q.Packet? ==> m.answers == [] && m.authorities == [] && m.additionals == []
    ensures q.Packet? ==> m.questions == q.msg.questions && m.answers == q.msg.answers
                          && m.authorities == q.msg.authorities && m.additionals == q.msg.additionals
  {
    var list := if q.Name? then Questions([Question(q.name, Or(qtype, Str("ANY")), Undefined)]) else q;
    var obj := if list.Questions? then Message(QueryType, 0, list.list, [], [], []) else list.msg;
    obj.(kind := QueryType, id := id)
  }
}
