/** DNS messages as the transport sees them. Their wire encoding belongs to
    the packet codec, which is outside this model: the transport only reads
    a message's type and id and passes everything else through. */
module Packets {
  import opened Js

  /** The `type` field of a message: "query", "response", or anything else
      (including absent) on a caller-built object. */
  datatype Kind = QueryType | ResponseType | OtherType

  /** A question. `qtype` and `qclass` are whatever the caller put there
      (`qclass` is `Undefined` when absent); the codec interprets them. */
  datatype Question = Question(name: string, qtype: Value, qclass: Value)

  /** An octet of a datagram or of a random buffer. */
  type Byte = b: int | 0 <= b < 256

  /** A resource record, carried through untouched. Its `data` is whatever
      the record type calls for: an address string, an object such as an
      SRV target, or a buffer of TXT bytes. */
  datatype Record = Record(name: string, rtype: string, ttl: int, data: Value, flush: bool)

  datatype Message = Message(
    kind: Kind,
    id: int,
    questions: seq<Question>,
    answers: seq<Record>,
    authorities: seq<Record>,
    additionals: seq<Record>)

  /** A Node.js error: an optional `code` such as "EADDRINUSE" and a message. */
  datatype Failure = Failure(code: Option<string>, message: string)

  /** What decoding a datagram yields: a message, or the error the codec threw. */
  datatype Decoded = Ok(msg: Message) | Fail(err: Failure)

  /** The sender of an inbound datagram. */
  datatype Peer = Peer(address: string, port: int)

  /** A message id read big-endian from two random bytes. */
  function RandomId(hi: Byte, lo: Byte): (id: int)
    ensures 0 <= id < 0x1_0000
    ensures id / 256 == hi && id % 256 == lo
  {
    hi * 256 + lo
  }

  /** Every 16-bit id is drawn by exactly one pair of bytes, so uniform
      random bytes give a uniform id. */
  lemma RandomIdCoversEveryId(id: int)
    requires 0 <= id < 0x1_0000
    ensures exists hi: Byte, lo: Byte :: RandomId(hi, lo) == id
  {
    var hi: Byte, lo: Byte := id / 256, id % 256;
    assert RandomId(hi, lo) == id;
  }

  lemma RandomIdInjective(hi1: Byte, lo1: Byte, hi2: Byte, lo2: Byte)
    requires RandomId(hi1, lo1) == RandomId(hi2, lo2)
    ensures hi1 == hi2 && lo1 == lo2
  {
    var id := RandomId(hi1, lo1);
    assert hi1 == id / 256 == hi2;
    assert lo1 == id % 256 == lo2;
  }
}
