/** The reference key/value state machine as a value (pkg/kvsm/kvsm.go). */
module KvSpec {
  import opened Types

  datatype Op = Set(key: string, value: Bytes) | Del(key: string) | Unknown(kind: string)

  /** The JSON decoder of the op envelope: None is a decode failure. */
  type Decoder = Bytes -> Option<Op>

  datatype Kv = Kv(m: map<string, Bytes>, lastIndex: nat)

  const EMPTY: Kv := Kv(map[], 0)

  /** Apply: a malformed envelope changes nothing, not even lastIndex. */
  function Apply(decode: Decoder, kv: Kv, e: Entry): Kv {
    match decode(e.data)
    case None => kv
    case Some(Set(k, v)) => Kv(kv.m[k := v], e.index)
    case Some(Del(k)) => Kv(kv.m - {k}, e.index)
    case Some(Unknown(_)) => kv.(lastIndex := e.index)
  }

  /** The state after applying a log from empty. */
  function Fold(decode: Decoder, log: seq<Entry>): Kv {
    if |log| == 0 then EMPTY
    else Apply(decode, Fold(decode, log[..|log| - 1]), log[|log| - 1])
  }

  /** What a reader expects of a key after a log: the value of the last entry that
      set it, unless a later entry deleted it. */
  function LastWrite(decode: Decoder, log: seq<Entry>, key: string): Option<Bytes> {
    if |log| == 0 then None
    else
      match decode(log[|log| - 1].data)
      case Some(Set(k, v)) => if k == key then Some(v) else LastWrite(decode, log[..|log| - 1], key)
      case Some(Del(k)) => if k == key then None else LastWrite(decode, log[..|log| - 1], key)
      case _ => LastWrite(decode, log[..|log| - 1], key)
  }

  /** Replaying a log gives every key its last write, and lastIndex the index of the
      last entry that decodes. */
  lemma {:induction false} FoldIsLastWrite(decode: Decoder, log: seq<Entry>, key: string)
    ensures var kv := Fold(decode, log); (if key in kv.m then Some(kv.m[key]) else None) == LastWrite(decode, log, key)
    ensures Fold(decode, log).lastIndex == LastDecodable(decode, log)
    decreases |log|
  {
    if |log| > 0 { FoldIsLastWrite(decode, log[..|log| - 1], key); }
  }

  function LastDecodable(decode: Decoder, log: seq<Entry>): nat {
    if |log| == 0 then 0
    else if decode(log[|log| - 1].data).Some? then log[|log| - 1].index
    else LastDecodable(decode, log[..|log| - 1])
  }
}
