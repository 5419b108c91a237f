/**
 * The Redis key-value store that holds each job's durable progress. Keys are
 * namespaced as `<jobId>:<field>`. Every value the service writes is a
 * number. Redis keeps its decimal text, which is never empty, so a key that is
 * present reads as truthy.
 */
module Store {
  import opened Wrappers

  type Data = map<string, int>

  const MessagesSentField := "messages_sent"
  const ErrorsField := "errors"
  const LastUserIdField := "last_user_id"
  const CancelledField := "cancelled"
  const CompletedField := "completed"

  /** The key `${jobId}:${field}`. */
  function Key(jobId: string, field: string): (k: string)
    ensures |k| == |jobId| + 1 + |field|
    ensures k[..|jobId|] == jobId && k[|jobId| + 1..] == field
  {
    jobId + ":" + field
  }

  /** `await redis.get(key) || 0`: the stored number, or 0 when the key is absent. */
  function GetOrZero(data: Data, key: string): int {
    if key in data then data[key] else 0
  }

  /** `if (await redis.get(key))`: a present key is truthy. */
  predicate IsSet(data: Data, key: string) {
    key in data
  }

  /** The two maps agree on every key outside `keys`. */
  ghost predicate SameExcept(m: Data, m': Data, keys: set<string>) {
    forall k :: k !in keys ==> (k in m <==> k in m') && (k in m ==> m[k] == m'[k])
  }

  /** The two maps agree on `key`. */
  predicate SameAt(m: Data, m': Data, key: string) {
    (key in m <==> key in m') && (key in m ==> m[key] == m'[key])
  }

  /** One job's keys never collide: different fields give different keys. */
  lemma KeyFieldsDistinct(jobId: string, f: string, g: string)
    requires f != g
    ensures Key(jobId, f) != Key(jobId, g)
  {
    assert Key(jobId, f)[|jobId| + 1..] == f;
  }

  /** The same field of two different jobs gives different keys. */
  lemma KeyJobsDistinct(x: string, y: string, field: string)
    requires x != y
    ensures Key(x, field) != Key(y, field)
  {
    assert Key(x, field)[..|x|] == x;
  }

  /** The last characters of a key are the last characters of its field. */
  lemma KeyEndsWithField(jobId: string, field: string, n: nat)
    requires n <= |field|
    ensures Key(jobId, field)[|Key(jobId, field)| - n..] == field[|field| - n..]
  {
    var k := Key(jobId, field);
    assert k[|jobId| + 1..] == field;
    assert k[|k| - n..] == k[|jobId| + 1..][|field| - n..];
  }

  /**
   * A cancel flag never shares a key with a progress counter, whichever jobs
   * the two belong to. The cancel endpoint writes `${jobId}:cancelled` for any
   * requested id, and this write leaves every job's counters and cursor alone.
   */
  lemma CancelKeyIsNoCounterKey(x: string, y: string)
    ensures Key(x, CancelledField) != Key(y, MessagesSentField)
    ensures Key(x, CancelledField) != Key(y, ErrorsField)
    ensures Key(x, CancelledField) != Key(y, LastUserIdField)
    ensures Key(x, CancelledField) != Key(y, CompletedField)
  {
    KeyEndsWithField(x, CancelledField, 1);
    KeyEndsWithField(y, MessagesSentField, 1);
    KeyEndsWithField(y, ErrorsField, 1);
    KeyEndsWithField(x, CancelledField, 3);
    KeyEndsWithField(y, LastUserIdField, 3);
    KeyEndsWithField(y, CompletedField, 3);
    assert CancelledField[|CancelledField| - 1..] == "d";
    assert MessagesSentField[|MessagesSentField| - 1..] == "t";
    assert ErrorsField[|ErrorsField| - 1..] == "s";
    assert CancelledField[|CancelledField| - 3..] == "led";
    assert LastUserIdField[|LastUserIdField| - 3..] == "_id";
    assert CompletedField[|CompletedField| - 3..] == "ted";
  }

  /** The store as the service process sees it through its shared client. */
  class Redis {
    var data: Data

    constructor (initial: Data)
      ensures data == initial
    {
      data := initial;
    }

    /** `redis.get(key)`: the stored value, or nothing. */
    method Get(key: string) returns (v: Option<int>)
      ensures v.Some? <==> key in data
      ensures v.Some? ==> v.value == data[key]
    {
      v := if key in data then Some(data[key]) else None;
    }

    /** `redis.set(key, value)`. */
    method Set(key: string, value: int)
      modifies this
      ensures data == old(data)[key := value]
    {
      data := data[key := value];
    }
  }
}
