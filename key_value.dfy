/**
 * The key-value store behind the Redis client: a map from key to value, with the
 * time-to-live a write gave the key recorded as data (expiry itself is the store's
 * business and is not modelled).
 */
module KeyValue {
  import opened Wrappers

  /** A time-to-live in seconds; Redis rejects non-positive expiry times. */
  type Seconds = x: int | x > 0 witness 1

  /** A stored value and the TTL its last write set (`None`: no expiry). */
  datatype Entry = Entry(value: string, ttl: Option<Seconds>)

  /** `GET key`: `None` when the key is absent. */
  function Get(kv: map<string, Entry>, key: string): (r: Option<string>)
    ensures r.Some? <==> key in kv
    ensures r.Some? ==> r.value == kv[key].value
  {
    if key in kv then Some(kv[key].value) else None
  }

  class KvStore {
    var data: map<string, Entry>

    constructor ()
      ensures data == map[]
    {
      data := map[];
    }

    /** `SET key value`: a plain SET also clears any earlier TTL. */
    method Set(key: string, value: string)
      modifies this
      ensures data == old(data)[key := Entry(value, None)]
    {
      data := data[key := Entry(value, None)];
    }

    /** `SETEX key ttl value`. */
    method SetEx(key: string, ttl: Seconds, value: string)
      modifies this
      ensures data == old(data)[key := Entry(value, Some(ttl))]
    {
      data := data[key := Entry(value, Some(ttl))];
    }

    /** `DEL key`: deleting an absent key is a no-op. */
    method Delete(key: string)
      modifies this
      ensures data == old(data) - {key}
    {
      data := data - {key};
    }
  }
}
