/**
 * The key-value store the session storage talks to (a Redis server seen
 * through its client), reduced to the four commands the core issues:
 * GET, SET with EX, DEL and TTL. There is no clock: a key whose time to live
 * has run out is simply absent.
 *
 * A command can fail on the client side (a dropped connection, a cluster node
 * that cannot be reached). Such failures are part of the state: `failing`
 * names the keys whose commands are answered with an error, and a failed
 * command changes nothing.
 */
module KeyValueStore {
  import opened Fp
  import opened Errors

  /** Redis refuses `SET ... EX n` unless `n` is positive. */
  const InvalidExpireTime := "ERR invalid expire time in 'set' command"

  class RedisClient {
    /** the string held under each key */
    var values: map<string, string>
    /** the remaining seconds to live of each key that has an expiry */
    var expires: map<string, nat>
    /** the keys whose commands fail, with the error message the client reports */
    var failing: map<string, string>

    /** Only a key that exists can have an expiry. */
    ghost predicate Valid()
      reads this
    {
      expires.Keys <= values.Keys
    }

    constructor (values: map<string, string>, expires: map<string, nat>, failing: map<string, string>)
      requires expires.Keys <= values.Keys
      ensures Valid()
      ensures this.values == values && this.expires == expires && this.failing == failing
    {
      this.values := values;
      this.expires := expires;
      this.failing := failing;
    }

    /**
     * What TTL answers for a key the client can reach: -2 when the key does
     * not exist, -1 when it exists without an expiry, otherwise its remaining
     * seconds.
     */
    function Remaining(key: string): (ttl: int)
      reads this
      requires Valid()
      ensures ttl == -2 <==> key !in values
      ensures ttl == -1 <==> key in values && key !in expires
      ensures ttl >= 0 <==> key in expires
      ensures ttl >= 0 ==> ttl == expires[key]
    {
      if key !in values then -2 else if key !in expires then -1 else expires[key]
    }

    /** GET: the error the client reports, or the value held (none for a missing key). */
    method Get(key: string) returns (err: Option<Error>, value: Option<string>)
      ensures key in failing ==> err == Some(ClientError(failing[key])) && value == None
      ensures key !in failing ==> err == None
      ensures key !in failing && key !in values ==> value == None
      ensures key !in failing && key in values ==> value == Some(values[key])
    {
      if key in failing {
        return Some(ClientError(failing[key])), None;
      }
      err := None;
      value := if key in values then Some(values[key]) else None;
    }

    /** SET key value EX seconds: replaces the value and the expiry of `key`, answering "OK". */
    method Set(key: string, value: string, seconds: int) returns (err: Option<Error>, reply: Option<string>)
      requires Valid()
      modifies this
      ensures Valid() && failing == old(failing)
      ensures key in failing ==> err == Some(ClientError(failing[key]))
      ensures key !in failing && seconds <= 0 ==> err == Some(ClientError(InvalidExpireTime))
      ensures err.Some? ==> reply == None && values == old(values) && expires == old(expires)
      ensures key !in failing && seconds > 0 ==>
        && err == None && reply == Some("OK")
        && values == old(values)[key := value]
        && expires == old(expires)[key := seconds]
    {
      if key in failing {
        return Some(ClientError(failing[key])), None;
      }
      if seconds <= 0 {
        return Some(ClientError(InvalidExpireTime)), None;
      }
      values := values[key := value];
      expires := expires[key := seconds];
      err, reply := None, Some("OK");
    }

    /** DEL: removes `key` and its expiry, answering how many keys went away. */
    method Del(key: string) returns (err: Option<Error>, removed: nat)
      requires Valid()
      modifies this
      ensures Valid() && failing == old(failing)
      ensures key in failing ==>
        err == Some(ClientError(failing[key])) && values == old(values) && expires == old(expires)
      ensures key !in failing ==>
        && err == None
        && removed == (if key in old(values) then 1 else 0)
        && values == old(values) - {key}
        && expires == old(expires) - {key}
    {
      if key in failing {
        return Some(ClientError(failing[key])), 0;
      }
      removed := if key in values then 1 else 0;
      values := values - {key};
      expires := expires - {key};
      err := None;
    }

    /** TTL: the error the client reports, or the key's remaining time to live. */
    method Ttl(key: string) returns (err: Option<Error>, ttl: int)
      requires Valid()
      ensures key in failing ==> err == Some(ClientError(failing[key]))
      ensures key !in failing ==> err == None && ttl == Remaining(key)
    {
      if key in failing {
        return Some(ClientError(failing[key])), 0;
      }
      err := None;
      ttl := Remaining(key);
    }
  }
}
