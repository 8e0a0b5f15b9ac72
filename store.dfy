/**
 The resource store client, at its interface boundary: a point lookup of a
 secret by key. The network round trip is replaced by a map of the secrets
 the store holds and a map of the errors the store answers for some keys
 (unreachable server, forbidden, cancelled). A ghost log records every key
 looked up, so that callers can state how many lookups they perform.
 */
module Store {
  import opened Api

  class Client {
    /** The secrets the resource store holds, by key. */
    var secrets: map<ObjectKey, Secret>
    /** The error the store answers for a key, whatever it holds under it. */
    var failures: map<ObjectKey, ScopeError>
    /** Every key this client has been asked to get, oldest first. */
    ghost var lookups: seq<ObjectKey>

    constructor (secrets: map<ObjectKey, Secret>, failures: map<ObjectKey, ScopeError>)
      ensures this.secrets == secrets && this.failures == failures && lookups == []
    {
      this.secrets := secrets;
      this.failures := failures;
      lookups := [];
    }

    /** One lookup: the store's error for `key`, else the secret under `key`, else NotFound. */
    method Get(key: ObjectKey) returns (r: Result<Secret>)
      modifies this`lookups
      ensures lookups == old(lookups) + [key]
      ensures key in failures ==> r == Err(failures[key])
      ensures key !in failures && key in secrets ==> r == Ok(secrets[key])
      ensures key !in failures && key !in secrets ==> r == Err(NotFound(key))
    {
      lookups := lookups + [key];
      if key in failures {
        r := Err(failures[key]);
      } else if key in secrets {
        r := Ok(secrets[key]);
      } else {
        r := Err(NotFound(key));
      }
    }
  }
}
