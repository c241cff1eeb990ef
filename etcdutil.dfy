/** The cache-aside helpers of etcd-util/util.go: lookups are served from a
    cache shared by all keys and filled from the remote store on a miss;
    a successful set writes through to the cache.

    The remote store is represented by the answer it gives (an input to each
    operation), client initialisation by the error it returns, and the
    expiring cache by the map of the entries that have not expired. */
module EtcdUtil {
  import opened GoTypes

  /** The error `GetWithCacheAndOpts` returns for an empty key. */
  const EmptyKeyError: Error := Failure("Can't get from empty key")

  /** What the store's `Get` returns: an error, no response, a response
      without a node, or the node's value. */
  datatype GetReply = GetFailed(reason: string) | NilResponse | NilNode | Node(value: string)

  /** What the store's `Set` returns: an error, no response (and no error),
      or the node carrying the stored value. */
  datatype SetReply = SetFailed(reason: string) | SetNilResponse | SetNode(nodeValue: string)

  /** The returned value and error, and the cache afterwards. */
  datatype Outcome = Outcome(value: string, err: Error, cache: map<string, string>)

  /** `GetWithCacheAndOpts(key, defaultValue)`. */
  function Lookup(cache: map<string, string>, key: string, defaultValue: string, reply: GetReply): Outcome {
    if key == "" then Outcome(defaultValue, EmptyKeyError, cache)
    else if key in cache then Outcome(cache[key], Nil, cache)
    else
      var value := if reply.Node? && reply.value != "" then reply.value else defaultValue;
      var err := if reply.GetFailed? then Failure(reply.reason) else Nil;
      Outcome(value, err, cache[key := value])
  }

  /** `GetWithOptions`: a failed client initialisation short-circuits. */
  function LookupWithClient(cache: map<string, string>, initErr: Error, key: string, defaultValue: string, reply: GetReply): Outcome {
    if initErr.Failure? then Outcome(defaultValue, initErr, cache)
    else Lookup(cache, key, defaultValue, reply)
  }

  /** `SetWithOptions(key, value)`: the cache is written only after the store
      accepted the value; the node's value is what is returned. */
  function Store(cache: map<string, string>, initErr: Error, key: string, value: string, reply: SetReply): Outcome {
    if initErr.Failure? then Outcome("", initErr, cache)
    else
      match reply
      case SetFailed(reason) => Outcome("", Failure(reason), cache)
      case SetNilResponse => Outcome("", Nil, cache)
      case SetNode(nodeValue) => Outcome(nodeValue, Nil, cache[key := value])
  }

  /** The package-level cache, and the operations that read and fill it. */
  class Util {
    var cache: map<string, string>

    constructor ()
      ensures cache == map[]
    {
      cache := map[];
    }

    method GetWithCacheAndOpts(key: string, defaultValue: string, reply: GetReply) returns (value: string, err: Error)
      modifies this
      ensures Outcome(value, err, cache) == Lookup(old(cache), key, defaultValue, reply)
    {
      if |key| == 0 {
        return defaultValue, EmptyKeyError;
      }
      if key in cache {
        return cache[key], Nil;
      }
      value := defaultValue;
      err := Nil;
      match reply {
        case GetFailed(reason) =>
          err := Failure(reason);
        case Node(v) =>
          if |v| != 0 {
            value := v;
          }
        case _ =>
      }
      cache := cache[key := value];
    }

    method GetWithOptions(initErr: Error, key: string, defaultValue: string, reply: GetReply) returns (value: string, err: Error)
      modifies this
      ensures Outcome(value, err, cache) == LookupWithClient(old(cache), initErr, key, defaultValue, reply)
    {
      if initErr != Nil {
        return defaultValue, initErr;
      }
      value, err := GetWithCacheAndOpts(key, defaultValue, reply);
    }

    method SetWithOptions(initErr: Error, key: string, value: string, reply: SetReply) returns (result: string, err: Error)
      modifies this
      ensures Outcome(result, err, cache) == Store(old(cache), initErr, key, value, reply)
    {
      if initErr != Nil {
        return "", initErr;
      }
      match reply {
        case SetFailed(reason) =>
          return "", Failure(reason);
        case SetNilResponse =>
          return "", Nil;
        case SetNode(nodeValue) =>
          cache := cache[key := value];
          return nodeValue, Nil;
      }
    }
  }

  // ---------------------------------------------------------------------------
  // Properties
  // ---------------------------------------------------------------------------

  /** An empty key is an error, answered with the default, and the cache is
      untouched. */
  lemma EmptyKeyLookup(cache: map<string, string>, defaultValue: string, reply: GetReply)
    ensures Lookup(cache, "", defaultValue, reply) == Outcome(defaultValue, EmptyKeyError, cache)
    ensures EmptyKeyError != Nil
  {
  }

  /** A cached key is answered from the cache with no error, whatever the
      store would have said, and the cache is untouched. */
  lemma CacheHit(cache: map<string, string>, key: string, defaultValue: string, r1: GetReply, r2: GetReply)
    requires key != "" && key in cache
    ensures Lookup(cache, key, defaultValue, r1) == Outcome(cache[key], Nil, cache)
    ensures Lookup(cache, key, defaultValue, r1) == Lookup(cache, key, defaultValue, r2)
  {
  }

  /** On a miss the store's answer decides: a non-empty node value is
      returned and cached; an error returns the default with the error; no
      response, no node or an empty value returns the default with no error.
      In every case the returned value is the one now cached. */
  lemma MissOutcomes(cache: map<string, string>, key: string, defaultValue: string, reply: GetReply)
    requires key != "" && key !in cache
    ensures var o := Lookup(cache, key, defaultValue, reply);
      && o.cache == cache[key := o.value]
      && (reply.Node? && reply.value != "" ==> o.value == reply.value && o.err == Nil)
      && (reply.GetFailed? ==> o.value == defaultValue && o.err == Failure(reply.reason))
      && (reply.NilResponse? || reply.NilNode? || (reply.Node? && reply.value == "") ==>
            o.value == defaultValue && o.err == Nil)
  {
  }

  /** A lookup changes the cache at most at the looked-up key, and after a
      lookup of a non-empty key the key is cached with the value returned. */
  lemma LookupFrame(cache: map<string, string>, key: string, defaultValue: string, reply: GetReply)
    ensures var o := Lookup(cache, key, defaultValue, reply);
      && (forall k :: k != key ==> (k in o.cache <==> k in cache) && (k in cache ==> o.cache[k] == cache[k]))
      && (key != "" ==> key in o.cache && o.cache[key] == o.value)
      && (key == "" ==> o.cache == cache)
  {
  }

  /** Until the entry expires, a second lookup of the same key is a hit that
      returns the first lookup's value without error, even when the first
      lookup failed at the store. */
  lemma RepeatedLookupHits(cache: map<string, string>, key: string, d1: string, r1: GetReply, d2: string, r2: GetReply)
    requires key != ""
    ensures var first := Lookup(cache, key, d1, r1);
      Lookup(first.cache, key, d2, r2) == Outcome(first.value, Nil, first.cache)
  {
  }

  /** A failed initialisation returns the default (for a lookup) or "" (for a
      set) with the initialisation error, and leaves the cache alone. */
  lemma InitFailure(cache: map<string, string>, msg: string, key: string, value: string, gr: GetReply, sr: SetReply)
    ensures LookupWithClient(cache, Failure(msg), key, value, gr) == Outcome(value, Failure(msg), cache)
    ensures Store(cache, Failure(msg), key, value, sr) == Outcome("", Failure(msg), cache)
  {
  }

  /** A set that the store rejects, or that returns no response, returns ""
      and leaves the cache alone; a successful set caches the value that was
      sent and returns the node's value. */
  lemma StoreOutcomes(cache: map<string, string>, key: string, value: string, reply: SetReply)
    ensures var o := Store(cache, Nil, key, value, reply);
      && (reply.SetFailed? ==> o == Outcome("", Failure(reply.reason), cache))
      && (reply.SetNilResponse? ==> o == Outcome("", Nil, cache))
      && (reply.SetNode? ==> o.value == reply.nodeValue && o.err == Nil && o.cache == cache[key := value])
  {
  }

  /** After a successful set, a lookup of a non-empty key is served from the
      cache with the value that was set, whatever the store holds. */
  lemma SetThenGet(cache: map<string, string>, key: string, value: string, node: string, d: string, reply: GetReply)
    requires key != ""
    ensures Lookup(Store(cache, Nil, key, value, SetNode(node)).cache, key, d, reply) == Outcome(value, Nil, cache[key := value])
  {
  }
}
