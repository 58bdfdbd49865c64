/** The client registry (ClientManager of package ratelimiter, client.go): a cache
    of per-client rate-limit overrides written through to a storage collaborator
    whose every call may fail. The storage is the ClientStorage interface of
    postgres.go, modelled as a map of records; a failure is a nondeterministic
    choice. */
module Clients {
  import opened Options
  import opened RateLimitTypes
  import opened TokenBuckets

  /** Every record is filed under its own client ID. */
  predicate KeyedByID(m: map<string, ClientConfig>)
  {
    forall k :: k in m ==> m[k].clientID == k
  }

  /** The storage collaborator (ClientStorage). Any call may fail, with some error
      text, and a failed call changes nothing. */
  class Storage {
    var records: map<string, ClientConfig>

    ghost predicate Valid()
      reads this
    {
      KeyedByID(records)
    }

    constructor (records: map<string, ClientConfig>)
      requires KeyedByID(records)
      ensures Valid() && this.records == records
    {
      this.records := records;
    }

    /** An upsert keyed by the client ID. */
    method SaveClient(config: ClientConfig) returns (err: Option<string>)
      requires Valid()
      modifies this
      ensures Valid()
      ensures err.None? ==> records == old(records)[config.clientID := config]
      ensures err.Some? ==> records == old(records)
    {
      var failed: bool := *;
      if failed {
        var cause: string := *;
        err := Some(cause);
      } else {
        records := records[config.clientID := config];
        err := None;
      }
    }

    /** Deletes the record of clientID; deleting an absent record succeeds. */
    method DeleteClient(clientID: string) returns (err: Option<string>)
      requires Valid()
      modifies this
      ensures Valid()
      ensures err.None? ==> records == old(records) - {clientID}
      ensures err.Some? ==> records == old(records)
    {
      var failed: bool := *;
      if failed {
        var cause: string := *;
        err := Some(cause);
      } else {
        records := records - {clientID};
        err := None;
      }
    }

    /** All records, or the error text of a failed read. */
    method GetAllClients() returns (r: Option<map<string, ClientConfig>>, cause: string)
      ensures r.Some? ==> r.value == records
    {
      var failed: bool := *;
      if failed {
        cause := *;
        r := None;
      } else {
        r := Some(records);
        cause := "";
      }
    }
  }

  /** The two errors RemoveClient returns. */
  datatype RemoveError = ClientNotFound | DatabaseError(cause: string)

  /** The text of an error (err.Error() in Go): the storage error is wrapped with a
      "database error: " prefix. */
  function ErrorText(e: RemoveError): (r: string)
    ensures e == ClientNotFound ==> r == "client not found"
    ensures e.DatabaseError? ==> |r| >= 16 && r[..16] == "database error: " && r[16..] == e.cause
  {
    match e
    case ClientNotFound => "client not found"
    case DatabaseError(cause) => "database error: " + cause
  }

  /** The text "client not found" identifies the missing-client error: no wrapped
      storage error reads the same, whatever its cause. */
  lemma ErrorTextIdentifiesNotFound(e: RemoveError)
    ensures ErrorText(e) == "client not found" <==> e == ClientNotFound
  {
    if e.DatabaseError? {
      assert ErrorText(e)[0] == 'd';
    }
  }

  class ClientManager {
    const storage: Storage
    var rateLimiter: RateLimiter?
    var clients: map<string, ClientConfig>

    /** Every cached config is filed under its own ID, and so is every stored one. */
    ghost predicate Valid()
      reads this, storage
    {
      KeyedByID(clients) && storage.Valid()
    }

    /** Write-through: every cached config is also the stored one. */
    ghost predicate Coherent()
      reads this, storage
    {
      forall k :: k in clients ==> k in storage.records && storage.records[k] == clients[k]
    }

    /** NewClientManager: an empty cache with no rate limiter attached, then filled
        from storage when the initial load succeeds. */
    constructor (storage: Storage)
      requires storage.Valid()
      ensures this.storage == storage && rateLimiter == null
      ensures Valid() && Coherent()
      ensures clients == map[] || clients == storage.records
    {
      this.storage := storage;
      rateLimiter := null;
      clients := map[];
      new;
      var _ := LoadInitialClients();
    }

    /** The same, with a rate limiter attached, so that removals evict buckets. */
    constructor WithLimiter(storage: Storage, limiter: RateLimiter)
      requires storage.Valid()
      ensures this.storage == storage && rateLimiter == limiter
      ensures Valid() && Coherent()
      ensures clients == map[] || clients == storage.records
    {
      this.storage := storage;
      rateLimiter := limiter;
      clients := map[];
      new;
      var _ := LoadInitialClients();
    }

    /** Replaces the cache by the stored records; a failed read leaves the cache as
        it was (loaded is false when the failure is only logged). */
    method LoadInitialClients() returns (loaded: bool)
      requires Valid()
      modifies this
      ensures Valid() && rateLimiter == old(rateLimiter)
      ensures loaded ==> clients == storage.records
      ensures !loaded ==> clients == old(clients)
    {
      var all, _ := storage.GetAllClients();
      if all.Some? {
        clients := all.value;
        loaded := true;
      } else {
        loaded := false;
      }
    }

    /** Stores a new config for clientID, then caches it; on a storage error the
        error is returned and neither cache nor storage change. */
    method AddClient(clientID: string, capacity: int, rate: int, now: int) returns (err: Option<string>)
      requires Valid()
      modifies this, storage
      ensures Valid() && rateLimiter == old(rateLimiter)
      ensures old(Coherent()) ==> Coherent()
      ensures var config := ClientConfig(clientID, capacity, rate, now, now);
              if err.None? then
                clients == old(clients)[clientID := config]
                && storage.records == old(storage.records)[clientID := config]
              else
                clients == old(clients) && storage.records == old(storage.records)
    {
      var config := ClientConfig(clientID, capacity, rate, now, now);
      err := storage.SaveClient(config);
      if err.None? {
        clients := clients[clientID := config];
      }
    }

    /** Stores an edited config, then caches it. (Not defined in the files
        modelled here; the model takes it to behave like
        AddClient with the given config.) */
    method UpdateClient(config: ClientConfig) returns (err: Option<string>)
      requires Valid()
      modifies this, storage
      ensures Valid() && rateLimiter == old(rateLimiter)
      ensures old(Coherent()) ==> Coherent()
      ensures if err.None? then
                clients == old(clients)[config.clientID := config]
                && storage.records == old(storage.records)[config.clientID := config]
              else
                clients == old(clients) && storage.records == old(storage.records)
    {
      err := storage.SaveClient(config);
      if err.None? {
        clients := clients[config.clientID := config];
      }
    }

    /** The write that patchClient makes through the pointer GetClientConfig hands
        out: the cached entry itself changes, before anything is stored. */
    method OverwriteCached(config: ClientConfig)
      requires Valid()
      modifies this
      ensures Valid() && rateLimiter == old(rateLimiter)
      ensures clients == old(clients)[config.clientID := config]
    {
      clients := clients[config.clientID := config];
    }

    /** Removes a registered client: unknown ids are refused without a storage
        call, a storage error is wrapped and changes nothing, and a success drops
        the cache entry and, when a rate limiter is attached, its bucket. */
    method RemoveClient(clientID: string) returns (err: Option<RemoveError>)
      requires Valid()
      requires rateLimiter != null ==> rateLimiter.Valid()
      modifies this, storage, rateLimiter
      ensures Valid() && rateLimiter == old(rateLimiter)
      ensures rateLimiter != null ==> rateLimiter.Valid()
      ensures old(Coherent()) ==> Coherent()
      ensures clientID !in old(clients) ==>
                err == Some(ClientNotFound) && clients == old(clients) && storage.records == old(storage.records)
      ensures err.Some? ==> clients == old(clients) && storage.records == old(storage.records)
      ensures err.Some? && clientID in old(clients) ==> err.value.DatabaseError?
      ensures err.Some? && rateLimiter != null ==> rateLimiter.View() == old(rateLimiter.View())
      ensures err.None? ==>
                clientID in old(clients)
                && clients == old(clients) - {clientID}
                && storage.records == old(storage.records) - {clientID}
      ensures err.None? && rateLimiter != null ==> rateLimiter.View() == old(rateLimiter.View()) - {clientID}
    {
      if clientID !in clients {
        return Some(ClientNotFound);
      }
      var cause := storage.DeleteClient(clientID);
      if cause.Some? {
        return Some(DatabaseError(cause.value));
      }
      clients := clients - {clientID};
      if rateLimiter != null {
        rateLimiter.RemoveBucket(clientID);
      }
      err := None;
    }

    /** The cached config of clientID, if any. */
    function GetClientConfig(clientID: string): (r: Option<ClientConfig>)
      reads this
      ensures r.Some? <==> clientID in clients
      ensures r.Some? ==> r.value == clients[clientID]
    {
      if clientID in clients then Some(clients[clientID]) else None
    }

    /** A copy of the cache, built entry by entry: the same IDs with the same
        field values. */
    method GetAllClients() returns (copy: map<string, ClientConfig>)
      ensures copy.Keys == clients.Keys
      ensures forall id :: id in copy ==> copy[id] == clients[id]
    {
      copy := map[];
      var pending := clients.Keys;
      while pending != {}
        invariant pending <= clients.Keys
        invariant copy.Keys == clients.Keys - pending
        invariant forall id :: id in copy ==> copy[id] == clients[id]
        decreases pending
      {
        var id :| id in pending;
        var config := clients[id];
        copy := copy[id := ClientConfig(config.clientID, config.capacity, config.ratePerSec,
                                        config.createdAt, config.lastUpdated)];
        pending := pending - {id};
      }
    }
  }

  /** As written, NewClientManager attaches no rate limiter, so removing a client
      never evicts its bucket: the client keeps being limited by the bucket made
      from its deleted config. */
  method RemovalKeepsBucket(storage: Storage, limiter: RateLimiter, clientID: string, now: int)
    returns (err: Option<RemoveError>, hasBucket: bool)
    requires storage.Valid() && limiter.Valid()
    modifies storage, limiter, limiter.buckets.Values
    ensures hasBucket
  {
    var config := ClientConfig(clientID, 1, 1, now, now);
    var _ := limiter.AllowWithConfig(clientID, config, now);
    var manager := new ClientManager(storage);
    err := manager.RemoveClient(clientID);
    hasBucket := clientID in limiter.buckets;
  }

  /** With the limiter attached, a successful removal evicts the bucket. */
  method RemovalEvictsBucket(storage: Storage, limiter: RateLimiter, clientID: string, now: int)
    returns (err: Option<RemoveError>, hasBucket: bool)
    requires storage.Valid() && limiter.Valid()
    modifies storage, limiter, limiter.buckets.Values
    ensures err.None? ==> !hasBucket
  {
    var config := ClientConfig(clientID, 1, 1, now, now);
    var _ := limiter.AllowWithConfig(clientID, config, now);
    var manager := new ClientManager.WithLimiter(storage, limiter);
    err := manager.RemoveClient(clientID);
    hasBucket := clientID in limiter.buckets;
  }
}
