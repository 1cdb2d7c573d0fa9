/** The remote tool's memoising accessor `GetClient`: discover the gateway,
    connect to the first record, wrap the connection in a MiHome client,
    remember it, and ping it. The client pool is an oracle; every call made to
    it is recorded. */
module Client {
  import opened Errors

  /** A service record found by discovery, and a connection to one. Both are
      opaque to the core. */
  datatype Record = Record(id: nat)
  datatype Conn = Conn(id: nat)

  /** What `pool.NewClient` returns, before the type assertion to a MiHome
      client: nil, a `*mihome.Client` (itself possibly nil; a client is
      an id), or a client of some other service type. */
  datatype Handle = NilHandle | MiHomeHandle(client: Option<nat>) | OtherHandle

  /** The client pool as an oracle: the answer to each call it receives. */
  datatype Pool = Pool(
    lookup: (string, string, nat) -> Result<seq<Record>>,
    connect: (Record, nat) -> Result<Conn>,
    newClient: (string, Conn) -> Handle,
    ping: nat -> Option<Error>)

  /** A call made to the pool or to the client; `Lookup` carries the service
      type, the gateway address, the record limit and the timeout. */
  datatype PoolCall =
    | Lookup(service: string, addr: string, max: nat, timeoutMs: nat)
    | Connect(record: Record, flags: nat)
    | NewClient(service: string, conn: Conn)
    | Ping(client: nat)

  /** The outcome of GetClient. `Panicked` is the failed type assertion when
      the pool hands back a client of another service type. */
  datatype Reply = Got(client: nat) | Failed(error: Error) | Panicked

  /** One GetClient call: its reply, the cache afterwards, and the calls it made. */
  datatype Step = Step(reply: Reply, cached: Option<nat>, calls: seq<PoolCall>)

  /** Discovery is bounded by a 100 ms deadline. */
  const LookupTimeoutMs: nat := 100

  /** The chain of decisions of GetClient, given the cache before the call. */
  function GetClientStep(cached: Option<nat>, pool: Pool, addr: string): Step {
    if cached.Some? then Step(Got(cached.value), cached, [])
    else
      var lookup := [Lookup("", addr, 1, LookupTimeoutMs)];
      var records := pool.lookup("", addr, 1);
      if records.Err? then Step(Failed(records.error), None, lookup)
      else if |records.value| == 0 then Step(Failed(DeadlineExceeded), None, lookup)
      else
        var record := records.value[0];
        var conn := pool.connect(record, 0);
        var connect := lookup + [Connect(record, 0)];
        if conn.Err? then Step(Failed(conn.error), None, connect)
        else
          var made := connect + [NewClient("sensors.MiHome", conn.value)];
          var handle := pool.newClient("sensors.MiHome", conn.value);
          if handle.NilHandle? then Step(Failed(AppError), None, made)
          else if handle.OtherHandle? then Step(Panicked, None, made)
          else if handle.client.None? then Step(Failed(AppError), None, made)
          else
            var c := handle.client.value;
            // the cache is set before the ping, whatever the ping answers
            var pinged := pool.ping(c);
            if pinged.Some? then Step(Failed(pinged.value), Some(c), made + [Ping(c)])
            else Step(Got(c), Some(c), made + [Ping(c)])
  }

  /** A cached client is returned with no error and no pool call. */
  lemma CachedClientIsReturned(c: nat, pool: Pool, addr: string)
    ensures GetClientStep(Some(c), pool, addr) == Step(Got(c), Some(c), [])
  {
  }

  /** Without a cached client the first call is a lookup for at most one
      record under the 100 ms deadline; a lookup error is returned unchanged
      and nothing is cached. */
  lemma LookupFirst(pool: Pool, addr: string)
    ensures GetClientStep(None, pool, addr).calls[0] == Lookup("", addr, 1, 100)
    ensures pool.lookup("", addr, 1).Err? ==>
      GetClientStep(None, pool, addr) == Step(Failed(pool.lookup("", addr, 1).error), None, [Lookup("", addr, 1, 100)])
  {
  }

  /** No records: DeadlineExceeded, no connection attempt, nothing cached. */
  lemma NoRecordsIsDeadline(pool: Pool, addr: string)
    requires pool.lookup("", addr, 1) == Ok([])
    ensures GetClientStep(None, pool, addr) == Step(Failed(DeadlineExceeded), None, [Lookup("", addr, 1, 100)])
  {
  }

  /** Only the first record is dialled, once; a connect error is returned
      unchanged and nothing is cached. */
  lemma OnlyFirstRecordIsDialled(pool: Pool, addr: string)
    requires pool.lookup("", addr, 1).Ok? && |pool.lookup("", addr, 1).value| > 0
    ensures var first := pool.lookup("", addr, 1).value[0];
      && (forall i | 0 <= i < |GetClientStep(None, pool, addr).calls| && GetClientStep(None, pool, addr).calls[i].Connect? ::
            i == 1 && GetClientStep(None, pool, addr).calls[i] == Connect(first, 0))
      && GetClientStep(None, pool, addr).calls[1] == Connect(first, 0)
      && (pool.connect(first, 0).Err? ==>
            GetClientStep(None, pool, addr).reply == Failed(pool.connect(first, 0).error) &&
            GetClientStep(None, pool, addr).cached == None)
  {
  }

  /** A nil client from NewClient (nil itself, or a nil MiHome client) is
      AppError, and nothing is cached. */
  lemma NilClientIsAppError(pool: Pool, addr: string, conn: Conn)
    requires pool.lookup("", addr, 1).Ok? && |pool.lookup("", addr, 1).value| > 0
    requires pool.connect(pool.lookup("", addr, 1).value[0], 0) == Ok(conn)
    requires pool.newClient("sensors.MiHome", conn) in {NilHandle, MiHomeHandle(None)}
    ensures GetClientStep(None, pool, addr).reply == Failed(AppError)
    ensures GetClientStep(None, pool, addr).cached == None
    ensures GetClientStep(None, pool, addr).calls == [
      Lookup("", addr, 1, 100), Connect(pool.lookup("", addr, 1).value[0], 0),
      NewClient("sensors.MiHome", conn)]
    ensures forall c: nat :: Ping(c) !in GetClientStep(None, pool, addr).calls
  {
  }

  /** A failed ping is returned, yet the client stays cached: the next call
      returns it with no error and without pinging again. */
  lemma PingFailureStillCaches(pool: Pool, addr: string, conn: Conn, c: nat, e: Error, later: Pool, laterAddr: string)
    requires pool.lookup("", addr, 1).Ok? && |pool.lookup("", addr, 1).value| > 0
    requires pool.connect(pool.lookup("", addr, 1).value[0], 0) == Ok(conn)
    requires pool.newClient("sensors.MiHome", conn) == MiHomeHandle(Some(c))
    requires pool.ping(c) == Some(e)
    ensures GetClientStep(None, pool, addr).reply == Failed(e)
    ensures GetClientStep(None, pool, addr).cached == Some(c)
    ensures GetClientStep(GetClientStep(None, pool, addr).cached, later, laterAddr) == Step(Got(c), Some(c), [])
  {
  }

  /** When every step succeeds the client is pinged once, cached and
      returned, after exactly one lookup, one connect and one NewClient. */
  lemma AllStepsSucceed(pool: Pool, addr: string, conn: Conn, c: nat)
    requires pool.lookup("", addr, 1).Ok? && |pool.lookup("", addr, 1).value| > 0
    requires pool.connect(pool.lookup("", addr, 1).value[0], 0) == Ok(conn)
    requires pool.newClient("sensors.MiHome", conn) == MiHomeHandle(Some(c))
    requires pool.ping(c) == None
    ensures GetClientStep(None, pool, addr) == Step(Got(c), Some(c), [
      Lookup("", addr, 1, 100), Connect(pool.lookup("", addr, 1).value[0], 0),
      NewClient("sensors.MiHome", conn), Ping(c)])
  {
  }

  /** A successful call returns the client that is now cached, and only a
      call that reached the ping can have filled the cache. */
  lemma SuccessIsCached(cached: Option<nat>, pool: Pool, addr: string)
    ensures GetClientStep(cached, pool, addr).reply.Got? ==>
      GetClientStep(cached, pool, addr).cached == Some(GetClientStep(cached, pool, addr).reply.client)
    ensures cached.None? && GetClientStep(None, pool, addr).cached.Some? ==>
      GetClientStep(None, pool, addr).calls[|GetClientStep(None, pool, addr).calls| - 1] ==
        Ping(GetClientStep(None, pool, addr).cached.value)
    ensures cached.Some? ==> GetClientStep(cached, pool, addr).cached == cached
  {
  }

  /** The process-wide `client` variable, and the record of pool calls. */
  class ClientCache {
    var client: Option<nat>
    var calls: seq<PoolCall>

    constructor ()
      ensures client == None && calls == []
    {
      client, calls := None, [];
    }

    method GetClient(pool: Pool, addr: string) returns (reply: Reply)
      modifies this
      ensures var step := GetClientStep(old(client), pool, addr);
        reply == step.reply && client == step.cached && calls == old(calls) + step.calls
    {
      if client.Some? {
        return Got(client.value);
      }
      calls := calls + [Lookup("", addr, 1, LookupTimeoutMs)];
      var records := pool.lookup("", addr, 1);
      if records.Err? {
        return Failed(records.error);
      } else if |records.value| == 0 {
        return Failed(DeadlineExceeded);
      }
      calls := calls + [Connect(records.value[0], 0)];
      var conn := pool.connect(records.value[0], 0);
      if conn.Err? {
        return Failed(conn.error);
      }
      calls := calls + [NewClient("sensors.MiHome", conn.value)];
      var handle := pool.newClient("sensors.MiHome", conn.value);
      if handle.NilHandle? {
        return Failed(AppError);
      } else if handle.OtherHandle? {
        return Panicked;
      }
      client := handle.client;
      if client.None? {
        return Failed(AppError);
      }
      calls := calls + [Ping(client.value)];
      var pinged := pool.ping(client.value);
      if pinged.Some? {
        return Failed(pinged.value);
      }
      return Got(client.value);
    }
  }
}
