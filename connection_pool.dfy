/**
 * ConnectionPool: a per-thread cache of outgoing sockets indexed by endpoint, filled lazily.
 *
 * A socket is an object of its own. `create_connection` allocates a new one, and
 * `register_socket` takes a socket by value, so the pool owns every socket it holds and no two
 * endpoints share one.
 */
module ZmqConnectionPool {

  /** A socket connected to one endpoint. */
  class Socket {
    const endpoint: string

    constructor (endpoint: string)
      ensures this.endpoint == endpoint
    {
      this.endpoint := endpoint;
    }
  }

  class ConnectionPool {
    var pool: map<string, Socket>
    ghost var connectionsCreated: nat

    /** Distinct endpoints hold distinct sockets. */
    ghost predicate Valid()
      reads this
    {
      forall e1, e2 :: e1 in pool && e2 in pool && e1 != e2 ==> pool[e1] != pool[e2]
    }

    constructor ()
      ensures Valid()
      ensures pool == map[] && connectionsCreated == 0
    {
      pool, connectionsCreated := map[], 0;
    }

    /** create_connection(endpoint): a new socket connected to the endpoint. */
    method CreateConnection(endpoint: string) returns (s: Socket)
      modifies this
      ensures fresh(s) && s.endpoint == endpoint
      ensures connectionsCreated == old(connectionsCreated) + 1
      ensures pool == old(pool)
    {
      s := new Socket(endpoint);
      connectionsCreated := connectionsCreated + 1;
    }

    /**
     * find(endpoint): the cached socket, creating nothing; or, for an uncached endpoint, one
     * new connection that is cached under it. Other endpoints' entries are unchanged.
     */
    method Find(endpoint: string) returns (s: Socket)
      requires Valid()
      modifies this
      ensures Valid()
      ensures endpoint in old(pool) ==> s == old(pool)[endpoint] && pool == old(pool)
                                        && connectionsCreated == old(connectionsCreated)
      ensures endpoint !in old(pool) ==> fresh(s) && s.endpoint == endpoint
                                         && pool == old(pool)[endpoint := s]
                                         && connectionsCreated == old(connectionsCreated) + 1
      ensures endpoint in pool && pool[endpoint] == s
      ensures forall e :: e != endpoint ==> (e in pool <==> e in old(pool))
      ensures forall e :: e != endpoint && e in pool ==> pool[e] == old(pool)[e]
    {
      if endpoint in pool {
        return pool[endpoint];
      }
      s := CreateConnection(endpoint);
      pool := pool[endpoint := s];
    }

    /** remove(endpoint): evicts the endpoint's socket, if any, and nothing else. */
    method Remove(endpoint: string)
      requires Valid()
      modifies this
      ensures Valid()
      ensures pool == old(pool) - {endpoint} && connectionsCreated == old(connectionsCreated)
      ensures endpoint !in pool
    {
      pool := pool - {endpoint};
    }

    /**
     * register_socket(endpoint, socket): caches the given socket under an uncached endpoint.
     * ConnectionPool.cpp is not part of this model, so what happens for an endpoint already
     * cached is chosen here: the cached entry is kept.
     * The socket is passed by value, so it is none of the sockets the pool already holds.
     */
    method RegisterSocket(endpoint: string, socket: Socket)
      requires Valid() && socket !in pool.Values
      modifies this
      ensures Valid()
      ensures pool == if endpoint in old(pool) then old(pool) else old(pool)[endpoint := socket]
      ensures connectionsCreated == old(connectionsCreated)
      ensures endpoint !in old(pool) ==> pool[endpoint] == socket
    {
      if endpoint !in pool {
        pool := pool[endpoint := socket];
      }
    }
  }

  /**
   * Evicting an endpoint makes the next find of it create a new connection to that endpoint,
   * different from the evicted socket.
   */
  method RemoveThenFind(p: ConnectionPool, endpoint: string) returns (before: Socket, after: Socket)
    requires p.Valid()
    modifies p
    ensures p.Valid()
    ensures fresh(after) && after != before && after.endpoint == endpoint
    ensures p.pool == old(p.pool)[endpoint := after]
  {
    before := p.Find(endpoint);
    p.Remove(endpoint);
    after := p.Find(endpoint);
  }
}
