/**
 * The per-process connection registry `clients`: a map from poll id to the
 * set of sockets watching that poll.  These functions give the registry's
 * value after a `connection` or a `close` event; the server's class keeps
 * the map as a field and reassigns it with them.
 */
module Registry {

  /** The sockets registered under `p`, none when `p` has no entry. */
  function Members<K, C>(clients: map<K, set<C>>, p: K): set<C>
  {
    if p in clients then clients[p] else {}
  }

  /** No poll keeps an entry once its last socket is gone. */
  ghost predicate NoEmptySets<K, C>(clients: map<K, set<C>>)
  {
    forall p :: p in clients ==> clients[p] != {}
  }

  /**
   * `if (!clients.has(pollId)) clients.set(pollId, new Set());
   *  clients.get(pollId).add(ws);`
   */
  function Register<K, C>(clients: map<K, set<C>>, p: K, c: C): (r: map<K, set<C>>)
    ensures r.Keys == clients.Keys + {p}
    ensures r[p] == Members(clients, p) + {c}
    ensures forall q :: q in clients && q != p ==> r[q] == clients[q]
    ensures NoEmptySets(clients) ==> NoEmptySets(r)
  {
    clients[p := Members(clients, p) + {c}]
  }

  /**
   * The close handler: drop `c` from `p`'s set, and drop `p` itself when
   * its set is left empty; nothing happens when `p` has no entry.
   */
  function Unregister<K, C>(clients: map<K, set<C>>, p: K, c: C): (r: map<K, set<C>>)
    ensures r.Keys == if p in clients && clients[p] <= {c} then clients.Keys - {p} else clients.Keys
    ensures forall q :: q in r && q != p ==> r[q] == clients[q]
    ensures p in r ==> r[p] == clients[p] - {c}
    ensures c !in Members(r, p)
    ensures NoEmptySets(clients) ==> NoEmptySets(r)
  {
    if p !in clients then clients
    else
      var rest := clients[p] - {c};
      if rest == {} then clients - {p} else clients[p := rest]
  }

  /**
   * A socket that connects and then closes leaves the registry as it found
   * it, provided it was not already registered there.
   */
  lemma RegisterUnregister<K, C>(clients: map<K, set<C>>, p: K, c: C)
    requires NoEmptySets(clients)
    requires c !in Members(clients, p)
    ensures Unregister(Register(clients, p, c), p, c) == clients
  {
    var r := Unregister(Register(clients, p, c), p, c);
    if p in clients {
      assert (clients[p] + {c}) - {c} == clients[p];
    }
    assert r.Keys == clients.Keys;
  }
}
