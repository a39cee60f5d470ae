/**
  The bookkeeping behind ModEntry's dictionary of loaded scripts: which
  handlers each loaded script attached, and how the channels' handler lists
  follow from that and from the order in which the scripts were loaded.
*/
module ScriptRegistry {
  import opened SmapiEvents
  import opened Framework
  import Multicast

  /** The handler lists of every channel, as the events table holds them. */
  type HandlerTable = map<Channel, seq<GuardedHandler>>

  /** The handler fields of one script, one wrapper per channel. */
  type Wiring = map<Channel, GuardedHandler>

  /**
    `wiring[p]` is the handler map of the script loaded under `p`: every
    channel has a wrapper, for that channel, closing over that script.
  */
  ghost predicate Wired(loaded: map<string, Script>, wiring: map<string, Wiring>)
  {
    (forall p :: p in loaded <==> p in wiring) &&
    (forall p, c: Channel | p in wiring :: c in wiring[p] && wiring[p][c].owner == loaded[p] && wiring[p][c].channel == c)
  }

  /** The handlers for channel `c` of the scripts in `order`, in that order. */
  ghost function Subscribed(order: seq<string>, wiring: map<string, Wiring>, c: Channel): seq<GuardedHandler>
    requires forall p | p in order :: p in wiring && c in wiring[p]
  {
    seq(|order|, i requires 0 <= i < |order| => wiring[order[i]][c])
  }

  /**
    `order` lists every loaded path once, in load order, and each channel
    holds exactly the loaded scripts' handlers for it, in that order.
  */
  ghost predicate Registry(table: HandlerTable, order: seq<string>, wiring: map<string, Wiring>)
  {
    (forall p :: multiset(order)[p] == if p in wiring then 1 else 0) &&
    (forall p, c: Channel | p in wiring :: c in wiring[p]) &&
    (forall c: Channel :: c in table && table[c] == Subscribed(order, wiring, c))
  }

  /** Which loaded script a handler on a channel belongs to. */
  lemma OwnerOf(table: HandlerTable, order: seq<string>, wiring: map<string, Wiring>, c: Channel, h: GuardedHandler) returns (p: string)
    requires Registry(table, order, wiring) && h in table[c]
    ensures p in wiring && wiring[p][c] == h
  {
    var i :| 0 <= i < |table[c]| && table[c][i] == h;
    p := order[i];
    assert p in order;
  }

  /** Attaching one handler per channel and then detaching the same handlers restores the table. */
  lemma Restored(before: HandlerTable, handlers: Wiring)
    requires forall c: Channel :: c in before && c in handlers
    ensures forall c: Channel :: Multicast.Remove(Multicast.Combine(before[c], handlers[c]), handlers[c]) == before[c]
  {
    forall c: Channel ensures Multicast.Remove(Multicast.Combine(before[c], handlers[c]), handlers[c]) == before[c] {
      Multicast.CombineThenRemove(before[c], handlers[c]);
    }
  }

  /** Adding an entry under a fresh key and then removing that key gives the map back. */
  lemma AddThenRemove<V>(m: map<string, V>, key: string, v: V)
    requires key !in m
    ensures m[key := v] - {key} == m
  {
  }

  /** What a map holds besides `key` does not depend on the entry under `key`. */
  lemma OthersUnchanged<V>(m: map<string, V>, key: string, v: V)
    ensures m[key := v] - {key} == m - {key}
    ensures (m - {key}) - {key} == m - {key}
  {
  }

  /** Nothing loaded and nothing subscribed are the same. */
  lemma NothingLoaded(table: HandlerTable)
    requires forall c: Channel :: c in table && table[c] == []
    ensures Registry(table, [], map[])
  {
  }

  lemma EmptyRegistry(table: HandlerTable, order: seq<string>)
    requires Registry(table, order, map[])
    ensures order == [] && forall c: Channel :: table[c] == []
  {
    assert multiset(order) == multiset{};
    assert |order| == |multiset(order)| == 0;
  }

  // Adding a new script ---------------------------------------------------------

  /** Appending a path that is not loaded keeps every loaded path in the order once. */
  lemma AppendToOrder(order: seq<string>, wiring: map<string, Wiring>, path: string, handlers: Wiring)
    requires forall p :: multiset(order)[p] == if p in wiring then 1 else 0
    requires path !in wiring
    ensures path !in order && forall q | q in order :: q in wiring
    ensures forall p :: multiset(Multicast.Combine(order, path))[p] == if p in wiring[path := handlers] then 1 else 0
  {
    Multicast.CombineMultiset(order, path);
    assert multiset(order)[path] == 0;
    forall q | q in order ensures q in wiring {
      assert multiset(order)[q] > 0;
    }
  }

  /** On one channel: `+=` of the new script's handler appends it in load order. */
  lemma AttachChannel(order: seq<string>, wiring: map<string, Wiring>, path: string, handlers: Wiring, c: Channel)
    requires forall p | p in order :: p in wiring && c in wiring[p]
    requires path !in order && c in handlers
    ensures Multicast.Combine(Subscribed(order, wiring, c), handlers[c]) == Subscribed(Multicast.Combine(order, path), wiring[path := handlers], c)
  {
    assert forall i | 0 <= i < |order| :: order[i] in order;
  }

  /** A new script whose handlers it owns, each on its own channel, is wired under its path. */
  lemma AttachKeepsWiring(loaded: map<string, Script>, wiring: map<string, Wiring>, path: string, s: Script, handlers: Wiring)
    requires Wired(loaded, wiring)
    requires forall c: Channel :: c in handlers && handlers[c].owner == s && handlers[c].channel == c
    ensures Wired(loaded[path := s], wiring[path := handlers])
  {
  }

  /**
    Loading `path`: `+=` of each handler of a new script appends it to the
    load order and wires it under `path`.
  */
  lemma AttachKeepsRegistry(table: HandlerTable, order: seq<string>, loaded: map<string, Script>, wiring: map<string, Wiring>,
                            path: string, s: Script, handlers: Wiring, table': HandlerTable)
    requires Wired(loaded, wiring) && Registry(table, order, wiring) && path !in wiring
    requires forall c: Channel :: c in handlers && handlers[c].owner == s && handlers[c].channel == c
    requires forall c: Channel :: c in table' && table'[c] == Multicast.Combine(table[c], handlers[c])
    ensures Wired(loaded[path := s], wiring[path := handlers]) && Registry(table', Multicast.Combine(order, path), wiring[path := handlers])
  {
    AttachKeepsWiring(loaded, wiring, path, s, handlers);
    AppendToOrder(order, wiring, path, handlers);
    forall c: Channel ensures table'[c] == Subscribed(Multicast.Combine(order, path), wiring[path := handlers], c) {
      AttachChannel(order, wiring, path, handlers, c);
    }
  }

  // Removing a loaded script ----------------------------------------------------

  /**
    `-=` of a script's handler on a channel is the same as dropping the
    script from the load order, when no other script holds that handler.
  */
  lemma {:induction false} RemoveSubscribed(order: seq<string>, wiring: map<string, Wiring>, path: string, c: Channel)
    requires forall p | p in order :: p in wiring && c in wiring[p]
    requires path in order
    requires forall q | q in order && q != path :: wiring[q][c] != wiring[path][c]
    ensures Multicast.Remove(Subscribed(order, wiring, c), wiring[path][c]) == Subscribed(Multicast.Remove(order, path), wiring, c)
    decreases |order|
  {
    var n := |order| - 1;
    var last, front := order[n], order[..n];
    assert order == front + [last];
    var list := Subscribed(order, wiring, c);
    assert list == Subscribed(front, wiring, c) + [wiring[last][c]];
    if last != path {
      assert path in front;
      RemoveSubscribed(front, wiring, path, c);
      var rest := Multicast.Remove(front, path);
      assert Subscribed(rest + [last], wiring, c) == Subscribed(rest, wiring, c) + [wiring[last][c]];
    }
  }

  /** Dropping `path` from the load order leaves every other loaded path in it once. */
  lemma RemoveFromOrder(order: seq<string>, wiring: map<string, Wiring>, path: string)
    requires forall p :: multiset(order)[p] == if p in wiring then 1 else 0
    requires path in wiring
    ensures path in order && forall q | q in order :: q in wiring
    ensures forall p :: multiset(Multicast.Remove(order, path))[p] == if p in wiring - {path} then 1 else 0
    ensures forall q | q in Multicast.Remove(order, path) :: q != path
  {
    Multicast.RemoveMultiset(order, path);
    assert multiset(order)[path] > 0;
    forall q | q in order ensures q in wiring {
      assert multiset(order)[q] > 0;
    }
    forall q | q in Multicast.Remove(order, path) ensures q != path {
      assert multiset(Multicast.Remove(order, path))[q] > 0;
    }
  }

  /** On one channel: `-=` of the script's handler is its removal from the load order. */
  lemma DetachChannel(order: seq<string>, wiring: map<string, Wiring>, path: string, c: Channel)
    requires forall p | p in order :: p in wiring && c in wiring[p]
    requires path in order
    requires forall q | q in order && q != path :: wiring[q][c] != wiring[path][c]
    requires forall q | q in Multicast.Remove(order, path) :: q != path
    ensures Multicast.Remove(Subscribed(order, wiring, c), wiring[path][c]) == Subscribed(Multicast.Remove(order, path), wiring - {path}, c)
    ensures wiring[path][c] !in Subscribed(Multicast.Remove(order, path), wiring - {path}, c)
  {
    var order' := Multicast.Remove(order, path);
    RemoveSubscribed(order, wiring, path, c);
    assert forall i | 0 <= i < |order'| :: order'[i] in order';
  }

  /** The other scripts stay wired, and none of them holds a handler of the one that goes. */
  lemma DetachKeepsWiring(loaded: map<string, Script>, wiring: map<string, Wiring>, path: string)
    requires Wired(loaded, wiring) && path in wiring
    requires forall q | q in loaded && q != path :: loaded[q] != loaded[path]
    ensures Wired(loaded - {path}, wiring - {path})
    ensures forall q, c: Channel | q in wiring && q != path :: wiring[q][c] != wiring[path][c]
  {
    forall q, c: Channel | q in wiring && q != path ensures wiring[q][c] != wiring[path][c] {
      assert wiring[q][c].owner == loaded[q];
    }
  }

  /**
    Unloading `path`: `-=` of each of its handlers leaves the others in
    load order and none of its own.
  */
  lemma DetachKeepsRegistry(table: HandlerTable, order: seq<string>, loaded: map<string, Script>, wiring: map<string, Wiring>, path: string, table': HandlerTable)
    requires Wired(loaded, wiring) && Registry(table, order, wiring) && path in wiring
    requires forall q | q in loaded && q != path :: loaded[q] != loaded[path]
    requires forall c: Channel :: c in table' && table'[c] == Multicast.Remove(table[c], wiring[path][c])
    ensures Wired(loaded - {path}, wiring - {path}) && Registry(table', Multicast.Remove(order, path), wiring - {path})
    ensures forall c: Channel :: wiring[path][c] !in table'[c]
  {
    DetachKeepsWiring(loaded, wiring, path);
    RemoveFromOrder(order, wiring, path);
    forall c: Channel ensures table'[c] == Subscribed(Multicast.Remove(order, path), wiring - {path}, c) && wiring[path][c] !in table'[c] {
      DetachChannel(order, wiring, path, c);
    }
  }
}
