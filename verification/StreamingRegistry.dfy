/** The registries of streaming clients and appliers of one server, and the passage of a prepared
    XA transaction from the first to the second. */
module StreamingRegistry {
  import opened TransactionStates
  import opened Applying

  /** A streaming transaction of a local client: id and stored fragments. */
  datatype ClientTrx = ClientTrx(id: nat, fragments: seq<nat>)

  /** A transaction in the hands of an applier: fragments and whether it is prepared. */
  datatype ApplierTrx = ApplierTrx(fragments: seq<nat>, prepared: bool)

  class Registry {
    const self: nat                        // id of this server
    var clients: map<nat, ClientTrx>       // streaming_clients_
    var appliers: map<Key, ApplierTrx>     // streaming_appliers_
    var disconnected: bool
    var assertionFailed: bool

    constructor (self: nat)
      ensures this.self == self && clients == map[] && appliers == map[] && !disconnected && !assertionFailed
    {
      this.self := self;
      clients, appliers, disconnected, assertionFailed := map[], map[], false, false;
    }

    /** start_streaming_client(): an insertion, which the source asserts to be new. */
    method StartStreamingClient(client: nat, trx: ClientTrx)
      modifies `clients, `assertionFailed
      ensures clients == if client in old(clients) then old(clients) else old(clients)[client := trx]
      ensures assertionFailed <==> old(assertionFailed) || client in old(clients)
    {
      if client in clients {
        assertionFailed := true;
      } else {
        clients := clients[client := trx];
      }
    }

    /** stop_streaming_client(): a removal, of which the source asserts that there is something to remove. */
    method StopStreamingClient(client: nat)
      modifies `clients, `assertionFailed
      ensures clients == old(clients) - {client}
      ensures assertionFailed <==> old(assertionFailed) || client !in old(clients)
    {
      if client !in clients { assertionFailed := true; }
      clients := clients - {client};
    }

    /** convert_streaming_client_to_applier(): the client always leaves; the applier comes in under
        the same server and transaction id unless the server is disconnected or adopting fails; an
        assertion fails exactly if there is one already. */
    method ConvertToApplier(client: nat, prepared: bool, adoptFails: bool)
      requires client in clients
      modifies `clients, `appliers, `assertionFailed
      ensures clients == old(clients) - {client}
      ensures var trx := old(clients)[client]; var key := Key(self, trx.id);
        && (appliers == if disconnected || adoptFails || key in old(appliers) then old(appliers)
            else old(appliers)[key := ApplierTrx(trx.fragments, prepared)])
        && (assertionFailed <==> old(assertionFailed) || (!disconnected && !adoptFails && key in old(appliers)))
    {
      var trx := clients[client];
      var key := Key(self, trx.id);
      clients := clients - {client};
      if !disconnected && !adoptFails {
        if key in appliers {
          assertionFailed := true;
        } else {
          appliers := appliers[key := ApplierTrx(trx.fragments, prepared)];
        }
      }
    }

    /** client_service::replay_unordered(): the applier prepares the transaction again. */
    method ReplayUnordered(key: Key)
      requires key in appliers
      modifies `appliers
      ensures appliers == old(appliers)[key := old(appliers)[key].(prepared := true)]
    {
      appliers := appliers[key := appliers[key].(prepared := true)];
    }
  }

  /** How the client of a prepared XA transaction loses it: it detaches, a BF abort finds it idle,
      or a BF abort is noticed by an after-command hook. */
  datatype Way = Detach | IdleReplay | AfterCommandReplay

  /** A prepared XA transaction of a local client. */
  class PreparedXa {
    const client: nat
    const registry: Registry
    var st: TxState
    var past: History
    var active: bool
    var totalOrder: bool       // bf_aborted_in_total_order_
    var inStorage: bool        // the fragments are in the fragment storage

    /** The transaction is still with its client. */
    ghost predicate Valid()
      reads this, registry
    {
      LegalHistory(past, st) && active && client in registry.clients
    }

    /** A streaming client whose XA transaction has just been prepared. */
    constructor (registry: Registry, client: nat)
      requires client in registry.clients
      ensures Valid() && this.registry == registry && this.client == client
      ensures st.Prepared? && past.NoPast? && !totalOrder && inStorage
    {
      this.registry, this.client := registry, client;
      st, past, active, totalOrder, inStorage := Prepared, NoPast, true, false, true;
    }

    method SetState(next: TxState)
      requires Allowed(st, next) && LegalHistory(past, st)
      modifies `st, `past
      ensures st == next && past == After(old(past), old(st)) && LegalHistory(past, st)
    {
      past := After(past, st);
      st := next;
    }

    /** xa_detach(). */
    method XaDetach(adoptFails: bool)
      requires Valid() && st.Prepared?
      modifies this, registry`clients, registry`appliers, registry`assertionFailed
      ensures Handed(
        old(registry.clients), old(registry.appliers), old(registry.assertionFailed), registry, client, adoptFails)
      ensures !active && st.Aborted? && LegalHistory(past, st) && inStorage == old(inStorage)
    {
      registry.ConvertToApplier(client, true, adoptFails);
      SetState(Aborting);
      SetState(Aborted);
      active := false;
    }

    /** bf_abort() or total_order_bf_abort() of a prepared transaction; an idle client is bound for
        replay at once. */
    method BfAbort(idle: bool, inTotalOrder: bool)
      requires Valid() && st.Prepared?
      modifies this
      ensures Valid() && st == (if idle then MustReplay else MustAbort)
      ensures totalOrder == inTotalOrder && inStorage == old(inStorage)
    {
      totalOrder := inTotalOrder;
      SetState(MustAbort);
      if idle { SetState(MustReplay); }
    }

    /** before_rollback() and after_rollback() of a transaction bound for replay: only a total order
        abort has its fragments removed. */
    method BfRollback()
      requires Valid() && st.MustReplay?
      modifies this
      ensures Valid() && st == old(st) && past == old(past) && totalOrder == old(totalOrder)
      ensures inStorage == (old(inStorage) && !totalOrder)
    {
      if totalOrder { inStorage := false; }
    }

    /** after_command_must_abort(). */
    method AfterCommandMustAbort(adoptFails: bool)
      requires Valid() && st.MustAbort?
      modifies this, registry`clients, registry`appliers, registry`assertionFailed
      ensures Handed(
        old(registry.clients), old(registry.appliers), old(registry.assertionFailed), registry, client, adoptFails)
      ensures !active && st.Aborted? && LegalHistory(past, st) && inStorage == (old(inStorage) && !old(totalOrder))
    {
      SetState(MustReplay);
      BfRollback();
      XaReplay(adoptFails);
    }

    /** xa_replay(). */
    method XaReplay(adoptFails: bool)
      requires Valid() && st.MustReplay?
      modifies this, registry`clients, registry`appliers, registry`assertionFailed
      ensures Handed(
        old(registry.clients), old(registry.appliers), old(registry.assertionFailed), registry, client, adoptFails)
      ensures !active && st.Aborted? && LegalHistory(past, st) && inStorage == old(inStorage)
    {
      SetState(Replaying);
      var key := Key(registry.self, registry.clients[client].id);
      var wasThere := key in registry.appliers;
      registry.ConvertToApplier(client, false, adoptFails);
      if key in registry.appliers && !wasThere { registry.ReplayUnordered(key); }
      SetState(Aborted);
      active := false;
    }
  }

  /** The client has left, and exactly one applier has come in, prepared, under the same server and
      transaction id and with the same fragment list; only an applier that was there fails an assertion. */
  ghost predicate Handed(
    clients: map<nat, ClientTrx>, appliers: map<Key, ApplierTrx>, failed: bool,
    after: Registry, client: nat, adoptFails: bool)
    reads after
  {
    && client in clients && after.clients == clients - {client}
    && var key := Key(after.self, clients[client].id);
       && (after.appliers ==
           if after.disconnected || adoptFails || key in appliers then appliers
           else appliers[key := ApplierTrx(clients[client].fragments, true)])
       && (after.assertionFailed <==> failed || (!after.disconnected && !adoptFails && key in appliers))
  }

  /** Whichever way the client loses a prepared XA transaction, on a connected server with adopting
      succeeding it is found among the appliers with its fragments, which are still in storage, and
      nothing else has changed; unless its id is already taken, which fails an assertion. */
  method PreparedXaIsNeverLost(registry: Registry, client: nat, way: Way) returns (xa: PreparedXa)
    requires client in registry.clients && !registry.disconnected && !registry.assertionFailed
    modifies registry`clients, registry`appliers, registry`assertionFailed
    ensures registry.clients == old(registry.clients) - {client} && xa.st.Aborted? && xa.inStorage
    ensures var trx := old(registry.clients)[client]; var key := Key(registry.self, trx.id);
      if key in old(registry.appliers) then registry.assertionFailed && registry.appliers == old(registry.appliers)
      else
        && !registry.assertionFailed && key in registry.appliers
        && registry.appliers[key] == ApplierTrx(trx.fragments, true)
        && registry.appliers - {key} == old(registry.appliers)
  {
    xa := new PreparedXa(registry, client);
    match way {
      case Detach => xa.XaDetach(false);
      case IdleReplay =>
        xa.BfAbort(true, false);
        xa.XaReplay(false);
      case AfterCommandReplay =>
        xa.BfAbort(false, false);
        xa.AfterCommandMustAbort(false);
    }
    ghost var key := Key(registry.self, old(registry.clients)[client].id);
    assert key !in old(registry.appliers) ==> registry.appliers - {key} == old(registry.appliers);
  }
}
