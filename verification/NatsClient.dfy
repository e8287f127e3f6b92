/** `src/nats_client.rs`: one lazily opened connection and the handles cached on it. */
module NatsClient {
  import opened Bytes
  import opened Messages

  /** A connection remembers what it was opened with; a context or handle, the connection it is on. */
  datatype Connection = Connection(id: nat, opts: NatsConnectionOptions)
  datatype JetStream = JetStream(on: Connection)
  datatype Store = Store(name: string, on: Connection)

  /** Which identity a connection with these options gets, if it can be opened. */
  type Dial = NatsConnectionOptions -> Option<nat>

  /** How the server answers for a bucket: it exists, or is created, or neither. */
  datatype BucketAnswer = Exists | Created | Unavailable

  class NatsClient {
    var connection: Option<Connection>
    var jetstream: Option<JetStream>
    var cachedBuckets: map<string, Store>
    var cachedObjectStores: map<string, Store>
    var currentConfig: Option<Config>

    /**
      A connection and its context come and go together; they were opened with the present
      settings, and every cached bucket is on that connection. Nothing is said of object stores.
     */
    ghost predicate Valid()
      reads this
    {
      && (connection.Some? <==> jetstream.Some?)
      && (connection.Some? ==>
            && currentConfig.Some?
            && connection.value.opts == currentConfig.value.natsOpt
            && jetstream.value.on == connection.value)
      && (forall b :: b in cachedBuckets ==> connection.Some? && cachedBuckets[b] == Store(b, connection.value))
    }

    constructor (config: Option<Config>)
      ensures Valid()
      ensures connection.None? && currentConfig == config && cachedObjectStores == map[]
    {
      connection, jetstream, currentConfig := None, None, config;
      cachedBuckets, cachedObjectStores := map[], map[];
    }

    /** `fetched` is what the settings would be read as now; it is used only when none are held. */
    method InitializeConnection(fetched: Config, dial: Dial) returns (ok: bool)
      requires Valid() && connection.None?
      modifies this
      ensures Valid()
      ensures ok == connection.Some?
      ensures ok == dial(Used(old(currentConfig), fetched).natsOpt).Some?
      ensures ok ==> connection.value.id == dial(Used(old(currentConfig), fetched).natsOpt).value
      ensures currentConfig == if ok then Some(Used(old(currentConfig), fetched)) else None
      ensures cachedBuckets == old(cachedBuckets) && cachedObjectStores == old(cachedObjectStores)
    {
      var config := Used(currentConfig, fetched);
      currentConfig := Some(config);
      var dialed := dial(config.natsOpt);
      if dialed.None? {
        currentConfig := None;
        return false;
      }
      connection := Some(Connection(dialed.value, config.natsOpt));
      jetstream := Some(JetStream(connection.value));
      return true;
    }

    /** An open connection is used as it is; the result is never missing after success. */
    method GetConnection(fetched: Config, dial: Dial) returns (conn: Option<Connection>)
      requires Valid()
      modifies this
      ensures Valid()
      ensures conn == connection
      ensures old(connection).Some? ==> connection == old(connection) && currentConfig == old(currentConfig)
      ensures currentConfig == if connection.Some? then Some(Used(old(currentConfig), fetched)) else None
      ensures old(connection).None? ==>
                var dialed := dial(Used(old(currentConfig), fetched).natsOpt);
                (connection.Some? <==> dialed.Some?) && (connection.Some? ==> connection.value.id == dialed.value)
      ensures cachedBuckets == old(cachedBuckets) && cachedObjectStores == old(cachedObjectStores)
    {
      if connection.None? {
        var ok := InitializeConnection(fetched, dial);
        if !ok {
          return None;
        }
      }
      return connection;
    }

    /** It asks for the connection, and relies on the context being there with it. */
    method GetJetstream(fetched: Config, dial: Dial) returns (js: Option<JetStream>)
      requires Valid()
      modifies this
      ensures Valid()
      ensures js == jetstream
      ensures old(connection).Some? ==> connection == old(connection) && currentConfig == old(currentConfig)
      ensures old(connection).None? ==>
                var dialed := dial(Used(old(currentConfig), fetched).natsOpt);
                && (connection.Some? <==> dialed.Some?)
                && (connection.Some? ==> connection.value.id == dialed.value)
                && currentConfig == if dialed.Some? then Some(Used(old(currentConfig), fetched)) else None
      ensures cachedBuckets == old(cachedBuckets) && cachedObjectStores == old(cachedObjectStores)
    {
      if connection.None? {
        var ok := InitializeConnection(fetched, dial);
        if !ok {
          return None;
        }
      }
      return Some(jetstream.value);
    }

    /**
      A bucket handed out is always on the connection then open, cached or not. One that is not in
      the cache is asked of the server, over a connection that is opened if there is none.
     */
    method GetOrCreateBucket(bucket: string, fetched: Config, dial: Dial, answer: BucketAnswer)
      returns (store: Option<Store>)
      requires Valid()
      modifies this
      ensures Valid()
      ensures store.Some? ==> connection.Some? && store.value == Store(bucket, connection.value)
      ensures store.Some? <==> bucket in cachedBuckets
      ensures bucket in old(cachedBuckets) ==> store.Some? && connection == old(connection)
      ensures bucket !in old(cachedBuckets) ==> (store.Some? <==> connection.Some? && answer != Unavailable)
      ensures old(connection).None? ==>
                var dialed := dial(Used(old(currentConfig), fetched).natsOpt);
                && (connection.Some? <==> dialed.Some?)
                && (connection.Some? ==> connection.value.id == dialed.value)
                && currentConfig == if dialed.Some? then Some(Used(old(currentConfig), fetched)) else None
      ensures old(connection).Some? ==> connection == old(connection) && currentConfig == old(currentConfig)
      ensures cachedBuckets == if store.Some? then old(cachedBuckets)[bucket := store.value] else old(cachedBuckets)
      ensures cachedObjectStores == old(cachedObjectStores)
    {
      if bucket !in cachedBuckets {
        var js := GetJetstream(fetched, dial);
        if js.None? || answer == Unavailable {
          return None;
        }
        cachedBuckets := cachedBuckets[bucket := Store(bucket, js.value.on)];
      }
      return Some(cachedBuckets[bucket]);
    }

    /** An object store is handed out of the cache even if its connection is gone. */
    method GetOrCreateObjectStore(name: string, fetched: Config, dial: Dial, answer: BucketAnswer)
      returns (store: Option<Store>)
      requires Valid()
      modifies this
      ensures Valid()
      ensures name in old(cachedObjectStores) ==>
                store == Some(old(cachedObjectStores)[name]) && connection == old(connection)
                && currentConfig == old(currentConfig)
      ensures name !in old(cachedObjectStores) ==> (store.Some? <==> connection.Some? && answer != Unavailable)
      ensures name !in old(cachedObjectStores) && store.Some? ==> store.value == Store(name, connection.value)
      ensures name !in old(cachedObjectStores) && old(connection).None? ==>
                var dialed := dial(Used(old(currentConfig), fetched).natsOpt);
                && (connection.Some? <==> dialed.Some?)
                && (connection.Some? ==> connection.value.id == dialed.value)
                && currentConfig == if dialed.Some? then Some(Used(old(currentConfig), fetched)) else None
      ensures old(connection).Some? ==> connection == old(connection) && currentConfig == old(currentConfig)
      ensures cachedObjectStores
           == if store.Some? then old(cachedObjectStores)[name := store.value] else old(cachedObjectStores)
      ensures cachedBuckets == old(cachedBuckets)
    {
      if name !in cachedObjectStores {
        var js := GetJetstream(fetched, dial);
        if js.None? || answer == Unavailable {
          return None;
        }
        cachedObjectStores := cachedObjectStores[name := Store(name, js.value.on)];
      }
      return Some(cachedObjectStores[name]);
    }

    method InvalidateConnection() returns (drained: Option<Connection>)
      requires Valid()
      modifies this
      ensures Valid()
      ensures connection.None? && currentConfig.None? && cachedBuckets == map[]
      ensures drained == old(connection)
      ensures cachedObjectStores == old(cachedObjectStores)
    {
      drained := connection;
      connection := None;
      cachedBuckets := map[];
      jetstream := None;
      currentConfig := None;
    }

    /** Afterwards no connection is open but one with the new options; one with them is kept. */
    method CheckAndInvalidateConnection(newConfig: Config)
      requires Valid()
      modifies this
      ensures Valid()
      ensures currentConfig.Some? && currentConfig.value.natsOpt == newConfig.natsOpt
      ensures connection.Some? ==> connection.value.opts == newConfig.natsOpt
      ensures connection == if old(connection).Some? && old(connection).value.opts == newConfig.natsOpt
                            then old(connection) else None
      ensures var same := old(currentConfig).Some? && old(currentConfig).value.natsOpt == newConfig.natsOpt;
              && currentConfig == (if same then old(currentConfig) else Some(newConfig))
              && cachedBuckets == if same then old(cachedBuckets) else map[]
      ensures cachedObjectStores == old(cachedObjectStores)
    {
      var changed := currentConfig.None? || currentConfig.value.natsOpt != newConfig.natsOpt;
      if changed {
        var _ := InvalidateConnection();
        currentConfig := Some(newConfig);
      }
    }
  }

  /**
    The first lookup of a session connects by itself: from a new client, a bucket is handed out if
    and only if the settings can be connected to and the server has it or makes it. Settings that
    cannot be connected to are forgotten, and the next lookup reads them anew.
   */
  method FirstBucket(config: Option<Config>, bucket: string, fetched: Config, dial: Dial, answer: BucketAnswer)
    returns (store: Option<Store>, client: NatsClient)
    ensures fresh(client) && client.Valid()
    ensures var used := if config.Some? then config.value else fetched;
            && (store.Some? <==> dial(used.natsOpt).Some? && answer != Unavailable)
            && (store.Some? ==> store.value == Store(bucket, Connection(dial(used.natsOpt).value, used.natsOpt)))
            && (dial(used.natsOpt).None? ==> client.currentConfig.None? && client.connection.None?)
  {
    client := new NatsClient(config);
    store := client.GetOrCreateBucket(bucket, fetched, dial, answer);
  }

  /** The settings already held, or those fetched: `get_or_insert_with`. */
  function Used(current: Option<Config>, fetched: Config): Config {
    if current.Some? then current.value else fetched
  }

  /** The open connection is kept when these settings are taken over. */
  predicate Keeps(connection: Option<Connection>, newConfig: Config) {
    connection.Some? && connection.value.opts == newConfig.natsOpt
  }

  /**
    Object stores outlive their connection. For any client with the store in its cache: after new
    settings are taken over, the handle served is on the connection then open if and only if it was
    on the open connection before and the options stayed the same. A connection that is opened
    anew is not the one the handle is on.
   */
  method ObjectStoreAfterTakeover(client: NatsClient, name: string, newConfig: Config, dial: Dial)
    returns (store: Option<Store>, conn: Option<Connection>)
    requires client.Valid() && name in client.cachedObjectStores
    requires !Keeps(client.connection, newConfig) && dial(newConfig.natsOpt).Some? ==>
               Connection(dial(newConfig.natsOpt).value, newConfig.natsOpt) != client.cachedObjectStores[name].on
    modifies client
    ensures client.Valid()
    ensures store == Some(old(client.cachedObjectStores)[name])
    ensures conn == client.connection
    ensures conn.Some? <==> Keeps(old(client.connection), newConfig) || dial(newConfig.natsOpt).Some?
    ensures conn.Some? ==> conn.value.opts == newConfig.natsOpt
    ensures conn == Some(store.value.on)
       <==> old(client.connection) == Some(store.value.on) && store.value.on.opts == newConfig.natsOpt
  {
    client.CheckAndInvalidateConnection(newConfig);
    conn := client.GetConnection(newConfig, dial);
    store := client.GetOrCreateObjectStore(name, newConfig, dial, Exists);
  }

  /** The same from a new client that opened the store under its first settings. */
  method StaleObjectStore(name: string, first: Config, second: Config, dial: Dial)
    returns (store: Option<Store>, conn: Option<Connection>)
    requires dial(first.natsOpt).Some? && dial(second.natsOpt).Some?
    ensures store.Some? && conn.Some?
    ensures store.value.on.opts == first.natsOpt && conn.value.opts == second.natsOpt
    ensures store.value.on == conn.value <==> first.natsOpt == second.natsOpt
  {
    var client := new NatsClient(Some(first));
    conn := client.GetConnection(first, dial);
    store := client.GetOrCreateObjectStore(name, first, dial, Exists);
    store, conn := ObjectStoreAfterTakeover(client, name, second, dial);
  }
}
