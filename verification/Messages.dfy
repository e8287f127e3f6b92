/** Messages and settings that travel between SQL backends, the launcher and the subscribers. */
module Messages {
  import opened Bytes

  type Oid = x: int | 0 <= x < 0x1_0000_0000

  datatype NatsTlsOptions =
    | Tls(ca: string)
    | MutualTls(ca: string, cert: string, key: string)

  datatype NatsConnectionOptions = NatsConnectionOptions(
    host: string, port: nat, capacity: nat, tls: Option<NatsTlsOptions>)

  datatype Config = Config(natsOpt: NatsConnectionOptions, notifySubject: string, patroniUrl: Option<string>)

  datatype ExtensionStatus = Exist | NoExtension | NoForeignServer

  datatype LauncherMessage =
    | DbExtensionStatus(dbOid: Oid, status: ExtensionStatus)
    | LauncherNewConfig(dbOid: Oid, config: Config)
    | LauncherSubscribe(dbOid: Oid, subject: string, fnName: string)
    | LauncherUnsubscribe(dbOid: Oid, subject: string, fnName: string)
    | SubscriberExit(dbOid: Oid, failure: Option<string>)
    | ForeignServerDropped(dbOid: Oid)

  datatype SubscriberMessage =
    | NewConfig(config: Config)
    | Subscribe(subject: string, fnName: string)
    | Unsubscribe(subject: string, fnName: string)

  /** A buffer that does not decode is `None`. */
  type Decoder = seq<byte> -> Option<LauncherMessage>
}
