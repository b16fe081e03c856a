/** The command dispatcher: which collaborator each command starts, and with which
    arguments. Running the collaborators (protocol sessions, threads, the validator's
    database, the leader-log computation) is not modelled; `Start` returns the plan. */
module NodeClient {
  import opened Results
  import LedgerSets
  import MuxProtocol

  type Path = string

  /** `PathBuf::new()` and `String::new()`. */
  const Empty: string := ""

  /** The network magic of Cardano mainnet, which every tip-reporting session uses. */
  const MainnetMagic: MuxProtocol.U32 := 764824073

  /** One pool whose chain tip is reported. */
  datatype Pool = Pool(name: string, poolId: string, host: string, port: MuxProtocol.U16)

  /** The decoded tip-reporting configuration: shared credentials and the pools. */
  datatype PooltoolConfig = PooltoolConfig(apiKey: string, nodeVersion: string, pools: seq<Pool>)

  datatype Command =
    | Ping(host: string, port: MuxProtocol.U16, networkMagic: MuxProtocol.U32)
    | Validate(hash: string, db: Path)
    | Sync(db: Path, host: string, port: MuxProtocol.U16, networkMagic: MuxProtocol.U32)
    | Leaderlog(
        db: Path, byronGenesis: Path, shelleyGenesis: Path, ledgerState: Path,
        ledgerSet: LedgerSets.LedgerSet, poolId: string, poolVrfSkey: Path)
    | Sendtip(config: Path)

  /** What a command starts. */
  datatype Plan =
      /** Protocol sessions, in the order they are started. */
    | Launch(sessions: seq<MuxProtocol.Session>)
      /** The block validator, with its database path and hash. */
    | ValidateCall(db: Path, hash: string)
      /** The leader-log computation, with the command's arguments. */
    | LeaderlogCall(
        db: Path, byronGenesis: Path, shelleyGenesis: Path, ledgerState: Path,
        ledgerSet: LedgerSets.LedgerSet, poolId: string, poolVrfSkey: Path)
      /** The configuration file could not be opened or decoded: the process panics. */
    | ConfigPanic(config: Path)

  /** The pool a tip-reporting session reports for. */
  function PoolOf(s: MuxProtocol.Session): Pool {
    Pool(s.poolName, s.poolId, s.host, s.port)
  }

  function PoolsOf(ss: seq<MuxProtocol.Session>): (ps: seq<Pool>)
    ensures |ps| == |ss|
    ensures forall i :: 0 <= i < |ss| ==> ps[i] == PoolOf(ss[i])
    decreases |ss|
  {
    if |ss| == 0 then [] else [PoolOf(ss[0])] + PoolsOf(ss[1..])
  }

  /** The session started for one pool: it reports that pool's tip with the shared
      credentials, on mainnet, without a database. */
  function TipSession(apiKey: string, nodeVersion: string, pool: Pool): (s: MuxProtocol.Session)
    ensures PoolOf(s) == pool
    ensures s.cmd == MuxProtocol.SendTip && s.db == Empty
    ensures s.networkMagic == MainnetMagic
    ensures s.apiKey == apiKey && s.nodeVersion == nodeVersion
  {
    MuxProtocol.Session(
      MuxProtocol.SendTip, Empty, pool.host, pool.port, 764824073,
      apiKey, nodeVersion, pool.name, pool.poolId)
  }

  /** One tip-reporting session per configured pool, in configuration order. */
  function SendtipSessions(apiKey: string, nodeVersion: string, pools: seq<Pool>): (ss: seq<MuxProtocol.Session>)
    ensures |ss| == |pools|
    ensures forall i :: 0 <= i < |ss| ==> ss[i] == TipSession(apiKey, nodeVersion, pools[i])
    decreases |pools|
  {
    if |pools| == 0 then []
    else [TipSession(apiKey, nodeVersion, pools[0])] + SendtipSessions(apiKey, nodeVersion, pools[1..])
  }

  /** `start`. `decodeConfig` stands for opening and decoding the tip-reporting
      configuration file at a path; `None` means either step failed. */
  function Start(cmd: Command, decodeConfig: Path -> Option<PooltoolConfig>): (plan: Plan)
    ensures cmd.Ping? ==>
      && plan.Launch? && |plan.sessions| == 1
      && plan.sessions[0].cmd == MuxProtocol.Ping
      && plan.sessions[0].db == Empty
      && plan.sessions[0].host == cmd.host
      && plan.sessions[0].port == cmd.port
      && plan.sessions[0].networkMagic == cmd.networkMagic
      && plan.sessions[0].apiKey == plan.sessions[0].nodeVersion == Empty
      && plan.sessions[0].poolName == plan.sessions[0].poolId == Empty
    ensures cmd.Sync? ==>
      && plan.Launch? && |plan.sessions| == 1
      && plan.sessions[0].cmd == MuxProtocol.Sync
      && plan.sessions[0].db == cmd.db
      && plan.sessions[0].host == cmd.host
      && plan.sessions[0].port == cmd.port
      && plan.sessions[0].networkMagic == cmd.networkMagic
      && plan.sessions[0].apiKey == plan.sessions[0].nodeVersion == Empty
      && plan.sessions[0].poolName == plan.sessions[0].poolId == Empty
    ensures cmd.Validate? ==> plan == ValidateCall(cmd.db, cmd.hash)
    ensures cmd.Leaderlog? ==> plan == LeaderlogCall(
      cmd.db, cmd.byronGenesis, cmd.shelleyGenesis, cmd.ledgerState,
      cmd.ledgerSet, cmd.poolId, cmd.poolVrfSkey)
    ensures cmd.Sendtip? && decodeConfig(cmd.config).None? ==> plan == ConfigPanic(cmd.config)
    ensures cmd.Sendtip? && decodeConfig(cmd.config).Some? ==>
      var config := decodeConfig(cmd.config).value;
      && plan.Launch?
      && |plan.sessions| == |config.pools|
      && forall i :: 0 <= i < |plan.sessions| ==>
           && plan.sessions[i].cmd == MuxProtocol.SendTip
           && PoolOf(plan.sessions[i]) == config.pools[i]
           && plan.sessions[i].networkMagic == MainnetMagic
           && plan.sessions[i].apiKey == config.apiKey
           && plan.sessions[i].nodeVersion == config.nodeVersion
           && plan.sessions[i].db == Empty
  {
    match cmd
    case Ping(host, port, networkMagic) =>
      Launch([MuxProtocol.Session(MuxProtocol.Ping, Empty, host, port, networkMagic, Empty, Empty, Empty, Empty)])
    case Validate(hash, db) =>
      ValidateCall(db, hash)
    case Sync(db, host, port, networkMagic) =>
      Launch([MuxProtocol.Session(MuxProtocol.Sync, db, host, port, networkMagic, Empty, Empty, Empty, Empty)])
    case Leaderlog(db, byronGenesis, shelleyGenesis, ledgerState, ledgerSet, poolId, poolVrfSkey) =>
      LeaderlogCall(db, byronGenesis, shelleyGenesis, ledgerState, ledgerSet, poolId, poolVrfSkey)
    case Sendtip(config) =>
      match decodeConfig(config)
      case None => ConfigPanic(config)
      case Some(c) => Launch(SendtipSessions(c.apiKey, c.nodeVersion, c.pools))
  }

  /** The command a ping or sync session was started for, read off its arguments. */
  function CommandOf(s: MuxProtocol.Session): Option<Command> {
    match s.cmd
    case Ping => Some(Ping(s.host, s.port, s.networkMagic))
    case Sync => Some(Sync(s.db, s.host, s.port, s.networkMagic))
    case SendTip => None
  }

  /** A ping or sync command starts one session whose arguments determine the command:
      nothing the user gave is dropped or altered on the way. */
  lemma PingSyncSessionRecoversCommand(cmd: Command, decodeConfig: Path -> Option<PooltoolConfig>)
    requires cmd.Ping? || cmd.Sync?
    ensures Start(cmd, decodeConfig).Launch?
    ensures |Start(cmd, decodeConfig).sessions| == 1
    ensures CommandOf(Start(cmd, decodeConfig).sessions[0]) == Some(cmd)
  {
  }

  /** The pools of the tip-reporting sessions are exactly the configured pools, in order. */
  lemma SendtipRecoversPools(cmd: Command, decodeConfig: Path -> Option<PooltoolConfig>)
    requires cmd.Sendtip? && decodeConfig(cmd.config).Some?
    ensures Start(cmd, decodeConfig).Launch?
    ensures PoolsOf(Start(cmd, decodeConfig).sessions) == decodeConfig(cmd.config).value.pools
  {
  }
}
