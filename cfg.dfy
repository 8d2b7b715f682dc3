/** Configuration resolution (src/config/cfg.rs): every setting is taken
    from the command line when given there, otherwise from the config
    file, otherwise from a built-in default. Argument shapes follow the
    option fields of src/config/cli.rs. */
module Cfg {
  import opened Common
  import opened Text
  import opened Bitcoin

  /** The `txid vout address --fee` arguments of the name commands; `address`
      is the address's `script_pubkey`, which the model takes as given. */
  datatype TxInfo = TxInfo(txid: Txid, vout: nat, address: Script, fee: nat)

  datatype ServerArgs = ServerArgs(bind: Option<string>, indexerDelay: Option<nat>)
  datatype Subcommand = Noop | Util | Name | Index | Server(server: ServerArgs)

  datatype Cli = Cli(
    data: Option<string>,
    cookie: Option<string>,
    rpcUser: Option<string>,
    rpcPass: Option<string>,
    rpcHost: Option<string>,
    rpcPort: Option<nat>,
    network: Option<Network>,
    relays: Option<seq<string>>,
    subcommand: Subcommand)

  datatype RpcFile = RpcFile(
    cookie: Option<string>,
    user: Option<string>,
    password: Option<string>,
    host: Option<string>,
    port: Option<nat>,
    network: Option<Network>)
  datatype NostrFile = NostrFile(relays: Option<seq<string>>)
  datatype ServerFile = ServerFile(bind: Option<string>, indexerDelay: Option<nat>, confirmations: Option<nat>)
  datatype ConfigFile = ConfigFile(data: Option<string>, rpc: RpcFile, nostr: NostrFile, server: ServerFile)

  datatype Config = Config(cli: Cli, file: ConfigFile)

  /** `bitcoincore_rpc::Auth`. */
  datatype Auth = NoAuth | UserPass(user: string, password: string) | CookieFile(path: string)

  const DEFAULT_HOST: string := "127.0.0.1"
  const DEFAULT_DATA: string := "nomen.db"
  const DEFAULT_RELAYS: seq<string> :=
    ["wss://relay.damus.io", "wss://relay.snort.social", "wss://nos.lol", "wss://nostr.orangepill.dev"]
  const DEFAULT_INDEXER_DELAY: nat := 30
  const DEFAULT_CONFIRMATIONS: nat := 3

  /** `Option::or`: the first value when present. */
  function Or<T>(first: Option<T>, second: Option<T>): Option<T> {
    if first.Some? then first else second
  }

  /** `Option::unwrap_or`. */
  function UnwrapOr<T>(o: Option<T>, default: T): T {
    if o.Some? then o.value else default
  }

  function RpcCookie(c: Config): Option<string> {
    Or(c.cli.cookie, c.file.rpc.cookie)
  }

  function RpcUser(c: Config): Option<string> {
    Or(c.cli.rpcUser, c.file.rpc.user)
  }

  function RpcPassword(c: Config): Option<string> {
    Or(c.cli.rpcPass, c.file.rpc.password)
  }

  /** `rpc_port`: the command line's port, else the file's; panics when
      neither source gives one. */
  function RpcPort(c: Config): (r: Result<nat>)
    ensures c.cli.rpcPort.Some? ==> r == Ok(c.cli.rpcPort.value)
    ensures c.cli.rpcPort.None? && c.file.rpc.port.Some? ==> r == Ok(c.file.rpc.port.value)
    ensures r.Err? <==> c.cli.rpcPort.None? && c.file.rpc.port.None?
    ensures r.Err? ==> r.error.Panic?
  {
    var p := Or(c.cli.rpcPort, c.file.rpc.port);
    if p.Some? then Ok(p.value) else Err(Panic("RPC port required"))
  }

  function RpcHost(c: Config): string {
    UnwrapOr(Or(c.cli.rpcHost, c.file.rpc.host), DEFAULT_HOST)
  }

  function Data(c: Config): string {
    UnwrapOr(Or(c.cli.data, c.file.data), DEFAULT_DATA)
  }

  function Relays(c: Config): seq<string> {
    UnwrapOr(Or(c.cli.relays, c.file.nostr.relays), DEFAULT_RELAYS)
  }

  function GetNetwork(c: Config): Network {
    UnwrapOr(Or(c.cli.network, c.file.rpc.network), Network.Bitcoin)
  }

  /** `rpc_auth`: a cookie file wins; otherwise user and password, which
      must then both be configured (`expect` panics); otherwise none. */
  function RpcAuth(c: Config): (r: Result<Auth>)
    ensures RpcCookie(c).Some? ==> r == Ok(CookieFile(RpcCookie(c).value))
    ensures RpcCookie(c).None? && RpcUser(c).Some? && RpcPassword(c).Some? ==>
              r == Ok(UserPass(RpcUser(c).value, RpcPassword(c).value))
    ensures RpcCookie(c).None? && RpcUser(c).None? && RpcPassword(c).None? ==> r == Ok(NoAuth)
    ensures r.Err? <==> RpcCookie(c).None? && RpcUser(c).Some? != RpcPassword(c).Some?
    ensures r.Err? ==> r.error.Panic?
  {
    var cookie := RpcCookie(c);
    if cookie.Some? then Ok(CookieFile(cookie.value))
    else if RpcUser(c).Some? || RpcPassword(c).Some? then
      if RpcUser(c).None? then Err(Panic("RPC user not configured"))
      else if RpcPassword(c).None? then Err(Panic("RPC password not configured"))
      else Ok(UserPass(RpcUser(c).value, RpcPassword(c).value))
    else Ok(NoAuth)
  }

  /** What `rpc_client` hands to `Client::new`: the URL `host:port` and the
      authentication, in that order of evaluation (so a missing port panics
      before an incomplete user/password pair). */
  function RpcClientSettings(c: Config): (r: Result<(string, Auth)>)
    ensures r.Ok? <==> RpcPort(c).Ok? && RpcAuth(c).Ok?
    ensures r.Ok? ==> r.value.0 == RpcHost(c) + ":" + ShowNat(RpcPort(c).value)
    ensures r.Ok? ==> r.value.1 == RpcAuth(c).value
    ensures RpcPort(c).Err? ==> r == Err(RpcPort(c).error)
  {
    var host := RpcHost(c);
    match RpcPort(c)
    case Err(e) => Err(e)
    case Ok(port) =>
      match RpcAuth(c)
      case Err(e) => Err(e)
      case Ok(auth) => Ok((host + ":" + ShowNat(port), auth))
  }

  /** `rpc_client`: the URL and the authentication, then `Client::new` on
      them, whose outcome (`clientNew`) is not part of this model. The port
      and authentication panics come first. */
  function RpcClient(c: Config, clientNew: (string, Auth) -> Result<()>): (r: Result<()>)
    ensures RpcPort(c).Err? ==> r == Err(RpcPort(c).error)
    ensures RpcPort(c).Ok? && RpcAuth(c).Err? ==> r == Err(RpcAuth(c).error)
    ensures RpcPort(c).Ok? && RpcAuth(c).Ok? ==>
      r == clientNew(RpcHost(c) + ":" + ShowNat(RpcPort(c).value), RpcAuth(c).value)
  {
    match RpcClientSettings(c)
    case Err(e) => Err(e)
    case Ok((url, auth)) => clientNew(url, auth)
  }

  /** `starting_block_height`: the first height worth indexing per network. */
  function StartingBlockHeight(c: Config): (h: nat)
    ensures GetNetwork(c) == Network.Bitcoin ==> h == 790500
    ensures GetNetwork(c) == Network.Signet ==> h == 143500
    ensures GetNetwork(c) !in {Network.Bitcoin, Network.Signet} ==> h == 0
  {
    match GetNetwork(c)
    case Bitcoin => 790500
    case Signet => 143500
    case _ => 0
  }

  /** `server_bind`: the CLI value counts only under the `server` subcommand. */
  function ServerBind(c: Config): Option<string> {
    var fromCli := if c.cli.subcommand.Server? then c.cli.subcommand.server.bind else None;
    Or(fromCli, c.file.server.bind)
  }

  function ServerIndexerDelay(c: Config): nat {
    var fromCli := if c.cli.subcommand.Server? then c.cli.subcommand.server.indexerDelay else None;
    UnwrapOr(Or(fromCli, c.file.server.indexerDelay), DEFAULT_INDEXER_DELAY)
  }

  /** `confirmations`: read from the file only, 3 when the file is silent;
      never fails. */
  function Confirmations(c: Config): (r: Result<nat>)
    ensures c.file.server.confirmations.Some? ==> r == Ok(c.file.server.confirmations.value)
    ensures c.file.server.confirmations.None? ==> r == Ok(DEFAULT_CONFIRMATIONS)
  {
    Ok(UnwrapOr(c.file.server.confirmations, DEFAULT_CONFIRMATIONS))
  }

  /** A value given on the command line decides the setting, whatever the
      file says. */
  lemma CliOverridesFile(cli: Cli, f1: ConfigFile, f2: ConfigFile)
    ensures var c1, c2 := Config(cli, f1), Config(cli, f2);
      && (cli.data.Some? ==> Data(c1) == Data(c2) == cli.data.value)
      && (cli.cookie.Some? ==> RpcCookie(c1) == RpcCookie(c2) == cli.cookie)
      && (cli.rpcUser.Some? ==> RpcUser(c1) == RpcUser(c2) == cli.rpcUser)
      && (cli.rpcPass.Some? ==> RpcPassword(c1) == RpcPassword(c2) == cli.rpcPass)
      && (cli.rpcHost.Some? ==> RpcHost(c1) == RpcHost(c2) == cli.rpcHost.value)
      && (cli.rpcPort.Some? ==> RpcPort(c1) == RpcPort(c2) == Ok(cli.rpcPort.value))
      && (cli.network.Some? ==> GetNetwork(c1) == GetNetwork(c2) == cli.network.value)
      && (cli.relays.Some? ==> Relays(c1) == Relays(c2) == cli.relays.value)
  {
  }

  /** Setting by setting, a value missing from the command line is the
      file's, whatever else the command line sets. */
  lemma FileUsedWhenCliAbsent(c: Config)
    ensures c.cli.data.None? && c.file.data.Some? ==> Data(c) == c.file.data.value
    ensures c.cli.cookie.None? ==> RpcCookie(c) == c.file.rpc.cookie
    ensures c.cli.rpcUser.None? ==> RpcUser(c) == c.file.rpc.user
    ensures c.cli.rpcPass.None? ==> RpcPassword(c) == c.file.rpc.password
    ensures c.cli.rpcHost.None? && c.file.rpc.host.Some? ==> RpcHost(c) == c.file.rpc.host.value
    ensures c.cli.rpcPort.None? && c.file.rpc.port.Some? ==> RpcPort(c) == Ok(c.file.rpc.port.value)
    ensures c.cli.network.None? && c.file.rpc.network.Some? ==> GetNetwork(c) == c.file.rpc.network.value
    ensures c.cli.relays.None? && c.file.nostr.relays.Some? ==> Relays(c) == c.file.nostr.relays.value
  {
  }

  /** The built-in defaults, when neither source sets a value. */
  lemma DefaultsWhenUnset(c: Config)
    requires c.cli.data.None? && c.file.data.None?
    requires c.cli.rpcHost.None? && c.file.rpc.host.None?
    requires c.cli.network.None? && c.file.rpc.network.None?
    requires c.cli.relays.None? && c.file.nostr.relays.None?
    requires c.file.server.indexerDelay.None? && c.file.server.confirmations.None?
    ensures Data(c) == "nomen.db" && RpcHost(c) == "127.0.0.1"
    ensures GetNetwork(c) == Network.Bitcoin && StartingBlockHeight(c) == 790500
    ensures Relays(c) == ["wss://relay.damus.io", "wss://relay.snort.social", "wss://nos.lol", "wss://nostr.orangepill.dev"]
    ensures !c.cli.subcommand.Server? || c.cli.subcommand.server.indexerDelay.None? ==> ServerIndexerDelay(c) == 30
    ensures Confirmations(c) == Ok(3)
  {
  }

  /** A configured cookie file decides the authentication: user and password,
      even a half-configured pair that would otherwise panic, are ignored. */
  lemma CookieOverridesUserPass(c: Config, user: Option<string>, pass: Option<string>)
    requires RpcCookie(c).Some?
    ensures var c' := c.(cli := c.cli.(rpcUser := user, rpcPass := pass));
      RpcAuth(c') == RpcAuth(c) == Ok(CookieFile(RpcCookie(c).value))
  {
  }

  /** Only the `server` subcommand's own options reach `server_bind` and
      `server_indexer_delay`; under any other subcommand the file decides. */
  lemma ServerSettingsOutsideServer(c: Config)
    requires !c.cli.subcommand.Server?
    ensures ServerBind(c) == c.file.server.bind
    ensures ServerIndexerDelay(c) == UnwrapOr(c.file.server.indexerDelay, 30)
  {
  }

  /** Under `server`, a CLI value beats the file; a missing one falls back
      to the file, then to the default delay. */
  lemma ServerSettingsUnderServer(c: Config)
    requires c.cli.subcommand.Server?
    ensures c.cli.subcommand.server.bind.Some? ==> ServerBind(c) == c.cli.subcommand.server.bind
    ensures c.cli.subcommand.server.bind.None? ==> ServerBind(c) == c.file.server.bind
    ensures c.cli.subcommand.server.indexerDelay.Some? ==>
              ServerIndexerDelay(c) == c.cli.subcommand.server.indexerDelay.value
    ensures c.cli.subcommand.server.indexerDelay.None? ==>
              ServerIndexerDelay(c) == UnwrapOr(c.file.server.indexerDelay, 30)
  {
  }

  /** The confirmation depth ignores the command line entirely. */
  lemma ConfirmationsIgnoreCli(c: Config, cli: Cli)
    ensures Confirmations(Config(cli, c.file)) == Confirmations(c)
  {
  }
}
