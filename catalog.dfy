/** The operation catalog of command-line-interact/index.js: the per-chain
    configuration record, the bound contract handle, and the fixed mapping
    from each domain operation to one contract invocation (a signed send or a
    read-only call) with its ABI method name and positional arguments. */
module Catalog {
  import opened Wrappers

  /** One chain's entry in the configuration (`config.get(chainName)`). */
  datatype NetworkConfig = NetworkConfig(
    chainId: int,
    nodeAddress: string,
    abi: string,
    starportContractAddress: string,
    crossChainContractAddress: string,
    interfaceName: string)

  /** The contract object bound by `init`: the node it talks to, the ABI it
      was built from (the ABI file's path stands for its parsed contents) and
      the address of the deployed Starport contract. */
  datatype Handle = Handle(nodeAddress: string, abi: string, address: string)

  /** Binding the contract of a chain: `new Web3(nodeAddress)` and
      `new web3.eth.Contract(abi, starportContractAddress)`; the handle
      targets the Starport contract, not the cross-chain contract. */
  function Bind(cfg: NetworkConfig): (h: Handle)
    ensures h.address == cfg.starportContractAddress
    ensures h.nodeAddress == cfg.nodeAddress && h.abi == cfg.abi
  {
    Handle(cfg.nodeAddress, cfg.abi, cfg.starportContractAddress)
  }

  /** What every wrapper reads from the module-level state: the source
      chain's configuration, its bound contract, and the private key loaded
      once at start-up. */
  datatype Context = Context(netConfig: NetworkConfig, contract: Handle, privateKey: string)

  /** One element of the `setStarports` tuple list; `starportId` is
      `undefined` when the text had no `|`. */
  datatype Starport = Starport(galaxy: string, starportId: Option<string>)

  /** A positional argument of an invocation. */
  datatype Arg = Text(s: string) | Undefined | Starports(list: seq<Starport>)

  /** What `ethereum.sendTransaction` and `ethereum.contractCall` are asked
      to do: a signed transaction on the source chain, or a read. */
  datatype Invocation =
    | Send(contract: Handle, chainId: int, name: string, privateKey: string, args: seq<Arg>)
    | Call(contract: Handle, name: string, args: seq<Arg>)

  /** The domain operations, with their arguments as the dispatcher hands
      them over. */
  datatype Op =
    | Initialize
    | RegisterDestContract(destChain: string, destAddress: string, dock: Option<string>)
    | Trek(shipId: string, receiver: string, toChain: string)
    | GetShipInfo(shipId: string)
    | BalanceOf(account: string)
    | SynthesizeDiamond(shipId: string, amount: string)
    | GetDiamond
    | CreateStarship(to: string, shipType: string)
    | SetStarports(starports: seq<Starport>)
    | GetStarports
    | SettleReward(shipId: string)
  {
    /** The three operations that read through `contractCall`. */
    predicate IsQuery()
    {
      GetShipInfo? || BalanceOf? || GetStarports?
    }
  }

  /** The key of the message-receiving method in an interface table
      (`METHOD_KEY_NAME`). */
  const DockKey := "dock"

  /** A signed send from the context's key on the context's chain. */
  function Sign(ctx: Context, name: string, args: seq<Arg>): Invocation
  {
    Send(ctx.contract, ctx.netConfig.chainId, name, ctx.privateKey, args)
  }

  /** A read-only call on the context's contract. */
  function Read(ctx: Context, name: string, args: seq<Arg>): Invocation
  {
    Call(ctx.contract, name, args)
  }

  function OptionalText(v: Option<string>): Arg
  {
    match v
    case Some(s) => Text(s)
    case None => Undefined
  }

  /** The wrapper functions `initialize` ... `settleReward`: each operation
      becomes exactly one invocation of the bound contract; only the three
      queries are unsigned calls, and every send is signed with the one
      loaded key on the source chain's id. */
  function Invoke(op: Op, ctx: Context): (r: Invocation)
    ensures r.Call? <==> op.IsQuery()
    ensures r.contract == ctx.contract
    ensures r.Send? ==> r.chainId == ctx.netConfig.chainId && r.privateKey == ctx.privateKey
    ensures op.Initialize? ==> r.args == [Text(ctx.netConfig.crossChainContractAddress)]
  {
    match op
    case Initialize =>
      Sign(ctx, "setCrossChainContract", [Text(ctx.netConfig.crossChainContractAddress)])
    case RegisterDestContract(destChain, destAddress, dock) =>
      Sign(ctx, "registerDestContract", [Text(DockKey), Text(destChain), Text(destAddress), OptionalText(dock)])
    case Trek(shipId, receiver, toChain) =>
      Sign(ctx, "trek", [Text(shipId), Text(receiver), Text(toChain)])
    case GetShipInfo(shipId) =>
      Read(ctx, "_dockedShips", [Text(shipId)])
    case BalanceOf(account) =>
      Read(ctx, "diamondBalanceOf", [Text(account)])
    case SynthesizeDiamond(shipId, amount) =>
      Sign(ctx, "synthesizeDiamond", [Text(shipId), Text(amount)])
    case GetDiamond =>
      Sign(ctx, "diamondFaucet", [])
    case CreateStarship(to, shipType) =>
      Sign(ctx, "createStarship", [Text(to), Text(shipType)])
    case SetStarports(starports) =>
      Sign(ctx, "setStarports", [Starports(starports)])
    case GetStarports =>
      Read(ctx, "starports", [])
    case SettleReward(shipId) =>
      Sign(ctx, "settleReward", [Text(shipId)])
  }

  /** Reading an invocation back as the operation that produced it: the
      independent inverse of `Invoke`, by method name, kind and argument
      shape. */
  function Decode(inv: Invocation): Option<Op>
  {
    match inv
    case Send(_, _, name, _, args) => DecodeSend(name, args)
    case Call(_, name, args) => DecodeCall(name, args)
  }

  function DecodeSend(name: string, args: seq<Arg>): Option<Op>
  {
    if name == "setCrossChainContract" && |args| == 1 then Some(Initialize)
    else if name == "registerDestContract" && |args| == 4 && args[0] == Text(DockKey)
         && args[1].Text? && args[2].Text? && !args[3].Starports? then
      Some(RegisterDestContract(args[1].s, args[2].s, if args[3].Text? then Some(args[3].s) else None))
    else if name == "trek" && |args| == 3 && args[0].Text? && args[1].Text? && args[2].Text? then
      Some(Trek(args[0].s, args[1].s, args[2].s))
    else if name == "synthesizeDiamond" && |args| == 2 && args[0].Text? && args[1].Text? then
      Some(SynthesizeDiamond(args[0].s, args[1].s))
    else if name == "diamondFaucet" && args == [] then Some(GetDiamond)
    else if name == "createStarship" && |args| == 2 && args[0].Text? && args[1].Text? then
      Some(CreateStarship(args[0].s, args[1].s))
    else if name == "setStarports" && |args| == 1 && args[0].Starports? then
      Some(SetStarports(args[0].list))
    else if name == "settleReward" && |args| == 1 && args[0].Text? then
      Some(SettleReward(args[0].s))
    else None
  }

  function DecodeCall(name: string, args: seq<Arg>): Option<Op>
  {
    if name == "_dockedShips" && |args| == 1 && args[0].Text? then Some(GetShipInfo(args[0].s))
    else if name == "diamondBalanceOf" && |args| == 1 && args[0].Text? then Some(BalanceOf(args[0].s))
    else if name == "starports" && args == [] then Some(GetStarports)
    else None
  }

  /** Every operation can be read back from its invocation: no two
      operations share a method name, kind and argument shape. */
  lemma DecodeInvoke(op: Op, ctx: Context)
    ensures Decode(Invoke(op, ctx)) == Some(op)
  {
  }

  /** Hence the mapping loses nothing: distinct operations on one context
      never produce the same invocation. */
  lemma InvokeInjective(op1: Op, op2: Op, ctx: Context)
    requires Invoke(op1, ctx) == Invoke(op2, ctx)
    ensures op1 == op2
  {
  }
}
