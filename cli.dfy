/** The imperative side of command-line-interact/index.js: the module-level
    bindings that `init` overwrites and the wrappers read, and the dispatch
    chain that runs at start-up. Each contract invocation is recorded in
    `sent` instead of being signed and broadcast. */
module Cli {
  import opened Wrappers
  import opened Text
  import opened Catalog
  import opened Dispatch

  /** The `for` loop of the `setStarports` branch: every argument after the
      chain name is split on `|` and pushed as one struct, in order. */
  method ParseStarports(param: seq<string>) returns (starports: seq<Starport>)
    ensures starports == ParseAll(param)
  {
    starports := [];
    var i := 0;
    while i < |param|
      invariant 0 <= i <= |param|
      invariant starports == ParseAll(param[..i])
    {
      var m := Split(param[i], '|');
      starports := starports + [Starport(m[0], if |m| > 1 then Some(m[1]) else None)];
      assert param[..i + 1] == param[..i] + [param[i]];
      i := i + 1;
    }
    assert param[..i] == param;
  }

  /** The invocations a planned outcome records: none for an abort. */
  function Log(planned: Option<Invocation>): seq<Invocation>
  {
    match planned
    case None => []
    case Some(inv) => [inv]
  }

  /** One process run: the configuration, the interface table and the key
      read at start-up, the bindings `netConfig` and `contract` (which stands
      for both `web3` and the contract object), and the invocations issued. */
  class Session {
    const config: map<string, NetworkConfig>
    const interfaces: map<string, map<string, string>>
    const privateKey: string
    var netConfig: Option<NetworkConfig>
    var contract: Option<Handle>
    var sent: seq<Invocation>

    constructor (config: map<string, NetworkConfig>, interfaces: map<string, map<string, string>>,
                 privateKey: string)
      ensures this.config == config && this.interfaces == interfaces && this.privateKey == privateKey
      ensures netConfig == None && contract == None && sent == []
    {
      this.config := config;
      this.interfaces := interfaces;
      this.privateKey := privateKey;
      netConfig := None;
      contract := None;
      sent := [];
    }

    function Inputs(): Env
    {
      Env(config, interfaces, privateKey)
    }

    /** `init`: looks the chain up and, when it is configured, binds its
        contract; `netConfig` is overwritten either way. */
    method Init(chainName: string) returns (ok: bool)
      modifies this`netConfig, this`contract
      ensures netConfig == Lookup(config, chainName)
      ensures ok <==> chainName in config
      ensures contract == if ok then Some(Bind(config[chainName])) else old(contract)
    {
      netConfig := Lookup(config, chainName);
      if netConfig.None? {
        return false;
      }
      contract := Some(Bind(netConfig.value));
      return true;
    }

    /** A wrapper `initialize` ... `settleReward`: one invocation of the bound
        contract with the current bindings. */
    method Perform(op: Op)
      requires netConfig.Some? && contract.Some?
      modifies this`sent
      ensures sent == old(sent) + [Invoke(op, Context(netConfig.value, contract.value, privateKey))]
    {
      sent := sent + [Invoke(op, Context(netConfig.value, contract.value, privateKey))];
    }

    /** `registerDestnContract`: returns early, issuing nothing, when the
        destination chain or its interface is unknown. */
    method RegisterDestn(destName: string)
      requires netConfig.Some? && contract.Some?
      modifies this`sent
      ensures sent == old(sent) + match ResolveDest(Inputs(), destName)
        case None => []
        case Some(op) => [Invoke(op, Context(netConfig.value, contract.value, privateKey))]
    {
      var destConfig := Lookup(config, destName);
      if destConfig.None? {
        return;
      }
      if destConfig.value.interfaceName !in interfaces {
        return;
      }
      var table := interfaces[destConfig.value.interfaceName];
      var dock := if DockKey in table then Some(table[DockKey]) else None;
      Perform(RegisterDestContract(destName, destConfig.value.starportContractAddress, dock));
    }

    /** One branch of the dispatch chain: the size check, `init` of the
        chain named by element 0 (returning early when it is not
        configured), then the branch's operation. */
    method Branch(f: Flag, args: seq<string>)
      modifies this`netConfig, this`contract, this`sent
      ensures sent == old(sent) + Log(PlanFlag(f, args, Inputs()))
      ensures !ArityOk(f, |args|) ==> netConfig == old(netConfig) && contract == old(contract)
      ensures ArityOk(f, |args|) ==>
        netConfig == Lookup(config, args[0]) &&
        contract == if args[0] in config then Some(Bind(config[args[0]])) else old(contract)
    {
      var sizeOk := match f
        case FInitialize => |args| == 1
        case FRegister => |args| == 2
        case FTrek => |args| == 4
        case FGet => |args| == 2
        case FSynthesize => |args| == 3
        case FBalance => |args| == 2
        case FCreate => |args| == 3
        case FSetStarports => |args| >= 2
        case FStarports => |args| == 1
        case FDiamond => |args| == 1
        case FSettle => |args| == 2;
      if !sizeOk {
        return;
      }
      var ok := Init(args[0]);
      if !ok {
        return;
      }
      match f {
        case FInitialize => Perform(Initialize);
        case FRegister => RegisterDestn(args[1]);
        case FTrek => Perform(Trek(args[1], args[2], args[3]));
        case FGet => Perform(GetShipInfo(args[1]));
        case FSynthesize => Perform(SynthesizeDiamond(args[1], args[2]));
        case FBalance => Perform(BalanceOf(args[1]));
        case FCreate => Perform(CreateStarship(args[1], args[2]));
        case FSetStarports =>
          var starports := ParseStarports(args[1..]);
          Perform(SetStarports(starports));
        case FStarports => Perform(GetStarports);
        case FDiamond => Perform(GetDiamond);
        case FSettle => Perform(SettleReward(args[1]));
      }
    }

    /** The dispatch chain: at most one invocation, exactly the one `Planned`
        describes; `init` rebinds the chain named by element 0 once the size
        check passes, and nothing is rebound otherwise. */
    method Run(opts: Options)
      modifies this`netConfig, this`contract, this`sent
      ensures |sent| <= |old(sent)| + 1
      ensures sent == old(sent) + Log(Planned(opts, Inputs()))
      ensures InitTarget(opts).None? ==> netConfig == old(netConfig) && contract == old(contract)
      ensures InitTarget(opts).Some? ==>
        var name := InitTarget(opts).value;
        netConfig == Lookup(config, name) &&
        contract == if name in config then Some(Bind(config[name])) else old(contract)
    {
      if opts.initialize.Some? && opts.initialize.value != "" {
        Branch(FInitialize, [opts.initialize.value]);
      } else if opts.register.Some? {
        Branch(FRegister, opts.register.value);
      } else if opts.trek.Some? {
        Branch(FTrek, opts.trek.value);
      } else if opts.get.Some? {
        Branch(FGet, opts.get.value);
      } else if opts.synthesize.Some? {
        Branch(FSynthesize, opts.synthesize.value);
      } else if opts.balance.Some? {
        Branch(FBalance, opts.balance.value);
      } else if opts.create.Some? {
        Branch(FCreate, opts.create.value);
      } else if opts.setStarports.Some? {
        Branch(FSetStarports, opts.setStarports.value);
      } else if opts.starports.Some? {
        Branch(FStarports, opts.starports.value);
      } else if opts.diamond.Some? {
        Branch(FDiamond, opts.diamond.value);
      } else if opts.settle.Some? {
        Branch(FSettle, opts.settle.value);
      }
    }
  }
}
