/** The command dispatcher of command-line-interact/index.js as a
    specification: which option is acted on, which arity it needs, which
    chain names are resolved, and the single invocation (or none) that
    results. The imperative rendering, which changes the bound context step
    by step, is `Cli.Session.Run`; it is proved to do what `Planned` says. */
module Dispatch {
  import opened Wrappers
  import opened Text
  import opened Catalog

  /** The parser callback `list`: an option value split on commas. */
  function List(val: string): (r: seq<string>)
    ensures Join(r, ',') == val
    ensures |r| == Count(val, ',') + 1
    ensures forall i :: 0 <= i < |r| ==> ',' !in r[i]
  {
    JoinSplit(val, ',');
    SplitCount(val, ',');
    Split(val, ',')
  }

  /** The parsed option record. `initialize` is the raw string; every other
      option has already been split by `List`. `None` is an option that was
      not given. */
  datatype Options = Options(
    initialize: Option<string>,
    register: Option<seq<string>>,
    trek: Option<seq<string>>,
    get: Option<seq<string>>,
    synthesize: Option<seq<string>>,
    balance: Option<seq<string>>,
    create: Option<seq<string>>,
    setStarports: Option<seq<string>>,
    starports: Option<seq<string>>,
    diamond: Option<seq<string>>,
    settle: Option<seq<string>>)

  /** The configuration sources and the key, all read once at start-up. */
  datatype Env = Env(
    config: map<string, NetworkConfig>,
    interfaces: map<string, map<string, string>>,
    privateKey: string)

  /** The selector options, one per branch of the dispatch chain. */
  datatype Flag =
    | FInitialize | FRegister | FTrek | FGet | FSynthesize | FBalance
    | FCreate | FSetStarports | FStarports | FDiamond | FSettle

  /** The precedence among selector options: lower rank is tested first. */
  function Rank(f: Flag): nat
  {
    match f
    case FInitialize => 0
    case FRegister => 1
    case FTrek => 2
    case FGet => 3
    case FSynthesize => 4
    case FBalance => 5
    case FCreate => 6
    case FSetStarports => 7
    case FStarports => 8
    case FDiamond => 9
    case FSettle => 10
  }

  /** Whether the option is truthy. A split list is an array and therefore
      truthy whenever given, even `[""]`; `initialize` is a string and is
      falsy when empty. */
  predicate Taken(opts: Options, f: Flag)
  {
    match f
    case FInitialize => opts.initialize.Some? && opts.initialize.value != ""
    case FRegister => opts.register.Some?
    case FTrek => opts.trek.Some?
    case FGet => opts.get.Some?
    case FSynthesize => opts.synthesize.Some?
    case FBalance => opts.balance.Some?
    case FCreate => opts.create.Some?
    case FSetStarports => opts.setStarports.Some?
    case FStarports => opts.starports.Some?
    case FDiamond => opts.diamond.Some?
    case FSettle => opts.settle.Some?
  }

  /** The argument list of a given option; element 0 is the chain name. */
  function Args(opts: Options, f: Flag): seq<string>
    requires Taken(opts, f)
  {
    match f
    case FInitialize => [opts.initialize.value]
    case FRegister => opts.register.value
    case FTrek => opts.trek.value
    case FGet => opts.get.value
    case FSynthesize => opts.synthesize.value
    case FBalance => opts.balance.value
    case FCreate => opts.create.value
    case FSetStarports => opts.setStarports.value
    case FStarports => opts.starports.value
    case FDiamond => opts.diamond.value
    case FSettle => opts.settle.value
  }

  /** The else-if chain: the option whose branch runs, if any. */
  function Selected(opts: Options): (r: Option<Flag>)
    ensures r.Some? ==> Taken(opts, r.value)
    ensures r.Some? ==> forall g :: Rank(g) < Rank(r.value) ==> !Taken(opts, g)
    ensures r.None? ==> forall g :: !Taken(opts, g)
  {
    if Taken(opts, FInitialize) then Some(FInitialize)
    else if Taken(opts, FRegister) then Some(FRegister)
    else if Taken(opts, FTrek) then Some(FTrek)
    else if Taken(opts, FGet) then Some(FGet)
    else if Taken(opts, FSynthesize) then Some(FSynthesize)
    else if Taken(opts, FBalance) then Some(FBalance)
    else if Taken(opts, FCreate) then Some(FCreate)
    else if Taken(opts, FSetStarports) then Some(FSetStarports)
    else if Taken(opts, FStarports) then Some(FStarports)
    else if Taken(opts, FDiamond) then Some(FDiamond)
    else if Taken(opts, FSettle) then Some(FSettle)
    else None
  }

  /** The chain selects exactly the given option of lowest rank: the first
      one wins, and only one branch runs. */
  lemma SelectedIsFirst(opts: Options, f: Flag)
    ensures Selected(opts) == Some(f) <==>
      Taken(opts, f) && forall g :: Rank(g) < Rank(f) ==> !Taken(opts, g)
  {
  }

  /** An empty `initialize` string is falsy, so the chain falls through to
      the next option that is given. */
  lemma EmptyInitializeFallsThrough(opts: Options)
    requires opts.initialize == Some("")
    requires opts.register.Some?
    ensures Selected(opts) == Some(FRegister)
  {
  }

  /** No branch runs exactly when no option is given. */
  lemma NoneSelected(opts: Options)
    ensures Selected(opts) == None <==> forall f :: !Taken(opts, f)
  {
  }

  /** The number of list elements a branch needs (the chain name included);
      for `setStarports` the least number. */
  function Arity(f: Flag): (n: nat)
    ensures n >= 1
  {
    match f
    case FInitialize => 1
    case FRegister => 2
    case FTrek => 4
    case FGet => 2
    case FSynthesize => 3
    case FBalance => 2
    case FCreate => 3
    case FSetStarports => 2
    case FStarports => 1
    case FDiamond => 1
    case FSettle => 2
  }

  /** The branch's size check passes; element 0 then always exists. */
  predicate ArityOk(f: Flag, n: nat)
    ensures ArityOk(f, n) ==> n >= 1
    ensures f != FSetStarports ==> (ArityOk(f, n) <==> n == Arity(f))
  {
    if f == FSetStarports then n >= Arity(f) else n == Arity(f)
  }

  /** `config.get(name)`, a missing key being `undefined`. */
  function Lookup(config: map<string, NetworkConfig>, name: string): Option<NetworkConfig>
  {
    if name in config then Some(config[name]) else None
  }

  /** What `init(name)` leaves bound when it succeeds. */
  function Resolve(env: Env, name: string): (r: Option<Context>)
    ensures r.Some? <==> name in env.config
    ensures r.Some? ==>
      r.value.netConfig == env.config[name] && r.value.contract == Bind(env.config[name]) &&
      r.value.privateKey == env.privateKey
  {
    if name in env.config then
      Some(Context(env.config[name], Bind(env.config[name]), env.privateKey))
    else None
  }

  /** The lookups of `registerDestnContract`: the destination's config, then
      its interface table; the `dock` entry may itself be missing. */
  function ResolveDest(env: Env, destName: string): (r: Option<Op>)
    ensures r.Some? <==> destName in env.config && env.config[destName].interfaceName in env.interfaces
    ensures r.Some? ==>
      var dest := env.config[destName];
      var table := env.interfaces[dest.interfaceName];
      r.value.RegisterDestContract? && r.value.destChain == destName &&
      r.value.destAddress == dest.starportContractAddress &&
      (r.value.dock.Some? <==> DockKey in table) &&
      (r.value.dock.Some? ==> r.value.dock.value == table[DockKey])
  {
    if destName !in env.config then None
    else
      var dest := env.config[destName];
      if dest.interfaceName !in env.interfaces then None
      else
        var table := env.interfaces[dest.interfaceName];
        Some(RegisterDestContract(destName, dest.starportContractAddress,
                                  if DockKey in table then Some(table[DockKey]) else None))
  }

  /** One `"galaxy|starport"` argument split on `|`: the galaxy is the text
      before the first `|` (all of it when there is none), the starport id
      the text between the first and the second `|`, and undefined when
      there is no `|`. */
  function ParseStarport(p: string): (r: Starport)
    ensures '|' !in r.galaxy && r.galaxy <= p
    ensures r.starportId.None? <==> '|' !in p
    ensures r.starportId.None? ==> r.galaxy == p
    ensures r.starportId.Some? ==>
      var field := r.galaxy + "|" + r.starportId.value;
      '|' !in r.starportId.value && field <= p && (|field| == |p| || p[|field|] == '|')
  {
    var m := Split(p, '|');
    JoinSplit(p, '|');
    if |m| >= 2 then
      SplitFirstTwo(p, '|');
      JoinCons(m, '|');
      Starport(m[0], Some(m[1]))
    else
      Starport(m[0], None)
  }

  /** Parsing is the inverse of writing a pair as `galaxy|starport`, when
      neither part contains `|`. */
  lemma {:induction false} ParseStarportPair(galaxy: string, id: string)
    requires '|' !in galaxy && '|' !in id
    ensures ParseStarport(galaxy + "|" + id) == Starport(galaxy, Some(id))
  {
    SplitAfter(galaxy, '|', id);
    SplitPlain(id, '|');
  }

  /** The pair parser applied to every argument, in order. */
  function ParseAll(ps: seq<string>): seq<Starport>
  {
    seq(|ps|, i requires 0 <= i < |ps| => ParseStarport(ps[i]))
  }

  /** The operation a branch calls once the chain is bound. */
  function OpFor(f: Flag, args: seq<string>, env: Env): (r: Option<Op>)
    requires ArityOk(f, |args|)
    ensures r.None? <==> f == FRegister && ResolveDest(env, args[1]).None?
    ensures r.Some? ==> (r.value.IsQuery() <==> f in {FGet, FBalance, FStarports})
    ensures f == FRegister ==> r == ResolveDest(env, args[1])
  {
    match f
    case FInitialize => Some(Initialize)
    case FRegister => ResolveDest(env, args[1])
    case FTrek => Some(Trek(args[1], args[2], args[3]))
    case FGet => Some(GetShipInfo(args[1]))
    case FSynthesize => Some(SynthesizeDiamond(args[1], args[2]))
    case FBalance => Some(BalanceOf(args[1]))
    case FCreate => Some(CreateStarship(args[1], args[2]))
    case FSetStarports => Some(SetStarports(ParseAll(args[1..])))
    case FStarports => Some(GetStarports)
    case FDiamond => Some(GetDiamond)
    case FSettle => Some(SettleReward(args[1]))
  }

  /** One branch: size check, `init` of element 0, then the operation. */
  function PlanFlag(f: Flag, args: seq<string>, env: Env): Option<Invocation>
  {
    if !ArityOk(f, |args|) then None
    else
      match Resolve(env, args[0])
      case None => None
      case Some(ctx) =>
        match OpFor(f, args, env)
        case None => None
        case Some(op) => Some(Invoke(op, ctx))
  }

  /** The whole run: the invocation issued, or `None` for an abort. */
  function Planned(opts: Options, env: Env): Option<Invocation>
  {
    match Selected(opts)
    case None => None
    case Some(f) => PlanFlag(f, Args(opts, f), env)
  }

  /** The chain name `init` is called with, if the run gets that far: the
      selected branch's element 0, once its size check has passed. */
  function InitTarget(opts: Options): Option<string>
  {
    match Selected(opts)
    case None => None
    case Some(f) => if ArityOk(f, |Args(opts, f)|) then Some(Args(opts, f)[0]) else None
  }

  /** The run issues an invocation exactly when some option is selected, its
      size check passes, its chain is configured and, for `register`, the
      destination chain and its interface are known. */
  lemma PlannedIff(opts: Options, env: Env)
    ensures Planned(opts, env).Some? <==>
      Selected(opts).Some? &&
      var f := Selected(opts).value;
      var args := Args(opts, f);
      ArityOk(f, |args|) && args[0] in env.config &&
      (f == FRegister ==>
         args[1] in env.config && env.config[args[1]].interfaceName in env.interfaces)
  {
  }

  /** Whatever is issued goes to the contract bound for the chain named by
      element 0; a send is signed with the loaded key on that chain's id, and
      only `get`, `balance` and `starports` read without signing. */
  lemma PlannedTarget(opts: Options, env: Env)
    requires Planned(opts, env).Some?
    ensures Selected(opts).Some?
    ensures var f := Selected(opts).value;
      var args := Args(opts, f);
      var inv := Planned(opts, env).value;
      |args| >= 1 && args[0] in env.config &&
      inv.contract == Bind(env.config[args[0]]) &&
      (inv.Send? ==> inv.chainId == env.config[args[0]].chainId && inv.privateKey == env.privateKey) &&
      (inv.Call? <==> f in {FGet, FBalance, FStarports})
  {
  }

  /** The branches whose arguments are list elements passed through
      unchanged: element 0 names the chain, and elements 1.. go, in order,
      to the named contract method. `initialize` sends the chain's
      cross-chain contract address. */
  lemma BranchPlans(opts: Options, env: Env)
    requires Selected(opts).Some?
    requires var f := Selected(opts).value;
      f != FRegister && f != FSetStarports &&
      ArityOk(f, |Args(opts, f)|) && Args(opts, f)[0] in env.config
    ensures var f := Selected(opts).value;
      var a := Args(opts, f);
      var cfg := env.config[a[0]];
      var h := Bind(cfg);
      var k := env.privateKey;
      (f == FInitialize ==> Planned(opts, env) == Some(Send(h, cfg.chainId, "setCrossChainContract", k, [Text(cfg.crossChainContractAddress)]))) &&
      (f == FTrek ==> Planned(opts, env) == Some(Send(h, cfg.chainId, "trek", k, [Text(a[1]), Text(a[2]), Text(a[3])]))) &&
      (f == FGet ==> Planned(opts, env) == Some(Call(h, "_dockedShips", [Text(a[1])]))) &&
      (f == FSynthesize ==> Planned(opts, env) == Some(Send(h, cfg.chainId, "synthesizeDiamond", k, [Text(a[1]), Text(a[2])]))) &&
      (f == FBalance ==> Planned(opts, env) == Some(Call(h, "diamondBalanceOf", [Text(a[1])]))) &&
      (f == FCreate ==> Planned(opts, env) == Some(Send(h, cfg.chainId, "createStarship", k, [Text(a[1]), Text(a[2])]))) &&
      (f == FStarports ==> Planned(opts, env) == Some(Call(h, "starports", []))) &&
      (f == FDiamond ==> Planned(opts, env) == Some(Send(h, cfg.chainId, "diamondFaucet", k, []))) &&
      (f == FSettle ==> Planned(opts, env) == Some(Send(h, cfg.chainId, "settleReward", k, [Text(a[1])])))
  {
  }

  /** A branch whose list has the wrong size aborts with no invocation, and
      so does one whose chain is not configured. */
  lemma AbortsOnBadInput(opts: Options, env: Env, f: Flag)
    requires Selected(opts) == Some(f)
    requires !ArityOk(f, |Args(opts, f)|) || Args(opts, f)[0] !in env.config
    ensures Planned(opts, env) == None
  {
  }

  /** `setStarports` with chain name and n-1 pair arguments sends
      `setStarports` once, with one argument: the n-1 parsed structs in
      argument order. */
  lemma SetStarportsPlan(opts: Options, env: Env)
    requires Selected(opts) == Some(FSetStarports)
    requires |opts.setStarports.value| >= 2
    requires opts.setStarports.value[0] in env.config
    ensures Planned(opts, env).Some?
    ensures var args := opts.setStarports.value;
      var cfg := env.config[args[0]];
      var inv := Planned(opts, env).value;
      inv == Sign(Context(cfg, Bind(cfg), env.privateKey), "setStarports", inv.args) &&
      |inv.args| == 1 && inv.args[0].Starports? &&
      |inv.args[0].list| == |args| - 1 &&
      forall i :: 0 <= i < |args| - 1 ==> inv.args[0].list[i] == ParseStarport(args[i + 1])
  {
  }

  /** `register` with a configured source chain: aborts when the destination
      chain or its interface is unknown, and otherwise sends
      `registerDestContract` with the dock key, the destination name, its
      contract address and its dock method name, in that order. */
  lemma RegisterPlan(opts: Options, env: Env)
    requires Selected(opts) == Some(FRegister)
    requires |opts.register.value| == 2
    requires opts.register.value[0] in env.config
    ensures var src := env.config[opts.register.value[0]];
      var destName := opts.register.value[1];
      if destName !in env.config || env.config[destName].interfaceName !in env.interfaces then
        Planned(opts, env) == None
      else
        var dest := env.config[destName];
        var table := env.interfaces[dest.interfaceName];
        Planned(opts, env) == Some(Send(Bind(src), src.chainId, "registerDestContract", env.privateKey,
          [Text("dock"), Text(destName), Text(dest.starportContractAddress),
           if "dock" in table then Text(table["dock"]) else Undefined]))
  {
  }
}
