# Starport command-line tool: dispatch and argument marshalling

This project models the command layer of `command-line-interact/index.js` from
star-trek-tools. That tool drives one "Starport" contract on several configured
chains. It starts from an already-parsed option record, and on each run it does
one of two things:

- it aborts without touching a contract, or
- it issues exactly one contract invocation.

An invocation is either a signed *send* on the source chain or a read-only
*call*. Each has a fixed ABI method name and a positional argument list.

The model has five modules:

- `Wrappers`: `Option`. `None` stands for JavaScript's `undefined`.
- `Text`: `Split` and `Join` on a one-character separator (JavaScript's
  `split`/`join`), with their round-trip and piece-count lemmas.
- `Catalog`: the chain configuration record, the bound contract `Handle`, the
  domain operations `Op`, and `Invoke`. `Invoke` implements the wrappers
  `initialize` … `settleReward`. It maps each operation to one `Send` or `Call`
  descriptor. `Decode` is its inverse.
- `Dispatch`: the specification of one run.
  - The option record (`Options`) and the rules for when an option is taken.
    These follow JavaScript truthiness: a split list is truthy whenever it is
    given, and an empty `initialize` string is falsy.
  - The else-if chain (`Selected`) and the precedence order it implements
    (`Rank`), plus the size table (`Arity`).
  - Chain resolution (`Resolve`, for `init`) and destination resolution
    (`ResolveDest`, for `registerDestnContract`).
  - The `galaxy|starport` pair parser (`ParseStarport`).
  - `Planned`: the one invocation a run issues, or `None` for an abort.
- `Cli`: the imperative side.
  - `Session` is a class whose fields are the module-level bindings `netConfig`
    and `contract`. The field `contract` stands for both `web3` and the
    contract object.
  - `Init` overwrites those bindings as `init` does.
  - The wrappers append to `sent` instead of signing and broadcasting. So
    `ethereum.sendTransaction` and `ethereum.contractCall` become records of
    what they were asked to do.
  - `Run` is the dispatch chain. It is proved to record exactly `Planned`.
  - `ParseStarports` is the `for` loop that builds the `setStarports` list.

The configuration (`config.get`) and `config/interface.json` are finite maps.
A missing key is `undefined`, so it fails the source's truthiness tests. The
configuration's `interface` key is the field `interfaceName`.

The help text of `--settle` names only a ship ID. The code, however, checks
for two elements and passes element 0 to `init` as the chain name. The model
follows the code.

## Model

| member | source | states |
|---|---|---|
| `Text.Split` | command-line-interact/index.js:96-98 | A split always has at least one piece, and no piece contains the separator. |
| `Text.JoinSplit` | command-line-interact/index.js:96-98 | Joining the pieces of a split with the separator gives back the original string. |
| `Text.SplitCount` | command-line-interact/index.js:96-98 | The number of pieces is one more than the number of separators. |
| `Text.SplitJoin` | command-line-interact/index.js:96-98 | Splitting the join of separator-free pieces gives back those pieces, so split and join are mutually inverse. |
| `Text.SplitFirstTwo` | command-line-interact/index.js:202-205 | Pieces 0 and 1 of a split can be read off the string: piece 0, a separator, piece 1, then either the end of the string or another separator. |
| `Dispatch.List` | command-line-interact/index.js:96-98 | The comma-list callback: its pieces join back to the option value, there is one more piece than there are commas, and no piece contains a comma. |
| `Catalog.Invoke` | command-line-interact/index.js:35-93 | Each operation yields one invocation of the bound contract. It is an unsigned call exactly for getShipInfo, balanceOf and getStarports. Every send uses the source chain's id and the loaded key. initialize sends the source chain's cross-chain contract address as its only argument. |
| `Catalog.DecodeInvoke` | command-line-interact/index.js:35-93 | The operation can be recovered from the method name, kind and arguments of its invocation. |
| `Catalog.InvokeInjective` | command-line-interact/index.js:35-93 | Two distinct operations on the same context never produce the same invocation. |
| `Catalog.Bind` | command-line-interact/index.js:28-30 | The bound handle talks to the chain's node address, is built from the chain's ABI, and targets the chain's Starport contract address. |
| `Dispatch.Selected` | command-line-interact/index.js:115-244 | The else-if chain picks only an option that is given, and no option of lower rank is given. When it picks nothing, no option is given. |
| `Dispatch.Arity` | command-line-interact/index.js:122-238 | The per-branch size table: every branch needs at least element 0, the chain name. |
| `Dispatch.ArityOk` | command-line-interact/index.js:122-238 | A passed size check guarantees element 0 exists. Every branch except setStarports needs exactly its table size. |
| `Dispatch.Resolve` | command-line-interact/index.js:17-33 | init succeeds exactly when the chain is configured. It then binds that chain's configuration, the contract bound from it, and the loaded key. |
| `Dispatch.ResolveDest` | command-line-interact/index.js:41-51 | The destination resolves exactly when the destination chain is configured and its interface name is in the interface table. It then yields the destination name, its Starport contract address, and the dock entry, which is undefined exactly when the table lacks it. |
| `Dispatch.OpFor` | command-line-interact/index.js:119-243 | Once init has succeeded, a branch always has an operation, except when register's destination does not resolve. The operation is a query exactly for get, balance and starports. |
| `Dispatch.BranchPlans` | command-line-interact/index.js:35-243 | For each branch that passes its arguments straight through, a run with the right size and a configured chain issues one invocation. The invocation has the branch's method name and kind, and list elements 1 onward in order as its arguments. initialize sends the chain's cross-chain contract address. |
| `Dispatch.SelectedIsFirst` | command-line-interact/index.js:115-244 | The chain runs a branch for option f exactly when f is given and no option of lower rank is given. The order is initialize, register, trek, get, synthesize, balance, create, setStarports, starports, diamond, settle. |
| `Dispatch.NoneSelected` | command-line-interact/index.js:115-244 | No branch runs exactly when no option is given. |
| `Dispatch.EmptyInitializeFallsThrough` | command-line-interact/index.js:115-121 | An empty `initialize` string is falsy, so a given `register` option is acted on instead. |
| `Dispatch.ParseStarport` | command-line-interact/index.js:202-206 | The galaxy is the text before the first vertical bar, or all of the text when there is none. The starport id is undefined exactly when there is no vertical bar. Otherwise it is the text between the first and the second vertical bar. |
| `Dispatch.ParseStarportPair` | command-line-interact/index.js:202-206 | Parsing galaxy, a vertical bar, id gives back galaxy and id when neither contains a vertical bar. |
| `Dispatch.PlannedIff` | command-line-interact/index.js:115-244 | A run issues an invocation exactly when all of these hold: an option is selected, its size check passes, the chain named by element 0 is configured, and, for register, the destination chain and its interface are both known. |
| `Dispatch.PlannedTarget` | command-line-interact/index.js:17-93 | An issued invocation goes to the contract bound for the chain in element 0. A send carries that chain's id and the loaded key. The invocation is a call exactly for get, balance and starports. |
| `Dispatch.AbortsOnBadInput` | command-line-interact/index.js:115-244 | A selected branch whose list has the wrong size, or whose chain is not configured, issues nothing. |
| `Dispatch.SetStarportsPlan` | command-line-interact/index.js:189-210 | From n elements, setStarports sends `setStarports` once, on the source chain. Its single argument is the list of n-1 parsed structs in argument order. |
| `Dispatch.RegisterPlan` | command-line-interact/index.js:40-56 | register aborts when the destination chain or its interface is unknown. Otherwise it sends `registerDestContract` with `dock`, the destination name, the destination's contract address and the interface's dock entry, in that order. |
| `Cli.ParseStarports` | command-line-interact/index.js:199-207 | The loop pushes one parsed struct per argument, in order. Its result is exactly the specification list `ParseAll`. |
| `Cli.Session.constructor` | command-line-interact/index.js:7-15 | A run starts with nothing bound and nothing sent. The configuration, the interface table and the key are fixed for the whole run. |
| `Cli.Session.Init` | command-line-interact/index.js:17-33 | `netConfig` becomes the lookup result even when the lookup fails. The result is true exactly when the chain is configured, and only then is the contract rebound to that chain. |
| `Cli.Session.Perform` | command-line-interact/index.js:35-93 | A wrapper appends exactly one invocation, built from the current bindings and the key. |
| `Cli.Session.RegisterDestn` | command-line-interact/index.js:40-56 | Appends the registerDestContract send when the destination resolves, and nothing otherwise. |
| `Cli.Session.Branch` | command-line-interact/index.js:115-244 | One branch of the chain: size check, then `init` of element 0, then the operation. It records what the branch's plan says. It rebinds only when the size check passes. |
| `Cli.Session.Run` | command-line-interact/index.js:115-244 | At most one invocation is appended, and it is exactly `Planned`. The bindings change only when the selected branch passes its size check, and then as `init` of element 0 leaves them. |

## Left out

- Reading `./.secret`, the ABI file and `./config/interface.json` from disk, and `JSON.parse`. Their results are the inputs of `Session`: the key, the `abi` path that stands for the parsed ABI, and the interface map.
- A missing or malformed ABI file: `init` would throw, and the model does not model that exception.
- Constructing `Web3`, setting `handleRevert`, and `new web3.eth.Contract`. These are foreign library calls. The model reduces them to the bound `Handle`.
- The bodies of `ethereum.sendTransaction` and `ethereum.contractCall`: nonces, signing, broadcast, receipts, revert decoding. That module is not part of this model, and it is network I/O. Each call is recorded as one descriptor instead.
- The values that the three reads return. They are only printed.
- `commander` option parsing and `program.version`. The parsed option record is the input.
- All `console.log` output.
- `async`/`await` sequencing. Each run is strictly linear.
- `config.get` from the `config` library. That library throws on a missing key and follows dotted paths. The model uses a plain map lookup that yields `undefined`, as the code's truthiness tests expect.
- Configuration entries are complete records. A missing field inside a present entry is not modelled. For example, an absent `interface` key would be looked up as `undefined`.
- An interface-table entry is truthy whenever its key is present. A falsy JSON value stored under an interface name (`null`, `0`, `""`) is not modelled.
