# egg-bin global options middleware, modelled in Dafny

egg-bin is the command-line tool of the Egg.js framework. Every egg-bin
command runs a middleware first (`src/middleware/global_options.ts`). This
middleware does the following:

- makes the `--base` directory absolute;
- reads the application's `package.json`;
- decides whether TypeScript support is on, from `--typescript`,
  `EGG_TYPESCRIPT`, `pkg.egg.typescript`, a `typescript` dependency, an
  existing `tsconfig.json` or a compiler override;
- picks the compiler, from `--tscompiler`, `TS_COMPILER`,
  `pkg.egg.tscompiler` or the default `ts-node/register`;
- resolves the compiler and loads it into the current process;
- records `--require`, `--no-warnings` and `--loader` options for child
  processes, plus `EGG_TYPESCRIPT` and `TS_NODE_FILES`;
- when declarations are requested, runs the `egg-ts-helper` typings
  generator;
- finally calls the next middleware.

The project has four modules:

- `Js` (`js.dfy`): the JavaScript values involved. It covers `undefined`
  (`Option`), parsed JSON, truthiness, `??` and `?.`.
- `Precedence` (`precedence.dfy`): an ordered rule chain in which the first
  rule that yields a value decides (`FirstOf`). It also holds the induction
  lemmas about that chain. The middleware's `??` chain and its
  `if / else if` chains are instances of it.
- `GlobalOptions` (`global_options.dfy`) has two layers:
  - The specification layer is a set of decision functions (`ResolveBase`,
    `Compiler`, `Typescript`, `Declarations`, ...). They are combined into
    `Handle`, which gives the state after one invocation as a function of
    the state before it.
  - The imperative layer is `Middleware`. It changes a `CommandContext`
    (`args`, `env`, the `NODE_OPTIONS` tokens) and a `Process`
    (`process.env`, the modules it loads, the `tsconfig.json` probes it
    makes and the commands it runs) one step at a time, as the source does.
    It is proved to end in exactly the state and outcome that `Handle`
    gives.
- `GlobalOptionsProperties` (`properties.dfy`): the promised behaviour,
  proved about the decision functions and about `Handle`.

Some collaborators are not implemented here and are parameters instead, as
total functions in `Host`: `path.isAbsolute`, `path.join`,
`readPackageJSON`, `hasTsConfig`, `require.resolve`, the tool's install
directory, `process.platform`, `pathToFileURL` and the exit code of
`runscript`. A failed `require.resolve` stops the invocation with
`Fail(CannotResolve(..))`, and so does a `require.resolve` handed a
non-string request (`Fail(InvalidRequest(..))`). A non-zero helper exit
stops it with `Fail(ScriptFailed(..))`.

Points of the code's behaviour that are easy to misread, all modelled as
written:

- `TS_NODE_FILES` is assigned unconditionally at line 107, to
  `process.env.TS_NODE_FILES ?? 'true'`. This overwrites any different
  value already in `ctx.env`.
- The dependency rules (lines 69 and 73) and the compiler-override rule
  (line 80) test truthiness, not presence. An empty `typescript` version
  string, or `--tscompiler ''`, does not turn TypeScript on.
- `tsconfig-paths/register` is resolved at line 110 with the default
  lookup, not with the compiler's base-first search paths of lines 87-95.
  Its `--require` token comes directly after the compiler's.
- ES-module handling (line 112) depends on `pkg.type` alone, whatever the
  TypeScript flag says.

## Model

| member | source | states |
|---|---|---|
| GlobalOptions.Middleware | src/middleware/global_options.ts:44-144 | One run of the middleware on a context and a process ends in exactly the state and outcome `Handle` gives for the state before it. It stops at the first failure, in source order, and otherwise returns `Next`, the call of `next()`. |
| GlobalOptions.ResolveBaseDir | src/middleware/global_options.ts:46-52 | Sets `args.base` to the resolved base and changes no other argument. |
| GlobalOptions.ResolveOptions | src/middleware/global_options.ts:46-84 | Returns the manifest read from the resolved base. Returns a compiler whose value (with `null` read as `undefined`) and whose truthiness are those of the rule chain `Compiler`. Leaves the context and process in the state `ResolvePhase` gives: `base`, `pkgEgg` and `typescript` are settled, and the probe is recorded when it happens. |
| GlobalOptions.DetectTypescript | src/middleware/global_options.ts:57-84 | The `if / else if` chain sets `typescript` to the value of the rule chain `Typescript`. It calls `hasTsConfig` on the base directory once when `ProbeConsulted` holds, and never otherwise. |
| GlobalOptions.EnableTypescript | src/middleware/global_options.ts:86-111 | Has the effect `TypescriptPhase` gives: it sets `tscompiler` to the compiler or the default; resolves it (base first only for a truthy override) and loads it; records its `--require`; sets `EGG_TYPESCRIPT` in both environments and `TS_NODE_FILES` in the child's; records the `tsconfig-paths` `--require`. It fails at the first resolution that fails. |
| GlobalOptions.EnableEsm | src/middleware/global_options.ts:112-124 | Has the effect `EsmPhase` gives: it resolves `ts-node/esm`, turns it into a file URL on `win32`, and appends `--no-warnings` then `--loader`. Nothing else changes. |
| GlobalOptions.ApplyDeclarations | src/middleware/global_options.ts:126-137 | Has the effect `DeclarationsPhase` gives: `declarations` becomes the `Declarations` decision. When it is `true`, the helper is resolved and run, and a non-zero exit fails the invocation with that code. |
| GlobalOptions.AddNodeOptionsToEnv | src/middleware/global_options.ts:100 | Appends the token to the context's `NODE_OPTIONS` tokens and changes nothing else. |
| GlobalOptions.HasTsConfig | src/middleware/global_options.ts:76 | Returns the host's answer for the directory and records the probe. |
| GlobalOptions.Require | src/middleware/global_options.ts:98 | Records the module as loaded into the current process. |
| GlobalOptions.Runscript | src/middleware/global_options.ts:136 | Returns the command's exit code and records that the command ran. |
| GlobalOptions.TypescriptChain | src/middleware/global_options.ts:57-84 | The nested `if / else if` of lines 57-84, written out branch by branch (`=== 'false'` before `=== 'true'`, `typeof === 'boolean'`, `?.typescript` truthiness, probe, compiler truthiness), equals the first-match rule chain `Typescript`. |
| GlobalOptions.ProbeChain | src/middleware/global_options.ts:57-76 | `hasTsConfig` is reached if and only if there is no argument, the toggle is neither `'false'` nor `'true'`, `pkg.egg.typescript` is not a boolean, and neither dependency section has a truthy `typescript`. |
| GlobalOptions.CompilerChain | src/middleware/global_options.ts:56 | `arg ?? env.TS_COMPILER ?? pkgEgg.tscompiler` as written, and the rule chain `Compiler`, have the same value with `null` read as `undefined`, and the same truthiness. |
| Precedence.FirstOf | src/middleware/global_options.ts:56-84 | The chain yields nothing if and only if every rule abstains. When it yields a value, that value is one of the rules'. |
| Precedence.FirstOfAt | src/middleware/global_options.ts:57-84 | A rule that yields a value after only abstaining rules decides the chain. |
| Precedence.FirstOfAppend | src/middleware/global_options.ts:57-84 | A chain of two parts consults the second part only when the first part abstains throughout. |
| Precedence.LaterRulesIgnored | src/middleware/global_options.ts:57-84 | Once a prefix decides, the rules after it cannot change the outcome. |
| GlobalOptionsProperties.BaseResolution | src/middleware/global_options.ts:46-52 | A missing or empty base becomes the (absolute) working directory. An absolute base is kept. A relative base is joined onto the working directory. |
| GlobalOptionsProperties.ExplicitTypescriptKept | src/middleware/global_options.ts:57 | An explicit `--typescript` / `--no-typescript` is kept, and the `tsconfig.json` probe is not consulted. |
| GlobalOptionsProperties.EnvToggleExact | src/middleware/global_options.ts:58-64 | With no argument, `EGG_TYPESCRIPT` decides when it is exactly `'false'` or `'true'`. Any other value, `''` included, behaves exactly as if the variable were unset, both for the flag and for the probe. |
| GlobalOptionsProperties.EnvOutranksManifest | src/middleware/global_options.ts:59-68 | `EGG_TYPESCRIPT=true` wins over `pkg.egg.typescript: false`. |
| GlobalOptionsProperties.ManifestBooleanDecides | src/middleware/global_options.ts:65-68 | With no argument and no toggle, a boolean `pkg.egg.typescript` decides, whatever the dependencies, `tsconfig.json` or the compiler say, and the probe is skipped. |
| GlobalOptionsProperties.DependencySectionsEquivalent | src/middleware/global_options.ts:69-75 | A truthy `typescript` in either dependency section turns TypeScript on without the probe. Swapping the two sections never changes the decision. |
| GlobalOptionsProperties.ProbeOnlyWhenUndecided | src/middleware/global_options.ts:76-79 | When the probe is not consulted, its answer cannot change the decision. When it is consulted, an existing `tsconfig.json` turns TypeScript on. |
| GlobalOptionsProperties.OverrideImpliesTypescript | src/middleware/global_options.ts:80-83 | When every earlier rule abstains and there is no `tsconfig.json`, TypeScript is on if and only if the compiler is truthy, and is left unset otherwise. |
| GlobalOptionsProperties.CompilerPrecedence | src/middleware/global_options.ts:56 | The argument beats `TS_COMPILER`, which beats `pkg.egg.tscompiler`. Each is passed over only when it is `undefined` or `null`. |
| GlobalOptionsProperties.EmptyCompilerPresentButFalsy | src/middleware/global_options.ts:56-92 | `--tscompiler ''` shadows the other sources, is falsy, keeps the base out of the search paths, and is the request used instead of the default. |
| GlobalOptionsProperties.SearchPathsOrder | src/middleware/global_options.ts:87-91 | The search list ends with the install directory. It has the base first, and two entries, if and only if the compiler is truthy. |
| GlobalOptionsProperties.DeclarationsPrecedence | src/middleware/global_options.ts:126-132 | An explicit `--declarations` is kept. Otherwise a boolean `pkg.egg.declarations` decides, and anything else leaves it unset. |
| GlobalOptionsProperties.InvocationOutcome | src/middleware/global_options.ts:86-137 | An invocation fails with the first failure in source order: compiler, `tsconfig-paths`, ESM loader, helper resolution, helper exit code. Otherwise it reaches `next()`. |
| GlobalOptionsProperties.ArgumentsAfterInvocation | src/middleware/global_options.ts:46-92 | Whatever the outcome, `base`, `pkgEgg` and `typescript` hold the decisions, and the probe ran only on the base and only when consulted. `tscompiler` is overwritten, with the chosen compiler or the default, exactly when TypeScript is on. |
| GlobalOptionsProperties.EnvironmentAfterInvocation | src/middleware/global_options.ts:98-107 | When TypeScript is on and the compiler resolves, the compiler is loaded, `EGG_TYPESCRIPT` is `'true'` in both environments, and `TS_NODE_FILES` is the inherited value or `'true'`. Otherwise neither environment changes and nothing is loaded. Apart from `NODE_OPTIONS`, whose appended tokens are kept separately, no other variable changes. |
| GlobalOptionsProperties.NodeOptionsAfterInvocation | src/middleware/global_options.ts:100-123 | Whatever the outcome: when TypeScript is on, the compiler's `--require` is appended once it resolves, and then the `tsconfig-paths` one once that resolves too. When the package is an ES module and the TypeScript section did not fail, `--no-warnings` and `--loader` follow once the loader resolves. A later failure, of the ESM loader or of the helper, takes back no token. |
| GlobalOptionsProperties.HelperRunsIffDeclarations | src/middleware/global_options.ts:126-137 | The typings helper runs, once, if and only if line 133 is reached with `declarations` true and the helper resolves. |
| GlobalOptionsProperties.FailingHelperStopsInvocation | src/middleware/global_options.ts:133-136 | With `--declarations` and the loaders resolved, a helper exiting non-zero runs once and fails the invocation with its exit code, before `next()`. |
| GlobalOptionsProperties.ModulePackagePlan | src/middleware/global_options.ts:54-84 | Take a `"type": "module"` package with a `typescript` devDependency, no `tsconfig.json` and no arguments or toggles. TypeScript is on through the devDependency rule, no compiler is chosen, and declarations stay unset. |
| GlobalOptionsProperties.TypescriptEsmRun | src/middleware/global_options.ts:86-124 | A TypeScript run of an ES module package with no compiler override and no declarations, whose loaders all resolve, reaches `next()`. It has the default compiler, both `--require` tokens followed by `--no-warnings` and `--loader`, and `EGG_TYPESCRIPT` and `TS_NODE_FILES` set in the child environment. |
| GlobalOptionsProperties.ModulePackageWithTypescriptDevDependency | src/middleware/global_options.ts:54-124 | For that package, the invocation reaches `next()` with the default compiler. The tokens are the compiler and `tsconfig-paths` `--require`s, then `--no-warnings` and `--loader`. The child environment gains exactly `EGG_TYPESCRIPT='true'` and `TS_NODE_FILES`. |

## Left out

- Option registration (`program.option`, lines 21-42), the decorators and the lifecycle hook: these are framework wiring with no behaviour of their own. The model starts with the arguments already parsed.
- `addNodeOptionsToEnv` (imported from `../utils`) is not part of this model. The tokens passed to it at lines 100, 110, 122 and 123 are kept, in call order, in `nodeOptions`. An inherited `NODE_OPTIONS` in `env` is left unchanged. Whatever `addNodeOptionsToEnv` does with an existing `NODE_OPTIONS` value is not modelled, and neither is the resulting `NODE_OPTIONS` string: its code is not part of this source.
- `readPackageJSON` and `hasTsConfig` (in `src/utils`) are not part of this model. They are host functions, and a failure inside them is not modelled.
- `require.resolve`, `path.isAbsolute`, `path.join`, `path.dirname(__dirname)`, `pathToFileURL` and `process.platform` are host parameters. Node's resolution algorithm and path semantics are not modelled.
- `require(tsNodeRegister)` is recorded as a load. An exception thrown while the loaded module runs is not modelled.
- `runscript` is reduced to the command's exit code. The subprocess itself, its output and spawn errors other than a non-zero exit are left out.
- `next()` and everything after it, and the `debug` logging, are left out.
- `ctx.env` and `process.env` are two separate maps. Possible aliasing of the two objects is not modelled.
- JSON numbers are Dafny `real`s. Floating-point behaviour, `NaN` and `-0` are not modelled; only "zero is falsy" matters here.
- Property access `v?.key` on a non-object (a string, number or array) yields `undefined` for the keys read here, as it does in JavaScript. Inherited properties such as `toString` are not modelled.
