/**
 * The global-options middleware of egg-bin: for each command invocation it
 * makes the base directory absolute, decides whether TypeScript support is
 * on, picks the TypeScript compiler, decides whether typings are generated,
 * and writes the matching loader registrations into the environment that
 * child processes inherit.
 *
 * Two layers: `Handle` states the whole effect of one invocation as a
 * function of the state before it, built from small decision functions
 * (`ResolveBase`, `Compiler`, `Typescript`, `Declarations`, ...), and
 * `Middleware` does the same work step by step on a `CommandContext` and a
 * `Process`, proved to end in the state `Handle` describes.
 */
module GlobalOptions {
  import opened Js
  import opened Precedence

  // Module requests the middleware resolves.
  const DefaultCompiler := "ts-node/register"
  const TsconfigPathsRegister := "tsconfig-paths/register"
  const TsNodeEsm := "ts-node/esm"
  const EtsBin := "egg-ts-helper/dist/bin"

  // Environment variables read or written.
  const EggTypescriptVar := "EGG_TYPESCRIPT"
  const TsCompilerVar := "TS_COMPILER"
  const TsNodeFilesVar := "TS_NODE_FILES"

  /** The options of `ctx.args` this middleware reads or writes. Arguments
      the caller did not pass are `None`. */
  datatype Args = Args(
    base: Option<string>,
    pkgEgg: Option<Json>,
    typescript: Option<bool>,
    tscompiler: Option<Json>,
    declarations: Option<bool>)

  /** Why an invocation stops instead of reaching the next middleware. */
  datatype Failure =
      /** `require.resolve` found no module for the request. */
    | CannotResolve(request: string, paths: Option<seq<string>>)
      /** `require.resolve` was handed a request that is not a string. */
    | InvalidRequest(value: Json)
      /** The typings helper exited with a non-zero code. */
    | ScriptFailed(command: string, exitCode: int)

  datatype Outcome = Next | Fail(failure: Failure)

  datatype Result<T> = Ok(value: T) | Err(failure: Failure)

  /** The collaborators the middleware calls but does not implement, as
      total functions of their inputs. */
  datatype Host = Host(
    isAbsolute: string -> bool,                          // path.isAbsolute
    join: (string, string) -> string,                    // path.join
    readPackageJSON: string -> map<string, Json>,        // ../utils readPackageJSON(base)
    hasTsConfig: string -> bool,                         // ../utils hasTsConfig(base)
    resolve: (string, Option<seq<string>>) -> Option<string>,  // require.resolve(request, { paths })
    installDir: string,                                  // path.dirname(__dirname)
    platform: string,                                    // process.platform
    pathToFileURL: string -> string,                     // pathToFileURL(p).href
    exitCode: string -> int)                             // exit code of runscript(command)

  /** Everything one invocation may change: the arguments, the child
      environment, the tokens passed to `addNodeOptionsToEnv` (in call order),
      the current process's environment, the modules loaded into the current
      process, the directories probed for `tsconfig.json` and the commands
      run. */
  datatype World = World(
    args: Args,
    env: map<string, string>,
    nodeOptions: seq<string>,
    processEnv: map<string, string>,
    loaded: seq<string>,
    probed: seq<string>,
    scripts: seq<string>)

  datatype Step = Step(outcome: Outcome, world: World)

  // ---------------------------------------------------------------------
  // Decisions

  /** `ctx.args.base` after lines 46-52: a missing or empty base becomes the
      working directory, then a relative one is joined onto it. */
  function ResolveBase(base: Option<string>, cwd: string, host: Host): string
  {
    var b := if base.None? || base.value == "" then cwd else base.value;
    if host.isAbsolute(b) then b else host.join(cwd, b)
  }

  /** `pkg.egg ?? {}` */
  function EggConfig(pkg: map<string, Json>): Json
  {
    CoalesceOr(Prop(pkg, "egg"), JObj(map[]))
  }

  /** `ctx.args.tscompiler ?? ctx.env.TS_COMPILER ?? pkgEgg.tscompiler`, as
      an ordered chain whose rules abstain on `undefined` and `null`. */
  function CompilerRules(arg: Option<Json>, env: map<string, string>, egg: Json): seq<Option<Json>>
  {
    [Defined(arg), Defined(EnvJson(env, TsCompilerVar)), Defined(Member(Some(egg), "tscompiler"))]
  }

  function Compiler(arg: Option<Json>, env: map<string, string>, egg: Json): Option<Json>
  {
    FirstOf(CompilerRules(arg, env, egg))
  }

  /** `EGG_TYPESCRIPT` decides only when it is exactly `'true'` or `'false'`. */
  function EnvToggle(env: map<string, string>): Option<bool>
  {
    if EnvGet(env, EggTypescriptVar) == Some("false") then Some(false)
    else if EnvGet(env, EggTypescriptVar) == Some("true") then Some(true)
    else None
  }

  /** A truthy `pkg[section].typescript` turns TypeScript on. */
  function DependencyRule(pkg: map<string, Json>, section: string): Option<bool>
  {
    if Truthy(Member(Prop(pkg, section), "typescript")) then Some(true) else None
  }

  /** The rules of lines 57-75, before the `tsconfig.json` probe: the
      explicit argument, the environment toggle, a boolean
      `pkg.egg.typescript`, then `dependencies` and `devDependencies`. */
  function EarlyTypescriptRules(arg: Option<bool>, env: map<string, string>, egg: Json, pkg: map<string, Json>): seq<Option<bool>>
  {
    [arg, EnvToggle(env), BoolOf(Member(Some(egg), "typescript")),
     DependencyRule(pkg, "dependencies"), DependencyRule(pkg, "devDependencies")]
  }

  /** The rules of lines 76-83: an existing `tsconfig.json`, then a truthy
      compiler. */
  function LateTypescriptRules(tsconfig: bool, compiler: Option<Json>): seq<Option<bool>>
  {
    [if tsconfig then Some(true) else None, if Truthy(compiler) then Some(true) else None]
  }

  /** `ctx.args.typescript` after line 84; `None` when no rule decides. */
  function Typescript(arg: Option<bool>, env: map<string, string>, egg: Json, pkg: map<string, Json>,
                      tsconfig: bool, compiler: Option<Json>): Option<bool>
  {
    FirstOf(EarlyTypescriptRules(arg, env, egg, pkg) + LateTypescriptRules(tsconfig, compiler))
  }

  /** `hasTsConfig` is called only when every rule before it abstains. */
  predicate ProbeConsulted(arg: Option<bool>, env: map<string, string>, egg: Json, pkg: map<string, Json>)
  {
    FirstOf(EarlyTypescriptRules(arg, env, egg, pkg)).None?
  }

  /** The `if / else if` chain of lines 57-84, as written, decides exactly
      as the rule chain `Typescript`. */
  lemma TypescriptChain(arg: Option<bool>, env: map<string, string>, egg: Json, pkg: map<string, Json>,
                        tsconfig: bool, compiler: Option<Json>)
    ensures Typescript(arg, env, egg, pkg, tsconfig, compiler) ==
      if arg.Some? then arg
      else if EnvGet(env, EggTypescriptVar) == Some("false") then Some(false)
      else if EnvGet(env, EggTypescriptVar) == Some("true") then Some(true)
      else if Member(Some(egg), "typescript").Some? && Member(Some(egg), "typescript").value.JBool? then
        Some(Member(Some(egg), "typescript").value.b)
      else if Truthy(Member(Prop(pkg, "dependencies"), "typescript")) then Some(true)
      else if Truthy(Member(Prop(pkg, "devDependencies"), "typescript")) then Some(true)
      else if tsconfig then Some(true)
      else if Truthy(compiler) then Some(true)
      else None
  {
    var early := EarlyTypescriptRules(arg, env, egg, pkg);
    var rules := early + LateTypescriptRules(tsconfig, compiler);
    if arg.Some? {
      FirstOfAt(rules, 0);
    } else if EnvToggle(env).Some? {
      FirstOfAt(rules, 1);
    } else if early[2].Some? {
      FirstOfAt(rules, 2);
    } else if early[3].Some? {
      FirstOfAt(rules, 3);
    } else if early[4].Some? {
      FirstOfAt(rules, 4);
    } else if tsconfig {
      FirstOfAt(rules, 5);
    } else if Truthy(compiler) {
      FirstOfAt(rules, 6);
    }
  }

  /** The chain reaches the `hasTsConfig` call of line 76 exactly when the
      argument, the environment toggle, `pkg.egg.typescript` and both
      dependency sections all abstain. */
  lemma ProbeChain(arg: Option<bool>, env: map<string, string>, egg: Json, pkg: map<string, Json>)
    ensures ProbeConsulted(arg, env, egg, pkg) <==>
      arg.None? && EnvGet(env, EggTypescriptVar) != Some("false") && EnvGet(env, EggTypescriptVar) != Some("true")
      && !(Member(Some(egg), "typescript").Some? && Member(Some(egg), "typescript").value.JBool?)
      && !Truthy(Member(Prop(pkg, "dependencies"), "typescript"))
      && !Truthy(Member(Prop(pkg, "devDependencies"), "typescript"))
  {
    var early := EarlyTypescriptRules(arg, env, egg, pkg);
    if arg.Some? {
      FirstOfAt(early, 0);
    } else if EnvToggle(env).Some? {
      FirstOfAt(early, 1);
    } else if early[2].Some? {
      FirstOfAt(early, 2);
    } else if early[3].Some? {
      FirstOfAt(early, 3);
    } else if early[4].Some? {
      FirstOfAt(early, 4);
    }
  }

  /** The `paths` handed to `require.resolve` for the compiler (lines 87-91). */
  function FindPaths(compiler: Option<Json>, base: string, installDir: string): seq<string>
  {
    if Truthy(compiler) then [base, installDir] else [installDir]
  }

  /** `require.resolve(request, options)`: a non-string request throws, an
      unresolvable one fails. */
  function ResolveModule(host: Host, request: Json, paths: Option<seq<string>>): Result<string>
  {
    if !request.JStr? then Err(InvalidRequest(request))
    else match host.resolve(request.s, paths)
      case None => Err(CannotResolve(request.s, paths))
      case Some(p) => Ok(p)
  }

  /** The ESM loader as it is passed to `--loader` (lines 114-120). */
  function EsmLoaderUrl(host: Host, path: string): string
  {
    if host.platform == "win32" then host.pathToFileURL(path) else path
  }

  function RequireToken(path: string): string { "--require " + path }

  function LoaderToken(loader: string): string { "--loader " + loader }

  const NoWarningsToken := "--no-warnings"

  /** `pkg.type === 'module'` */
  predicate IsEsm(pkg: map<string, Json>)
  {
    Prop(pkg, "type") == Some(JStr("module"))
  }

  /** `ctx.args.declarations` after line 132. */
  function Declarations(arg: Option<bool>, egg: Json): Option<bool>
  {
    FirstOf([arg, BoolOf(Member(Some(egg), "declarations"))])
  }

  // ---------------------------------------------------------------------
  // The whole invocation as a function of the state before it

  /** Lines 46-84: base, `pkgEgg` and `typescript` are settled and the
      `tsconfig.json` probe is recorded if it happens. */
  function ResolvePhase(cwd: string, w: World, host: Host): World
  {
    var base := ResolveBase(w.args.base, cwd, host);
    var pkg := host.readPackageJSON(base);
    var egg := EggConfig(pkg);
    var compiler := Compiler(w.args.tscompiler, w.env, egg);
    var ts := Typescript(w.args.typescript, w.env, egg, pkg, host.hasTsConfig(base), compiler);
    w.(args := w.args.(base := Some(base), pkgEgg := Some(egg), typescript := ts),
       probed := if ProbeConsulted(w.args.typescript, w.env, egg, pkg) then w.probed + [base] else w.probed)
  }

  /** Lines 86-111, run when TypeScript is on. */
  function TypescriptPhase(w: World, host: Host, base: string, compiler: Option<Json>): Step
  {
    var request := CoalesceOr(compiler, JStr(DefaultCompiler));
    var w1 := w.(args := w.args.(tscompiler := Some(request)));
    match ResolveModule(host, request, Some(FindPaths(compiler, base, host.installDir)))
    case Err(f) => Step(Fail(f), w1)
    case Ok(register) =>
      var processEnv := w.processEnv[EggTypescriptVar := "true"];
      var filesFlag := if TsNodeFilesVar in processEnv then processEnv[TsNodeFilesVar] else "true";
      var w2 := w1.(loaded := w.loaded + [register],
                    nodeOptions := w.nodeOptions + [RequireToken(register)],
                    env := w.env[EggTypescriptVar := "true"][TsNodeFilesVar := filesFlag],
                    processEnv := processEnv);
      match ResolveModule(host, JStr(TsconfigPathsRegister), None)
      case Err(f) => Step(Fail(f), w2)
      case Ok(paths) => Step(Next, w2.(nodeOptions := w2.nodeOptions + [RequireToken(paths)]))
  }

  /** Lines 112-124, run when the package is an ES module. */
  function EsmPhase(w: World, host: Host): Step
  {
    match ResolveModule(host, JStr(TsNodeEsm), None)
    case Err(f) => Step(Fail(f), w)
    case Ok(loader) =>
      Step(Next, w.(nodeOptions := w.nodeOptions + [NoWarningsToken, LoaderToken(EsmLoaderUrl(host, loader))]))
  }

  /** Lines 126-137. */
  function DeclarationsPhase(w: World, host: Host, egg: Json): Step
  {
    var decl := Declarations(w.args.declarations, egg);
    var w1 := w.(args := w.args.(declarations := decl));
    if decl != Some(true) then Step(Next, w1)
    else match ResolveModule(host, JStr(EtsBin), None)
      case Err(f) => Step(Fail(f), w1)
      case Ok(bin) =>
        var command := "node " + bin;
        var w2 := w1.(scripts := w1.scripts + [command]);
        if host.exitCode(command) != 0 then Step(Fail(ScriptFailed(command, host.exitCode(command))), w2)
        else Step(Next, w2)
  }

  /** One invocation of the middleware, up to the call of `next()`. */
  function Handle(cwd: string, w: World, host: Host): Step
  {
    var base := ResolveBase(w.args.base, cwd, host);
    var pkg := host.readPackageJSON(base);
    var egg := EggConfig(pkg);
    var compiler := Compiler(w.args.tscompiler, w.env, egg);
    var w1 := ResolvePhase(cwd, w, host);
    var s2 := if w1.args.typescript == Some(true) then TypescriptPhase(w1, host, base, compiler) else Step(Next, w1);
    if s2.outcome.Fail? then s2
    else
      var s3 := if IsEsm(pkg) then EsmPhase(s2.world, host) else s2;
      if s3.outcome.Fail? then s3
      else DeclarationsPhase(s3.world, host, egg)
  }

  // ---------------------------------------------------------------------
  // The imperative middleware

  /** The part of `CommandContext` the middleware touches. */
  class CommandContext {
    const cwd: string
    var args: Args
    var env: map<string, string>
    /** The tokens handed to `addNodeOptionsToEnv(token, ctx.env)`, in order. */
    var nodeOptions: seq<string>

    constructor (cwd: string, args: Args, env: map<string, string>)
      ensures this.cwd == cwd && this.args == args && this.env == env && nodeOptions == []
    {
      this.cwd := cwd;
      this.args := args;
      this.env := env;
      nodeOptions := [];
    }
  }

  /** The current Node.js process: `process.env`, the modules `require`d
      into it, and the file-system probes and subprocesses it performs. */
  class Process {
    var env: map<string, string>
    var loaded: seq<string>
    var probed: seq<string>
    var scripts: seq<string>

    constructor (env: map<string, string>)
      ensures this.env == env && loaded == [] && probed == [] && scripts == []
    {
      this.env := env;
      loaded, probed, scripts := [], [], [];
    }
  }

  function Observe(ctx: CommandContext, proc: Process): World
    reads ctx, proc
  {
    World(ctx.args, ctx.env, ctx.nodeOptions, proc.env, proc.loaded, proc.probed, proc.scripts)
  }

  /** `addNodeOptionsToEnv(token, ctx.env)`: records the appended token. */
  method AddNodeOptionsToEnv(ctx: CommandContext, token: string)
    modifies ctx`nodeOptions
    ensures ctx.nodeOptions == old(ctx.nodeOptions) + [token]
  {
    ctx.nodeOptions := ctx.nodeOptions + [token];
  }

  /** `await hasTsConfig(dir)` */
  method HasTsConfig(proc: Process, host: Host, dir: string) returns (found: bool)
    modifies proc`probed
    ensures found == host.hasTsConfig(dir)
    ensures proc.probed == old(proc.probed) + [dir]
  {
    proc.probed := proc.probed + [dir];
    found := host.hasTsConfig(dir);
  }

  /** `require(path)` on the current process. */
  method Require(proc: Process, path: string)
    modifies proc`loaded
    ensures proc.loaded == old(proc.loaded) + [path]
  {
    proc.loaded := proc.loaded + [path];
  }

  /** `await runscript(command)` */
  method Runscript(proc: Process, host: Host, command: string) returns (code: int)
    modifies proc`scripts
    ensures code == host.exitCode(command)
    ensures proc.scripts == old(proc.scripts) + [command]
  {
    proc.scripts := proc.scripts + [command];
    code := host.exitCode(command);
  }

  /** Lines 46-52: makes `ctx.args.base` an absolute directory. */
  method ResolveBaseDir(ctx: CommandContext, host: Host)
    modifies ctx`args
    ensures ctx.args == old(ctx.args).(base := Some(ResolveBase(old(ctx.args.base), ctx.cwd, host)))
  {
    if ctx.args.base.None? || ctx.args.base.value == "" {
      ctx.args := ctx.args.(base := Some(ctx.cwd));
    }
    if !host.isAbsolute(ctx.args.base.value) {
      ctx.args := ctx.args.(base := Some(host.join(ctx.cwd, ctx.args.base.value)));
    }
  }

  /** Lines 46-84: settles `base`, `pkgEgg` and `typescript`. Returns the
      manifest and the compiler of line 56 as written. */
  method ResolveOptions(ctx: CommandContext, proc: Process, host: Host) returns (pkg: map<string, Json>, tscompiler: Option<Json>)
    modifies ctx`args, proc`probed
    ensures pkg == host.readPackageJSON(ResolveBase(old(ctx.args.base), ctx.cwd, host))
    ensures Defined(tscompiler) == Compiler(old(ctx.args.tscompiler), ctx.env, EggConfig(pkg))
    ensures Truthy(tscompiler) == Truthy(Compiler(old(ctx.args.tscompiler), ctx.env, EggConfig(pkg)))
    ensures Observe(ctx, proc) == ResolvePhase(ctx.cwd, old(Observe(ctx, proc)), host)
  {
    ghost var w := Observe(ctx, proc);
    ResolveBaseDir(ctx, host);
    var base := ctx.args.base.value;
    pkg := host.readPackageJSON(base);
    ctx.args := ctx.args.(pkgEgg := Some(CoalesceOr(Prop(pkg, "egg"), JObj(map[]))));
    var egg := ctx.args.pkgEgg.value;
    assert egg == EggConfig(pkg);
    tscompiler := Coalesce(ctx.args.tscompiler, Coalesce(EnvJson(ctx.env, TsCompilerVar), Member(Some(egg), "tscompiler")));
    CompilerChain(ctx.args.tscompiler, ctx.env, egg);
    assert ctx.args == w.args.(base := Some(base), pkgEgg := Some(egg));
    DetectTypescript(ctx, proc, host, base, pkg, egg, tscompiler);
  }

  /** Lines 57-84: the `if / else if` chain that settles `typescript`,
      probing for `tsconfig.json` only when the rules before it abstain. */
  method DetectTypescript(ctx: CommandContext, proc: Process, host: Host, base: string, pkg: map<string, Json>,
                          egg: Json, tscompiler: Option<Json>)
    modifies ctx`args, proc`probed
    ensures ctx.args == old(ctx.args).(typescript :=
      Typescript(old(ctx.args.typescript), ctx.env, egg, pkg, host.hasTsConfig(base), Defined(tscompiler)))
    ensures proc.probed == old(proc.probed) +
      (if ProbeConsulted(old(ctx.args.typescript), ctx.env, egg, pkg) then [base] else [])
  {
    TypescriptChain(ctx.args.typescript, ctx.env, egg, pkg, host.hasTsConfig(base), Defined(tscompiler));
    ProbeChain(ctx.args.typescript, ctx.env, egg, pkg);
    assert Truthy(Defined(tscompiler)) == Truthy(tscompiler);
    if ctx.args.typescript.None? {
      if EnvGet(ctx.env, EggTypescriptVar) == Some("false") {
        ctx.args := ctx.args.(typescript := Some(false));
      } else if EnvGet(ctx.env, EggTypescriptVar) == Some("true") {
        ctx.args := ctx.args.(typescript := Some(true));
      } else if Member(Some(egg), "typescript").Some? && Member(Some(egg), "typescript").value.JBool? {
        ctx.args := ctx.args.(typescript := Some(Member(Some(egg), "typescript").value.b));
      } else if Truthy(Member(Prop(pkg, "dependencies"), "typescript")) {
        ctx.args := ctx.args.(typescript := Some(true));
      } else if Truthy(Member(Prop(pkg, "devDependencies"), "typescript")) {
        ctx.args := ctx.args.(typescript := Some(true));
      } else {
        var found := HasTsConfig(proc, host, base);
        if found {
          ctx.args := ctx.args.(typescript := Some(true));
        } else if Truthy(tscompiler) {
          ctx.args := ctx.args.(typescript := Some(true));
        }
      }
    }
  }

  /** Lines 86-111: registers the compiler and `tsconfig-paths` with the
      current process and with child processes. */
  method EnableTypescript(ctx: CommandContext, proc: Process, host: Host, base: string, tscompiler: Option<Json>) returns (o: Outcome)
    modifies ctx`args, ctx`env, ctx`nodeOptions, proc`env, proc`loaded
    ensures Step(o, Observe(ctx, proc)) == TypescriptPhase(old(Observe(ctx, proc)), host, base, Defined(tscompiler))
  {
    assert Truthy(Defined(tscompiler)) == Truthy(tscompiler);
    assert CoalesceOr(Defined(tscompiler), JStr(DefaultCompiler)) == CoalesceOr(tscompiler, JStr(DefaultCompiler));
    var findPaths := [host.installDir];
    if Truthy(tscompiler) {
      findPaths := [base] + findPaths;
    }
    assert findPaths == FindPaths(Defined(tscompiler), base, host.installDir);
    ctx.args := ctx.args.(tscompiler := Some(CoalesceOr(tscompiler, JStr(DefaultCompiler))));
    var register := ResolveModule(host, ctx.args.tscompiler.value, Some(findPaths));
    if register.Err? {
      return Fail(register.failure);
    }
    Require(proc, register.value);
    AddNodeOptionsToEnv(ctx, RequireToken(register.value));
    ctx.env := ctx.env[EggTypescriptVar := "true"];
    proc.env := proc.env[EggTypescriptVar := "true"];
    ctx.env := ctx.env[TsNodeFilesVar := if TsNodeFilesVar in proc.env then proc.env[TsNodeFilesVar] else "true"];
    var paths := ResolveModule(host, JStr(TsconfigPathsRegister), None);
    if paths.Err? {
      return Fail(paths.failure);
    }
    AddNodeOptionsToEnv(ctx, RequireToken(paths.value));
    o := Next;
  }

  /** Lines 112-124: registers the ESM loader with child processes. */
  method EnableEsm(ctx: CommandContext, proc: Process, host: Host) returns (o: Outcome)
    modifies ctx`nodeOptions
    ensures Step(o, Observe(ctx, proc)) == EsmPhase(old(Observe(ctx, proc)), host)
  {
    var esm := ResolveModule(host, JStr(TsNodeEsm), None);
    if esm.Err? {
      return Fail(esm.failure);
    }
    var esmLoader := esm.value;
    if host.platform == "win32" {
      esmLoader := host.pathToFileURL(esmLoader);
    }
    AddNodeOptionsToEnv(ctx, NoWarningsToken);
    AddNodeOptionsToEnv(ctx, LoaderToken(esmLoader));
    o := Next;
  }

  /** Lines 126-137: settles `declarations` and runs the typings helper. */
  method ApplyDeclarations(ctx: CommandContext, proc: Process, host: Host) returns (o: Outcome)
    requires ctx.args.pkgEgg.Some?
    modifies ctx`args, proc`scripts
    ensures Step(o, Observe(ctx, proc)) == DeclarationsPhase(old(Observe(ctx, proc)), host, old(ctx.args.pkgEgg.value))
  {
    var egg := ctx.args.pkgEgg.value;
    ghost var rules := [ctx.args.declarations, BoolOf(Member(Some(egg), "declarations"))];
    if ctx.args.declarations.Some? {
      FirstOfAt(rules, 0);
    } else if rules[1].Some? {
      FirstOfAt(rules, 1);
    }
    if ctx.args.declarations.None? {
      if Member(Some(egg), "declarations").Some? && Member(Some(egg), "declarations").value.JBool? {
        ctx.args := ctx.args.(declarations := Some(Member(Some(egg), "declarations").value.b));
      }
    }
    if ctx.args.declarations == Some(true) {
      var bin := ResolveModule(host, JStr(EtsBin), None);
      if bin.Err? {
        return Fail(bin.failure);
      }
      var code := Runscript(proc, host, "node " + bin.value);
      if code != 0 {
        return Fail(ScriptFailed("node " + bin.value, code));
      }
    }
    o := Next;
  }

  /** The middleware closure registered with `program.use`. It returns
      `Next` where the source calls `next()`. */
  method Middleware(ctx: CommandContext, proc: Process, host: Host) returns (o: Outcome)
    modifies ctx, proc
    ensures Step(o, Observe(ctx, proc)) == Handle(ctx.cwd, old(Observe(ctx, proc)), host)
  {
    var pkg, tscompiler := ResolveOptions(ctx, proc, host);
    if ctx.args.typescript == Some(true) {
      o := EnableTypescript(ctx, proc, host, ctx.args.base.value, tscompiler);
      if o.Fail? {
        return;
      }
    }
    if Prop(pkg, "type") == Some(JStr("module")) {
      o := EnableEsm(ctx, proc, host);
      if o.Fail? {
        return;
      }
    }
    o := ApplyDeclarations(ctx, proc, host);
  }

  /** Line 56 as written (`a ?? b ?? c`) agrees with the chain `Compiler`
      wherever the source looks at it: its truthiness and its value once
      `null` is read as `undefined`. */
  lemma CompilerChain(arg: Option<Json>, env: map<string, string>, egg: Json)
    ensures var c := Coalesce(arg, Coalesce(EnvJson(env, TsCompilerVar), Member(Some(egg), "tscompiler")));
            Defined(c) == Compiler(arg, env, egg) && Truthy(c) == Truthy(Compiler(arg, env, egg))
  {
    var rules := CompilerRules(arg, env, egg);
    if !Nullish(arg) {
      FirstOfAt(rules, 0);
    } else if !Nullish(EnvJson(env, TsCompilerVar)) {
      FirstOfAt(rules, 1);
    } else if !Nullish(Member(Some(egg), "tscompiler")) {
      FirstOfAt(rules, 2);
    }
  }
}
