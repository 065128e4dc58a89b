/**
 * What the global-options middleware promises, proved about the decision
 * functions and about `Handle`, the effect of one whole invocation.
 */
module GlobalOptionsProperties {
  import opened Js
  import opened Precedence
  import opened GlobalOptions

  // ---------------------------------------------------------------------
  // Base directory

  /** A missing or empty base becomes the (absolute) working directory, an
      absolute base is kept, and a relative one is joined onto the working
      directory. */
  lemma BaseResolution(base: Option<string>, cwd: string, host: Host)
    ensures (base.None? || base == Some("")) && host.isAbsolute(cwd) ==> ResolveBase(base, cwd, host) == cwd
    ensures base.Some? && base.value != "" && host.isAbsolute(base.value) ==> ResolveBase(base, cwd, host) == base.value
    ensures base.Some? && base.value != "" && !host.isAbsolute(base.value) ==>
              ResolveBase(base, cwd, host) == host.join(cwd, base.value)
  {
  }

  // ---------------------------------------------------------------------
  // The TypeScript flag

  /** An explicit `--typescript` or `--no-typescript` is never overwritten,
      and then nothing else is consulted, not even `tsconfig.json`. */
  lemma ExplicitTypescriptKept(arg: bool, env: map<string, string>, egg: Json, pkg: map<string, Json>,
                               tsconfig: bool, compiler: Option<Json>)
    ensures Typescript(Some(arg), env, egg, pkg, tsconfig, compiler) == Some(arg)
    ensures !ProbeConsulted(Some(arg), env, egg, pkg)
  {
    TypescriptChain(Some(arg), env, egg, pkg, tsconfig, compiler);
    ProbeChain(Some(arg), env, egg, pkg);
  }

  /** Without an argument, `EGG_TYPESCRIPT` decides when it is exactly
      `'false'` or `'true'`; any other value, the empty string included,
      is ignored as if the variable were unset. */
  lemma EnvToggleExact(env: map<string, string>, egg: Json, pkg: map<string, Json>, tsconfig: bool, compiler: Option<Json>)
    ensures EnvGet(env, EggTypescriptVar) == Some("false") ==> Typescript(None, env, egg, pkg, tsconfig, compiler) == Some(false)
    ensures EnvGet(env, EggTypescriptVar) == Some("true") ==> Typescript(None, env, egg, pkg, tsconfig, compiler) == Some(true)
    ensures EnvGet(env, EggTypescriptVar) != Some("false") && EnvGet(env, EggTypescriptVar) != Some("true") ==>
              Typescript(None, env, egg, pkg, tsconfig, compiler) ==
                Typescript(None, env - {EggTypescriptVar}, egg, pkg, tsconfig, compiler)
              && ProbeConsulted(None, env, egg, pkg) == ProbeConsulted(None, env - {EggTypescriptVar}, egg, pkg)
  {
    TypescriptChain(None, env, egg, pkg, tsconfig, compiler);
    TypescriptChain(None, env - {EggTypescriptVar}, egg, pkg, tsconfig, compiler);
    ProbeChain(None, env, egg, pkg);
    ProbeChain(None, env - {EggTypescriptVar}, egg, pkg);
  }

  /** The environment outranks the manifest: `EGG_TYPESCRIPT=true` wins
      over `"egg": { "typescript": false }`. */
  lemma EnvOutranksManifest(env: map<string, string>, egg: Json, pkg: map<string, Json>, tsconfig: bool, compiler: Option<Json>)
    requires EnvGet(env, EggTypescriptVar) == Some("true")
    requires Member(Some(egg), "typescript") == Some(JBool(false))
    ensures Typescript(None, env, egg, pkg, tsconfig, compiler) == Some(true)
  {
    TypescriptChain(None, env, egg, pkg, tsconfig, compiler);
  }

  /** A boolean `pkg.egg.typescript` decides before the dependency sections
      and the probe are consulted: `false` stays `false` whatever the
      dependencies, `tsconfig.json` or a compiler override say. A value of
      another type is ignored. */
  lemma ManifestBooleanDecides(env: map<string, string>, egg: Json, pkg: map<string, Json>, tsconfig: bool, compiler: Option<Json>)
    requires EnvToggle(env).None?
    ensures Member(Some(egg), "typescript") == Some(JBool(false)) ==>
              Typescript(None, env, egg, pkg, tsconfig, compiler) == Some(false)
    ensures Member(Some(egg), "typescript") == Some(JBool(true)) ==>
              Typescript(None, env, egg, pkg, tsconfig, compiler) == Some(true)
    ensures BoolOf(Member(Some(egg), "typescript")).Some? ==> !ProbeConsulted(None, env, egg, pkg)
  {
    TypescriptChain(None, env, egg, pkg, tsconfig, compiler);
    ProbeChain(None, env, egg, pkg);
  }

  /** A truthy `typescript` entry in either dependency section turns
      TypeScript on when nothing before it decided; which of the two
      sections holds it makes no difference. */
  lemma DependencySectionsEquivalent(env: map<string, string>, egg: Json, pkg: map<string, Json>, tsconfig: bool, compiler: Option<Json>)
    requires EnvToggle(env).None? && BoolOf(Member(Some(egg), "typescript")).None?
    ensures DependencyRule(pkg, "dependencies").Some? || DependencyRule(pkg, "devDependencies").Some? ==>
              Typescript(None, env, egg, pkg, tsconfig, compiler) == Some(true) && !ProbeConsulted(None, env, egg, pkg)
    ensures Typescript(None, env, egg, pkg, tsconfig, compiler) ==
              Typescript(None, env, egg, SwapSections(pkg), tsconfig, compiler)
  {
    var swapped := SwapSections(pkg);
    assert Prop(swapped, "dependencies") == Prop(pkg, "devDependencies");
    assert Prop(swapped, "devDependencies") == Prop(pkg, "dependencies");
    TypescriptChain(None, env, egg, pkg, tsconfig, compiler);
    TypescriptChain(None, env, egg, swapped, tsconfig, compiler);
    ProbeChain(None, env, egg, pkg);
  }

  /** The manifest with its `dependencies` and `devDependencies` swapped. */
  function SwapSections(pkg: map<string, Json>): (r: map<string, Json>)
    ensures Prop(r, "dependencies") == Prop(pkg, "devDependencies")
    ensures Prop(r, "devDependencies") == Prop(pkg, "dependencies")
    ensures forall k | k in pkg && k != "dependencies" && k != "devDependencies" :: k in r && r[k] == pkg[k]
  {
    var rest := pkg - {"dependencies", "devDependencies"};
    var deps := if "devDependencies" in pkg then rest["dependencies" := pkg["devDependencies"]] else rest;
    if "dependencies" in pkg then deps["devDependencies" := pkg["dependencies"]] else deps
  }

  /** The `tsconfig.json` probe is consulted exactly when the rules before
      it abstain, and when it is not consulted its answer cannot matter. */
  lemma ProbeOnlyWhenUndecided(arg: Option<bool>, env: map<string, string>, egg: Json, pkg: map<string, Json>,
                               compiler: Option<Json>)
    ensures !ProbeConsulted(arg, env, egg, pkg) ==>
              Typescript(arg, env, egg, pkg, true, compiler) == Typescript(arg, env, egg, pkg, false, compiler)
    ensures ProbeConsulted(arg, env, egg, pkg) ==> Typescript(arg, env, egg, pkg, true, compiler) == Some(true)
  {
    var early := EarlyTypescriptRules(arg, env, egg, pkg);
    if !ProbeConsulted(arg, env, egg, pkg) {
      LaterRulesIgnored(early, LateTypescriptRules(true, compiler), LateTypescriptRules(false, compiler));
    } else {
      FirstOfAppend(early, LateTypescriptRules(true, compiler));
      FirstOfAt(LateTypescriptRules(true, compiler), 0);
    }
  }

  /** A compiler override alone turns TypeScript on: with no argument, no
      environment toggle, no `pkg.egg.typescript` boolean, no typescript
      dependency and no `tsconfig.json`, the flag is on exactly when the
      compiler is truthy, and stays unset otherwise. */
  lemma OverrideImpliesTypescript(env: map<string, string>, egg: Json, pkg: map<string, Json>, compiler: Option<Json>)
    requires EnvToggle(env).None? && BoolOf(Member(Some(egg), "typescript")).None?
    requires DependencyRule(pkg, "dependencies").None? && DependencyRule(pkg, "devDependencies").None?
    ensures Truthy(compiler) ==> Typescript(None, env, egg, pkg, false, compiler) == Some(true)
    ensures !Truthy(compiler) ==> Typescript(None, env, egg, pkg, false, compiler) == None
  {
    TypescriptChain(None, env, egg, pkg, false, compiler);
  }

  // ---------------------------------------------------------------------
  // The compiler

  /** `args.tscompiler ?? env.TS_COMPILER ?? pkg.egg.tscompiler`: each
      source is passed over only when it is `undefined` or `null`. */
  lemma CompilerPrecedence(arg: Option<Json>, env: map<string, string>, egg: Json)
    ensures !Nullish(arg) ==> Compiler(arg, env, egg) == arg
    ensures Nullish(arg) && TsCompilerVar in env ==> Compiler(arg, env, egg) == Some(JStr(env[TsCompilerVar]))
    ensures Nullish(arg) && TsCompilerVar !in env ==> Compiler(arg, env, egg) == Defined(Member(Some(egg), "tscompiler"))
  {
    var rules := CompilerRules(arg, env, egg);
    if !Nullish(arg) {
      FirstOfAt(rules, 0);
    } else if TsCompilerVar in env {
      FirstOfAt(rules, 1);
    } else if !Nullish(Member(Some(egg), "tscompiler")) {
      FirstOfAt(rules, 2);
    }
  }

  /** An empty `--tscompiler ''` is present for `??` but falsy: it shadows
      `TS_COMPILER` and `pkg.egg.tscompiler`, does not turn TypeScript on,
      keeps the application directory out of the search paths, and is the
      request handed to `require.resolve` instead of the default. */
  lemma EmptyCompilerPresentButFalsy(env: map<string, string>, egg: Json, base: string, installDir: string)
    ensures Compiler(Some(JStr("")), env, egg) == Some(JStr(""))
    ensures !Truthy(Compiler(Some(JStr("")), env, egg))
    ensures CoalesceOr(Compiler(Some(JStr("")), env, egg), JStr(DefaultCompiler)) == JStr("")
    ensures FindPaths(Compiler(Some(JStr("")), env, egg), base, installDir) == [installDir]
  {
    FirstOfAt(CompilerRules(Some(JStr("")), env, egg), 0);
  }

  /** The compiler search list always ends with the tool's install
      directory; the application directory comes first exactly when the
      compiler is truthy. */
  lemma SearchPathsOrder(compiler: Option<Json>, base: string, installDir: string)
    ensures var paths := FindPaths(compiler, base, installDir);
            |paths| > 0 && paths[|paths| - 1] == installDir
            && (Truthy(compiler) <==> |paths| == 2)
            && (Truthy(compiler) ==> paths[0] == base)
  {
  }

  // ---------------------------------------------------------------------
  // The declarations flag

  /** An explicit `--declarations` is kept; otherwise a boolean
      `pkg.egg.declarations` decides, and anything else leaves it unset. */
  lemma DeclarationsPrecedence(arg: Option<bool>, egg: Json)
    ensures arg.Some? ==> Declarations(arg, egg) == arg
    ensures arg.None? ==> Declarations(arg, egg) == BoolOf(Member(Some(egg), "declarations"))
  {
    var rules := [arg, BoolOf(Member(Some(egg), "declarations"))];
    if arg.Some? {
      FirstOfAt(rules, 0);
    } else if rules[1].Some? {
      FirstOfAt(rules, 1);
    }
  }

  // ---------------------------------------------------------------------
  // One whole invocation

  /** The values one invocation works with, named. */
  datatype Plan = Plan(
    base: string,
    pkg: map<string, Json>,
    egg: Json,
    compiler: Option<Json>,
    typescript: Option<bool>,
    register: Result<string>,
    tsconfigPaths: Result<string>,
    esmLoader: Result<string>,
    declarations: Option<bool>,
    etsBin: Result<string>)

  function PlanOf(cwd: string, w: World, host: Host): Plan
  {
    var base := ResolveBase(w.args.base, cwd, host);
    var pkg := host.readPackageJSON(base);
    var egg := EggConfig(pkg);
    var compiler := Compiler(w.args.tscompiler, w.env, egg);
    Plan(base, pkg, egg, compiler,
         Typescript(w.args.typescript, w.env, egg, pkg, host.hasTsConfig(base), compiler),
         ResolveModule(host, CoalesceOr(compiler, JStr(DefaultCompiler)), Some(FindPaths(compiler, base, host.installDir))),
         ResolveModule(host, JStr(TsconfigPathsRegister), None),
         ResolveModule(host, JStr(TsNodeEsm), None),
         Declarations(w.args.declarations, egg),
         ResolveModule(host, JStr(EtsBin), None))
  }

  /** The command the typings helper is run with. */
  function HelperCommand(p: Plan): string
    requires p.etsBin.Ok?
  {
    "node " + p.etsBin.value
  }

  // The four lemmas below only unfold one section each; they carry no
  // property of their own and keep the proofs of the invocation lemmas
  // within the solver's budget.

  lemma ResolvePhaseEffect(cwd: string, w: World, host: Host)
    ensures var p := PlanOf(cwd, w, host);
      ResolvePhase(cwd, w, host) ==
        w.(args := w.args.(base := Some(p.base), pkgEgg := Some(p.egg), typescript := p.typescript),
           probed := w.probed + (if ProbeConsulted(w.args.typescript, w.env, p.egg, p.pkg) then [p.base] else []))
  {
  }

  lemma TypescriptPhaseEffect(w: World, host: Host, base: string, compiler: Option<Json>)
    ensures var s := TypescriptPhase(w, host, base, compiler);
      var request := CoalesceOr(compiler, JStr(DefaultCompiler));
      var register := ResolveModule(host, request, Some(FindPaths(compiler, base, host.installDir)));
      var paths := ResolveModule(host, JStr(TsconfigPathsRegister), None);
      s.world.args == w.args.(tscompiler := Some(request))
      && s.world.probed == w.probed && s.world.scripts == w.scripts
      && (register.Err? ==> s == Step(Fail(register.failure), s.world)
                            && s.world.env == w.env && s.world.processEnv == w.processEnv
                            && s.world.loaded == w.loaded && s.world.nodeOptions == w.nodeOptions)
      && (register.Ok? ==>
            s.world.env == w.env[EggTypescriptVar := "true"]
                             [TsNodeFilesVar := if TsNodeFilesVar in w.processEnv then w.processEnv[TsNodeFilesVar] else "true"]
            && s.world.processEnv == w.processEnv[EggTypescriptVar := "true"]
            && s.world.loaded == w.loaded + [register.value]
            && s.outcome == (if paths.Err? then Fail(paths.failure) else Next)
            && s.world.nodeOptions == w.nodeOptions + [RequireToken(register.value)]
                 + (if paths.Ok? then [RequireToken(paths.value)] else []))
  {
  }

  lemma EsmPhaseEffect(w: World, host: Host)
    ensures var s := EsmPhase(w, host); var loader := ResolveModule(host, JStr(TsNodeEsm), None);
      s.world == w.(nodeOptions := s.world.nodeOptions)
      && s.outcome == (if loader.Err? then Fail(loader.failure) else Next)
      && s.world.nodeOptions == w.nodeOptions
           + (if loader.Ok? then [NoWarningsToken, LoaderToken(EsmLoaderUrl(host, loader.value))] else [])
  {
  }

  lemma DeclarationsPhaseEffect(w: World, host: Host, egg: Json)
    ensures var s := DeclarationsPhase(w, host, egg); var decl := Declarations(w.args.declarations, egg);
      var bin := ResolveModule(host, JStr(EtsBin), None);
      s.world == w.(args := w.args.(declarations := decl), scripts := s.world.scripts)
      && s.world.scripts == w.scripts + (if decl == Some(true) && bin.Ok? then ["node " + bin.value] else [])
  {
  }

  /** An invocation stops at the first resolution that fails, in source
      order, or at a failing typings helper; otherwise it reaches `next()`. */
  lemma InvocationOutcome(cwd: string, w: World, host: Host)
    ensures var p := PlanOf(cwd, w, host);
      Handle(cwd, w, host).outcome ==
        if p.typescript == Some(true) && p.register.Err? then Fail(p.register.failure)
        else if p.typescript == Some(true) && p.tsconfigPaths.Err? then Fail(p.tsconfigPaths.failure)
        else if IsEsm(p.pkg) && p.esmLoader.Err? then Fail(p.esmLoader.failure)
        else if p.declarations == Some(true) && p.etsBin.Err? then Fail(p.etsBin.failure)
        else if p.declarations == Some(true) && host.exitCode(HelperCommand(p)) != 0 then
          Fail(ScriptFailed(HelperCommand(p), host.exitCode(HelperCommand(p))))
        else Next
  {
  }

  /** Whatever the outcome, `base`, `pkgEgg` and `typescript` hold the
      decisions, the probe was run at most once and only on the base
      directory, and `tscompiler` is set exactly when TypeScript is on, to
      the chosen compiler or `'ts-node/register'`. */
  lemma ArgumentsAfterInvocation(cwd: string, w: World, host: Host)
    ensures var p := PlanOf(cwd, w, host); var a := Handle(cwd, w, host).world.args;
      a.base == Some(p.base) && a.pkgEgg == Some(p.egg) && a.typescript == p.typescript
      && a.tscompiler == (if p.typescript == Some(true) then Some(CoalesceOr(p.compiler, JStr(DefaultCompiler)))
                          else w.args.tscompiler)
      && Handle(cwd, w, host).world.probed ==
           w.probed + (if ProbeConsulted(w.args.typescript, w.env, p.egg, p.pkg) then [p.base] else [])
  {
    var p := PlanOf(cwd, w, host);
    ResolvePhaseEffect(cwd, w, host);
    var w1 := ResolvePhase(cwd, w, host);
    TypescriptPhaseEffect(w1, host, p.base, p.compiler);
    var s2 := if p.typescript == Some(true) then TypescriptPhase(w1, host, p.base, p.compiler) else Step(Next, w1);
    EsmPhaseEffect(s2.world, host);
    var s3 := if IsEsm(p.pkg) then EsmPhase(s2.world, host) else s2;
    DeclarationsPhaseEffect(s3.world, host, p.egg);
  }

  /** When TypeScript is on and the compiler resolves, the compiler is
      loaded into the current process, `EGG_TYPESCRIPT` becomes `'true'` in
      both environments, and `TS_NODE_FILES` takes the inherited
      `process.env.TS_NODE_FILES` or `'true'`. When TypeScript is off,
      neither environment changes and nothing is loaded. Apart from
      `NODE_OPTIONS`, no other variable changes in either case: the tokens
      appended to `NODE_OPTIONS` are kept in `nodeOptions`, and a value
      inherited in `env` is left as it was. */
  lemma EnvironmentAfterInvocation(cwd: string, w: World, host: Host)
    ensures var p := PlanOf(cwd, w, host); var s := Handle(cwd, w, host).world;
      if p.typescript == Some(true) && p.register.Ok? then
        s.env == w.env[EggTypescriptVar := "true"]
                      [TsNodeFilesVar := if TsNodeFilesVar in w.processEnv then w.processEnv[TsNodeFilesVar] else "true"]
        && s.processEnv == w.processEnv[EggTypescriptVar := "true"]
        && s.loaded == w.loaded + [p.register.value]
      else
        s.env == w.env && s.processEnv == w.processEnv && s.loaded == w.loaded
  {
    var p := PlanOf(cwd, w, host);
    ResolvePhaseEffect(cwd, w, host);
    var w1 := ResolvePhase(cwd, w, host);
    TypescriptPhaseEffect(w1, host, p.base, p.compiler);
    var s2 := if p.typescript == Some(true) then TypescriptPhase(w1, host, p.base, p.compiler) else Step(Next, w1);
    EsmPhaseEffect(s2.world, host);
    var s3 := if IsEsm(p.pkg) then EsmPhase(s2.world, host) else s2;
    DeclarationsPhaseEffect(s3.world, host, p.egg);
  }

  /** The tokens appended to `NODE_OPTIONS` by an invocation, whatever its
      outcome: when TypeScript is on, the compiler's `--require` once it
      resolves and then `tsconfig-paths`' once that resolves too; when the
      package is an ES module (decided by `pkg.type` alone) and the
      TypeScript section did not fail, `--no-warnings` and `--loader` once
      the loader resolves. A later failure takes back no token. */
  lemma NodeOptionsAfterInvocation(cwd: string, w: World, host: Host)
    ensures var p := PlanOf(cwd, w, host);
      var ts := p.typescript == Some(true);
      var tsOk := !ts || (p.register.Ok? && p.tsconfigPaths.Ok?);
      Handle(cwd, w, host).world.nodeOptions == w.nodeOptions
        + (if ts && p.register.Ok? then [RequireToken(p.register.value)] else [])
        + (if ts && p.register.Ok? && p.tsconfigPaths.Ok? then [RequireToken(p.tsconfigPaths.value)] else [])
        + (if tsOk && IsEsm(p.pkg) && p.esmLoader.Ok? then [NoWarningsToken, LoaderToken(EsmLoaderUrl(host, p.esmLoader.value))] else [])
  {
    var p := PlanOf(cwd, w, host);
    ResolvePhaseEffect(cwd, w, host);
    var w1 := ResolvePhase(cwd, w, host);
    TypescriptPhaseEffect(w1, host, p.base, p.compiler);
    var s2 := if p.typescript == Some(true) then TypescriptPhase(w1, host, p.base, p.compiler) else Step(Next, w1);
    EsmPhaseEffect(s2.world, host);
    var s3 := if IsEsm(p.pkg) then EsmPhase(s2.world, host) else s2;
    DeclarationsPhaseEffect(s3.world, host, p.egg);
  }

  /** The typings helper runs, once, exactly when the invocation gets to
      line 133 with `declarations` truthy and the helper resolves; the
      final `declarations` is the decided one whenever line 126 is
      reached. */
  lemma HelperRunsIffDeclarations(cwd: string, w: World, host: Host)
    ensures var p := PlanOf(cwd, w, host); var s := Handle(cwd, w, host).world;
      var reached := !(p.typescript == Some(true) && (p.register.Err? || p.tsconfigPaths.Err?))
                     && !(IsEsm(p.pkg) && p.esmLoader.Err?);
      (s.scripts == if reached && p.declarations == Some(true) && p.etsBin.Ok? then w.scripts + [HelperCommand(p)]
                    else w.scripts)
      && s.args.declarations == (if reached then p.declarations else w.args.declarations)
  {
    var p := PlanOf(cwd, w, host);
    ResolvePhaseEffect(cwd, w, host);
    var w1 := ResolvePhase(cwd, w, host);
    TypescriptPhaseEffect(w1, host, p.base, p.compiler);
    var s2 := if p.typescript == Some(true) then TypescriptPhase(w1, host, p.base, p.compiler) else Step(Next, w1);
    EsmPhaseEffect(s2.world, host);
    var s3 := if IsEsm(p.pkg) then EsmPhase(s2.world, host) else s2;
    DeclarationsPhaseEffect(s3.world, host, p.egg);
  }

  /** With `--declarations` passed and the loaders resolved, a typings
      helper that exits with a non-zero code stops the invocation with that
      code, after running exactly once: `next()` is not reached. */
  lemma FailingHelperStopsInvocation(cwd: string, w: World, host: Host)
    requires w.args.declarations == Some(true)
    requires var p := PlanOf(cwd, w, host);
      && (p.typescript == Some(true) ==> p.register.Ok? && p.tsconfigPaths.Ok?)
      && (IsEsm(p.pkg) ==> p.esmLoader.Ok?)
      && p.etsBin.Ok? && host.exitCode(HelperCommand(p)) != 0
    ensures var p := PlanOf(cwd, w, host);
      Handle(cwd, w, host).outcome == Fail(ScriptFailed(HelperCommand(p), host.exitCode(HelperCommand(p))))
      && Handle(cwd, w, host).world.scripts == w.scripts + [HelperCommand(p)]
  {
    DeclarationsPrecedence(w.args.declarations, PlanOf(cwd, w, host).egg);
    InvocationOutcome(cwd, w, host);
    HelperRunsIffDeclarations(cwd, w, host);
  }

  /** The invocation of a package with `"type": "module"` and a
      `typescript` devDependency, no `tsconfig.json`, no arguments and no
      toggles, with the three loader modules resolvable. */
  ghost predicate ModulePackageSetup(cwd: string, w: World, host: Host)
  {
    && w.args == Args(None, None, None, None, None)
    && EggTypescriptVar !in w.env && TsCompilerVar !in w.env
    && host.isAbsolute(cwd) && !host.hasTsConfig(cwd)
    && host.readPackageJSON(cwd) ==
         map["type" := JStr("module"), "devDependencies" := JObj(map["typescript" := JStr("^5")])]
    && host.resolve(DefaultCompiler, Some([host.installDir])) == Some("/tool/ts-node/register.js")
    && host.resolve(TsconfigPathsRegister, None) == Some("/tool/tsconfig-paths/register.js")
    && host.resolve(TsNodeEsm, None) == Some("/tool/ts-node/esm.mjs")
    && host.platform == "linux"
  }

  /** In that setting TypeScript is on through the devDependency rule, no
      compiler is chosen, and declarations stay unset. */
  lemma ModulePackagePlan(cwd: string, w: World, host: Host)
    requires ModulePackageSetup(cwd, w, host)
    ensures var p := PlanOf(cwd, w, host);
      p.base == cwd && IsEsm(p.pkg) && p.compiler == None && p.typescript == Some(true) && p.declarations == None
      && p.register == Ok("/tool/ts-node/register.js") && p.tsconfigPaths == Ok("/tool/tsconfig-paths/register.js")
      && p.esmLoader == Ok("/tool/ts-node/esm.mjs")
  {
    var pkg := host.readPackageJSON(cwd);
    var egg := EggConfig(pkg);
    assert ResolveBase(w.args.base, cwd, host) == cwd;
    assert egg == JObj(map[]);
    assert DependencyRule(pkg, "dependencies").None?;
    assert DependencyRule(pkg, "devDependencies") == Some(true);
    CompilerPrecedence(None, w.env, egg);
    TypescriptChain(None, w.env, egg, pkg, false, None);
    DeclarationsPrecedence(None, egg);
  }

  /** A TypeScript run of an ES module package without declarations, all of
      whose loaders resolve. */
  lemma TypescriptEsmRun(cwd: string, w: World, host: Host, register: string, paths: string, loader: string)
    requires var p := PlanOf(cwd, w, host);
      && p.typescript == Some(true) && IsEsm(p.pkg) && p.declarations != Some(true) && p.compiler == None
      && p.register == Ok(register) && p.tsconfigPaths == Ok(paths) && p.esmLoader == Ok(loader)
    ensures var s := Handle(cwd, w, host);
      && s.outcome == Next
      && s.world.args.typescript == Some(true)
      && s.world.args.tscompiler == Some(JStr(DefaultCompiler))
      && s.world.nodeOptions == w.nodeOptions +
           [RequireToken(register), RequireToken(paths), NoWarningsToken, LoaderToken(EsmLoaderUrl(host, loader))]
      && s.world.env == w.env[EggTypescriptVar := "true"]
           [TsNodeFilesVar := if TsNodeFilesVar in w.processEnv then w.processEnv[TsNodeFilesVar] else "true"]
  {
    InvocationOutcome(cwd, w, host);
    ArgumentsAfterInvocation(cwd, w, host);
    EnvironmentAfterInvocation(cwd, w, host);
    NodeOptionsAfterInvocation(cwd, w, host);
    assert w.nodeOptions + [RequireToken(register)] + [RequireToken(paths)]
             + [NoWarningsToken, LoaderToken(EsmLoaderUrl(host, loader))]
           == w.nodeOptions + [RequireToken(register), RequireToken(paths), NoWarningsToken, LoaderToken(EsmLoaderUrl(host, loader))];
  }

  /** The end-to-end run in that setting: it reaches `next()` with the
      default compiler, both `--require` tokens come before `--no-warnings`
      and `--loader`, and `EGG_TYPESCRIPT` is `'true'`. */
  lemma ModulePackageWithTypescriptDevDependency(cwd: string, w: World, host: Host)
    requires ModulePackageSetup(cwd, w, host)
    ensures var s := Handle(cwd, w, host);
      && s.outcome == Next
      && s.world.args.typescript == Some(true)
      && s.world.args.tscompiler == Some(JStr(DefaultCompiler))
      && s.world.nodeOptions == w.nodeOptions +
           [RequireToken("/tool/ts-node/register.js"), RequireToken("/tool/tsconfig-paths/register.js"),
            NoWarningsToken, LoaderToken("/tool/ts-node/esm.mjs")]
      && s.world.env == w.env[EggTypescriptVar := "true"]
           [TsNodeFilesVar := if TsNodeFilesVar in w.processEnv then w.processEnv[TsNodeFilesVar] else "true"]
  {
    ModulePackagePlan(cwd, w, host);
    assert EsmLoaderUrl(host, "/tool/ts-node/esm.mjs") == "/tool/ts-node/esm.mjs";
    TypescriptEsmRun(cwd, w, host, "/tool/ts-node/register.js", "/tool/tsconfig-paths/register.js", "/tool/ts-node/esm.mjs");
  }
}
