/** Construction of the launcher invocation: which launcher runs, the fixed
    argument list that follows it, and the environment of the child process. */
module Launch {
  import opened Strings

  const DefaultMlxBin := "/Users/Shared/.venvs/mlx/bin"
  const LauncherName := "mlx.launch"
  const HostFile := "/Users/Shared/hosts.json"
  const WorkerScript := "/Users/Shared/pipeline_generate.py"
  const ModelId := "mlx-community/Kimi-K2-Instruct-4bit"
  const WorkDir := "/Users/Shared"

  /** What the handler reads from outside the request. Each field stands for
      an interface the model does not open up:
      - `launchOverride`: the `MLX_LAUNCH` variable, if set;
      - `venvBin`: the `MLX_VENV_BIN` variable, if set;
      - `environ`: the server's own environment, which the child inherits;
      - `isExecutableFile`: whether a path names a regular file the server may
        execute (`os.path.isfile` and `os.access(..., X_OK)`);
      - `shellSplit`: the shell-style tokenizer (`shlex.split`). */
  datatype Config = Config(
    launchOverride: Option<string>,
    venvBin: Option<string>,
    environ: map<string, string>,
    isExecutableFile: string -> bool,
    shellSplit: string -> seq<string>)

  /** How the child process is started. */
  datatype LaunchSpec = LaunchSpec(argv: seq<string>, cwd: string, env: map<string, string>)

  /** The directory of the framework's installed executables. An empty
      `MLX_VENV_BIN` is taken as given; only an unset one falls back. */
  function MlxBin(cfg: Config): string {
    cfg.venvBin.GetOr(DefaultMlxBin)
  }

  /** POSIX `os.path.join(dir, name)` for two components. */
  function JoinPath(dir: string, name: string): (r: string)
    ensures name != [] && name[0] != '/' ==> EndsWith(r, name) && |dir| <= |r| && r[..|dir|] == dir
  {
    if name != [] && name[0] == '/' then name
    else if dir == [] || EndsWith(dir, "/") then dir + name
    else dir + "/" + name
  }

  function DefaultLauncher(cfg: Config): string {
    JoinPath(MlxBin(cfg), LauncherName)
  }

  /** `if launch_override:` -- set and non-empty. */
  predicate OverrideGiven(cfg: Config) {
    cfg.launchOverride.Some? && cfg.launchOverride.value != ""
  }

  /** The launcher part of the command line. */
  function LauncherPrefix(cfg: Config): seq<string> {
    if OverrideGiven(cfg) then cfg.shellSplit(cfg.launchOverride.value)
    else if cfg.isExecutableFile(DefaultLauncher(cfg)) then [DefaultLauncher(cfg)]
    else [LauncherName]
  }

  /** The arguments that follow the launcher, in their fixed order. */
  function WorkerArgs(prompt: string, maxTokens: int): seq<string> {
    ["--hostfile", HostFile, WorkerScript,
     "--model", ModelId,
     "--prompt", prompt,
     "--max-tokens", IntToDecimal(maxTokens)]
  }

  /** The child's environment: the server's own with the framework's
      executable directory put in front of `PATH`. */
  function ChildEnvironment(cfg: Config): (env: map<string, string>)
    ensures "PATH" in env
    ensures env["PATH"] == MlxBin(cfg) + ":" + (if "PATH" in cfg.environ then cfg.environ["PATH"] else "")
    ensures forall k :: k != "PATH" ==> (k in env <==> k in cfg.environ)
    ensures forall k :: k != "PATH" && k in env ==> env[k] == cfg.environ[k]
  {
    var oldPath := if "PATH" in cfg.environ then cfg.environ["PATH"] else "";
    cfg.environ["PATH" := MlxBin(cfg) + ":" + oldPath]
  }

  function BuildLaunchSpec(cfg: Config, prompt: string, maxTokens: int): LaunchSpec {
    LaunchSpec(LauncherPrefix(cfg) + WorkerArgs(prompt, maxTokens), WorkDir, ChildEnvironment(cfg))
  }

  /** The command line is the launcher followed by nine arguments in a fixed
      order; the prompt travels as one argument, and the token budget as
      decimal text that reads back as the same integer. */
  lemma CommandLayout(cfg: Config, prompt: string, maxTokens: int)
    ensures var prefix, argv := LauncherPrefix(cfg), BuildLaunchSpec(cfg, prompt, maxTokens).argv;
      && |argv| == |prefix| + 9
      && argv[..|prefix|] == prefix
      && argv[|prefix|] == "--hostfile" && argv[|prefix| + 1] == HostFile
      && argv[|prefix| + 2] == WorkerScript
      && argv[|prefix| + 3] == "--model" && argv[|prefix| + 4] == ModelId
      && argv[|prefix| + 5] == "--prompt" && argv[|prefix| + 6] == prompt
      && argv[|prefix| + 7] == "--max-tokens"
      && ParseInt(argv[|prefix| + 8]) == Some(maxTokens)
  {
    var prefix, w := LauncherPrefix(cfg), WorkerArgs(prompt, maxTokens);
    var argv := BuildLaunchSpec(cfg, prompt, maxTokens).argv;
    assert argv == prefix + w;
    assert argv[|prefix|..] == w;
    IntToDecimalRoundTrip(maxTokens);
  }

  /** Which launcher is used: the override's tokens when one is given;
      otherwise a single word that names the `mlx.launch` program, by its
      full path in the framework directory when that file is executable
      and by bare name, to be found on the search path, when it is not. */
  lemma LauncherResolution(cfg: Config)
    ensures OverrideGiven(cfg) ==> LauncherPrefix(cfg) == cfg.shellSplit(cfg.launchOverride.value)
    ensures !OverrideGiven(cfg) && cfg.isExecutableFile(DefaultLauncher(cfg)) ==>
      LauncherPrefix(cfg) == [DefaultLauncher(cfg)] && cfg.isExecutableFile(LauncherPrefix(cfg)[0])
    ensures !OverrideGiven(cfg) ==>
      && |LauncherPrefix(cfg)| == 1
      && EndsWith(LauncherPrefix(cfg)[0], LauncherName)
      && (cfg.isExecutableFile(DefaultLauncher(cfg)) ==>
            LauncherPrefix(cfg)[0][..|MlxBin(cfg)|] == MlxBin(cfg))
      && (!cfg.isExecutableFile(DefaultLauncher(cfg)) ==> LauncherPrefix(cfg)[0] == LauncherName)
  {
  }

  /** The child's `PATH` does not depend on which launcher was chosen: two
      configurations that differ only in the override, the tokenizer or the
      file test give the child the same environment. */
  lemma EnvironmentIndependentOfLauncher(cfg1: Config, cfg2: Config, prompt: string, maxTokens: int)
    requires cfg1.venvBin == cfg2.venvBin && cfg1.environ == cfg2.environ
    ensures BuildLaunchSpec(cfg1, prompt, maxTokens).env == BuildLaunchSpec(cfg2, prompt, maxTokens).env
    ensures BuildLaunchSpec(cfg1, prompt, maxTokens).cwd == WorkDir
  {
  }
}
