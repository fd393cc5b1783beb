/**
 * Building and removing a conda environment from its build document.
 *
 * The outside world is a `Host`: the set of executables found on the PATH
 * (what `command_exist` answers) and the set of argument vectors whose
 * process exits with an error. Every argument vector handed to the process
 * runner is appended to the configuration's `trace`, so the contracts can
 * say which external commands ran and in what order.
 */
module CondaBuild {
  import opened Base

  /** The manager binary used when the document names none, and the fallback. */
  const Conda := "conda"

  /** The `conda` section of a build document; `None` is a missing key. */
  datatype CondaSection = CondaSection(
    command: Option<string>,
    channels: Option<seq<string>>,
    deps: Option<seq<string>>)

  /** The `{}` used when the document has no `conda` section. */
  const EmptyConda := CondaSection(None, None, None)

  /** The `pip` section of a build document. */
  datatype PipSection = PipSection(deps: Option<seq<string>>)

  /** A build document: its `name`, `conda` and `pip` keys, each possibly missing. */
  datatype BuildDocument = BuildDocument(
    name: Option<string>,
    conda: Option<CondaSection>,
    pip: Option<PipSection>)

  /** What the model knows of the machine the commands run on. */
  datatype Host = Host(installed: set<string>, failing: set<seq<string>>) {
    /** `subprocess.check_call(argv)` returns normally: the program exists and exits with status 0. */
    predicate Runs(argv: seq<string>) {
      |argv| > 0 && argv[0] in installed && argv !in failing
    }
  }

  /** The exceptions the build raises. */
  datatype Failure =
    | MissingKey(key: string)          // KeyError on a required document key
    | CondaMissing                      // SystemError("Conda is not installed.")
    | ProcessFailed(argv: seq<string>)  // the exception of check_call, re-raised

  /** How a step ends: normally, or with the exception it raised. */
  datatype Outcome = Done | Raised(error: Failure)

  // ---------------------------------------------------------------------
  // The argument vectors

  /** What a create or install invocation asks of conda. */
  datatype CondaRequest = CondaRequest(
    command: string, action: string, envName: string,
    channels: seq<string>, deps: seq<string>)

  /** `-c <channel>` for each channel, in the declared order. */
  function ChannelFlags(channels: seq<string>): seq<string> {
    if channels == [] then [] else ["-c", channels[0]] + ChannelFlags(channels[1..])
  }

  /** The argument vector of a create or install invocation. */
  function CondaVector(req: CondaRequest): seq<string> {
    [req.command, req.action, "-n", req.envName] + ChannelFlags(req.channels) + req.deps + ["--yes"]
  }

  /** The argument vector that removes the environment. */
  function RemoveVector(command: string, envName: string): seq<string> {
    [command, "env", "remove", "-n", envName]
  }

  lemma {:induction false} ChannelFlagsAppend(a: seq<string>, b: seq<string>)
    ensures ChannelFlags(a + b) == ChannelFlags(a) + ChannelFlags(b)
    decreases |a|
  {
    if a == [] {
      assert a + b == b;
    } else {
      assert (a + b)[0] == a[0] && (a + b)[1..] == a[1..] + b;
      ChannelFlagsAppend(a[1..], b);
    }
  }

  /** Each channel sits at an odd position, right after its own `-c`. */
  lemma {:induction false} ChannelFlagsLayout(channels: seq<string>)
    ensures |ChannelFlags(channels)| == 2 * |channels|
    ensures forall k :: 0 <= k < |channels| ==>
      ChannelFlags(channels)[2 * k] == "-c" && ChannelFlags(channels)[2 * k + 1] == channels[k]
    decreases |channels|
  {
    if channels != [] {
      ChannelFlagsLayout(channels[1..]);
      var rest := ChannelFlags(channels[1..]);
      assert ChannelFlags(channels) == ["-c", channels[0]] + rest;
      forall k | 1 <= k < |channels|
        ensures ChannelFlags(channels)[2 * k] == "-c" && ChannelFlags(channels)[2 * k + 1] == channels[k]
      {
        assert ChannelFlags(channels)[2 * k] == rest[2 * (k - 1)];
        assert ChannelFlags(channels)[2 * k + 1] == rest[2 * (k - 1) + 1];
      }
    }
  }

  /**
   * The shape of a create or install vector: the manager, the action, `-n`
   * and the environment name first; then `-c` and each channel in order;
   * then every dependency in order; `--yes` last.
   */
  lemma CondaVectorLayout(req: CondaRequest)
    ensures var v := CondaVector(req);
      && |v| == 4 + 2 * |req.channels| + |req.deps| + 1
      && v[..4] == [req.command, req.action, "-n", req.envName]
      && (forall k :: 0 <= k < |req.channels| ==> v[4 + 2 * k] == "-c" && v[5 + 2 * k] == req.channels[k])
      && v[4 + 2 * |req.channels| .. |v| - 1] == req.deps
      && v[|v| - 1] == "--yes"
  {
    ChannelFlagsLayout(req.channels);
    var head := [req.command, req.action, "-n", req.envName];
    var flags := ChannelFlags(req.channels);
    var v := CondaVector(req);
    assert v == head + flags + req.deps + ["--yes"];
    forall k | 0 <= k < |req.channels|
      ensures v[4 + 2 * k] == "-c" && v[5 + 2 * k] == req.channels[k]
    {
      assert v[4 + 2 * k] == flags[2 * k];
      assert v[5 + 2 * k] == flags[2 * k + 1];
    }
    assert v[4 + |flags| .. |v| - 1] == req.deps;
  }

  /** Create and install vectors of one configuration differ only in the action at index 1. */
  lemma CreateInstallDiffer(command: string, envName: string, channels: seq<string>, deps: seq<string>)
    ensures var c := CondaVector(CondaRequest(command, "create", envName, channels, deps));
            var i := CondaVector(CondaRequest(command, "install", envName, channels, deps));
      && |c| == |i| && c[1] == "create" && i[1] == "install"
      && forall k :: 0 <= k < |c| && k != 1 ==> c[k] == i[k]
  {
    var tail := ChannelFlags(channels) + deps + ["--yes"];
    assert CondaVector(CondaRequest(command, "create", envName, channels, deps)) == [command, "create", "-n", envName] + tail;
    assert CondaVector(CondaRequest(command, "install", envName, channels, deps)) == [command, "install", "-n", envName] + tail;
  }

  // ---------------------------------------------------------------------
  // Reading back the layout `CondaVector` produces

  /** Takes the leading `-c <channel>` pairs off `args`: the channels and what follows them. */
  function ReadChannels(args: seq<string>): (seq<string>, seq<string>)
    decreases |args|
  {
    if |args| >= 2 && args[0] == "-c" then
      var (chs, rest) := ReadChannels(args[2..]);
      ([args[1]] + chs, rest)
    else ([], args)
  }

  /** Reads a create or install vector back into the request it encodes. */
  function ParseCondaVector(v: seq<string>): Option<CondaRequest> {
    if |v| < 5 || v[2] != "-n" || v[|v| - 1] != "--yes" then None
    else
      var (chs, deps) := ReadChannels(v[4..|v| - 1]);
      Some(CondaRequest(v[0], v[1], v[3], chs, deps))
  }

  lemma {:induction false} ReadChannelsFlags(channels: seq<string>, rest: seq<string>)
    requires rest == [] || rest[0] != "-c"
    ensures ReadChannels(ChannelFlags(channels) + rest) == (channels, rest)
    decreases |channels|
  {
    if channels == [] {
      assert ChannelFlags(channels) + rest == rest;
    } else {
      var args := ChannelFlags(channels) + rest;
      assert args == ["-c", channels[0]] + (ChannelFlags(channels[1..]) + rest);
      assert args[2..] == ChannelFlags(channels[1..]) + rest;
      ReadChannelsFlags(channels[1..], rest);
      assert [channels[0]] + channels[1..] == channels;
    }
  }

  /**
   * The vector carries the whole request: parsing it gives the request back,
   * as long as the first dependency is not itself spelled `-c`.
   */
  lemma ParseCondaVectorInverse(req: CondaRequest)
    requires req.deps == [] || req.deps[0] != "-c"
    ensures ParseCondaVector(CondaVector(req)) == Some(req)
  {
    var v := CondaVector(req);
    var body := ChannelFlags(req.channels) + req.deps;
    assert v == [req.command, req.action, "-n", req.envName] + body + ["--yes"];
    assert v[4..|v| - 1] == body;
    ReadChannelsFlags(req.channels, req.deps);
  }

  // ---------------------------------------------------------------------
  // The manager check

  /**
   * The manager the check settles on: the configured one when it is
   * installed, otherwise conda when the configured one is not conda
   * and conda is installed; `None` when the check raises.
   */
  function ResolvedCommand(command: string, installed: set<string>): (r: Option<string>)
    ensures r.Some? ==> r.value in installed && (r.value == command || r.value == Conda)
    ensures command in installed ==> r == Some(command)
    ensures r.None? <==> command !in installed && Conda !in installed
  {
    if command in installed then Some(command)
    else if command != Conda && Conda in installed then Some(Conda)
    else None
  }

  // ---------------------------------------------------------------------
  // The configuration objects

  /** The `conda` part of a build: the manager to call, the channels and the dependencies. */
  class CondaConfig {
    const envName: string
    const channels: seq<string>
    const dependents: seq<string>
    var command: string
    /** Every argument vector handed to the process runner, oldest first. */
    var trace: seq<seq<string>>
    /** Every executable name looked up on the PATH, oldest first. */
    ghost var probes: seq<string>

    /** Reads the section; missing keys give no channels, no dependencies and conda. */
    constructor (envName: string, section: CondaSection)
      ensures this.envName == envName
      ensures section.channels.None? ==> channels == []
      ensures section.channels.Some? ==> channels == section.channels.value
      ensures section.deps.None? ==> dependents == []
      ensures section.deps.Some? ==> dependents == section.deps.value
      ensures section.command.None? ==> command == Conda
      ensures section.command.Some? ==> command == section.command.value
      ensures trace == [] && probes == []
    {
      this.envName := envName;
      channels := section.channels.GetOr([]);
      dependents := section.deps.GetOr([]);
      command := section.command.GetOr(Conda);
      trace := [];
      probes := [];
    }

    /**
     * Makes sure the manager is installed, falling back to conda once when
     * a different manager is configured; raises when conda is missing.
     */
    method CheckCommand(host: Host) returns (outcome: Outcome)
      modifies this`command, this`probes
      ensures old(command) in host.installed ==>
        outcome == Done && command == old(command) && probes == old(probes) + [old(command)]
      ensures old(command) !in host.installed && old(command) != Conda ==>
        command == Conda && probes == old(probes) + [old(command), Conda]
      ensures old(command) !in host.installed && old(command) == Conda ==>
        probes == old(probes) + [Conda]
      ensures outcome.Raised? ==> outcome.error == CondaMissing && command == Conda
      ensures outcome.Done? <==> ResolvedCommand(old(command), host.installed).Some?
      ensures outcome.Done? ==> Some(command) == ResolvedCommand(old(command), host.installed)
      decreases if command == Conda then 0 else 1
    {
      probes := probes + [command];
      if command !in host.installed {
        if command != Conda {
          command := Conda;
          outcome := CheckCommand(host);
        } else {
          outcome := Raised(CondaMissing);
        }
      } else {
        outcome := Done;
      }
    }

    /** The create or install vector, built afresh; the configuration is left as it is. */
    method GetCmd(mainCmd: string) returns (cmd: seq<string>)
      ensures cmd == CondaVector(CondaRequest(command, mainCmd, envName, channels, dependents))
    {
      cmd := [command, mainCmd, "-n", envName];
      for i := 0 to |channels|
        invariant cmd == [command, mainCmd, "-n", envName] + ChannelFlags(channels[..i])
      {
        ChannelFlagsAppend(channels[..i], [channels[i]]);
        assert channels[..i + 1] == channels[..i] + [channels[i]];
        cmd := cmd + ["-c"];
        cmd := cmd + [channels[i]];
      }
      assert channels[..|channels|] == channels;
      cmd := cmd + dependents + ["--yes"];
    }

    /** Runs one vector: it is recorded, and a failing process is re-raised. */
    method RunCmd(cmd: seq<string>, host: Host) returns (outcome: Outcome)
      modifies this`trace
      ensures trace == old(trace) + [cmd]
      ensures outcome == if host.Runs(cmd) then Done else Raised(ProcessFailed(cmd))
    {
      trace := trace + [cmd];
      if host.Runs(cmd) {
        outcome := Done;
      } else {
        outcome := Raised(ProcessFailed(cmd));
      }
    }

    method CreateEnv(host: Host) returns (outcome: Outcome)
      modifies this`trace
      ensures var v := CondaVector(CondaRequest(command, "create", envName, channels, dependents));
        && trace == old(trace) + [v]
        && outcome == if host.Runs(v) then Done else Raised(ProcessFailed(v))
    {
      var cmd := GetCmd("create");
      outcome := RunCmd(cmd, host);
    }

    method InstallDependents(host: Host) returns (outcome: Outcome)
      modifies this`trace
      ensures var v := CondaVector(CondaRequest(command, "install", envName, channels, dependents));
        && trace == old(trace) + [v]
        && outcome == if host.Runs(v) then Done else Raised(ProcessFailed(v))
    {
      var cmd := GetCmd("install");
      outcome := RunCmd(cmd, host);
    }

    method RemoveEnv(host: Host) returns (outcome: Outcome)
      modifies this`trace
      ensures var v := RemoveVector(command, envName);
        && trace == old(trace) + [v]
        && outcome == if host.Runs(v) then Done else Raised(ProcessFailed(v))
    {
      var cmd := [command, "env", "remove", "-n", envName];
      outcome := RunCmd(cmd, host);
    }
  }

  /** The `pip` part of a build. */
  datatype PipConfig = PipConfig(section: PipSection) {
    /** The dependencies listed under `pip`, none when the key is missing. */
    function Dependents(): (deps: seq<string>)
      ensures section.deps.Some? ==> deps == section.deps.value
      ensures section.deps.None? ==> deps == []
    {
      section.deps.GetOr([])
    }
  }

  /** A conda environment build: the conda configuration and the (unused) pip one. */
  class CondaEnvBuild {
    const envName: string
    const conda: CondaConfig
    const pip: PipConfig

    constructor (name: string, doc: BuildDocument)
      ensures envName == name && pip == PipConfig(doc.pip.GetOr(PipSection(None)))
      ensures fresh(conda) && conda.envName == name && conda.trace == [] && conda.probes == []
      ensures conda.channels == doc.conda.GetOr(EmptyConda).channels.GetOr([])
      ensures conda.dependents == doc.conda.GetOr(EmptyConda).deps.GetOr([])
      ensures conda.command == doc.conda.GetOr(EmptyConda).command.GetOr(Conda)
    {
      envName := name;
      conda := new CondaConfig(name, doc.conda.GetOr(EmptyConda));
      pip := PipConfig(doc.pip.GetOr(PipSection(None)));
    }

    /** Reads a build document; a document without `name` raises a KeyError. */
    static method New(doc: BuildDocument) returns (r: Result<CondaEnvBuild, Failure>)
      ensures doc.name.None? ==> r == Err(MissingKey("name"))
      ensures doc.name.Some? ==> r.Ok? && fresh(r.value) && fresh(r.value.conda)
      ensures r.Ok? ==> r.value.envName == r.value.conda.envName == doc.name.value
      ensures r.Ok? ==> r.value.conda.trace == [] && r.value.conda.probes == []
      ensures r.Ok? ==> r.value.conda.channels == doc.conda.GetOr(EmptyConda).channels.GetOr([])
      ensures r.Ok? ==> r.value.conda.dependents == doc.conda.GetOr(EmptyConda).deps.GetOr([])
      ensures r.Ok? ==> r.value.conda.command == doc.conda.GetOr(EmptyConda).command.GetOr(Conda)
      ensures r.Ok? ==> r.value.pip == PipConfig(doc.pip.GetOr(PipSection(None)))
    {
      if doc.name.None? {
        return Err(MissingKey("name"));
      }
      var b := new CondaEnvBuild(doc.name.value, doc);
      r := Ok(b);
    }

    /**
     * Checks the manager, then creates the environment. When the check
     * raises, nothing is run; when the create process fails, its
     * exception is raised.
     */
    method Build(host: Host) returns (outcome: Outcome)
      modifies conda
      ensures ResolvedCommand(old(conda.command), host.installed).None? ==>
        outcome == Raised(CondaMissing) && conda.trace == old(conda.trace) && conda.command == Conda
      ensures ResolvedCommand(old(conda.command), host.installed).Some? ==>
        var v := CondaVector(CondaRequest(conda.command, "create", conda.envName, conda.channels, conda.dependents));
        && Some(conda.command) == ResolvedCommand(old(conda.command), host.installed)
        && conda.trace == old(conda.trace) + [v]
        && outcome == if host.Runs(v) then Done else Raised(ProcessFailed(v))
    {
      outcome := conda.CheckCommand(host);
      if outcome.Done? {
        outcome := conda.CreateEnv(host);
      }
    }

    /** Removes the environment with the configured manager, unchecked. */
    method Delete(host: Host) returns (outcome: Outcome)
      modifies conda`trace
      ensures conda.command == old(conda.command)
      ensures var v := RemoveVector(conda.command, conda.envName);
        && conda.trace == old(conda.trace) + [v]
        && outcome == if host.Runs(v) then Done else Raised(ProcessFailed(v))
    {
      outcome := conda.RemoveEnv(host);
    }
  }
}
