# mrbios: conda environment builds and script command templates

This project models, in Dafny, the two pieces of mrbios that carry logic:

- **Building a conda environment** (`mrbios/core/env_build.py`). A build
  document names an environment and optionally holds a `conda` section
  (manager binary, channels, dependencies) and a `pip` section. `CondaConfig`
  reads the section with its defaults, checks that the manager binary is
  installed (falling back to `conda` once), renders the argument vectors of
  `create`, `install` and `env remove`, and hands each to the process runner.
  `CondaEnvBuild.build` checks and then creates; `delete` removes.
- **Running a script** (`mrbios/core/runner.py`). A script directory holds
  an interface document with an `env` and a `command` template. The runner
  finds the script's project three directories up, looks the environment up
  by name, rewrites every template token that names a file bundled with the
  script to that file's absolute path and binds the caller's arguments. The
  source then calls `run_command` on the environment, a method the
  `Env` class of mrbios/core/env.py does not define; the model stops at the words it would hand
  over.

Modules: `Base` (Option, Result), `Words` (the `shlex.split` and `" ".join`
used on command lines), `Paths` (lexical `pathlib`), `CondaBuild`
(env_build.py) and `Runner` (runner.py, with the environment map of
`Project.get_envs`).

The outside world enters as data. For a build it is a `Host`: the set of
executables on the PATH (the answer of `command_exist`) and the set of
argument vectors whose process fails. `CondaConfig.trace` records every
argument vector handed to the process runner, in order, and the ghost
`probes` every PATH lookup. For a script it is the directory listing (names
and whether each is a regular file, in enumeration order), the components of
the current working directory, the names in the project's `Environments`
directory, and the argument binder as a function.

## Model

| member | source | states |
|---|---|---|
| `CondaBuild.CondaConfig.constructor` | mrbios/core/env_build.py:40-45 | a missing `channels` or `deps` key gives an empty list, a missing `command` gives `conda`; present keys are taken as written; nothing has run yet |
| `CondaBuild.CondaEnvBuild.constructor` | mrbios/core/env_build.py:15-22 | a missing `conda` section reads as `{}` (so all conda defaults apply), a missing `pip` section as `{}`; the conda configuration carries the environment's name |
| `CondaBuild.CondaEnvBuild.New` | mrbios/core/env_build.py:15-22 | a document without `name` raises a KeyError; otherwise a fresh build whose conda part is named after the document, has run and looked up nothing, and carries the section's channels, dependencies and manager with their defaults (a missing section read as `{}`), beside the `pip` section or `{}` |
| `CondaBuild.PipConfig.Dependents` | mrbios/core/env_build.py:96-98 | the `pip` dependencies as listed, none when the key is missing |
| `CondaBuild.ResolvedCommand` | mrbios/core/env_build.py:47-56 | the manager settled on is installed and is either the configured one or `conda`; an installed configured manager is kept; the check fails exactly when neither the configured manager nor conda is installed |
| `CondaBuild.CondaConfig.CheckCommand` | mrbios/core/env_build.py:47-56 | an installed manager is kept after one lookup; a missing non-conda manager is replaced by `conda`, which is looked up exactly once more; a missing conda raises the "not installed" error; on return the manager is the one `ResolvedCommand` settles on, and nothing is run |
| `CondaBuild.CondaConfig.GetCmd` | mrbios/core/env_build.py:58-64 | the vector is `CondaVector` of the current manager, action, environment name, channels and dependencies; the configuration is not changed |
| `CondaBuild.CondaVectorLayout` | mrbios/core/env_build.py:58-64 | the vector has `4 + 2*channels + deps + 1` words: manager, action, `-n`, name; then `-c` before each channel in declared order; then the dependencies in declared order; `--yes` last |
| `CondaBuild.ChannelFlagsLayout` | mrbios/core/env_build.py:60-62 | the channel block has two words per channel, each channel right after its own `-c`, in declared order |
| `CondaBuild.ParseCondaVectorInverse` | mrbios/core/env_build.py:58-64 | reading a create or install vector back recovers manager, action, name, channels and dependencies, unless the first dependency is spelled `-c` |
| `CondaBuild.CreateInstallDiffer` | mrbios/core/env_build.py:76-82 | the create and install vectors of one configuration have the same length and differ only at index 1 (`create` against `install`) |
| `CondaBuild.CondaConfig.RunCmd` | mrbios/core/env_build.py:66-74 | the vector is recorded as run; when the process fails (missing program or error exit) its exception is re-raised, not swallowed |
| `CondaBuild.CondaConfig.CreateEnv` | mrbios/core/env_build.py:76-78 | exactly the create vector is run, and its failure is raised |
| `CondaBuild.CondaConfig.InstallDependents` | mrbios/core/env_build.py:80-82 | exactly the install vector is run, and its failure is raised |
| `CondaBuild.CondaConfig.RemoveEnv` | mrbios/core/env_build.py:84-89 | exactly `[manager, env, remove, -n, name]` is run, with no channels or dependencies, and its failure is raised |
| `CondaBuild.CondaEnvBuild.Build` | mrbios/core/env_build.py:31-33 | the manager check comes first: when it fails nothing is run and the "not installed" error is raised; otherwise the manager becomes the resolved one and the single create vector for it is run, its failure raised |
| `CondaBuild.CondaEnvBuild.Delete` | mrbios/core/env_build.py:35-36 | the single remove vector is run with the manager as configured (no check), its failure raised |
| `Words.Split` | mrbios/core/runner.py:27 | every word produced is non-empty and free of whitespace |
| `Words.Join` | mrbios/core/runner.py:32 | the joined line starts with the first word, followed by a single space when more words follow; no words give the empty line |
| `Words.SplitJoin` | mrbios/core/runner.py:32-38 | joining shell words free of quotes and backslashes with single spaces and splitting the result gives the same words back |
| `Paths.Parent` | mrbios/core/runner.py:52 | the parent is the path without its last component; `/` and `.` are their own parents |
| `Paths.Absolute` | mrbios/core/runner.py:30 | the result is absolute, an absolute path is kept as it is, and the path's own components end the result |
| `Paths.AsPosix` | mrbios/core/runner.py:31 | the text of an absolute path starts with `/`; the root reads `/` and the empty relative path `.` |
| `Paths.ChildAsPosix` | mrbios/core/runner.py:30-31 | the text of `dir / name` for an absolute `dir` is the text of `dir`, `/` and `name` (the root gives `/name`) |
| `Runner.FileNames` | mrbios/core/runner.py:42-43 | a name is listed exactly when some regular file of the directory has it |
| `Runner.WithoutReserved` | mrbios/core/runner.py:44-46 | a name is kept exactly when it is listed and is neither `interface.yaml` nor `README.md`; nothing is added |
| `Runner.LocalFiles` | mrbios/core/runner.py:40-47 | a name is a local file exactly when a regular file of the directory has it and it is neither `interface.yaml` nor `README.md` |
| `Runner.LocalFilesAppend` | mrbios/core/runner.py:42-47 | local files come in enumeration order: those of a listing `a + b` are those of `a` followed by those of `b` |
| `Runner.Rewrite` | mrbios/core/runner.py:28-31 | as many tokens out as in; a token that is not a local file name is unchanged; one that is becomes the text of the directory joined with it |
| `Runner.RewrittenToken` | mrbios/core/runner.py:29-31 | a rewritten token is the absolute script directory, `/`, and the token |
| `Runner.RewriteIdempotent` | mrbios/core/runner.py:28-31 | rewriting the rewritten tokens again changes nothing |
| `Runner.TemplateResplit` | mrbios/core/runner.py:27-32 | when the template has no quotes or backslashes and the components of the absolute script directory have no whitespace, quotes or backslashes, splitting the resolved template gives exactly the rewritten tokens |
| `Runner.ScriptRunner.CommandTemplate` | mrbios/core/runner.py:22-33 | a missing `command` raises a KeyError; otherwise the result is the template's tokens, rewritten by `Rewrite` against the local files and the absolute script directory, joined with single spaces |
| `Runner.ProjectRoot` | mrbios/core/runner.py:49-52 | the project root is the script directory without its last three components (`.` or `/` when it has fewer) |
| `Runner.ScriptProjectRoot` | mrbios/core/runner.py:49-52 | a script at `<root>/Tasks/<task>/<script>` belongs to the project at `<root>` |
| `Runner.EnvDir` | mrbios/core/project.py:40 | the environments directory is the child `Environments` of the project root |
| `Runner.GetEnvs` | mrbios/core/project.py:62-69 | one environment per entry of the project's `Environments` directory, keyed by its name, whose own path is the entry path with the name appended once more |
| `Runner.NewScriptRunner` | mrbios/core/runner.py:14-20 | a missing `env` raises a KeyError; a missing `Environments` directory of the project raises FileNotFoundError; otherwise the runner exists exactly when that directory has an entry of the configured name (a KeyError otherwise), and its environment carries that name and lives under the project root |
| `Runner.ScriptRunner.Run` | mrbios/core/runner.py:35-38 | the template errors and binding errors are raised; otherwise the result is the script's environment and the bound command line split into words, which is what `run` means to hand to `run_command` |

## Left out

- Reading build documents and interface documents from YAML (`from_config_file`); the model starts from the parsed keys and assumes each present key has the expected type.
- Console logging, including the "turn to using conda" message and the failure message of `_run_cmd`.
- `command_exist` and `subprocess.check_call`: the model replaces them by the `Host` sets; the exception types (FileNotFoundError, CalledProcessError) are one `ProcessFailed` failure.
- `PipConfig` is constructed but `build` never installs pip dependencies; the model does the same.
- Words.Split: models `shlex.split` only on text without quotes or backslashes; quoting and escaping are not modelled.
- Runner.ScriptRunner.Run: the argument binder (`cmd2func`) is a parameter. `Ok(Invocation)` models the intended hand-off to the environment, not the code as written: the `Env` that the lookup returns (mrbios/core/env.py) defines no `run_command`, so `run` as written raises AttributeError after a successful bind.
- Runner.TemplateResplit: the round trip needs a template without quotes or backslashes and a script directory whose absolute path has no whitespace, quotes or backslashes. With a space in the path, the joined template splits the file path into several words. A quoted template such as `echo 'a b'` re-splits into more words than it had, and a lone quote in the path makes `shlex.split` raise.
- Words.SplitJoin: stated only for words without quotes or backslashes, the text on which `Split` agrees with `shlex.split`.
- Paths are lexical (as in `pathlib`); no symbolic links or `..` are resolved, and a path string is taken as already split into components.
- Build-state persistence, pip and R install stages and an `update` operation do not exist in `mrbios/core/env_build.py`, so they are not part of this model; nor are the CLI, directory scaffolding and template rendering.
