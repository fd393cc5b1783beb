/**
 * Running a script: resolving its environment, rewriting its command
 * template so that bundled files are named by absolute path, and handing
 * the bound command line to the environment.
 *
 * The filesystem enters as data: a directory listing is the sequence of
 * its entries in enumeration order, and the current working directory is
 * the list of its components. The argument binder (`cmd2func`) is a
 * parameter the model does not look into.
 */
module Runner {
  import opened Base
  import opened Words
  import opened Paths

  /** The script's interface document, never rewritten. */
  const InterfaceFile := "interface.yaml"
  /** The script's description, never rewritten. */
  const ReadmeFile := "README.md"

  /** One entry of a directory listing: its name and whether it is a regular file. */
  datatype Entry = Entry(name: string, isFile: bool)

  /** Names of directory entries never contain a slash. */
  predicate ProperNames(listing: seq<Entry>) {
    forall i :: 0 <= i < |listing| ==> '/' !in listing[i].name
  }

  /** The keys of a script's interface document the runner reads; `None` is a missing key. */
  datatype ScriptConfig = ScriptConfig(env: Option<string>, command: Option<string>)

  /** An environment of the project: its name, the directory it was listed as, and its path. */
  datatype Env = Env(name: string, basePath: Path, path: Path)

  datatype RunError =
    | MissingKey(key: string)   // KeyError on the interface document
    | UnknownEnv(name: string)  // KeyError on the project's environment map
    | DirNotFound(dir: Path)    // FileNotFoundError listing a missing directory
    | BindFailed                // the binder rejected the arguments

  /** What `run` hands to the environment: the environment and the argument vector. */
  datatype Invocation = Invocation(env: Env, argv: seq<string>)

  // ---------------------------------------------------------------------
  // Local files

  /** The names of the regular files in a listing, in listing order. */
  function FileNames(listing: seq<Entry>): (names: seq<string>)
    ensures forall n :: n in names <==> exists e :: e in listing && e.isFile && e.name == n
    decreases |listing|
  {
    if listing == [] then []
    else
      assert forall e :: e in listing <==> e == listing[0] || e in listing[1..];
      (if listing[0].isFile then [listing[0].name] else []) + FileNames(listing[1..])
  }

  predicate Reserved(name: string) {
    name == InterfaceFile || name == ReadmeFile
  }

  /** `names` without the interface document and the description, order kept. */
  function WithoutReserved(names: seq<string>): (kept: seq<string>)
    ensures forall n :: n in kept <==> n in names && !Reserved(n)
    ensures |kept| <= |names|
    decreases |names|
  {
    if names == [] then []
    else
      assert forall n :: n in names <==> n == names[0] || n in names[1..];
      (if Reserved(names[0]) then [] else [names[0]]) + WithoutReserved(names[1..])
  }

  /**
   * The files a template may name by themselves: exactly the regular files
   * of the script directory other than the interface document and the
   * description.
   */
  function LocalFiles(listing: seq<Entry>): (files: seq<string>)
    ensures forall n :: n in files <==>
      !Reserved(n) && exists e :: e in listing && e.isFile && e.name == n
    ensures InterfaceFile !in files && ReadmeFile !in files
  {
    WithoutReserved(FileNames(listing))
  }

  lemma {:induction false} FileNamesAppend(a: seq<Entry>, b: seq<Entry>)
    ensures FileNames(a + b) == FileNames(a) + FileNames(b)
    decreases |a|
  {
    if a == [] {
      assert a + b == b;
    } else {
      assert (a + b)[0] == a[0] && (a + b)[1..] == a[1..] + b;
      FileNamesAppend(a[1..], b);
    }
  }

  lemma {:induction false} WithoutReservedAppend(a: seq<string>, b: seq<string>)
    ensures WithoutReserved(a + b) == WithoutReserved(a) + WithoutReserved(b)
    decreases |a|
  {
    if a == [] {
      assert a + b == b;
    } else {
      assert (a + b)[0] == a[0] && (a + b)[1..] == a[1..] + b;
      WithoutReservedAppend(a[1..], b);
    }
  }

  /** Local files keep the enumeration order: the files of a longer listing extend those of its prefix. */
  lemma LocalFilesAppend(a: seq<Entry>, b: seq<Entry>)
    ensures LocalFiles(a + b) == LocalFiles(a) + LocalFiles(b)
  {
    FileNamesAppend(a, b);
    WithoutReservedAppend(FileNames(a), FileNames(b));
  }

  // ---------------------------------------------------------------------
  // Rewriting the template

  /**
   * Replaces every token that is the name of a local file by the path of
   * that file in `dir`; every other token stays as it is.
   */
  function Rewrite(tokens: seq<string>, files: seq<string>, dir: Path): (out: seq<string>)
    ensures |out| == |tokens|
    ensures forall i :: 0 <= i < |tokens| && tokens[i] !in files ==> out[i] == tokens[i]
    ensures forall i :: 0 <= i < |tokens| && tokens[i] in files ==> out[i] == AsPosix(Child(dir, tokens[i]))
    decreases |tokens|
  {
    if tokens == [] then []
    else
      [if tokens[0] in files then AsPosix(Child(dir, tokens[0])) else tokens[0]]
      + Rewrite(tokens[1..], files, dir)
  }

  /**
   * A rewritten file token is the absolute directory's text, a slash and
   * the file name (the directory being the root aside).
   */
  lemma RewrittenToken(tokens: seq<string>, files: seq<string>, dir: Path, cwd: seq<string>, i: nat)
    requires i < |tokens| && tokens[i] in files
    requires Absolute(dir, cwd).parts != []
    ensures Rewrite(tokens, files, Absolute(dir, cwd))[i] == AsPosix(Absolute(dir, cwd)) + "/" + tokens[i]
  {
    ChildAsPosix(Absolute(dir, cwd), tokens[i]);
  }

  /**
   * Rewriting twice is rewriting once: a rewritten token begins with a
   * slash, so it is never the name of a directory entry.
   */
  lemma RewriteIdempotent(tokens: seq<string>, listing: seq<Entry>, dir: Path)
    requires ProperNames(listing)
    requires dir.rooted
    ensures var files := LocalFiles(listing);
      Rewrite(Rewrite(tokens, files, dir), files, dir) == Rewrite(tokens, files, dir)
  {
    var files := LocalFiles(listing);
    var once := Rewrite(tokens, files, dir);
    forall i | 0 <= i < |once| ensures once[i] !in files {
      if tokens[i] in files {
        assert once[i][0] == '/';
      }
    }
  }

  /** The template with local file names rewritten, joined again with single spaces. */
  function TemplateOf(config: ScriptConfig, dir: Path, listing: seq<Entry>, cwd: seq<string>): Result<string, RunError> {
    match config.command
    case None => Err(MissingKey("command"))
    case Some(template) =>
      Ok(Join(Rewrite(Split(template), LocalFiles(listing), Absolute(dir, cwd))))
  }

  /**
   * Splitting the resolved template again yields the rewritten tokens one
   * for one, provided the template and the components of the absolute
   * script directory contain no quotes or backslashes (text on which
   * `Split` is `shlex.split`) and those components contain no whitespace.
   */
  lemma TemplateResplit(config: ScriptConfig, dir: Path, listing: seq<Entry>, cwd: seq<string>)
    requires config.command.Some? && NoQuotes(config.command.value)
    requires forall i :: 0 <= i < |Absolute(dir, cwd).parts| ==>
      NoBlanks(Absolute(dir, cwd).parts[i]) && NoQuotes(Absolute(dir, cwd).parts[i])
    ensures TemplateOf(config, dir, listing, cwd).Ok?
    ensures Split(TemplateOf(config, dir, listing, cwd).value) ==
            Rewrite(Split(config.command.value), LocalFiles(listing), Absolute(dir, cwd))
  {
    var abs := Absolute(dir, cwd);
    var tokens := Split(config.command.value);
    var files := LocalFiles(listing);
    var out := Rewrite(tokens, files, abs);
    SplitFromAvoids(config.command.value, "", Quotes);
    forall i | 0 <= i < |out| ensures IsWord(out[i]) && NoQuotes(out[i]) {
      if tokens[i] in files {
        var p := Child(abs, tokens[i]);
        forall j | 0 <= j < |p.parts| ensures NoBlanks(p.parts[j]) && NoQuotes(p.parts[j]) {
          if j == |abs.parts| { assert p.parts[j] == tokens[i]; } else { assert p.parts[j] == abs.parts[j]; }
        }
        AbsoluteAsPosixAvoids(p, Blanks);
        AbsoluteAsPosixAvoids(p, Quotes);
      }
    }
    SplitJoin(out);
  }

  // ---------------------------------------------------------------------
  // The project and its environments

  /** The project a script belongs to: three directories above the script's own. */
  function ProjectRoot(scriptDir: Path): (root: Path)
    ensures root.rooted == scriptDir.rooted
    ensures |scriptDir.parts| >= 3 ==> root.parts + scriptDir.parts[|scriptDir.parts| - 3..] == scriptDir.parts
    ensures |scriptDir.parts| < 3 ==> root.parts == []
  {
    Parent(Parent(Parent(scriptDir)))
  }

  /** A script directory `<root>/Tasks/<task>/<script>` belongs to the project at `<root>`. */
  lemma ScriptProjectRoot(root: Path, task: string, script: string)
    ensures ProjectRoot(Child(Child(Child(root, "Tasks"), task), script)) == root
  {
    var dir := Child(Child(Child(root, "Tasks"), task), script);
    assert dir.parts == root.parts + ["Tasks", task, script];
    assert dir.parts[|dir.parts| - 3..] == ["Tasks", task, script];
  }

  /** The directory holding a project's environments: the root's child `Environments`. */
  function EnvDir(root: Path): (dir: Path)
    ensures Parent(dir) == root && dir.rooted == root.rooted
    ensures |dir.parts| == |root.parts| + 1 && dir.parts[|root.parts|] == "Environments"
  {
    Child(root, "Environments")
  }

  /**
   * The project's environment map: one environment per entry of its
   * environments directory, keyed by the entry's name. Each is made as
   * `Env(name, entry_path)`, so its own path is the entry path with the
   * name appended once more.
   */
  function GetEnvs(root: Path, names: seq<string>): (envs: map<string, Env>)
    ensures envs.Keys == set n | n in names
    ensures forall n :: n in envs ==>
      envs[n] == Env(n, Child(EnvDir(root), n), Child(Child(EnvDir(root), n), n))
    decreases |names|
  {
    if names == [] then map[]
    else
      var last := names[|names| - 1];
      var entry := Child(EnvDir(root), last);
      assert forall n :: n in names <==> n in names[..|names| - 1] || n == last;
      GetEnvs(root, names[..|names| - 1])[last := Env(last, entry, Child(entry, last))]
  }

  /**
   * The runner for a script directory: the environment named by the
   * interface's `env` key is looked up among the environments of the
   * script's project. `envNames` lists the project's environments
   * directory, `None` when that directory does not exist.
   */
  function NewScriptRunner(config: ScriptConfig, basePath: Path, envNames: Option<seq<string>>): (r: Result<ScriptRunner, RunError>)
    ensures config.env.None? ==> r == Err(MissingKey("env"))
    ensures config.env.Some? && envNames.None? ==> r == Err(DirNotFound(EnvDir(ProjectRoot(basePath))))
    ensures config.env.Some? && envNames.Some? ==> (r.Ok? <==> config.env.value in envNames.value)
    ensures config.env.Some? && envNames.Some? && r.Err? ==> r.error == UnknownEnv(config.env.value)
    ensures r.Ok? ==> r.value.path == basePath && r.value.config == config
    ensures r.Ok? ==> r.value.env.name == config.env.value
    ensures r.Ok? ==> r.value.env.basePath == Child(EnvDir(ProjectRoot(basePath)), config.env.value)
  {
    match config.env
    case None => Err(MissingKey("env"))
    case Some(name) =>
      var root := ProjectRoot(basePath);
      match envNames
      case None => Err(DirNotFound(EnvDir(root)))
      case Some(names) =>
        var envs := GetEnvs(root, names);
        if name in envs then Ok(ScriptRunner(basePath, config, envs[name]))
        else Err(UnknownEnv(name))
  }

  /** A script directory, its interface document and the environment it runs in. */
  datatype ScriptRunner = ScriptRunner(path: Path, config: ScriptConfig, env: Env) {

    /** The command template with every local file name replaced by the file's absolute path. */
    method CommandTemplate(listing: seq<Entry>, cwd: seq<string>) returns (r: Result<string, RunError>)
      ensures r == TemplateOf(config, path, listing, cwd)
    {
      if config.command.None? {
        return Err(MissingKey("command"));
      }
      var template := config.command.value;
      var localFiles := LocalFiles(listing);
      var tokens := Split(template);
      var original := tokens;
      var dir := Absolute(path, cwd);
      var i := 0;
      while i < |tokens|
        invariant 0 <= i <= |tokens| == |original|
        invariant forall k :: 0 <= k < i && original[k] in localFiles ==> tokens[k] == AsPosix(Child(dir, original[k]))
        invariant forall k :: 0 <= k < i && original[k] !in localFiles ==> tokens[k] == original[k]
        invariant forall k :: i <= k < |tokens| ==> tokens[k] == original[k]
      {
        if tokens[i] in localFiles {
          tokens := tokens[i := AsPosix(Child(dir, tokens[i]))];
        }
        i := i + 1;
      }
      assert tokens == Rewrite(original, localFiles, dir);
      r := Ok(Join(tokens));
    }

    /**
     * Binds the caller's arguments into the resolved template and hands the
     * split command line to the script's environment. `bind` stands for
     * the binder applied to the caller's arguments.
     */
    method Run(listing: seq<Entry>, cwd: seq<string>, bind: (string, ScriptConfig) -> Option<string>)
      returns (r: Result<Invocation, RunError>)
      ensures TemplateOf(config, path, listing, cwd).Err? ==> r == Err(TemplateOf(config, path, listing, cwd).error)
      ensures TemplateOf(config, path, listing, cwd).Ok? ==>
        var bound := bind(TemplateOf(config, path, listing, cwd).value, config);
        && (bound.None? ==> r == Err(BindFailed))
        && (bound.Some? ==> r == Ok(Invocation(env, Split(bound.value))))
    {
      var template := CommandTemplate(listing, cwd);
      if template.Err? {
        return Err(template.error);
      }
      var cmdStr := bind(template.value, config);
      if cmdStr.None? {
        return Err(BindFailed);
      }
      r := Ok(Invocation(env, Split(cmdStr.value)));
    }
  }
}
