/** The session descriptor handed to the tmux session builder
    (tmux_bro/tmux.py): one window per workspace member, or a single unnamed
    window for a plain directory; each window has an editor pane, an optional
    dev-server pane and a shell pane, and a layout resolved from the project
    configuration, then the global configuration, then the defaults. */
module Tmux {
  import opened PyValue
  import opened Paths
  import opened Files
  import opened Workspace
  import opened Config

  const DefaultLayout := "main-vertical"
  const DefaultMainPaneWidth := "50%"
  const DefaultMainPaneHeight := "50%"
  const DefaultEditor := "vim"

  /** `{"cmd": ...}`: one command a pane runs when it opens. */
  datatype Command = Cmd(cmd: Value)

  /** `{"shell_command": [...]}` */
  datatype Pane = Pane(shellCommand: seq<Command>)

  /** The keys `_create_window_config` sets: `layout`, `start_directory`,
      `options`, `suppress_history` and, when given, `window_name`. */
  datatype WindowConfig = WindowConfig(
    layout: Value,
    startDirectory: string,
    options: map<string, Value>,
    suppressHistory: bool,
    windowName: Option<string>)

  /** A window configuration with its `panes` key added. */
  datatype Window = Window(config: WindowConfig, panes: seq<Pane>)

  /** `{"session_name": ..., "windows": [...]}` */
  datatype Session = Session(sessionName: string, windows: seq<Window>)

  /** What the core reads besides the filesystem: the `EDITOR` environment
      variable, the home directory `~` expands to, and the project
      configuration of each directory (a directory with none has the empty
      mapping). */
  datatype Env = Env(editor: Option<string>, home: string, projectConfigs: map<string, Fields>)

  /** `os.environ.get("EDITOR", "vim")` */
  function Editor(env: Env): string {
    if env.editor.Some? then env.editor.value else DefaultEditor
  }

  /** `load_project_config(directory)` */
  function ProjectConfig(env: Env, directory: string): Fields {
    if directory in env.projectConfigs then env.projectConfigs[directory] else []
  }

  /** `project_config.get("dev_command")` */
  function ProjectDevCommand(env: Env, directory: string): Value {
    Get(ProjectConfig(env, directory), "dev_command", Null)
  }

  /** `project_config.get("packages", {})` */
  function PackageConfigs(env: Env, directory: string): Value {
    Get(ProjectConfig(env, directory), "packages", Object([]))
  }

  // Panes

  /** `os.path.join(directory, "venv", "bin", "activate")` */
  function VenvActivatePath(directory: string): string {
    Join(Join(Join(directory, "venv"), "bin"), "activate")
  }

  /** `_get_venv_source_cmd(directory)`, as the commands it contributes to a
      pane: the `source` command when the activation script is a file. */
  function VenvCommands(fs: FileSystem, directory: string): (commands: seq<Command>)
    ensures fs.IsFile(VenvActivatePath(directory)) ==>
              commands == [Cmd(Str("source " + VenvActivatePath(directory)))]
    ensures !fs.IsFile(VenvActivatePath(directory)) ==> commands == []
  {
    var path := VenvActivatePath(directory);
    if fs.IsFile(path) then [Cmd(Str("source " + path))] else []
  }

  /** `_create_shell_pane(directory)`: nothing but the venv activation. */
  function ShellPane(fs: FileSystem, directory: string): (pane: Pane)
    ensures |pane.shellCommand| <= 1
    ensures pane.shellCommand == VenvCommands(fs, directory)
  {
    Pane(VenvCommands(fs, directory))
  }

  /** `_create_editor_pane(directory, editor)`: the shell pane's commands,
      then the editor. */
  function EditorPane(fs: FileSystem, directory: string, editor: string): (pane: Pane)
    ensures pane.shellCommand == ShellPane(fs, directory).shellCommand + [Cmd(Str(editor))]
  {
    Pane(VenvCommands(fs, directory) + [Cmd(Str(editor))])
  }

  /** `_create_dev_pane(directory, pkg_manager, dev_command)`: the shell
      pane's commands, then a configured dev command when it is truthy, or
      else the package manager's own way to run the `dev` script. */
  function DevPane(fs: FileSystem, directory: string, pm: PackageManager, devCommand: Value): (pane: Pane)
    ensures |pane.shellCommand| == |ShellPane(fs, directory).shellCommand| + 1
    ensures pane.shellCommand[..|pane.shellCommand| - 1] == ShellPane(fs, directory).shellCommand
    ensures Truthy(devCommand) ==> pane.shellCommand[|pane.shellCommand| - 1] == Cmd(devCommand)
    ensures !Truthy(devCommand) && pm == Npm ==>
              pane.shellCommand[|pane.shellCommand| - 1] == Cmd(Str("npm run dev"))
    ensures !Truthy(devCommand) && pm != Npm ==>
              pane.shellCommand[|pane.shellCommand| - 1] == Cmd(Str(pm.Name() + " dev"))
  {
    var venv := VenvCommands(fs, directory);
    var run :=
      if Truthy(devCommand) then Cmd(devCommand)
      else if pm.Name() == "npm" then Cmd(Str("npm run dev"))
      else Cmd(Str(pm.Name() + " dev"));
    assert (venv + [run])[..|venv|] == venv;
    Pane(venv + [run])
  }

  /** The editor and shell panes, with the dev pane inserted between them
      when the window has one. */
  function WindowPanes(fs: FileSystem, directory: string, editor: string, pm: PackageManager,
                       devCommand: Value, hasDev: bool): (panes: seq<Pane>)
    ensures |panes| == if hasDev then 3 else 2
    ensures panes[0] == EditorPane(fs, directory, editor)
    ensures hasDev ==> panes[1] == DevPane(fs, directory, pm, devCommand)
    ensures panes[|panes| - 1] == ShellPane(fs, directory)
  {
    var panes := [EditorPane(fs, directory, editor), ShellPane(fs, directory)];
    if hasDev then panes[..1] + [DevPane(fs, directory, pm, devCommand)] + panes[1..] else panes
  }

  // Window configuration

  /** The setting for `key`: the project's own value, else the global
      configuration's, else the built-in default. */
  function Setting(project: Fields, global: Fields, key: string, default: Value): Value {
    if HasKey(project, key) then Lookup(project, key).value
    else if HasKey(global, key) then Lookup(global, key).value
    else default
  }

  /** `project_config.get(key, global_config.get(key, default))`. The inner
      `get` runs first, and only a mapping has one. */
  function Resolve(project: Fields, global: Value, key: string, default: Value): (r: Py<Value>)
    ensures r.Ok? <==> global.Object?
    ensures r.Raise? ==> r.error == AttributeError
    ensures r.Ok? ==> r.value == Setting(project, global.fields, key, default)
  {
    match DictGet(global, key, default)
    case Raise(e) => Raise(e)
    case Ok(fallback) => Ok(Get(project, key, fallback))
  }

  predicate IsVerticalLayout(layout: Value) {
    layout in [Str("main-vertical"), Str("even-vertical")]
  }

  predicate IsHorizontalLayout(layout: Value) {
    layout in [Str("main-horizontal"), Str("even-horizontal")]
  }

  /** The tmux `options` of a window: a vertical layout sizes the main pane
      by width, a horizontal one by height, and any other layout gets both. */
  function LayoutOptions(layout: Value, width: Value, height: Value): (options: map<string, Value>)
    ensures options.Keys <= {"main-pane-width", "main-pane-height"}
    ensures "main-pane-width" in options <==> !IsHorizontalLayout(layout)
    ensures "main-pane-height" in options <==> !IsVerticalLayout(layout)
    ensures "main-pane-width" in options ==> options["main-pane-width"] == width
    ensures "main-pane-height" in options ==> options["main-pane-height"] == height
  {
    if IsVerticalLayout(layout) then map["main-pane-width" := width]
    else if IsHorizontalLayout(layout) then map["main-pane-height" := height]
    else map["main-pane-width" := width, "main-pane-height" := height]
  }

  /** `_create_window_config(directory, window_name)`. It raises exactly
      when the global configuration is not a mapping. */
  function WindowConfigOf(env: Env, fs: FileSystem, directory: string, windowName: Option<string>): (r: Py<WindowConfig>)
    ensures r.Ok? <==> LoadGlobalConfig(fs, env.home).Object?
    ensures r.Raise? ==> r.error == AttributeError
    ensures r.Ok? ==>
              var global := LoadGlobalConfig(fs, env.home).fields;
              var project := ProjectConfig(env, directory);
              && r.value.layout == Setting(project, global, "layout", Str(DefaultLayout))
              && r.value.startDirectory == directory
              && r.value.options == LayoutOptions(
                   r.value.layout,
                   Setting(project, global, "main_pane_width", Str(DefaultMainPaneWidth)),
                   Setting(project, global, "main_pane_height", Str(DefaultMainPaneHeight)))
              && !r.value.suppressHistory
              && r.value.windowName == windowName
  {
    var globalConfig := LoadGlobalConfig(fs, env.home);
    var projectConfig := ProjectConfig(env, directory);
    match Resolve(projectConfig, globalConfig, "layout", Str(DefaultLayout))
    case Raise(e) => Raise(e)
    case Ok(layout) =>
      // The global configuration is a mapping by now, so these cannot raise.
      var width := Resolve(projectConfig, globalConfig, "main_pane_width", Str(DefaultMainPaneWidth)).value;
      var height := Resolve(projectConfig, globalConfig, "main_pane_height", Str(DefaultMainPaneHeight)).value;
      Ok(WindowConfig(layout, directory, LayoutOptions(layout, width, height), false, windowName))
  }

  /** `_create_window_config`, filling in the options dictionary key by key. */
  method CreateWindowConfig(env: Env, fs: FileSystem, directory: string, windowName: Option<string>)
    returns (r: Py<WindowConfig>)
    ensures r == WindowConfigOf(env, fs, directory, windowName)
  {
    var globalConfig := LoadGlobalConfig(fs, env.home);
    var projectConfig := ProjectConfig(env, directory);
    var resolved := Resolve(projectConfig, globalConfig, "layout", Str(DefaultLayout));
    if resolved.Raise? {
      return Raise(resolved.error);
    }
    var layout := resolved.value;
    var width := Resolve(projectConfig, globalConfig, "main_pane_width", Str(DefaultMainPaneWidth)).value;
    var height := Resolve(projectConfig, globalConfig, "main_pane_height", Str(DefaultMainPaneHeight)).value;
    var options: map<string, Value> := map[];
    if layout in [Str("main-vertical"), Str("even-vertical")] {
      options := options["main-pane-width" := width];
    } else if layout in [Str("main-horizontal"), Str("even-horizontal")] {
      options := options["main-pane-height" := height];
    } else {
      options := options["main-pane-width" := width];
      options := options["main-pane-height" := height];
    }
    r := Ok(WindowConfig(layout, directory, options, false, windowName));
  }

  // Windows and the session

  /** The dev command of a workspace member: its entry under `packages`
      when that entry has a `dev_command` key, else the project-wide one.
      The Python `in` and subscript operators apply to whatever shapes the
      configuration holds, so an odd shape can raise. */
  function PackageDevCommand(packageConfigs: Value, packageName: string, defaultDevCommand: Value): (r: Py<Value>)
    ensures packageConfigs.Object? && !HasKey(packageConfigs.fields, packageName) ==>
              r == Ok(defaultDevCommand)
    ensures packageConfigs.Object? && HasKey(packageConfigs.fields, packageName) &&
            Lookup(packageConfigs.fields, packageName).value.Object? ==>
              var entry := Lookup(packageConfigs.fields, packageName).value.fields;
              r == Ok(Get(entry, "dev_command", defaultDevCommand))
    ensures !(packageConfigs.Object? || packageConfigs.List? || packageConfigs.Str?) ==> r == Raise(TypeError)
  {
    match Contains(packageConfigs, packageName)
    case Raise(e) => Raise(e)
    case Ok(listed) =>
      if !listed then Ok(defaultDevCommand)
      else
        match Subscript(packageConfigs, packageName)
        case Raise(e) => Raise(e)
        case Ok(packageConfig) =>
          match Contains(packageConfig, "dev_command")
          case Raise(e) => Raise(e)
          case Ok(overridden) =>
            if !overridden then Ok(defaultDevCommand) else Subscript(packageConfig, "dev_command")
  }

  /** Whether a window gets a dev pane: a `dev` script in its `package.json`,
      or any configured dev command, even a falsy one other than `None`. */
  predicate HasDev(fs: FileSystem, directory: string, devCommand: Value) {
    HasPackageJsonDevScript(fs, directory) || devCommand != Null
  }

  /** A window for `directory`: its panes and its window configuration.
      Both branches of `build_session_config` build their windows this way. */
  function WindowOf(env: Env, fs: FileSystem, pm: PackageManager, directory: string,
                    windowName: Option<string>, devCommand: Value): (r: Py<Window>)
    ensures r.Ok? <==> LoadGlobalConfig(fs, env.home).Object?
    ensures r.Raise? ==> r.error == AttributeError
    ensures r.Ok? ==> r.value.config == WindowConfigOf(env, fs, directory, windowName).value
    ensures r.Ok? ==> r.value.panes == WindowPanes(fs, directory, Editor(env), pm, devCommand,
                                                   HasDev(fs, directory, devCommand))
  {
    var panes := WindowPanes(fs, directory, Editor(env), pm, devCommand, HasDev(fs, directory, devCommand));
    match WindowConfigOf(env, fs, directory, windowName)
    case Raise(e) => Raise(e)
    case Ok(config) => Ok(Window(config, panes))
  }

  /** The panes `build_session_config` lists for a window: the editor and
      shell panes, with the dev pane inserted at index 1 when there is one. */
  method CreatePanes(fs: FileSystem, directory: string, editor: string, pm: PackageManager, devCommand: Value,
                     hasDev: bool) returns (panes: seq<Pane>)
    ensures panes == WindowPanes(fs, directory, editor, pm, devCommand, hasDev)
  {
    panes := [EditorPane(fs, directory, editor), ShellPane(fs, directory)];
    if hasDev {
      panes := panes[..1] + [DevPane(fs, directory, pm, devCommand)] + panes[1..];
    }
  }

  /** Builds a window the way `build_session_config` does: its panes, then
      the window configuration with the panes added to it. */
  method CreateWindow(env: Env, fs: FileSystem, pm: PackageManager, directory: string,
                      windowName: Option<string>, devCommand: Value) returns (r: Py<Window>)
    ensures r == WindowOf(env, fs, pm, directory, windowName, devCommand)
  {
    var hasDev := HasPackageJsonDevScript(fs, directory) || devCommand != Null;
    var panes := CreatePanes(fs, directory, Editor(env), pm, devCommand, hasDev);
    var config := CreateWindowConfig(env, fs, directory, windowName);
    if config.Raise? {
      return Raise(config.error);
    }
    r := Ok(Window(config.value, panes));
  }

  /** One iteration of the workspace loop of `build_session_config`: the
      member's dev command, then its window, named after its directory. */
  function PackageWindow(env: Env, fs: FileSystem, pm: PackageManager, defaultDevCommand: Value,
                         packageConfigs: Value, packageDir: string): Py<Window>
  {
    match PackageDevCommand(packageConfigs, Basename(packageDir), defaultDevCommand)
    case Raise(e) => Raise(e)
    case Ok(devCommand) => WindowOf(env, fs, pm, packageDir, Some(Basename(packageDir)), devCommand)
  }

  /** The body of the workspace loop of `build_session_config`. */
  method CreatePackageWindow(env: Env, fs: FileSystem, pm: PackageManager, defaultDevCommand: Value,
                             packageConfigs: Value, packageDir: string) returns (r: Py<Window>)
    ensures r == PackageWindow(env, fs, pm, defaultDevCommand, packageConfigs, packageDir)
  {
    var packageName := Basename(packageDir);
    var packageDevCommand := PackageDevCommand(packageConfigs, packageName, defaultDevCommand);
    if packageDevCommand.Raise? {
      return Raise(packageDevCommand.error);
    }
    r := CreateWindow(env, fs, pm, packageDir, Some(packageName), packageDevCommand.value);
  }

  /** What each workspace member alone gives, in member order. */
  function PackageWindows(env: Env, fs: FileSystem, pm: PackageManager, defaultDevCommand: Value,
                          packageConfigs: Value, packageDirs: seq<string>): (results: seq<Py<Window>>)
    ensures |results| == |packageDirs|
    ensures forall i | 0 <= i < |packageDirs| ::
              results[i] == PackageWindow(env, fs, pm, defaultDevCommand, packageConfigs, packageDirs[i])
  {
    seq(|packageDirs|, i requires 0 <= i < |packageDirs| =>
      PackageWindow(env, fs, pm, defaultDevCommand, packageConfigs, packageDirs[i]))
  }

  /** The windows of the workspace members `packageDirs`, in order, or the
      first exception one of them raises. */
  function WorkspaceWindows(env: Env, fs: FileSystem, pm: PackageManager, defaultDevCommand: Value,
                            packageConfigs: Value, packageDirs: seq<string>): Py<seq<Window>>
  {
    CollectResults(PackageWindows(env, fs, pm, defaultDevCommand, packageConfigs, packageDirs))
  }

  /** The windows of `directory`: one per workspace member, or else a single
      unnamed window with the project-wide dev command. */
  function SessionWindows(env: Env, fs: FileSystem, directory: string): Py<seq<Window>> {
    var packageDirs := WorkspaceDirs(fs, directory);
    var pm := DetectPackageManager(fs, directory);
    if packageDirs.Some? && packageDirs.value != [] then
      WorkspaceWindows(env, fs, pm, ProjectDevCommand(env, directory), PackageConfigs(env, directory),
                       packageDirs.value)
    else
      match WindowOf(env, fs, pm, directory, None, ProjectDevCommand(env, directory))
      case Raise(e) => Raise(e)
      case Ok(w) => Ok([w])
  }

  /** `build_session_config(directory)` */
  function SessionOf(env: Env, fs: FileSystem, directory: string): Py<Session> {
    match SessionWindows(env, fs, directory)
    case Raise(e) => Raise(e)
    case Ok(windows) => Ok(Session(Basename(directory), windows))
  }

  /** The workspace loop of `build_session_config`: one window per member,
      appended in order, stopping at the first exception. */
  method CreateWorkspaceWindows(env: Env, fs: FileSystem, pm: PackageManager, defaultDevCommand: Value,
                                packageConfigs: Value, packageDirs: seq<string>) returns (r: Py<seq<Window>>)
    ensures r == WorkspaceWindows(env, fs, pm, defaultDevCommand, packageConfigs, packageDirs)
  {
    ghost var results := PackageWindows(env, fs, pm, defaultDevCommand, packageConfigs, packageDirs);
    PrependNothing(CollectResults(results));
    var windows: seq<Window> := [];
    var i := 0;
    while i < |packageDirs|
      invariant 0 <= i <= |packageDirs|
      invariant CollectResults(results) == Prepend(windows, CollectResults(results[i..]))
    {
      var window := CreatePackageWindow(env, fs, pm, defaultDevCommand, packageConfigs, packageDirs[i]);
      assert window == results[i];
      if window.Raise? {
        assert Prepend(windows, CollectResults(results[i..])) == Raise(window.error) by {
          CollectResultsStep(results, i, windows);
        }
        return Raise(window.error);
      }
      assert Prepend(windows, CollectResults(results[i..])) ==
             Prepend(windows + [window.value], CollectResults(results[i + 1..])) by {
        CollectResultsStep(results, i, windows);
      }
      windows := windows + [window.value];
      i := i + 1;
    }
    assert results[i..] == [];
    PrependAll(windows);
    r := Ok(windows);
  }

  /** `build_session_config(directory)` */
  method BuildSessionConfig(env: Env, fs: FileSystem, directory: string) returns (r: Py<Session>)
    ensures r == SessionOf(env, fs, directory)
  {
    var sessionName := Basename(directory);
    var packageDirs := DetectWorkspace(fs, directory);
    var pm := DetectPackageManager(fs, directory);
    var defaultDevCommand := ProjectDevCommand(env, directory);
    var packageConfigs := PackageConfigs(env, directory);
    var windows: Py<seq<Window>>;
    if packageDirs.Some? && packageDirs.value != [] {
      windows := CreateWorkspaceWindows(env, fs, pm, defaultDevCommand, packageConfigs, packageDirs.value);
    } else {
      var window := CreateWindow(env, fs, pm, directory, None, defaultDevCommand);
      windows := if window.Ok? then Ok([window.value]) else Raise(window.error);
    }
    r := if windows.Ok? then Ok(Session(sessionName, windows.value)) else Raise(windows.error);
  }

  // Properties of the session descriptor

  /** A window as `build_session_config` always lays it out: the editor pane
      first, the shell pane last, at most a dev pane between them, and the
      main-pane options its layout calls for. */
  predicate WellFormedWindow(fs: FileSystem, editor: string, w: Window) {
    && (|w.panes| == 2 || |w.panes| == 3)
    && w.panes[0] == EditorPane(fs, w.config.startDirectory, editor)
    && w.panes[|w.panes| - 1] == ShellPane(fs, w.config.startDirectory)
    && ("main-pane-width" in w.config.options <==> !IsHorizontalLayout(w.config.layout))
    && ("main-pane-height" in w.config.options <==> !IsVerticalLayout(w.config.layout))
    && !w.config.suppressHistory
  }

  /** Every window `WindowOf` builds is well formed, starts in its directory,
      carries the name it was given, and has a dev pane, running the given dev
      command, exactly when the directory has a `dev` script or a dev command
      was given. */
  lemma WindowOfShape(env: Env, fs: FileSystem, pm: PackageManager, directory: string,
                      windowName: Option<string>, devCommand: Value, w: Window)
    requires WindowOf(env, fs, pm, directory, windowName, devCommand) == Ok(w)
    ensures w.config.startDirectory == directory
    ensures w.config.windowName == windowName
    ensures WellFormedWindow(fs, Editor(env), w)
    ensures |w.panes| == 3 <==> HasDev(fs, directory, devCommand)
    ensures |w.panes| == 3 ==> w.panes[1] == DevPane(fs, directory, pm, devCommand)
  {
    var c := WindowConfigOf(env, fs, directory, windowName).value;
    assert w.config == c;
  }

  /** The dev command the workspace member `packageDir` of `directory` gets. */
  function MemberDevCommand(env: Env, directory: string, packageDir: string): Py<Value> {
    PackageDevCommand(PackageConfigs(env, directory), Basename(packageDir), ProjectDevCommand(env, directory))
  }

  /** The workspace windows line up with the members: window `i` is what
      member `i` alone gives. */
  lemma WorkspaceWindowsPointwise(env: Env, fs: FileSystem, pm: PackageManager,
                                  defaultDevCommand: Value, packageConfigs: Value,
                                  packageDirs: seq<string>, windows: seq<Window>)
    requires WorkspaceWindows(env, fs, pm, defaultDevCommand, packageConfigs, packageDirs) == Ok(windows)
    ensures |windows| == |packageDirs|
    ensures forall i | 0 <= i < |packageDirs| ::
              PackageWindow(env, fs, pm, defaultDevCommand, packageConfigs, packageDirs[i]) == Ok(windows[i])
  {
    CollectResultsOk(PackageWindows(env, fs, pm, defaultDevCommand, packageConfigs, packageDirs), windows);
  }

  /** Building the workspace windows raises exactly when some member's
      window raises, and then with the exception of the first such member. */
  lemma WorkspaceWindowsRaise(env: Env, fs: FileSystem, pm: PackageManager,
                              defaultDevCommand: Value, packageConfigs: Value, packageDirs: seq<string>)
    ensures var r := WorkspaceWindows(env, fs, pm, defaultDevCommand, packageConfigs, packageDirs);
            r.Raise? <==> exists i | 0 <= i < |packageDirs| ::
              PackageWindow(env, fs, pm, defaultDevCommand, packageConfigs, packageDirs[i]).Raise?
    ensures var r := WorkspaceWindows(env, fs, pm, defaultDevCommand, packageConfigs, packageDirs);
            r.Raise? ==> exists i | 0 <= i < |packageDirs| ::
              && PackageWindow(env, fs, pm, defaultDevCommand, packageConfigs, packageDirs[i]) == Raise(r.error)
              && forall j | 0 <= j < i ::
                   PackageWindow(env, fs, pm, defaultDevCommand, packageConfigs, packageDirs[j]).Ok?
  {
    CollectResultsRaise(PackageWindows(env, fs, pm, defaultDevCommand, packageConfigs, packageDirs));
  }

  /** A directory that is not a workspace gets one unnamed window, started
      in the directory, with a dev pane exactly when it has a `dev` script
      or a project dev command, and that dev pane runs the project command. */
  lemma PlainDirectorySession(env: Env, fs: FileSystem, directory: string, s: Session)
    requires WorkspaceDirs(fs, directory).None?
    requires SessionOf(env, fs, directory) == Ok(s)
    ensures s.sessionName == Basename(directory)
    ensures |s.windows| == 1
    ensures s.windows[0].config.startDirectory == directory
    ensures s.windows[0].config.windowName.None?
    ensures WellFormedWindow(fs, Editor(env), s.windows[0])
    ensures |s.windows[0].panes| == 3 <==> HasDev(fs, directory, ProjectDevCommand(env, directory))
    ensures |s.windows[0].panes| == 3 ==>
              s.windows[0].panes[1] == DevPane(fs, directory, DetectPackageManager(fs, directory),
                                               ProjectDevCommand(env, directory))
  {
    var pm := DetectPackageManager(fs, directory);
    var w := WindowOf(env, fs, pm, directory, None, ProjectDevCommand(env, directory));
    assert w.Ok? && s.windows == [w.value];
    WindowOfShape(env, fs, pm, directory, None, ProjectDevCommand(env, directory), w.value);
  }

  /** A workspace gets one window per member, in the order the members were
      detected, each named after and started in its member directory, laid
      out as every window is, with a dev pane exactly when the member has a
      `dev` script or a dev command, and that dev pane runs the member's own
      command (its `packages` entry, else the project's) under the package
      manager detected at the workspace root. */
  lemma WorkspaceSession(env: Env, fs: FileSystem, directory: string, s: Session)
    requires WorkspaceDirs(fs, directory).Some?
    requires SessionOf(env, fs, directory) == Ok(s)
    ensures s.sessionName == Basename(directory)
    ensures |s.windows| == |WorkspaceDirs(fs, directory).value|
    ensures forall i | 0 <= i < |s.windows| ::
              var packageDir := WorkspaceDirs(fs, directory).value[i];
              var w := s.windows[i];
              && w.config.startDirectory == packageDir
              && w.config.windowName == Some(Basename(packageDir))
              && WellFormedWindow(fs, Editor(env), w)
              && MemberDevCommand(env, directory, packageDir).Ok?
              && (|w.panes| == 3 <==> HasDev(fs, packageDir, MemberDevCommand(env, directory, packageDir).value))
              && (|w.panes| == 3 ==>
                    w.panes[1] == DevPane(fs, packageDir, DetectPackageManager(fs, directory),
                                          MemberDevCommand(env, directory, packageDir).value))
  {
    WorkspacePrecedence(fs, directory);
    var dirs := WorkspaceDirs(fs, directory).value;
    var pm := DetectPackageManager(fs, directory);
    var defaultDevCommand := ProjectDevCommand(env, directory);
    var packageConfigs := PackageConfigs(env, directory);
    WorkspaceWindowsPointwise(env, fs, pm, defaultDevCommand, packageConfigs, dirs, s.windows);
    forall i | 0 <= i < |s.windows|
      ensures var w := s.windows[i];
              && w.config.startDirectory == dirs[i]
              && w.config.windowName == Some(Basename(dirs[i]))
              && WellFormedWindow(fs, Editor(env), w)
              && MemberDevCommand(env, directory, dirs[i]).Ok?
              && (|w.panes| == 3 <==> HasDev(fs, dirs[i], MemberDevCommand(env, directory, dirs[i]).value))
              && (|w.panes| == 3 ==>
                    w.panes[1] == DevPane(fs, dirs[i], pm, MemberDevCommand(env, directory, dirs[i]).value))
    {
      var devCommand := MemberDevCommand(env, directory, dirs[i]);
      assert devCommand.Ok?;
      assert WindowOf(env, fs, pm, dirs[i], Some(Basename(dirs[i])), devCommand.value) == Ok(s.windows[i]);
      WindowOfShape(env, fs, pm, dirs[i], Some(Basename(dirs[i])), devCommand.value, s.windows[i]);
    }
  }

  /** A global configuration file that holds a truthy non-mapping makes the
      build raise, whatever the directory. */
  lemma SessionRaisesOnNonMappingGlobalConfig(env: Env, fs: FileSystem, directory: string)
    requires !LoadGlobalConfig(fs, env.home).Object?
    ensures SessionOf(env, fs, directory).Raise?
  {
    var packageDirs := WorkspaceDirs(fs, directory);
    if packageDirs.Some? && packageDirs.value != [] {
      WorkspaceWindowsRaiseOnNonMapping(env, fs, DetectPackageManager(fs, directory), ProjectDevCommand(env, directory),
                                        PackageConfigs(env, directory), packageDirs.value);
    }
  }

  /** The first member's window already raises when the global configuration
      is not a mapping. */
  lemma WorkspaceWindowsRaiseOnNonMapping(env: Env, fs: FileSystem, pm: PackageManager, defaultDevCommand: Value,
                                          packageConfigs: Value, packageDirs: seq<string>)
    requires packageDirs != []
    requires !LoadGlobalConfig(fs, env.home).Object?
    ensures WorkspaceWindows(env, fs, pm, defaultDevCommand, packageConfigs, packageDirs).Raise?
  {
    var results := PackageWindows(env, fs, pm, defaultDevCommand, packageConfigs, packageDirs);
    assert results[0].Raise?;
  }

  /** The `packages` entry is a mapping from member names to mappings. */
  predicate WellShapedPackages(packageConfigs: Value) {
    packageConfigs.Object? && forall i | 0 <= i < |packageConfigs.fields| :: packageConfigs.fields[i].1.Object?
  }

  /** With a well-shaped `packages` entry, looking up a member's dev command
      cannot raise. */
  lemma WellShapedDevCommand(packageConfigs: Value, packageName: string, defaultDevCommand: Value)
    requires WellShapedPackages(packageConfigs)
    ensures PackageDevCommand(packageConfigs, packageName, defaultDevCommand).Ok?
  {
    if HasKey(packageConfigs.fields, packageName) {
      var entry := Lookup(packageConfigs.fields, packageName).value;
      var k :| 0 <= k < |packageConfigs.fields| && packageConfigs.fields[k] == (packageName, entry);
      assert entry.Object?;
    }
  }

  /** With a well-shaped `packages` entry, the build succeeds exactly when the
      global configuration is a mapping, and otherwise raises AttributeError. */
  lemma SessionOutcome(env: Env, fs: FileSystem, directory: string)
    requires WorkspaceDirs(fs, directory).Some? ==> WellShapedPackages(PackageConfigs(env, directory))
    ensures SessionOf(env, fs, directory).Ok? <==> LoadGlobalConfig(fs, env.home).Object?
    ensures SessionOf(env, fs, directory).Raise? ==> SessionOf(env, fs, directory).error == AttributeError
  {
    var packageDirs := WorkspaceDirs(fs, directory);
    var pm := DetectPackageManager(fs, directory);
    var defaultDevCommand := ProjectDevCommand(env, directory);
    var packageConfigs := PackageConfigs(env, directory);
    if !LoadGlobalConfig(fs, env.home).Object? {
      SessionRaisesOnNonMappingGlobalConfig(env, fs, directory);
    }
    if packageDirs.Some? && packageDirs.value != [] {
      var dirs := packageDirs.value;
      forall i | 0 <= i < |dirs|
        ensures var w := PackageWindow(env, fs, pm, defaultDevCommand, packageConfigs, dirs[i]);
                (w.Ok? <==> LoadGlobalConfig(fs, env.home).Object?) && (w.Raise? ==> w.error == AttributeError)
      {
        WellShapedDevCommand(packageConfigs, Basename(dirs[i]), defaultDevCommand);
      }
      WorkspaceWindowsRaise(env, fs, pm, defaultDevCommand, packageConfigs, dirs);
      assert SessionWindows(env, fs, directory) == WorkspaceWindows(env, fs, pm, defaultDevCommand, packageConfigs, dirs);
    }
  }

  /** A plain directory with no project or global configuration: one window,
      `main-vertical` with a 50% main pane, the editor then a shell, both
      activating the directory's venv when it has one. */
  lemma PlainDirectoryDefaults(env: Env, fs: FileSystem, directory: string)
    requires !fs.IsFile(Join(directory, PnpmWorkspaceYaml))
    requires !fs.IsFile(Join(directory, PackageJson))
    requires !fs.IsFile(Join(directory, CargoToml))
    requires !fs.IsFile(GlobalConfigPath(env.home))
    requires ProjectConfig(env, directory) == []
    ensures SessionOf(env, fs, directory) ==
            Ok(Session(Basename(directory), [
              Window(
                WindowConfig(Str("main-vertical"), directory, map["main-pane-width" := Str("50%")], false, None),
                [Pane(VenvCommands(fs, directory) + [Cmd(Str(Editor(env)))]), Pane(VenvCommands(fs, directory))])]))
  {
    WorkspacePrecedence(fs, directory);
    assert WorkspaceDirs(fs, directory).None?;
    var pm := DetectPackageManager(fs, directory);
    assert !HasDev(fs, directory, ProjectDevCommand(env, directory));
    var config := WindowConfig(Str("main-vertical"), directory, map["main-pane-width" := Str("50%")], false, None);
    assert LoadGlobalConfig(fs, env.home) == Object([]);
    assert IsVerticalLayout(Str("main-vertical"));
    assert WindowConfigOf(env, fs, directory, None) == Ok(config);
    var panes := [Pane(VenvCommands(fs, directory) + [Cmd(Str(Editor(env)))]), Pane(VenvCommands(fs, directory))];
    assert WindowPanes(fs, directory, Editor(env), pm, Null, false) == panes;
    assert WindowOf(env, fs, pm, directory, None, Null) == Ok(Window(config, panes));
  }
}
