# tmux-bro session synthesis, in Dafny

This project models the part of tmux-bro that turns a directory into a tmux
session descriptor: the nested dictionary of windows, panes and shell commands
that tmuxp later starts. The model covers three parts.

- **Workspace and package-manager detection** (`tmux_bro/workspace.py`). A
  directory may be a pnpm, npm or Cargo workspace, probed in that order, and
  each probe turns its manifest's member list into existing directories. The
  lock files decide the package manager. `package.json` may declare a `dev`
  script.
- **Descriptor construction** (`tmux_bro/tmux.py`). The directory gets one
  window per workspace member, or one unnamed window when it is not a
  workspace. Each window has an editor pane, an optional dev pane and a shell
  pane, each activating a `venv` when there is one. Its layout options come
  from the project configuration, else the global configuration, else the
  built-in defaults.
- **Global configuration loading** (`tmux_bro/config.py`):
  `~/.config/tmux-bro.yaml`, with a missing, unreadable or empty file giving
  `{}`.

The files are:

- `py_value.dfy`: the parsed documents the core works on. Module `PyValue`
  holds the Python operations the core applies to them: truthiness, `in`,
  subscription, `for` iteration and `dict.get`. Exceptions are values of
  `Py<T>`.
- `paths.dfy`: `os.path.join` and `os.path.basename`.
- `files.dfy`: the filesystem as a value. It records which paths are files
  and which are directories. Reading and parsing a file is a lookup that
  gives a document or `Unreadable`. `glob.glob` is a lookup too.
- `workspace.dfy`: the three probes, `detect_workspace`,
  `has_package_json_dev_script`, `has_cargo_toml` and
  `detect_package_manager`.
- `config.dfy`: `get_global_config_path` and `load_global_config`.
- `tmux.dfy`: the pane helpers, `_create_window_config` and
  `build_session_config`, with the properties of the descriptor they build.

The loops of the source, and the key-by-key filling of `options` in
`_create_window_config`, are methods. Each method is proved equal to a
specification function, and the lemmas are stated about those functions. The
loops are:

- the pattern loop of the pnpm and npm probes;
- the Cargo member loop;
- the detector loop of `detect_workspace`;
- the window loop of `build_session_config`.

The inputs the source reads from its environment are parameters: `EDITOR`,
the home directory, and each directory's project configuration (`Env` in
`tmux.dfy`).

Some behaviour of the code is easy to miss, and the model keeps it as written.

- The package manager is detected once, at the session's root directory
  (tmux_bro/tmux.py:103), and every member's dev pane uses it.
- A window's dev command comes from the root directory's project
  configuration only: its `packages.<name>.dev_command`, else its
  `dev_command` (tmux_bro/tmux.py:105-124). The global configuration is
  never consulted for it.
- Layout and pane sizes are resolved from the project configuration of the
  window's own directory, so for a workspace member they come from the
  member's directory.
- Every window carries `suppress_history: False`.
- `load_global_config` returns any truthy document unchanged, a YAML list
  included. The first `.get` in `_create_window_config` then raises
  AttributeError, so the whole build raises (`SessionOutcome`).
- A configured dev command that is not `None` but is falsy (an empty string,
  say) still gives the window a dev pane. That pane then runs the package
  manager's own command, since `_create_dev_pane` tests the command for
  truth.

## Model

| member | source | states |
|---|---|---|
| PyValue.Field | tmux_bro/workspace.py:43-46 | the `not x or key not in x` guard followed by `x[key]`, with any exception caught, finds the value under `key` exactly when `x` is a mapping that has the key |
| PyValue.CollectResultsOk | tmux_bro/tmux.py:109-144 | a loop that appends one result per iteration and succeeds ends with one value per iteration, in order |
| PyValue.CollectResultsRaise | tmux_bro/tmux.py:109-144 | such a loop raises iff some iteration raises, and then with the first exception |
| PyValue.Iterate | tmux_bro/workspace.py:95 | `for` succeeds on a list, a mapping or a string only; a list yields its elements, a mapping its keys and a string its characters |
| Workspace.KeepDirs | tmux_bro/workspace.py:66 | the comprehension keeps exactly the glob matches that are directories |
| Workspace.KeepDirsAppend | tmux_bro/workspace.py:66 | filtering preserves order: the filter of a concatenation is the concatenation of the filters |
| Workspace.KeepDirsOfDirs | tmux_bro/workspace.py:66 | glob matches that are all directories come back unchanged, in glob order |
| Workspace.PatternDirs | tmux_bro/workspace.py:59-67 | one entry succeeds iff it is a string; it then contributes exactly the directories it names, as a list: without `*`, `[join]` when its join to the root is a directory and `[]` otherwise; with `*`, the glob matches that are directories, in glob order |
| Workspace.ExpandPatterns | tmux_bro/workspace.py:57-67 | the whole member list succeeds iff every entry is a string, and every path found is a directory |
| Workspace.ExpandPatternsSound | tmux_bro/workspace.py:57-67 | every directory found is named by some pattern, literally or by glob |
| Workspace.ExpandPatternsComplete | tmux_bro/workspace.py:57-67 | every existing directory that some pattern names is found |
| Workspace.ExpandPatternsAppend | tmux_bro/workspace.py:57-67 | results come in pattern order: the directories of earlier patterns precede those of later ones |
| Workspace.CollectPatternDirs | tmux_bro/workspace.py:93-104 | the `for` loop appending and extending `package_dirs` computes `ExpandPatterns`, raising TypeError at the first non-string entry |
| Workspace.NonEmptyOrNone | tmux_bro/workspace.py:106 | `package_dirs if package_dirs else None`: Some exactly for a non-empty list, and None after an exception |
| Workspace.ManifestEntry | tmux_bro/workspace.py:36-44 | a manifest's top-level entry is found iff the manifest is a file that parses to a mapping with that key |
| Workspace.PnpmWorkspaceDirs | tmux_bro/workspace.py:75-109 | the pnpm probe answers None or a non-empty list of directories; None when `pnpm-workspace.yaml` is missing or unreadable or has no `packages` entry; otherwise the non-empty expansion of the iterated `packages` value, and None when that raises |
| Workspace.PnpmWorkspaceFindsNamedDirs | tmux_bro/workspace.py:75-109 | a pnpm workspace whose `packages` is a list finds exactly the existing directories its patterns name, literally or by glob |
| Workspace.WorkspacePatterns | tmux_bro/workspace.py:49-55 | `workspaces` is accepted iff it is a list, used as is, or a mapping with a `packages` key, whose value is then used |
| Workspace.NpmWorkspaceDirs | tmux_bro/workspace.py:29-72 | the npm probe answers None or a non-empty list of directories; None when `package.json` is missing or unreadable, has no `workspaces` entry, or that entry has neither accepted shape; otherwise the non-empty expansion of the accepted patterns, and None when that raises |
| Workspace.MemberDir | tmux_bro/workspace.py:136-139 | a Cargo member succeeds iff it is a string, and then contributes exactly `[join]` when its literal join to the root is a directory and `[]` otherwise |
| Workspace.MemberDirs | tmux_bro/workspace.py:136-139 | the member list succeeds iff every member is a string, and every path found is a directory |
| Workspace.MemberDirsLiteral | tmux_bro/workspace.py:136-139 | every Cargo directory found is the literal join of some member, never a glob expansion |
| Workspace.MemberDirsComplete | tmux_bro/workspace.py:136-139 | every member whose join is a directory is found |
| Workspace.MemberDirsAppend | tmux_bro/workspace.py:136-139 | results come in member order: the directories of earlier members precede those of later ones |
| Workspace.CargoWorkspaceDirs | tmux_bro/workspace.py:112-144 | the Cargo probe answers None or a non-empty list of directories; None when `Cargo.toml` is missing or unreadable, has no `workspace` entry, or that entry is not a mapping with `members`; otherwise the non-empty list of member directories, and None when that raises |
| Workspace.CollectMemberDirs | tmux_bro/workspace.py:134-141 | the `for` loop over the members computes `MemberDirs`, raising TypeError at the first non-string member |
| Workspace.DetectPnpmWorkspace | tmux_bro/workspace.py:75-109 | `detect_pnpm_workspace` computes `PnpmWorkspaceDirs`, every exception giving None |
| Workspace.DetectNpmWorkspace | tmux_bro/workspace.py:29-72 | `detect_npm_workspace` computes `NpmWorkspaceDirs`, every exception giving None |
| Workspace.DetectCargoWorkspace | tmux_bro/workspace.py:112-144 | `detect_cargo_workspace` computes `CargoWorkspaceDirs`, every exception giving None |
| Workspace.WorkspacePrecedence | tmux_bro/workspace.py:9-26 | pnpm wins over npm and npm over Cargo; the result is None iff all three probes answer None; a workspace always has at least one member and all its members are directories |
| Workspace.RunProbe | tmux_bro/workspace.py:22 | calling one detector gives that detector's probe result |
| Workspace.DetectWorkspace | tmux_bro/workspace.py:9-26 | the detector loop with its early return computes `WorkspaceDirs` |
| Workspace.DeclaresDev | tmux_bro/workspace.py:168-170 | `"dev" in scripts` is a key test for a mapping, a search in a list or string, and false for anything else |
| Workspace.HasPackageJsonDevScript | tmux_bro/workspace.py:154-173 | true iff `package.json` is a file that parses to a mapping whose `scripts` entry declares `dev`; a read or parse failure gives false |
| Workspace.PackageManager.Name | tmux_bro/workspace.py:176-197 | the answer is one of the five names, and it is `npm` exactly for npm |
| Workspace.DetectPackageManager | tmux_bro/workspace.py:176-197 | the lock-file precedence, each of the five answers stated as an if-and-only-if: `pnpm-lock.yaml`, then `yarn.lock`, then `package-lock.json`, then `Cargo.lock` or a `Cargo.toml` file, then `package.json`, else unknown |
| Config.GlobalConfigPath | tmux_bro/config.py:6-8 | the path is `.config/tmux-bro.yaml` joined under the home directory, and its basename is `tmux-bro.yaml` |
| Config.LoadGlobalConfig | tmux_bro/config.py:11-27 | a missing, unreadable or empty file gives `{}`; any truthy document, a mapping or not, is returned unchanged; the result is always `{}` or the file's own truthy document |
| Tmux.VenvCommands | tmux_bro/tmux.py:12-17 | the `source <dir>/venv/bin/activate` command is present iff the activation script is a file |
| Tmux.ShellPane | tmux_bro/tmux.py:30-36 | the shell pane runs only the venv activation, at most one command |
| Tmux.EditorPane | tmux_bro/tmux.py:20-27 | the editor pane is the shell pane's commands followed by the editor |
| Tmux.DevPane | tmux_bro/tmux.py:39-53 | the dev pane is the shell pane's commands plus one: the dev command if it is truthy, else `npm run dev` for npm, else `<manager> dev` |
| Tmux.WindowPanes | tmux_bro/tmux.py:132-140 | two or three panes: the editor pane first, the shell pane last, and the dev pane at index 1 exactly when there is one |
| Tmux.Resolve | tmux_bro/tmux.py:67-74 | a setting resolves project, then global, then default; it raises AttributeError iff the global configuration is not a mapping |
| Tmux.LayoutOptions | tmux_bro/tmux.py:76-84 | `main-pane-width` is set iff the layout is not horizontal, `main-pane-height` iff it is not vertical, each with the resolved value, and nothing else is set |
| Tmux.WindowConfigOf | tmux_bro/tmux.py:61-96 | succeeds iff the global configuration is a mapping; then the layout is resolved with default `main-vertical`, the options follow the layout with sizes defaulting to `50%`, the start directory and window name are the given ones, and history is not suppressed |
| Tmux.CreateWindowConfig | tmux_bro/tmux.py:61-96 | filling `options` key by key computes `WindowConfigOf` |
| Tmux.PackageDevCommand | tmux_bro/tmux.py:116-124 | a member absent from `packages` gets the project dev command; a member with a mapping entry gets that entry's `dev_command`, falling back to the project one; a `packages` value that is not a mapping, list or string raises TypeError |
| Tmux.WindowOf | tmux_bro/tmux.py:126-144 | a window succeeds iff the global configuration is a mapping, raising AttributeError otherwise; its configuration is `WindowConfigOf`; it has a dev pane iff the directory has a `dev` script or the dev command is not None |
| Tmux.CreatePanes | tmux_bro/tmux.py:151-159 | listing the editor and shell panes and inserting the dev pane at index 1 when there is one computes `WindowPanes` |
| Tmux.CreateWindow | tmux_bro/tmux.py:146-163 | testing for a dev pane, building the panes and adding them to the window configuration computes `WindowOf` |
| Tmux.CreatePackageWindow | tmux_bro/tmux.py:113-144 | one iteration of the workspace loop computes `PackageWindow` |
| Tmux.CreateWorkspaceWindows | tmux_bro/tmux.py:109-144 | the workspace loop computes `WorkspaceWindows`, stopping at the first exception |
| Tmux.BuildSessionConfig | tmux_bro/tmux.py:99-168 | `build_session_config` computes `SessionOf` |
| Tmux.WindowOfShape | tmux_bro/tmux.py:126-163 | every window is well formed: editor pane first, shell pane last, options matching its layout, history kept; it carries its directory and name; its dev pane exists iff there is a `dev` script or a dev command, and runs that command |
| Tmux.WorkspaceWindowsPointwise | tmux_bro/tmux.py:111-144 | a successful workspace build has exactly one window per member, and window `i` is what member `i` alone gives |
| Tmux.WorkspaceWindowsRaise | tmux_bro/tmux.py:111-144 | the workspace build raises iff some member's window raises, and then with that member's exception |
| Tmux.PlainDirectorySession | tmux_bro/tmux.py:145-168 | a non-workspace directory gets exactly one well-formed, unnamed window started in the directory; the session is named after the directory; the dev pane exists iff there is a `dev` script or a project dev command, and runs the project command |
| Tmux.WorkspaceSession | tmux_bro/tmux.py:99-144 | a workspace gets one window per member in detector order, each named after and started in its member directory and well formed; the session is named after the root; a member's dev pane exists iff it has a `dev` script or a dev command, and runs its `packages` override, else the project command, under the package manager detected at the root |
| Tmux.WorkspaceWindowsRaiseOnNonMapping | tmux_bro/tmux.py:113-144 | when the global configuration is not a mapping, a workspace with at least one member raises |
| Tmux.SessionRaisesOnNonMappingGlobalConfig | tmux_bro/tmux.py:61-74 | a global configuration that is not a mapping makes every build raise |
| Tmux.WellShapedDevCommand | tmux_bro/tmux.py:116-124 | when `packages` maps names to mappings, looking up a member's dev command never raises |
| Tmux.SessionOutcome | tmux_bro/tmux.py:99-168 | the build succeeds iff the global configuration is a mapping, and otherwise raises AttributeError; for a workspace this needs a well-shaped `packages` entry, for a plain directory nothing |
| Tmux.PlainDirectoryDefaults | tests/test_tmux_bro.py:145-186 | a plain directory with no configuration gives one `main-vertical` window with `main-pane-width` `50%`, the editor pane and then the shell pane, each with the venv activation when there is one |

## Left out

- File reading and JSON, YAML and TOML parsing are not modelled. A file's
  parse result is an input, and any read or parse exception is `Unreadable`.
  Python floats, dates and non-string mapping keys are not represented in
  parsed documents.
- `glob.glob` is not modelled. Its matches for each pattern are an input, in
  whatever order the filesystem gives, and no sorting is claimed.
- `load_project_config` is imported by `tmux_bro/tmux.py` but not defined in
  `tmux_bro/config.py`. Each directory's project configuration is an input
  mapping, and a directory without one has `{}`.
- The warning `print` in `load_global_config` is not modelled. Only its
  result, `{}`, is.
- `os.environ` and `os.path.expanduser` are not modelled: `EDITOR` and the
  home directory are inputs.
- `create_tmux_session` and `find_tmux_session` drive a live tmux server, so
  they are not part of this model.
- `tmux_bro/fuzzy.py`, `fuzzy.py`, `tmux_bro/main.py`, `main.py`,
  `tmux_bro/git.py` and `setup.py` are not part of this model. They are
  subprocess pipelines, interactive input, CLI glue and packaging.
- Workspace.HasCargoToml has no contract of its own. It is the `Cargo.toml`
  clause of `DetectPackageManager`'s contract.
