/** The user's global configuration file, `~/.config/tmux-bro.yaml`
    (tmux_bro/config.py). */
module Config {
  import opened PyValue
  import opened Paths
  import opened Files

  /** `get_global_config_path()` for a user whose home directory is `home`. */
  function GlobalConfigPath(home: string): (path: string)
    ensures path == Join(Join(home, ".config"), "tmux-bro.yaml")
    ensures Join(home, ".config") <= path
    ensures Basename(path) == "tmux-bro.yaml"
  {
    BasenameOfJoin(Join(home, ".config"), "tmux-bro.yaml");
    Join(Join(home, ".config"), "tmux-bro.yaml")
  }

  /** `load_global_config()`: the parsed document, with a missing, unreadable
      or empty file giving the empty mapping. Nothing checks that the document
      is a mapping, so a truthy list or scalar comes back as it is. */
  function LoadGlobalConfig(fs: FileSystem, home: string): (config: Value)
    ensures !fs.IsFile(GlobalConfigPath(home)) ==> config == Object([])
    ensures fs.Load(GlobalConfigPath(home)).Unreadable? ==> config == Object([])
    ensures fs.Load(GlobalConfigPath(home)) == Parsed(Null) ==> config == Object([])
    ensures fs.Load(GlobalConfigPath(home)).Parsed? && fs.Load(GlobalConfigPath(home)).value.Object? ==>
              config == fs.Load(GlobalConfigPath(home)).value
    ensures fs.IsFile(GlobalConfigPath(home)) && fs.Load(GlobalConfigPath(home)).Parsed? &&
            Truthy(fs.Load(GlobalConfigPath(home)).value) ==>
              config == fs.Load(GlobalConfigPath(home)).value
    ensures config == Object([]) ||
            (fs.Load(GlobalConfigPath(home)) == Parsed(config) && Truthy(config))
  {
    var path := GlobalConfigPath(home);
    if !fs.IsFile(path) then Object([])
    else
      match fs.Load(path)
      case Unreadable => Object([])
      case Parsed(config) => if Truthy(config) then config else Object([])
  }
}
