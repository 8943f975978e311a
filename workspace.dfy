/** Workspace and package-manager detection (tmux_bro/workspace.py): which
    member directories a pnpm, npm or Cargo workspace declares, which
    package manager a directory's lock files point to, and whether a
    package.json declares a `dev` script. Every read or parse failure is
    caught: a probe then answers None and the dev-script check false. */
module Workspace {
  import opened PyValue
  import opened Paths
  import opened Files

  const PnpmWorkspaceYaml := "pnpm-workspace.yaml"
  const PackageJson := "package.json"
  const CargoToml := "Cargo.toml"

  /* ---------- Member patterns of pnpm and npm workspaces ---------- */

  /** `[d for d in paths if os.path.isdir(d)]` */
  function KeepDirs(fs: FileSystem, paths: seq<string>): (r: seq<string>)
    ensures forall d {:trigger d in r} {:trigger d in paths} :: d in r <==> d in paths && fs.IsDir(d)
  {
    if paths == [] then []
    else
      assert forall d :: d in paths <==> d == paths[0] || d in paths[1..];
      (if fs.IsDir(paths[0]) then [paths[0]] else []) + KeepDirs(fs, paths[1..])
  }

  /** Filtering keeps the order of what it filters: glob order survives. */
  lemma {:induction false} KeepDirsAppend(fs: FileSystem, xs: seq<string>, ys: seq<string>)
    ensures KeepDirs(fs, xs + ys) == KeepDirs(fs, xs) + KeepDirs(fs, ys)
  {
    if xs == [] {
      assert xs + ys == ys;
    } else {
      assert (xs + ys)[0] == xs[0];
      assert (xs + ys)[1..] == xs[1..] + ys;
      KeepDirsAppend(fs, xs[1..], ys);
    }
  }

  /** Glob matches that are all directories come back unchanged, in glob order. */
  lemma {:induction false} KeepDirsOfDirs(fs: FileSystem, paths: seq<string>)
    requires forall d :: d in paths ==> fs.IsDir(d)
    ensures KeepDirs(fs, paths) == paths
  {
    if paths != [] {
      KeepDirsOfDirs(fs, paths[1..]);
    }
  }

  /** A pattern containing `*` is expanded by glob; any other is a literal path. */
  predicate IsGlob(pattern: string) { '*' in pattern }

  /** `d` is a path that `pattern`, relative to `directory`, names. */
  predicate Candidate(fs: FileSystem, directory: string, pattern: string, d: string) {
    if IsGlob(pattern) then d in fs.Glob(Join(directory, pattern))
    else d == Join(directory, pattern)
  }

  /** The directories one entry of a member list contributes. An entry that
      is not a string makes `"*" in pattern` or `os.path.join` raise. */
  function PatternDirs(fs: FileSystem, directory: string, pattern: Value): (r: Py<seq<string>>)
    ensures r.Ok? <==> pattern.Str?
    ensures r.Ok? ==> forall d {:trigger d in r.value} :: d in r.value <==> fs.IsDir(d) && Candidate(fs, directory, pattern.s, d)
    ensures pattern.Str? && IsGlob(pattern.s) ==> r.value == KeepDirs(fs, fs.Glob(Join(directory, pattern.s)))
    ensures pattern.Str? && !IsGlob(pattern.s) ==>
              r.value == if fs.IsDir(Join(directory, pattern.s)) then [Join(directory, pattern.s)] else []
  {
    match pattern
    case Str(p) =>
      if !IsGlob(p) then
        var packageDir := Join(directory, p);
        Ok(if fs.IsDir(packageDir) then [packageDir] else [])
      else
        Ok(KeepDirs(fs, fs.Glob(Join(directory, p))))
    case _ => Raise(TypeError)
  }

  /** Every entry of a member list is a string. */
  predicate AllStrings(entries: seq<Value>) {
    forall i | 0 <= i < |entries| :: entries[i].Str?
  }

  lemma AllStringsCons(entries: seq<Value>)
    requires entries != []
    ensures AllStrings(entries) <==> entries[0].Str? && AllStrings(entries[1..])
  {
    if entries[0].Str? && AllStrings(entries[1..]) {
      forall i | 1 <= i < |entries| ensures entries[i].Str? {
        assert entries[i] == entries[1..][i - 1];
      }
    }
  }

  /** The directories a whole member list contributes, in pattern order. */
  function ExpandPatterns(fs: FileSystem, directory: string, patterns: seq<Value>): (r: Py<seq<string>>)
    ensures r.Ok? <==> AllStrings(patterns)
    ensures r.Ok? ==> forall d {:trigger d in r.value} :: d in r.value ==> fs.IsDir(d)
  {
    if patterns == [] then Ok([])
    else
      AllStringsCons(patterns);
      match PatternDirs(fs, directory, patterns[0])
      case Raise(e) => Raise(e)
      case Ok(first) => Prepend(first, ExpandPatterns(fs, directory, patterns[1..]))
  }

  /** Every directory found comes from some pattern: the literal path it
      names, or one of its glob matches. */
  lemma {:induction false} ExpandPatternsSound(fs: FileSystem, directory: string, patterns: seq<Value>, d: string)
    requires ExpandPatterns(fs, directory, patterns).Ok?
    requires d in ExpandPatterns(fs, directory, patterns).value
    ensures exists i | 0 <= i < |patterns| :: patterns[i].Str? && Candidate(fs, directory, patterns[i].s, d)
  {
    AllStringsCons(patterns);
    var first := PatternDirs(fs, directory, patterns[0]).value;
    if d in first {
      assert Candidate(fs, directory, patterns[0].s, d);
    } else {
      var tail := patterns[1..];
      ExpandPatternsSound(fs, directory, tail, d);
      var i :| 0 <= i < |tail| && tail[i].Str? && Candidate(fs, directory, tail[i].s, d);
      assert patterns[i + 1] == tail[i];
    }
  }

  /** Every existing directory a pattern names is found. */
  lemma {:induction false} ExpandPatternsComplete(fs: FileSystem, directory: string, patterns: seq<Value>, i: int, d: string)
    requires ExpandPatterns(fs, directory, patterns).Ok?
    requires 0 <= i < |patterns| && patterns[i].Str?
    requires fs.IsDir(d) && Candidate(fs, directory, patterns[i].s, d)
    ensures d in ExpandPatterns(fs, directory, patterns).value
  {
    AllStringsCons(patterns);
    if i > 0 {
      assert patterns[1..][i - 1] == patterns[i];
      ExpandPatternsComplete(fs, directory, patterns[1..], i - 1, d);
    }
  }

  /** One step of the expansion: the first pattern's directories, then the rest's. */
  lemma ExpandPatternsUnfold(fs: FileSystem, directory: string, patterns: seq<Value>)
    requires patterns != [] && patterns[0].Str?
    ensures ExpandPatterns(fs, directory, patterns)
         == Prepend(PatternDirs(fs, directory, patterns[0]).value, ExpandPatterns(fs, directory, patterns[1..]))
  {
  }

  lemma ConcatEmpty<T>(xs: seq<T>)
    ensures xs + [] == xs
  {
  }

  lemma TailOfAppend<T>(xs: seq<T>, ys: seq<T>)
    requires xs != []
    ensures (xs + ys)[1..] == xs[1..] + ys
  {
  }

  /** The first step of expanding `ps + qs`. */
  lemma ExpandPatternsUnfoldAppend(fs: FileSystem, directory: string, ps: seq<Value>, qs: seq<Value>)
    requires ps != [] && ps[0].Str?
    ensures ExpandPatterns(fs, directory, ps + qs)
         == Prepend(PatternDirs(fs, directory, ps[0]).value, ExpandPatterns(fs, directory, ps[1..] + qs))
  {
    assert (ps + qs)[0] == ps[0];
    TailOfAppend(ps, qs);
    ExpandPatternsUnfold(fs, directory, ps + qs);
  }

  /** Results come in pattern order: the directories of the earlier
      patterns, then those of the later ones. */
  lemma {:induction false} ExpandPatternsAppend(fs: FileSystem, directory: string, ps: seq<Value>, qs: seq<Value>)
    requires ExpandPatterns(fs, directory, ps).Ok? && ExpandPatterns(fs, directory, qs).Ok?
    ensures ExpandPatterns(fs, directory, ps + qs)
         == Ok(ExpandPatterns(fs, directory, ps).value + ExpandPatterns(fs, directory, qs).value)
  {
    var restQ := ExpandPatterns(fs, directory, qs);
    if ps == [] {
      assert ps + qs == qs;
      PrependNothing(restQ);
    } else {
      AllStringsCons(ps);
      var first := PatternDirs(fs, directory, ps[0]).value;
      var restP := ExpandPatterns(fs, directory, ps[1..]).value;
      ExpandPatternsAppend(fs, directory, ps[1..], qs);
      assert ExpandPatterns(fs, directory, ps + qs) == Ok(first + (restP + restQ.value)) by {
        ExpandPatternsUnfoldAppend(fs, directory, ps, qs);
      }
      assert ExpandPatterns(fs, directory, ps).value == first + restP by {
        ExpandPatternsUnfold(fs, directory, ps);
      }
      assert Prepend(first, Prepend(restP, restQ)) == Prepend(first + restP, restQ) by {
        PrependAssoc(first, restP, restQ);
      }
    }
  }

  /** One iteration of the pattern loop over the patterns not yet visited:
      the directories so far, then either the exception a non-string
      pattern raises or that pattern's directories followed by the rest's. */
  lemma {:induction false} ExpandPatternsStep(fs: FileSystem, directory: string, rest: seq<Value>, acc: seq<string>)
    requires rest != []
    ensures !rest[0].Str? ==> Prepend(acc, ExpandPatterns(fs, directory, rest)) == Raise(TypeError)
    ensures rest[0].Str? ==>
              Prepend(acc, ExpandPatterns(fs, directory, rest)) ==
              Prepend(acc + PatternDirs(fs, directory, rest[0]).value, ExpandPatterns(fs, directory, rest[1..]))
  {
    if rest[0].Str? {
      ExpandPatternsUnfold(fs, directory, rest);
      PrependAssoc(acc, PatternDirs(fs, directory, rest[0]).value, ExpandPatterns(fs, directory, rest[1..]));
    }
  }

  /** `ExpandPatternsStep` with the accumulator after the iteration given
      explicitly, as the loop computes it. */
  lemma {:induction false} ExpandPatternsStepTo(fs: FileSystem, directory: string, rest: seq<Value>, acc: seq<string>, next: seq<string>)
    requires rest != [] && rest[0].Str?
    requires !IsGlob(rest[0].s) ==>
               next == if fs.IsDir(Join(directory, rest[0].s)) then acc + [Join(directory, rest[0].s)] else acc
    requires IsGlob(rest[0].s) ==> next == acc + KeepDirs(fs, fs.Glob(Join(directory, rest[0].s)))
    ensures Prepend(acc, ExpandPatterns(fs, directory, rest)) == Prepend(next, ExpandPatterns(fs, directory, rest[1..]))
  {
    ExpandPatternsStep(fs, directory, rest, acc);
    if !IsGlob(rest[0].s) && !fs.IsDir(Join(directory, rest[0].s)) {
      ConcatEmpty(acc);
    }
  }

  /** The loop the pnpm and npm probes share: each literal pattern adds its
      path if it is a directory, each glob pattern adds its matching
      directories. `rest` holds the patterns the `for` loop has yet to visit. */
  method CollectPatternDirs(fs: FileSystem, directory: string, patterns: seq<Value>) returns (r: Py<seq<string>>)
    ensures r == ExpandPatterns(fs, directory, patterns)
  {
    var packageDirs: seq<string> := [];
    var rest := patterns;
    PrependNothing(ExpandPatterns(fs, directory, patterns));
    while rest != []
      invariant ExpandPatterns(fs, directory, patterns) == Prepend(packageDirs, ExpandPatterns(fs, directory, rest))
      decreases |rest|
    {
      if !rest[0].Str? {
        ExpandPatternsStep(fs, directory, rest, packageDirs);
        return Raise(TypeError);
      }
      ghost var before := packageDirs;
      var pattern := rest[0].s;
      if !IsGlob(pattern) {
        var packageDir := Join(directory, pattern);
        if fs.IsDir(packageDir) {
          packageDirs := packageDirs + [packageDir];
        }
      } else {
        var matchingDirs := KeepDirs(fs, fs.Glob(Join(directory, pattern)));
        packageDirs := packageDirs + matchingDirs;
      }
      ExpandPatternsStepTo(fs, directory, rest, before, packageDirs);
      rest := rest[1..];
    }
    PrependAll(packageDirs);
    return Ok(packageDirs);
  }

  /** `package_dirs if package_dirs else None`, or None once anything raised. */
  function NonEmptyOrNone(r: Py<seq<string>>): (o: Option<seq<string>>)
    ensures o.Some? <==> r.Ok? && r.value != []
    ensures o.Some? ==> o.value == r.value
  {
    match r
    case Ok(dirs) => if dirs != [] then Some(dirs) else None
    case Raise(_) => None
  }

  /* ---------- The three probes ---------- */

  /** The top-level entry `key` of the manifest `file`: present when `file`
      is a file that parses to a mapping with that key. */
  function ManifestEntry(fs: FileSystem, file: string, key: string): (r: Option<Value>)
    ensures r.Some? <==> fs.IsFile(file) && fs.Load(file).Parsed? && fs.Load(file).value.Object?
                         && HasKey(fs.Load(file).value.fields, key)
    ensures r.Some? ==> (key, r.value) in fs.Load(file).value.fields
  {
    if fs.IsFile(file) && fs.Load(file).Parsed? && fs.Load(file).value.Object? then
      Lookup(fs.Load(file).value.fields, key)
    else None
  }

  /** pnpm: the `packages` list of pnpm-workspace.yaml. */
  function PnpmWorkspaceDirs(fs: FileSystem, directory: string): (r: Option<seq<string>>)
    ensures r.Some? ==> r.value != [] && forall d {:trigger d in r.value} :: d in r.value ==> fs.IsDir(d)
    ensures !fs.IsFile(Join(directory, PnpmWorkspaceYaml)) ==> r.None?
    ensures fs.Load(Join(directory, PnpmWorkspaceYaml)).Unreadable? ==> r.None?
    ensures ManifestEntry(fs, Join(directory, PnpmWorkspaceYaml), "packages").None? ==> r.None?
    ensures var packages := ManifestEntry(fs, Join(directory, PnpmWorkspaceYaml), "packages");
            packages.Some? && Iterate(packages.value).Raise? ==> r.None?
    ensures var packages := ManifestEntry(fs, Join(directory, PnpmWorkspaceYaml), "packages");
            packages.Some? && Iterate(packages.value).Ok? ==>
              r == NonEmptyOrNone(ExpandPatterns(fs, directory, Iterate(packages.value).value))
  {
    var file := Join(directory, PnpmWorkspaceYaml);
    if !fs.IsFile(file) then None
    else
      match fs.Load(file)
      case Unreadable => None
      case Parsed(config) =>
        match Field(config, "packages")
        case None => None
        case Some(packages) =>
          match Iterate(packages)
          case Raise(_) => None
          case Ok(patterns) => NonEmptyOrNone(ExpandPatterns(fs, directory, patterns))
  }

  /** A pnpm workspace whose `packages` is a list finds exactly the existing
      directories that its patterns name, literally or by glob. */
  lemma PnpmWorkspaceFindsNamedDirs(fs: FileSystem, directory: string, ps: seq<Value>, d: string)
    requires ManifestEntry(fs, Join(directory, PnpmWorkspaceYaml), "packages") == Some(List(ps))
    requires PnpmWorkspaceDirs(fs, directory).Some?
    ensures d in PnpmWorkspaceDirs(fs, directory).value <==>
              fs.IsDir(d) && exists i | 0 <= i < |ps| :: ps[i].Str? && Candidate(fs, directory, ps[i].s, d)
  {
    var found := ExpandPatterns(fs, directory, ps);
    assert found.Ok? && PnpmWorkspaceDirs(fs, directory).value == found.value;
    if d in found.value {
      ExpandPatternsSound(fs, directory, ps, d);
    }
    if fs.IsDir(d) && exists i | 0 <= i < |ps| :: ps[i].Str? && Candidate(fs, directory, ps[i].s, d) {
      var i :| 0 <= i < |ps| && ps[i].Str? && Candidate(fs, directory, ps[i].s, d);
      ExpandPatternsComplete(fs, directory, ps, i, d);
    }
  }

  /** The two shapes npm accepts for `workspaces`: a list of patterns, or a
      mapping whose `packages` holds them. */
  function WorkspacePatterns(workspaces: Value): (r: Option<Value>)
    ensures r.Some? <==> workspaces.List? || (workspaces.Object? && HasKey(workspaces.fields, "packages"))
    ensures workspaces.List? ==> r == Some(workspaces)
    ensures workspaces.Object? && HasKey(workspaces.fields, "packages") ==> r == Lookup(workspaces.fields, "packages")
  {
    if workspaces.List? then Some(workspaces)
    else if workspaces.Object? && HasKey(workspaces.fields, "packages") then Lookup(workspaces.fields, "packages")
    else None
  }

  /** npm: the `workspaces` entry of package.json. */
  function NpmWorkspaceDirs(fs: FileSystem, directory: string): (r: Option<seq<string>>)
    ensures r.Some? ==> r.value != [] && forall d {:trigger d in r.value} :: d in r.value ==> fs.IsDir(d)
    ensures !fs.IsFile(Join(directory, PackageJson)) ==> r.None?
    ensures fs.Load(Join(directory, PackageJson)).Unreadable? ==> r.None?
    ensures ManifestEntry(fs, Join(directory, PackageJson), "workspaces").None? ==> r.None?
    ensures var workspaces := ManifestEntry(fs, Join(directory, PackageJson), "workspaces");
            workspaces.Some? && WorkspacePatterns(workspaces.value).None? ==> r.None?
    ensures var workspaces := ManifestEntry(fs, Join(directory, PackageJson), "workspaces");
            workspaces.Some? && WorkspacePatterns(workspaces.value).Some? &&
            Iterate(WorkspacePatterns(workspaces.value).value).Raise? ==>
              r.None?
    ensures var workspaces := ManifestEntry(fs, Join(directory, PackageJson), "workspaces");
            workspaces.Some? && WorkspacePatterns(workspaces.value).Some? &&
            Iterate(WorkspacePatterns(workspaces.value).value).Ok? ==>
              r == NonEmptyOrNone(ExpandPatterns(fs, directory, Iterate(WorkspacePatterns(workspaces.value).value).value))
  {
    var file := Join(directory, PackageJson);
    if !fs.IsFile(file) then None
    else
      match fs.Load(file)
      case Unreadable => None
      case Parsed(packageData) =>
        match Field(packageData, "workspaces")
        case None => None
        case Some(workspaces) =>
          match WorkspacePatterns(workspaces)
          case None => None
          case Some(patternList) =>
            match Iterate(patternList)
            case Raise(_) => None
            case Ok(patterns) => NonEmptyOrNone(ExpandPatterns(fs, directory, patterns))
  }

  /** The directories of Cargo workspace members: each member joined
      literally, with no glob expansion, and kept if it is a directory. */
  function MemberDir(fs: FileSystem, directory: string, member: Value): (r: Py<seq<string>>)
    ensures r.Ok? <==> member.Str?
    ensures r.Ok? ==> forall d {:trigger d in r.value} :: d in r.value <==> d == Join(directory, member.s) && fs.IsDir(d)
    ensures member.Str? ==>
              r.value == if fs.IsDir(Join(directory, member.s)) then [Join(directory, member.s)] else []
  {
    match member
    case Str(m) =>
      var packageDir := Join(directory, m);
      Ok(if fs.IsDir(packageDir) then [packageDir] else [])
    case _ => Raise(TypeError)
  }

  function MemberDirs(fs: FileSystem, directory: string, members: seq<Value>): (r: Py<seq<string>>)
    ensures r.Ok? <==> AllStrings(members)
    ensures r.Ok? ==> forall d {:trigger d in r.value} :: d in r.value ==> fs.IsDir(d)
  {
    if members == [] then Ok([])
    else
      AllStringsCons(members);
      match MemberDir(fs, directory, members[0])
      case Raise(e) => Raise(e)
      case Ok(first) => Prepend(first, MemberDirs(fs, directory, members[1..]))
  }

  /** One step of the Cargo expansion: the first member's directory, then the rest's. */
  lemma MemberDirsUnfold(fs: FileSystem, directory: string, members: seq<Value>)
    requires members != [] && members[0].Str?
    ensures MemberDirs(fs, directory, members)
         == Prepend(MemberDir(fs, directory, members[0]).value, MemberDirs(fs, directory, members[1..]))
  {
  }

  /** The first step of expanding `ms + ns`. */
  lemma MemberDirsUnfoldAppend(fs: FileSystem, directory: string, ms: seq<Value>, ns: seq<Value>)
    requires ms != [] && ms[0].Str?
    ensures MemberDirs(fs, directory, ms + ns)
         == Prepend(MemberDir(fs, directory, ms[0]).value, MemberDirs(fs, directory, ms[1..] + ns))
  {
    assert (ms + ns)[0] == ms[0];
    TailOfAppend(ms, ns);
    MemberDirsUnfold(fs, directory, ms + ns);
  }

  /** Cargo directories come in member order: those of the earlier members,
      then those of the later ones. */
  lemma {:induction false} MemberDirsAppend(fs: FileSystem, directory: string, ms: seq<Value>, ns: seq<Value>)
    requires MemberDirs(fs, directory, ms).Ok? && MemberDirs(fs, directory, ns).Ok?
    ensures MemberDirs(fs, directory, ms + ns)
         == Ok(MemberDirs(fs, directory, ms).value + MemberDirs(fs, directory, ns).value)
  {
    var restN := MemberDirs(fs, directory, ns);
    if ms == [] {
      assert ms + ns == ns;
      PrependNothing(restN);
    } else {
      AllStringsCons(ms);
      var first := MemberDir(fs, directory, ms[0]).value;
      var restM := MemberDirs(fs, directory, ms[1..]).value;
      MemberDirsAppend(fs, directory, ms[1..], ns);
      assert MemberDirs(fs, directory, ms + ns) == Ok(first + (restM + restN.value)) by {
        MemberDirsUnfoldAppend(fs, directory, ms, ns);
      }
      assert MemberDirs(fs, directory, ms).value == first + restM by {
        MemberDirsUnfold(fs, directory, ms);
      }
      assert Prepend(first, Prepend(restM, restN)) == Prepend(first + restM, restN) by {
        PrependAssoc(first, restM, restN);
      }
    }
  }

  /** Each Cargo member found is the literal join of some member entry. */
  lemma {:induction false} MemberDirsLiteral(fs: FileSystem, directory: string, members: seq<Value>, d: string)
    requires MemberDirs(fs, directory, members).Ok?
    requires d in MemberDirs(fs, directory, members).value
    ensures exists i | 0 <= i < |members| :: members[i].Str? && d == Join(directory, members[i].s)
  {
    AllStringsCons(members);
    var first := MemberDir(fs, directory, members[0]).value;
    var tail := members[1..];
    assert MemberDirs(fs, directory, members).value == first + MemberDirs(fs, directory, tail).value by {
      MemberDirsUnfold(fs, directory, members);
    }
    if d in first {
      assert d == Join(directory, members[0].s);
    } else {
      MemberDirsLiteral(fs, directory, tail, d);
      var i :| 0 <= i < |tail| && tail[i].Str? && d == Join(directory, tail[i].s);
      assert members[i + 1] == tail[i];
    }
  }

  /** Each Cargo member entry whose joined path is a directory is found. */
  lemma {:induction false} MemberDirsComplete(fs: FileSystem, directory: string, members: seq<Value>, i: int)
    requires MemberDirs(fs, directory, members).Ok?
    requires 0 <= i < |members| && members[i].Str? && fs.IsDir(Join(directory, members[i].s))
    ensures Join(directory, members[i].s) in MemberDirs(fs, directory, members).value
  {
    AllStringsCons(members);
    if i > 0 {
      assert members[1..][i - 1] == members[i];
      MemberDirsComplete(fs, directory, members[1..], i - 1);
    }
  }

  /** Cargo: `workspace.members` of Cargo.toml. */
  function CargoWorkspaceDirs(fs: FileSystem, directory: string): (r: Option<seq<string>>)
    ensures r.Some? ==> r.value != [] && forall d {:trigger d in r.value} :: d in r.value ==> fs.IsDir(d)
    ensures !fs.IsFile(Join(directory, CargoToml)) ==> r.None?
    ensures fs.Load(Join(directory, CargoToml)).Unreadable? ==> r.None?
    ensures ManifestEntry(fs, Join(directory, CargoToml), "workspace").None? ==> r.None?
    ensures var workspace := ManifestEntry(fs, Join(directory, CargoToml), "workspace");
            workspace.Some? && !(workspace.value.Object? && HasKey(workspace.value.fields, "members")) ==> r.None?
    ensures var workspace := ManifestEntry(fs, Join(directory, CargoToml), "workspace");
            workspace.Some? && workspace.value.Object? && HasKey(workspace.value.fields, "members") &&
            Iterate(Lookup(workspace.value.fields, "members").value).Raise? ==>
              r.None?
    ensures var workspace := ManifestEntry(fs, Join(directory, CargoToml), "workspace");
            workspace.Some? && workspace.value.Object? && HasKey(workspace.value.fields, "members") &&
            Iterate(Lookup(workspace.value.fields, "members").value).Ok? ==>
              r == NonEmptyOrNone(MemberDirs(fs, directory, Iterate(Lookup(workspace.value.fields, "members").value).value))
  {
    var file := Join(directory, CargoToml);
    if !fs.IsFile(file) then None
    else
      match fs.Load(file)
      case Unreadable => None
      case Parsed(cargoData) =>
        match Field(cargoData, "workspace")
        case None => None
        case Some(workspace) =>
          match Member(workspace, "members")
          case None => None
          case Some(memberList) =>
            match Iterate(memberList)
            case Raise(_) => None
            case Ok(members) => NonEmptyOrNone(MemberDirs(fs, directory, members))
  }

  /** One iteration of the Cargo loop over the members not yet visited, as
      `ExpandPatternsStep` is for the pattern loop. */
  lemma {:induction false} MemberDirsStep(fs: FileSystem, directory: string, rest: seq<Value>, acc: seq<string>)
    requires rest != []
    ensures !rest[0].Str? ==> Prepend(acc, MemberDirs(fs, directory, rest)) == Raise(TypeError)
    ensures rest[0].Str? ==>
              Prepend(acc, MemberDirs(fs, directory, rest)) ==
              Prepend(acc + MemberDir(fs, directory, rest[0]).value, MemberDirs(fs, directory, rest[1..]))
  {
    if rest[0].Str? {
      MemberDirsUnfold(fs, directory, rest);
      PrependAssoc(acc, MemberDir(fs, directory, rest[0]).value, MemberDirs(fs, directory, rest[1..]));
    }
  }

  /** `MemberDirsStep` with the accumulator after the iteration given
      explicitly, as the loop computes it. */
  lemma {:induction false} MemberDirsStepTo(fs: FileSystem, directory: string, rest: seq<Value>, acc: seq<string>, next: seq<string>)
    requires rest != [] && rest[0].Str?
    requires next == if fs.IsDir(Join(directory, rest[0].s)) then acc + [Join(directory, rest[0].s)] else acc
    ensures Prepend(acc, MemberDirs(fs, directory, rest)) == Prepend(next, MemberDirs(fs, directory, rest[1..]))
  {
    MemberDirsStep(fs, directory, rest, acc);
    if !fs.IsDir(Join(directory, rest[0].s)) {
      ConcatEmpty(acc);
    }
  }

  /** The Cargo loop: each member joined to `directory` and kept if it is a
      directory. `rest` holds the members the `for` loop has yet to visit. */
  method CollectMemberDirs(fs: FileSystem, directory: string, members: seq<Value>) returns (r: Py<seq<string>>)
    ensures r == MemberDirs(fs, directory, members)
  {
    var packageDirs: seq<string> := [];
    var rest := members;
    PrependNothing(MemberDirs(fs, directory, members));
    while rest != []
      invariant MemberDirs(fs, directory, members) == Prepend(packageDirs, MemberDirs(fs, directory, rest))
      decreases |rest|
    {
      if !rest[0].Str? {
        MemberDirsStep(fs, directory, rest, packageDirs);
        return Raise(TypeError);
      }
      ghost var before := packageDirs;
      var packageDir := Join(directory, rest[0].s);
      if fs.IsDir(packageDir) {
        packageDirs := packageDirs + [packageDir];
      }
      MemberDirsStepTo(fs, directory, rest, before, packageDirs);
      rest := rest[1..];
    }
    PrependAll(packageDirs);
    return Ok(packageDirs);
  }

  method DetectPnpmWorkspace(fs: FileSystem, directory: string) returns (r: Option<seq<string>>)
    ensures r == PnpmWorkspaceDirs(fs, directory)
  {
    var file := Join(directory, PnpmWorkspaceYaml);
    if !fs.IsFile(file) {
      return None;
    }
    var doc := fs.Load(file);
    if doc.Unreadable? {
      return None;
    }
    var packages := Field(doc.value, "packages");
    if packages.None? {
      return None;
    }
    var patterns := Iterate(packages.value);
    if patterns.Raise? {
      return None;
    }
    var packageDirs := CollectPatternDirs(fs, directory, patterns.value);
    return NonEmptyOrNone(packageDirs);
  }

  method DetectNpmWorkspace(fs: FileSystem, directory: string) returns (r: Option<seq<string>>)
    ensures r == NpmWorkspaceDirs(fs, directory)
  {
    var file := Join(directory, PackageJson);
    if !fs.IsFile(file) {
      return None;
    }
    var doc := fs.Load(file);
    if doc.Unreadable? {
      return None;
    }
    var workspaces := Field(doc.value, "workspaces");
    if workspaces.None? {
      return None;
    }
    var patternList := WorkspacePatterns(workspaces.value);
    if patternList.None? {
      return None;
    }
    var patterns := Iterate(patternList.value);
    if patterns.Raise? {
      return None;
    }
    var packageDirs := CollectPatternDirs(fs, directory, patterns.value);
    return NonEmptyOrNone(packageDirs);
  }

  method DetectCargoWorkspace(fs: FileSystem, directory: string) returns (r: Option<seq<string>>)
    ensures r == CargoWorkspaceDirs(fs, directory)
  {
    var file := Join(directory, CargoToml);
    if !fs.IsFile(file) {
      return None;
    }
    var doc := fs.Load(file);
    if doc.Unreadable? {
      return None;
    }
    var workspace := Field(doc.value, "workspace");
    if workspace.None? {
      return None;
    }
    var memberList := Member(workspace.value, "members");
    if memberList.None? {
      return None;
    }
    var members := Iterate(memberList.value);
    if members.Raise? {
      return None;
    }
    var packageDirs := CollectMemberDirs(fs, directory, members.value);
    return NonEmptyOrNone(packageDirs);
  }

  /* ---------- detect_workspace ---------- */

  datatype Detector = PnpmDetector | NpmDetector | CargoDetector

  /** The probes, in the order they are tried. */
  const Detectors: seq<Detector> := [PnpmDetector, NpmDetector, CargoDetector]

  function Probe(detector: Detector, fs: FileSystem, directory: string): Option<seq<string>> {
    match detector
    case PnpmDetector => PnpmWorkspaceDirs(fs, directory)
    case NpmDetector => NpmWorkspaceDirs(fs, directory)
    case CargoDetector => CargoWorkspaceDirs(fs, directory)
  }

  /** The first of `detectors` whose probe finds a non-empty member list. */
  function FirstWorkspace(fs: FileSystem, directory: string, detectors: seq<Detector>): Option<seq<string>> {
    if detectors == [] then None
    else
      var packageDirs := Probe(detectors[0], fs, directory);
      if packageDirs.Some? && packageDirs.value != [] then packageDirs
      else FirstWorkspace(fs, directory, detectors[1..])
  }

  /** One probe of the search: a probe that finds a workspace ends it. */
  lemma FirstWorkspaceStep(fs: FileSystem, directory: string, detectors: seq<Detector>)
    requires detectors != []
    ensures FirstWorkspace(fs, directory, detectors)
         == if Probe(detectors[0], fs, directory).Some? then Probe(detectors[0], fs, directory)
            else FirstWorkspace(fs, directory, detectors[1..])
  {
    var p := Probe(detectors[0], fs, directory);
    assert p.Some? ==> p.value != [];
  }

  /** The member directories of the workspace rooted at `directory`, or None
      when it is not one. */
  function WorkspaceDirs(fs: FileSystem, directory: string): Option<seq<string>> {
    FirstWorkspace(fs, directory, Detectors)
  }

  /** pnpm wins over npm, npm over Cargo; None only when all three find
      nothing; a workspace always has members, all of them directories. */
  lemma WorkspacePrecedence(fs: FileSystem, directory: string)
    ensures WorkspaceDirs(fs, directory)
         == if PnpmWorkspaceDirs(fs, directory).Some? then PnpmWorkspaceDirs(fs, directory)
            else if NpmWorkspaceDirs(fs, directory).Some? then NpmWorkspaceDirs(fs, directory)
            else CargoWorkspaceDirs(fs, directory)
    ensures WorkspaceDirs(fs, directory).None?
        <==> PnpmWorkspaceDirs(fs, directory).None? && NpmWorkspaceDirs(fs, directory).None?
             && CargoWorkspaceDirs(fs, directory).None?
    ensures WorkspaceDirs(fs, directory).Some? ==>
              WorkspaceDirs(fs, directory).value != []
              && forall d {:trigger d in WorkspaceDirs(fs, directory).value} :: d in WorkspaceDirs(fs, directory).value ==> fs.IsDir(d)
  {
    var pnpm, npm, cargo := PnpmWorkspaceDirs(fs, directory), NpmWorkspaceDirs(fs, directory), CargoWorkspaceDirs(fs, directory);
    assert FirstWorkspace(fs, directory, [CargoDetector]) == cargo by {
      FirstWorkspaceStep(fs, directory, [CargoDetector]);
      assert [CargoDetector][1..] == [];
    }
    assert FirstWorkspace(fs, directory, [NpmDetector, CargoDetector]) == if npm.Some? then npm else cargo by {
      FirstWorkspaceStep(fs, directory, [NpmDetector, CargoDetector]);
      assert [NpmDetector, CargoDetector][1..] == [CargoDetector];
    }
    assert WorkspaceDirs(fs, directory) == if pnpm.Some? then pnpm else if npm.Some? then npm else cargo by {
      FirstWorkspaceStep(fs, directory, Detectors);
      assert Detectors[1..] == [NpmDetector, CargoDetector];
    }
  }

  method RunProbe(detector: Detector, fs: FileSystem, directory: string) returns (r: Option<seq<string>>)
    ensures r == Probe(detector, fs, directory)
  {
    match detector
    case PnpmDetector => r := DetectPnpmWorkspace(fs, directory);
    case NpmDetector => r := DetectNpmWorkspace(fs, directory);
    case CargoDetector => r := DetectCargoWorkspace(fs, directory);
  }

  /** Try each probe in order; return the first non-empty member list. */
  method DetectWorkspace(fs: FileSystem, directory: string) returns (r: Option<seq<string>>)
    ensures r == WorkspaceDirs(fs, directory)
  {
    var i := 0;
    while i < |Detectors|
      invariant 0 <= i <= |Detectors|
      invariant WorkspaceDirs(fs, directory) == FirstWorkspace(fs, directory, Detectors[i..])
    {
      assert Detectors[i..][1..] == Detectors[i + 1..];
      var packageDirs := RunProbe(Detectors[i], fs, directory);
      if packageDirs.Some? && packageDirs.value != [] {
        return packageDirs;
      }
      i := i + 1;
    }
    return None;
  }

  /* ---------- Dev script and package manager ---------- */

  /** `"dev" in scripts`, with an exception read as false: a key test for a
      `scripts` mapping, a search for "dev" in a `scripts` string or list,
      and false for any other value. */
  function DeclaresDev(scripts: Value): (r: bool)
    ensures scripts.Object? ==> (r <==> HasKey(scripts.fields, "dev"))
    ensures scripts.List? ==> (r <==> Str("dev") in scripts.items)
    ensures scripts.Str? ==> (r <==> IsSubstring("dev", scripts.s))
    ensures scripts.Null? || scripts.Num? || scripts.Bool? ==> !r
  {
    Contains(scripts, "dev") == Ok(true)
  }

  /** Does package.json in `packageDir` declare a `dev` script? True exactly
      when the file exists, parses to a mapping with a `scripts` entry, and
      that entry declares `dev`; an unreadable file counts as no. */
  function HasPackageJsonDevScript(fs: FileSystem, packageDir: string): (r: bool)
    ensures r <==>
      var file := Join(packageDir, PackageJson);
      && fs.IsFile(file)
      && fs.Load(file).Parsed?
      && fs.Load(file).value.Object?
      && Lookup(fs.Load(file).value.fields, "scripts").Some?
      && DeclaresDev(Lookup(fs.Load(file).value.fields, "scripts").value)
  {
    var file := Join(packageDir, PackageJson);
    if !fs.IsFile(file) then false
    else
      match fs.Load(file)
      case Unreadable => false
      case Parsed(packageData) =>
        Truthy(packageData)
        && match Member(packageData, "scripts")
           case None => false
           case Some(scripts) => DeclaresDev(scripts)
  }

  /** `has_cargo_toml`: Cargo.toml must be a regular file. */
  predicate HasCargoToml(fs: FileSystem, directory: string) {
    fs.IsFile(Join(directory, CargoToml))
  }

  datatype PackageManager = Pnpm | Yarn | Npm | Cargo | Unknown {
    /** The name the source returns, used to build `"<manager> dev"`. */
    function Name(): (s: string)
      ensures s in {"pnpm", "yarn", "npm", "cargo", "unknown"}
      ensures s == "npm" <==> this == Npm
    {
      match this
      case Pnpm => "pnpm"
      case Yarn => "yarn"
      case Npm => "npm"
      case Cargo => "cargo"
      case Unknown => "unknown"
    }
  }

  /** The package manager a directory's files point to. */
  function DetectPackageManager(fs: FileSystem, directory: string): (pm: PackageManager)
    ensures pm == Pnpm <==> fs.Exists(Join(directory, "pnpm-lock.yaml"))
    ensures pm == Yarn <==> !fs.Exists(Join(directory, "pnpm-lock.yaml")) && fs.Exists(Join(directory, "yarn.lock"))
    ensures pm == Cargo <==>
      && !fs.Exists(Join(directory, "pnpm-lock.yaml"))
      && !fs.Exists(Join(directory, "yarn.lock"))
      && !fs.Exists(Join(directory, "package-lock.json"))
      && (fs.Exists(Join(directory, "Cargo.lock")) || HasCargoToml(fs, directory))
    ensures pm == Npm <==>
      && !fs.Exists(Join(directory, "pnpm-lock.yaml"))
      && !fs.Exists(Join(directory, "yarn.lock"))
      && (fs.Exists(Join(directory, "package-lock.json"))
          || (!fs.Exists(Join(directory, "Cargo.lock")) && !HasCargoToml(fs, directory)
              && fs.Exists(Join(directory, PackageJson))))
    ensures pm == Unknown <==>
      && !fs.Exists(Join(directory, "pnpm-lock.yaml"))
      && !fs.Exists(Join(directory, "yarn.lock"))
      && !fs.Exists(Join(directory, "package-lock.json"))
      && !fs.Exists(Join(directory, "Cargo.lock"))
      && !HasCargoToml(fs, directory)
      && !fs.Exists(Join(directory, PackageJson))
  {
    if fs.Exists(Join(directory, "pnpm-lock.yaml")) then Pnpm
    else if fs.Exists(Join(directory, "yarn.lock")) then Yarn
    else if fs.Exists(Join(directory, "package-lock.json")) then Npm
    else if fs.Exists(Join(directory, "Cargo.lock")) || HasCargoToml(fs, directory) then Cargo
    else if fs.Exists(Join(directory, PackageJson)) then Npm
    else Unknown
  }
}
