/**
  A project tree of configuration files: reading it as a tree, reading it flat, and validating it beforehand.
  Files are given by a map from resolved path to content, so a child whose configuration path is not in the map
  is a stale reference.
 */
module ConfigModel {
  import opened Prelude

  type Path = string

  datatype Workspace = Workspace(dir: string, runtime: string, description: string, instructions: string)

  datatype Provider = Provider(runtime: string, model: string)

  /** A child entry, with the configuration path its directory resolves to. */
  datatype Child = Child(path: Path, prefix: string)

  datatype Config = Config(
    project: string, disableRoot: bool, maxDepth: nat, maxChildren: nat,
    workspaces: map<string, Workspace>, children: map<string, Child>, providers: map<string, Provider>)

  datatype File = Parsed(config: Config) | Broken

  type Files = map<Path, File>

  datatype TreeError =
    | Missing(path: Path)
    | Unreadable(path: Path)
    | Cycle(path: Path)
    | DuplicateChildPrefix(prefix: string)
    | ReservedNameForWorkspace(merged: string)
    | ReservedNameForChild(session: string)
    | DepthExceeded(depth: nat, cap: nat)
    | ChildrenExceeded(count: nat, cap: nat)
    | InChild(name: string, inner: TreeError)

  datatype Result<+T> = Ok(value: T) | Err(error: TreeError)

  // ---------- names ----------

  /** An entry without a prefix is mounted under its name. */
  function Local(name: string, child: Child): string {
    if child.prefix == "" then name else child.prefix
  }

  function Qualify(prefix: string, name: string): string {
    if prefix == "" then name else prefix + "." + name
  }

  function Session(prefix: string): string {
    if prefix == "" then "orchestrator" else prefix + ".orchestrator"
  }

  // ---------- reading one file ----------

  function Read(fs: Files, path: Path): Result<Config> {
    if path !in fs then Err(Missing(path))
    else if fs[path].Broken? then Err(Unreadable(path))
    else Ok(fs[path].config)
  }

  // ---------- the tree ----------

  datatype WorkspaceRef = WorkspaceRef(name: string, merged: string, workspace: Workspace)

  /** A loaded project: `alias` is its entry's name in the parent and `local` the prefix the entry mounts it under. */
  datatype Node = Node(
    project: string, alias: string, local: string, prefix: string, path: Path, disableRoot: bool,
    workspaces: seq<WorkspaceRef>, kids: seq<Node>)

  function Refs(cfg: Config, prefix: string, names: seq<string>): seq<WorkspaceRef>
    requires forall x :: x in names ==> x in cfg.workspaces
  {
    if names == [] then [] else
      [WorkspaceRef(names[0], Qualify(prefix, names[0]), cfg.workspaces[names[0]])] + Refs(cfg, prefix, names[1..])
  }

  function LoadTree(fs: Files, path: Path, prefix: string, seen: set<Path>): Result<Node>
    decreases fs.Keys - seen, 0
  {
    if path in seen then Err(Cycle(path)) else
      var read := Read(fs, path);
      if read.Err? then Err(read.error) else
        var cfg := read.value;
        var kids := LoadKids(fs, cfg, prefix, seen + {path}, SortedKeys(cfg.children.Keys));
        if kids.Err? then Err(kids.error) else
          Ok(Node(cfg.project, "", "", prefix, path, prefix == "" && cfg.disableRoot,
                  Refs(cfg, prefix, SortedKeys(cfg.workspaces.Keys)), kids.value))
  }

  function LoadKids(fs: Files, cfg: Config, prefix: string, seen: set<Path>, names: seq<string>): Result<seq<Node>>
    requires forall x :: x in names ==> x in cfg.children
    decreases fs.Keys - seen, 1, |names|
  {
    if names == [] then Ok([]) else
      var child := cfg.children[names[0]];
      var local := Local(names[0], child);
      if child.path !in fs then LoadKids(fs, cfg, prefix, seen, names[1..]) else
        var kid := LoadTree(fs, child.path, Qualify(prefix, local), seen);
        if kid.Err? then Err(InChild(names[0], kid.error)) else
          var rest := LoadKids(fs, cfg, prefix, seen, names[1..]);
          if rest.Err? then Err(rest.error) else
            Ok([kid.value.(alias := names[0], local := local)] + rest.value)
  }

  // ---------- the flat form ----------

  datatype Flat = Flat(workspaces: map<string, Workspace>, providers: map<string, Provider>)

  /** The name behind a prefix. */
  function Stripped(prefix: string, q: string): string {
    if prefix == "" then q else if |q| <= |prefix| then "" else q[|prefix| + 1..]
  }

  lemma StripQualified(prefix: string, name: string)
    ensures Stripped(prefix, Qualify(prefix, name)) == name
  {}

  /** Every name of the map behind a prefix. */
  function Renamed<V>(m: map<string, V>, prefix: string): map<string, V> {
    assert forall k :: k in m ==> Stripped(prefix, Qualify(prefix, k)) in m by {
      forall k | k in m ensures Stripped(prefix, Qualify(prefix, k)) == k { StripQualified(prefix, k); }
    }
    map k | k in m :: Qualify(prefix, k) := m[k]
  }

  lemma RenamedAt<V>(m: map<string, V>, prefix: string, q: string)
    ensures q in Renamed(m, prefix) <==> Stripped(prefix, q) in m && q == Qualify(prefix, Stripped(prefix, q))
    ensures q in Renamed(m, prefix) ==> Renamed(m, prefix)[q] == m[Stripped(prefix, q)]
  {
    if q in Renamed(m, prefix) {
      var k :| k in m && q == Qualify(prefix, k);
      StripQualified(prefix, k);
    }
  }

  lemma RenamedUpdate<V>(m: map<string, V>, prefix: string, k: string, v: V)
    ensures Renamed(m[k := v], prefix) == Renamed(m, prefix)[Qualify(prefix, k) := v]
  {
    StripQualified(prefix, k);
    forall q
      ensures q in Renamed(m[k := v], prefix) <==> q in Renamed(m, prefix) || q == Qualify(prefix, k)
      ensures q in Renamed(m[k := v], prefix) ==>
                Renamed(m[k := v], prefix)[q] == if q == Qualify(prefix, k) then v else Renamed(m, prefix)[q]
    {
      RenamedAt(m, prefix, q);
      RenamedAt(m[k := v], prefix, q);
    }
  }

  /** A child's workspaces come in behind its prefix and its providers as they are; what is there already stays. */
  function Merge(into: Flat, child: Flat, prefix: string): Flat {
    Flat(Renamed(child.workspaces, prefix) + into.workspaces, child.providers + into.providers)
  }

  function LoadFlat(fs: Files, path: Path, seen: set<Path>): Result<Flat>
    decreases fs.Keys - seen, 0
  {
    if path in seen then Err(Cycle(path)) else
      var read := Read(fs, path);
      if read.Err? then Err(read.error) else
        var cfg := read.value;
        MergeKids(fs, cfg, seen + {path}, SortedKeys(cfg.children.Keys), Flat(cfg.workspaces, cfg.providers))
  }

  function MergeKids(fs: Files, cfg: Config, seen: set<Path>, names: seq<string>, into: Flat): Result<Flat>
    requires forall x :: x in names ==> x in cfg.children
    decreases fs.Keys - seen, 1, |names|
  {
    if names == [] then Ok(into) else
      var child := cfg.children[names[0]];
      if child.path !in fs then MergeKids(fs, cfg, seen, names[1..], into) else
        var kid := LoadFlat(fs, child.path, seen);
        if kid.Err? then Err(InChild(names[0], kid.error)) else
          MergeKids(fs, cfg, seen, names[1..], Merge(into, kid.value, Local(names[0], child)))
  }

  // ---------- validation ----------

  /** What a validation has recorded so far: child prefixes, workspace names and orchestrator sessions. */
  datatype Claims = Claims(prefixes: set<string>, workspaces: set<string>, orchestrators: set<string>)

  /** The caps of the root configuration; zero means none. */
  datatype Caps = Caps(depth: nat, children: nat)

  function ClaimWorkspaces(claims: Claims, prefix: string, names: seq<string>): Result<Claims>
    decreases |names|
  {
    if names == [] then Ok(claims) else
      var merged := Qualify(prefix, names[0]);
      if merged in claims.orchestrators then Err(ReservedNameForWorkspace(merged))
      else ClaimWorkspaces(claims.(workspaces := claims.workspaces + {merged}), prefix, names[1..])
  }

  function ClaimChild(claims: Claims, prefix: string): Result<Claims> {
    if prefix in claims.prefixes then Err(DuplicateChildPrefix(prefix))
    else if Session(prefix) in claims.workspaces then Err(ReservedNameForChild(Session(prefix)))
    else Ok(claims.(prefixes := claims.prefixes + {prefix}, orchestrators := claims.orchestrators + {Session(prefix)}))
  }

  function Validate(fs: Files, path: Path, prefix: string, depth: nat, seen: set<Path>, claims: Claims,
                    caps: Caps): Result<Claims>
    decreases fs.Keys - seen, 0
  {
    if path in seen then Err(Cycle(path))
    else if caps.depth != 0 && depth > caps.depth then Err(DepthExceeded(depth, caps.depth)) else
      var read := Read(fs, path);
      if read.Err? then Err(read.error) else
        var cfg := read.value;
        if caps.children != 0 && |cfg.children| > caps.children
           then Err(ChildrenExceeded(|cfg.children|, caps.children)) else
          var own := ClaimWorkspaces(claims, prefix, SortedKeys(cfg.workspaces.Keys));
          if own.Err? then own else
            ValidateKids(fs, cfg, prefix, depth, seen + {path}, own.value, caps, SortedKeys(cfg.children.Keys))
  }

  function ValidateKids(fs: Files, cfg: Config, prefix: string, depth: nat, seen: set<Path>, claims: Claims, caps: Caps,
                        names: seq<string>): Result<Claims>
    requires forall x :: x in names ==> x in cfg.children
    decreases fs.Keys - seen, 1, |names|
  {
    if names == [] then Ok(claims) else
      var child := cfg.children[names[0]];
      if child.path !in fs then ValidateKids(fs, cfg, prefix, depth, seen, claims, caps, names[1..]) else
        var mounted := Qualify(prefix, Local(names[0], child));
        var claimed := ClaimChild(claims, mounted);
        if claimed.Err? then claimed else
          var kid := Validate(fs, child.path, mounted, depth + 1, seen, claimed.value, caps);
          if kid.Err? then Err(InChild(names[0], kid.error))
          else ValidateKids(fs, cfg, prefix, depth, seen, kid.value, caps, names[1..])
  }

  function RootSessions(disabled: bool): set<string> {
    if disabled then {} else {Session("")}
  }

  function RootClaims(cfg: Config): Claims {
    Claims({}, {}, RootSessions(cfg.disableRoot))
  }

  function ValidateTree(fs: Files, path: Path): Result<Claims> {
    var root := Read(fs, path);
    if root.Err? then Err(root.error)
    else Validate(fs, path, "", 0, {}, RootClaims(root.value), Caps(root.value.maxDepth, root.value.maxChildren))
  }
}
