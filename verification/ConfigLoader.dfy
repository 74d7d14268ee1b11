/**
  The recursive loaders as they run: loops over sorted names, with `seen` and the merged maps updated on the way.
  The loop over the children of a configuration is a method of its own.
 */
module ConfigLoader {
  import opened Prelude
  import opened ConfigModel

  /** Loads the hierarchy below a configuration; on success `seen` is as it was. */
  method LoadTreeRecursive(fs: Files, path: Path, prefix: string, before: set<Path>)
    returns (r: Result<Node>, seen: set<Path>)
    ensures r == LoadTree(fs, path, prefix, before)
    ensures r.Ok? ==> seen == before
    decreases fs.Keys - before, 0
  {
    seen := before;
    if path in seen {
      return Err(Cycle(path)), seen;
    }
    seen := seen + {path};
    var read := Read(fs, path);
    if read.Err? {
      return Err(read.error), seen;
    }
    var cfg := read.value;
    var refs := CollectRefs(cfg, prefix, SortedKeys(cfg.workspaces.Keys));
    var kids;
    kids, seen := LoadChildren(fs, cfg, prefix, SortedKeys(cfg.children.Keys), seen);
    if kids.Err? {
      return Err(kids.error), seen;
    }
    seen := seen - {path};
    return Ok(Node(cfg.project, "", "", prefix, path, prefix == "" && cfg.disableRoot, refs, kids.value)), seen;
  }

  method LoadChildren(fs: Files, cfg: Config, prefix: string, names: seq<string>, before: set<Path>)
    returns (r: Result<seq<Node>>, seen: set<Path>)
    requires forall x :: x in names ==> x in cfg.children
    ensures r == LoadKids(fs, cfg, prefix, before, names)
    ensures r.Ok? ==> seen == before
    decreases fs.Keys - before, 1
  {
    seen := before;
    var kids: seq<Node> := [];
    assert names[0..] == names;
    PrependNothing(LoadKids(fs, cfg, prefix, before, names));
    for i := 0 to |names|
      invariant seen == before
      invariant LoadKids(fs, cfg, prefix, before, names) == Prepend(kids, LoadKids(fs, cfg, prefix, before, names[i..]))
    {
      var child := cfg.children[names[i]];
      assert names[i..][1..] == names[i + 1..];
      if child.path !in fs {
        continue;
      }
      var local := Local(names[i], child);
      var loaded;
      loaded, seen := LoadTreeRecursive(fs, child.path, Qualify(prefix, local), seen);
      if loaded.Err? {
        return Err(InChild(names[i], loaded.error)), seen;
      }
      var kid := loaded.value.(alias := names[i], local := local);
      PrependOne(kids, kid, LoadKids(fs, cfg, prefix, before, names[i + 1..]));
      kids := kids + [kid];
    }
    assert kids + [] == kids;
    return Ok(kids), seen;
  }

  ghost function Prepend(done: seq<Node>, rest: Result<seq<Node>>): Result<seq<Node>> {
    if rest.Err? then rest else Ok(done + rest.value)
  }

  lemma PrependNothing(rest: Result<seq<Node>>)
    ensures Prepend([], rest) == rest
  {
    if rest.Ok? { assert [] + rest.value == rest.value; }
  }

  lemma PrependOne(done: seq<Node>, kid: Node, rest: Result<seq<Node>>)
    ensures Prepend(done, Prepend([kid], rest)) == Prepend(done + [kid], rest)
  {
    if rest.Ok? { assert done + ([kid] + rest.value) == done + [kid] + rest.value; }
  }

  /** A configuration's own workspaces, in the order of the names, with their merged names. */
  method CollectRefs(cfg: Config, prefix: string, names: seq<string>) returns (refs: seq<WorkspaceRef>)
    requires forall x :: x in names ==> x in cfg.workspaces
    ensures refs == Refs(cfg, prefix, names)
  {
    refs := [];
    for i := 0 to |names|
      invariant refs + Refs(cfg, prefix, names[i..]) == Refs(cfg, prefix, names)
    {
      var ref := WorkspaceRef(names[i], Qualify(prefix, names[i]), cfg.workspaces[names[i]]);
      assert names[i..][1..] == names[i + 1..];
      assert refs + ([ref] + Refs(cfg, prefix, names[i + 1..])) == refs + [ref] + Refs(cfg, prefix, names[i + 1..]);
      refs := refs + [ref];
    }
  }

  /** Loads a configuration with everything below it merged in; on success `seen` is as it was. */
  method LoadRecursive(fs: Files, path: Path, before: set<Path>) returns (r: Result<Flat>, seen: set<Path>)
    ensures r == LoadFlat(fs, path, before)
    ensures r.Ok? ==> seen == before
    decreases fs.Keys - before, 0
  {
    seen := before;
    if path in seen {
      return Err(Cycle(path)), seen;
    }
    seen := seen + {path};
    var read := Read(fs, path);
    if read.Err? {
      return Err(read.error), seen;
    }
    var cfg := read.value;
    r, seen := MergeChildren(fs, cfg, SortedKeys(cfg.children.Keys), seen);
    if r.Ok? {
      seen := seen - {path};
    }
  }

  method MergeChildren(fs: Files, cfg: Config, names: seq<string>, before: set<Path>)
    returns (r: Result<Flat>, seen: set<Path>)
    requires forall x :: x in names ==> x in cfg.children
    ensures r == MergeKids(fs, cfg, before, names, Flat(cfg.workspaces, cfg.providers))
    ensures r.Ok? ==> seen == before
    decreases fs.Keys - before, 1
  {
    seen := before;
    var merged := Flat(cfg.workspaces, cfg.providers);
    assert names[0..] == names;
    for i := 0 to |names|
      invariant seen == before
      invariant MergeKids(fs, cfg, before, names, Flat(cfg.workspaces, cfg.providers))
                == MergeKids(fs, cfg, before, names[i..], merged)
    {
      var child := cfg.children[names[i]];
      assert names[i..][1..] == names[i + 1..];
      if child.path !in fs {
        continue;
      }
      var loaded;
      loaded, seen := LoadRecursive(fs, child.path, seen);
      if loaded.Err? {
        return Err(InChild(names[i], loaded.error)), seen;
      }
      var childWorkspaces := loaded.value.workspaces;
      var providers := KeepFirst(merged.providers, loaded.value.providers, SortedKeys(loaded.value.providers.Keys));
      var workspaces := MergeInto(merged.workspaces, childWorkspaces, Local(names[i], child),
                                  SortedKeys(childWorkspaces.Keys));
      merged := Flat(workspaces, providers);
    }
    return Ok(merged), seen;
  }

  /** Inserts a child's providers, skipping names already taken. */
  method KeepFirst(into: map<string, Provider>, child: map<string, Provider>, names: seq<string>)
    returns (r: map<string, Provider>)
    requires forall x :: x in names <==> x in child
    ensures r == child + into
  {
    r := into;
    for i := 0 to |names|
      invariant forall k :: k in r <==> k in into || k in names[..i]
      invariant forall k :: k in r ==> r[k] == if k in into then into[k] else child[k]
    {
      assert names[..i + 1] == names[..i] + [names[i]];
      if names[i] !in r {
        r := r[names[i] := child[names[i]]];
      }
    }
    assert names[..|names|] == names;
  }

  /** Inserts a child's workspaces behind its prefix, skipping names already taken. */
  method MergeInto(into: map<string, Workspace>, child: map<string, Workspace>, prefix: string, names: seq<string>)
    returns (r: map<string, Workspace>)
    requires forall x :: x in names <==> x in child
    ensures r == Renamed(child, prefix) + into
  {
    r := into;
    ghost var done: map<string, Workspace> := map[];
    assert Renamed(map[], prefix) + into == into;
    for i := 0 to |names|
      invariant done.Keys == (set x | x in names[..i]) && forall x :: x in done ==> x in child && done[x] == child[x]
      invariant r == Renamed(done, prefix) + into
    {
      var merged := Qualify(prefix, names[i]);
      assert names[..i + 1] == names[..i] + [names[i]];
      InsertBehind(into, done, prefix, names[i], child[names[i]]);
      if merged !in r {
        r := r[merged := child[names[i]]];
      }
      done := done[names[i] := child[names[i]]];
    }
    assert names[..|names|] == names;
    assert done == child;
  }

  /** Inserting one more workspace unless its merged name is taken. */
  lemma InsertBehind(into: map<string, Workspace>, done: map<string, Workspace>, prefix: string, name: string,
                     ws: Workspace)
    requires name in done ==> done[name] == ws
    ensures var before, merged := Renamed(done, prefix) + into, Qualify(prefix, name);
            Renamed(done[name := ws], prefix) + into == if merged in before then before else before[merged := ws]
  {
    RenamedUpdate(done, prefix, name, ws);
    StripQualified(prefix, name);
    RenamedAt(done, prefix, Qualify(prefix, name));
  }
}
