/** The validation pass as it runs: one state object whose claims and `seen` set change during the recursion. */
module ConfigValidation {
  import opened Prelude
  import opened ConfigModel
  import opened ConfigMounts

  class ValidationState {
    var childPrefixes: set<string>
    var workspaces: set<string>
    var orchestrators: set<string>
    var seen: set<Path>
    const maxDepth: nat
    const maxChildren: nat

    ghost function Claimed(): Claims
      reads this
    {
      Claims(childPrefixes, workspaces, orchestrators)
    }

    constructor (maxDepth: nat, maxChildren: nat)
      ensures Claimed() == Claims({}, {}, {}) && seen == {}
      ensures this.maxDepth == maxDepth && this.maxChildren == maxChildren
    {
      childPrefixes, workspaces, orchestrators, seen := {}, {}, {}, {};
      this.maxDepth, this.maxChildren := maxDepth, maxChildren;
    }

    /** Records a configuration's own workspaces, unless one bears the name of an orchestrator. */
    method ClaimOwn(prefix: string, names: seq<string>) returns (error: Option<TreeError>)
      modifies this`workspaces
      ensures var r := ClaimWorkspaces(old(Claimed()), prefix, names);
              if r.Ok? then error == None && Claimed() == r.value else error == Some(r.error)
    {
      for i := 0 to |names|
        invariant ClaimWorkspaces(old(Claimed()), prefix, names) == ClaimWorkspaces(Claimed(), prefix, names[i..])
      {
        var merged := Qualify(prefix, names[i]);
        assert names[i..][1..] == names[i + 1..];
        if merged in orchestrators {
          return Some(ReservedNameForWorkspace(merged));
        }
        workspaces := workspaces + {merged};
      }
      return None;
    }

    /** Validates a configuration and everything below it; on success `seen` is as it was. */
    method ValidateRecursive(fs: Files, path: Path, prefix: string, depth: nat) returns (error: Option<TreeError>)
      modifies this
      ensures var r := Validate(fs, path, prefix, depth, old(seen), old(Claimed()), Caps(maxDepth, maxChildren));
              if r.Ok? then error == None && Claimed() == r.value && seen == old(seen) else error == Some(r.error)
      decreases fs.Keys - seen, 0
    {
      if path in seen {
        return Some(Cycle(path));
      }
      seen := seen + {path};
      if maxDepth != 0 && depth > maxDepth {
        return Some(DepthExceeded(depth, maxDepth));
      }
      var read := Read(fs, path);
      if read.Err? {
        return Some(read.error);
      }
      var cfg := read.value;
      if maxChildren != 0 && |cfg.children| > maxChildren {
        return Some(ChildrenExceeded(|cfg.children|, maxChildren));
      }
      error := ClaimOwn(prefix, SortedKeys(cfg.workspaces.Keys));
      if error.Some? {
        return;
      }
      error := ValidateChildren(fs, cfg, prefix, depth, SortedKeys(cfg.children.Keys));
      if error.None? {
        seen := seen - {path};
      }
    }

    method ValidateChildren(fs: Files, cfg: Config, prefix: string, depth: nat, names: seq<string>)
      returns (error: Option<TreeError>)
      requires forall x :: x in names ==> x in cfg.children
      modifies this
      ensures var r := ValidateKids(fs, cfg, prefix, depth, old(seen), old(Claimed()), Caps(maxDepth, maxChildren),
                                    names);
              if r.Ok? then error == None && Claimed() == r.value && seen == old(seen) else error == Some(r.error)
      decreases fs.Keys - seen, 1
    {
      assert names[0..] == names;
      for i := 0 to |names|
        invariant seen == old(seen)
        invariant ValidateKids(fs, cfg, prefix, depth, seen, old(Claimed()), Caps(maxDepth, maxChildren), names)
                  == ValidateKids(fs, cfg, prefix, depth, seen, Claimed(), Caps(maxDepth, maxChildren), names[i..])
      {
        var child := cfg.children[names[i]];
        assert names[i..][1..] == names[i + 1..];
        if child.path !in fs {
          continue;
        }
        var mounted := Qualify(prefix, Local(names[i], child));
        if mounted in childPrefixes {
          return Some(DuplicateChildPrefix(mounted));
        }
        if Session(mounted) in workspaces {
          return Some(ReservedNameForChild(Session(mounted)));
        }
        childPrefixes := childPrefixes + {mounted};
        orchestrators := orchestrators + {Session(mounted)};
        var inner := ValidateRecursive(fs, child.path, mounted, depth + 1);
        if inner.Some? {
          return Some(InChild(names[i], inner.value));
        }
      }
      return None;
    }
  }

  /** The pre-pass of both loads: it accepts exactly the well-formed trees. */
  method RunValidation(fs: Files, path: Path) returns (error: Option<TreeError>)
    ensures error.None? <==> WellFormed(fs, path)
    ensures error == match ValidateTree(fs, path) case Ok(_) => None case Err(e) => Some(e)
  {
    ValidateTreeExact(fs, path);
    var root := Read(fs, path);
    if root.Err? {
      return Some(root.error);
    }
    var state := new ValidationState(root.value.maxDepth, root.value.maxChildren);
    if !root.value.disableRoot {
      state.orchestrators := state.orchestrators + {Session("")};
    }
    assert state.Claimed() == RootClaims(root.value);
    error := state.ValidateRecursive(fs, path, "", 0);
  }
}
