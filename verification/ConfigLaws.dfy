/**
  What validation accepts, said without its traversal: conditions on the mounts of a project tree, a mount being
  a chain of entry names that leads from the root through live child entries.
 */
module ConfigLaws {
  import opened Prelude
  import opened ConfigModel

  // ---------- mounts ----------

  datatype Spot = Spot(path: Path, prefix: string)

  /** The child entry of a configuration, if the file is readable, has the entry, and the entry is not stale. */
  function Entry(fs: Files, path: Path, name: string): Option<Child> {
    if path in fs && fs[path].Parsed? && name in fs[path].config.children && fs[path].config.children[name].path in fs
    then Some(fs[path].config.children[name]) else None
  }

  /** Follows entry names down from a configuration. */
  function Walk(fs: Files, path: Path, prefix: string, names: seq<string>): Option<Spot>
    decreases |names|
  {
    if names == [] then Some(Spot(path, prefix)) else
      var entry := Entry(fs, path, names[0]);
      if entry.None? then None
      else Walk(fs, entry.value.path, Qualify(prefix, Local(names[0], entry.value)), names[1..])
  }

  lemma {:induction false} WalkPathOnly(fs: Files, path: Path, p: string, q: string, names: seq<string>)
    ensures Walk(fs, path, p, names).Some? == Walk(fs, path, q, names).Some?
    ensures Walk(fs, path, p, names).Some? ==>
              Walk(fs, path, p, names).value.path == Walk(fs, path, q, names).value.path
    decreases |names|
  {
    if names != [] {
      var entry := Entry(fs, path, names[0]);
      if entry.Some? {
        var l := Local(names[0], entry.value);
        WalkPathOnly(fs, entry.value.path, Qualify(p, l), Qualify(q, l), names[1..]);
      }
    }
  }

  // ---------- loading ----------

  /** Where the chain leads, the file is readable, not among `seen`, and not met earlier on the chain. */
  ghost predicate Sane(fs: Files, path: Path, seen: set<Path>, names: seq<string>) {
    var spot := Walk(fs, path, "", names);
    spot.Some? ==>
      && spot.value.path in fs && fs[spot.value.path].Parsed?
      && spot.value.path !in seen
      && forall i :: 0 <= i < |names| ==> Walk(fs, path, "", names[..i]) != None
                                          && Walk(fs, path, "", names[..i]).value.path != spot.value.path
  }

  ghost predicate AllSane(fs: Files, path: Path, seen: set<Path>) {
    forall names :: Sane(fs, path, seen, names)
  }

  lemma {:induction false} PrefixWalks(fs: Files, path: Path, prefix: string, names: seq<string>, i: nat)
    requires Walk(fs, path, prefix, names).Some? && i <= |names|
    ensures Walk(fs, path, prefix, names[..i]).Some?
    decreases |names|
  {
    if i > 0 {
      var entry := Entry(fs, path, names[0]);
      PrefixWalks(fs, entry.value.path, Qualify(prefix, Local(names[0], entry.value)), names[1..], i - 1);
      assert names[..i][1..] == names[1..][..i - 1];
    }
  }

  /** One name further up, a chain is sane exactly when it is sane below and avoids the configuration above. */
  lemma SaneStep(fs: Files, path: Path, seen: set<Path>, name: string, rest: seq<string>)
    requires Entry(fs, path, name).Some?
    ensures Sane(fs, path, seen, [name] + rest) <==> Sane(fs, Entry(fs, path, name).value.path, seen + {path}, rest)
  {
    var entry := Entry(fs, path, name).value;
    var names := [name] + rest;
    var l := Local(name, entry);
    assert names[1..] == rest;
    WalkPathOnly(fs, entry.path, Qualify("", l), "", rest);
    if Walk(fs, path, "", names).Some? {
      forall i | 0 <= i < |names|
        ensures Walk(fs, path, "", names[..i]).Some?
        ensures i > 0 ==> Walk(fs, entry.path, "", rest[..i - 1]).Some?
                          && Walk(fs, path, "", names[..i]).value.path
                             == Walk(fs, entry.path, "", rest[..i - 1]).value.path
      {
        PrefixWalks(fs, path, "", names, i);
        if i > 0 {
          assert names[..i][1..] == rest[..i - 1];
          PrefixWalks(fs, entry.path, "", rest, i - 1);
          WalkPathOnly(fs, entry.path, Qualify("", l), "", rest[..i - 1]);
        }
      }
      assert Walk(fs, path, "", names[..0]).value.path == path;
      if Sane(fs, path, seen, names) {
        forall i | 0 <= i < |rest|
          ensures Walk(fs, entry.path, "", rest[..i]) != None
                  && Walk(fs, entry.path, "", rest[..i]).value.path != Walk(fs, entry.path, "", rest).value.path
        {
          var j := i + 1;
          assert rest[..i] == rest[..j - 1] && Walk(fs, path, "", names[..j]).Some?;
        }
      }
      if Sane(fs, entry.path, seen + {path}, rest) {
        forall i | 0 <= i < |names|
          ensures Walk(fs, path, "", names[..i]) != None
                  && Walk(fs, path, "", names[..i]).value.path != Walk(fs, path, "", names).value.path
        {
          if i > 0 { assert 0 <= i - 1 < |rest|; }
        }
      }
    }
  }

  /** Everything under the configuration is sane when it is itself, and everything under its live entries is. */
  lemma AllSaneStep(fs: Files, path: Path, seen: set<Path>)
    requires path in fs
    ensures AllSane(fs, path, seen) <==>
            && fs[path].Parsed? && path !in seen
            && forall name :: Entry(fs, path, name).Some? ==>
                 AllSane(fs, Entry(fs, path, name).value.path, seen + {path})
  {
    assert Sane(fs, path, seen, []) <==> fs[path].Parsed? && path !in seen;
    if AllSane(fs, path, seen) {
      forall name, rest | Entry(fs, path, name).Some?
        ensures Sane(fs, Entry(fs, path, name).value.path, seen + {path}, rest)
      {
        SaneStep(fs, path, seen, name, rest);
      }
    }
    if fs[path].Parsed? && path !in seen
       && forall name :: Entry(fs, path, name).Some? ==> AllSane(fs, Entry(fs, path, name).value.path, seen + {path})
    {
      forall names ensures Sane(fs, path, seen, names) {
        if names != [] && Entry(fs, path, names[0]).Some? {
          assert names == [names[0]] + names[1..];
          SaneStep(fs, path, seen, names[0], names[1..]);
        }
      }
    }
  }

  /** The tree loads exactly when every mount is readable and no chain comes back to a file it went through. */
  lemma {:induction false} LoadsIff(fs: Files, path: Path, prefix: string, seen: set<Path>)
    requires path in fs
    ensures LoadTree(fs, path, prefix, seen).Ok? <==> AllSane(fs, path, seen)
    decreases fs.Keys - seen, 0
  {
    AllSaneStep(fs, path, seen);
    if path !in seen && fs[path].Parsed? {
      var cfg := fs[path].config;
      KidsLoadIff(fs, path, prefix, seen + {path}, SortedKeys(cfg.children.Keys));
    }
  }

  lemma {:induction false} KidsLoadIff(fs: Files, path: Path, prefix: string, seen: set<Path>, names: seq<string>)
    requires path in fs && fs[path].Parsed? && forall x :: x in names ==> x in fs[path].config.children
    ensures LoadKids(fs, fs[path].config, prefix, seen, names).Ok? <==>
            forall x :: x in names && Entry(fs, path, x).Some? ==> AllSane(fs, Entry(fs, path, x).value.path, seen)
    decreases fs.Keys - seen, 1, |names|
  {
    if names != [] {
      KidsLoadIff(fs, path, prefix, seen, names[1..]);
      assert forall x :: x in names <==> x == names[0] || x in names[1..];
      var child := fs[path].config.children[names[0]];
      assert Entry(fs, path, names[0]) == if child.path in fs then Some(child) else None;
      if child.path in fs {
        LoadsIff(fs, child.path, Qualify(prefix, Local(names[0], child)), seen);
      }
    }
  }

  // ---------- claims ----------

  /** What a part of the tree claims: the prefixes of its mounts, in order, and its workspace names. */
  datatype Batch = Batch(prefixes: seq<string>, names: set<string>)

  function Sessions(prefixes: seq<string>): set<string> {
    set p | p in prefixes :: Session(p)
  }

  ghost predicate Distinct<T>(s: seq<T>) {
    forall i, j :: 0 <= i < j < |s| ==> s[i] != s[j]
  }

  /** The batch is free of conflicts in itself and with what is claimed already. */
  ghost predicate Fits(c: Claims, b: Batch) {
    && Distinct(b.prefixes)
    && (forall p :: p in b.prefixes ==> p !in c.prefixes)
    && b.names !! c.orchestrators
    && b.names !! Sessions(b.prefixes)
    && Sessions(b.prefixes) !! c.workspaces
  }

  ghost function Add(c: Claims, b: Batch): Claims {
    Claims(c.prefixes + (set p | p in b.prefixes), c.workspaces + b.names, c.orchestrators + Sessions(b.prefixes))
  }

  /** The claims after a batch, if it fits. */
  ghost function Claim(c: Claims, b: Batch): Option<Claims> {
    if Fits(c, b) then Some(Add(c, b)) else None
  }

  function Join(a: Batch, b: Batch): Batch {
    Batch(a.prefixes + b.prefixes, a.names + b.names)
  }

  lemma SessionsJoin(a: seq<string>, b: seq<string>)
    ensures Sessions(a + b) == Sessions(a) + Sessions(b)
  {
    forall x ensures x in Sessions(a + b) <==> x in Sessions(a) || x in Sessions(b) {
      if x in Sessions(a) { var p :| p in a && Session(p) == x; assert p in a + b; }
      if x in Sessions(b) { var p :| p in b && Session(p) == x; assert p in a + b; }
    }
  }

  lemma DistinctJoin<T>(a: seq<T>, b: seq<T>)
    ensures Distinct(a + b) <==> Distinct(a) && Distinct(b) && forall x :: x in a ==> x !in b
  {
    var s := a + b;
    if Distinct(s) {
      forall i, j | 0 <= i < j < |a| ensures a[i] != a[j] { assert s[i] != s[j]; }
      forall i, j | 0 <= i < j < |b| ensures b[i] != b[j] { assert s[|a| + i] != s[|a| + j]; }
      forall i, j | 0 <= i < |a| && 0 <= j < |b| ensures a[i] != b[j] { assert s[i] != s[|a| + j]; }
    } else if Distinct(a) && Distinct(b) && forall x :: x in a ==> x !in b {
      forall i, j | 0 <= i < j < |s| ensures s[i] != s[j] {
        if i < |a| <= j { assert a[i] in a && b[j - |a|] in b; }
      }
    }
  }

  /** Claiming two batches one after the other is claiming them together. */
  lemma FitsJoin(c: Claims, a: Batch, b: Batch)
    ensures Claim(c, Join(a, b)) == if Claim(c, a).None? then None else Claim(Claim(c, a).value, b)
  {
    SessionsJoin(a.prefixes, b.prefixes);
    DistinctJoin(a.prefixes, b.prefixes);
    assert forall p :: p in a.prefixes + b.prefixes <==> p in a.prefixes || p in b.prefixes;
    var both, twice := Add(c, Join(a, b)), Add(Add(c, a), b);
    assert both.prefixes == twice.prefixes && both.workspaces == twice.workspaces
           && both.orchestrators == twice.orchestrators;
  }

  function Own(n: Node): set<string> {
    set r | r in n.workspaces :: r.merged
  }

  function NodeBatch(n: Node): Batch
    decreases n, 1
  {
    Join(Batch([], Own(n)), KidsBatch(n.kids))
  }

  function KidsBatch(kids: seq<Node>): Batch
    decreases kids, 0
  {
    if kids == [] then Batch([], {})
    else Join(Join(Batch([kids[0].prefix], {}), NodeBatch(kids[0])), KidsBatch(kids[1..]))
  }

  function ToOption<T>(r: Result<T>): Option<T> {
    if r.Ok? then Some(r.value) else None
  }

  function Merged(prefix: string, names: seq<string>): set<string> {
    set x | x in names :: Qualify(prefix, x)
  }

  lemma {:induction false} ClaimWorkspacesIff(claims: Claims, prefix: string, names: seq<string>)
    ensures ToOption(ClaimWorkspaces(claims, prefix, names)) == Claim(claims, Batch([], Merged(prefix, names)))
    decreases |names|
  {
    if names == [] {
      assert Merged(prefix, names) == {};
      EmptyClaim(claims);
    } else {
      assert Sessions([]) == {};
      var merged := Qualify(prefix, names[0]);
      ClaimWorkspacesIff(claims.(workspaces := claims.workspaces + {merged}), prefix, names[1..]);
      assert forall x :: x in names <==> x == names[0] || x in names[1..];
      assert Merged(prefix, names) == {merged} + Merged(prefix, names[1..]);
      assert claims.workspaces + Merged(prefix, names) == claims.workspaces + {merged} + Merged(prefix, names[1..]);
    }
  }

  lemma {:induction false} RefsName(cfg: Config, prefix: string, names: seq<string>)
    requires forall x :: x in names ==> x in cfg.workspaces
    ensures (set r | r in Refs(cfg, prefix, names) :: r.merged) == Merged(prefix, names)
  {
    if names != [] {
      RefsName(cfg, prefix, names[1..]);
      var first := WorkspaceRef(names[0], Qualify(prefix, names[0]), cfg.workspaces[names[0]]);
      var rest := Refs(cfg, prefix, names[1..]);
      assert forall r :: r in [first] + rest <==> r == first || r in rest;
      assert (set r | r in [first] + rest :: r.merged) == {first.merged} + (set r | r in rest :: r.merged);
      assert forall x :: x in names <==> x == names[0] || x in names[1..];
      assert Merged(prefix, names) == {first.merged} + Merged(prefix, names[1..]);
    }
  }

  // ---------- validation over the loaded tree ----------

  predicate NodeInCaps(fs: Files, path: Path, depth: nat, caps: Caps) {
    && (caps.depth == 0 || depth <= caps.depth)
    && (path in fs && fs[path].Parsed? ==> caps.children == 0 || |fs[path].config.children| <= caps.children)
  }

  predicate InCaps(fs: Files, n: Node, depth: nat, caps: Caps)
    decreases n, 1
  {
    NodeInCaps(fs, n.path, depth, caps) && KidsInCaps(fs, n.kids, depth + 1, caps)
  }

  predicate KidsInCaps(fs: Files, kids: seq<Node>, depth: nat, caps: Caps)
    decreases kids, 0
  {
    kids == [] || (InCaps(fs, kids[0], depth, caps) && KidsInCaps(fs, kids[1..], depth, caps))
  }

  /** The claims after a loaded tree, if it keeps the caps and claims without conflict. */
  ghost function TreeClaim(fs: Files, tree: Option<Node>, depth: nat, caps: Caps, claims: Claims): Option<Claims> {
    if tree.Some? && InCaps(fs, tree.value, depth, caps) then Claim(claims, NodeBatch(tree.value)) else None
  }

  ghost function KidsClaim(fs: Files, kids: Option<seq<Node>>, depth: nat, caps: Caps, claims: Claims): Option<Claims> {
    if kids.Some? && KidsInCaps(fs, kids.value, depth, caps) then Claim(claims, KidsBatch(kids.value)) else None
  }

  lemma EmptyClaim(claims: Claims)
    ensures Claim(claims, Batch([], {})) == Some(claims)
  {
    assert Sessions([]) == {} && claims.orchestrators + {} == claims.orchestrators;
    assert claims.prefixes + (set p | p in []) == claims.prefixes && claims.workspaces + {} == claims.workspaces;
  }

  lemma ClaimChildIff(claims: Claims, prefix: string)
    ensures ToOption(ClaimChild(claims, prefix)) == Claim(claims, Batch([prefix], {}))
  {
    assert Sessions([prefix]) == {Session(prefix)};
    assert (set p | p in [prefix]) == {prefix} && claims.workspaces + {} == claims.workspaces;
  }

  lemma KidsJoin(claims: Claims, kid: Node, rest: seq<Node>)
    ensures Claim(claims, KidsBatch([kid] + rest)) ==
            var here := Claim(claims, Batch([kid.prefix], {}));
            if here.None? then None else
              var below := Claim(here.value, NodeBatch(kid));
              if below.None? then None else Claim(below.value, KidsBatch(rest))
  {
    assert ([kid] + rest)[1..] == rest;
    FitsJoin(claims, Batch([kid.prefix], {}), NodeBatch(kid));
    FitsJoin(claims, Join(Batch([kid.prefix], {}), NodeBatch(kid)), KidsBatch(rest));
  }

  /** The first project of a list claims its prefix, then what it holds, before the others claim. */
  lemma KidsClaimStep(fs: Files, tree: Option<Node>, rest: Option<seq<Node>>, alias: string, local: string, depth: nat,
                      caps: Caps, claims: Claims)
    requires tree.Some?
    ensures KidsClaim(fs, if rest.None? then None
                      else Some([tree.value.(alias := alias, local := local)] + rest.value), depth, caps, claims) ==
            var here := Claim(claims, Batch([tree.value.prefix], {}));
            if here.None? then None else
              var below := TreeClaim(fs, tree, depth, caps, here.value);
              if below.None? then None else KidsClaim(fs, rest, depth, caps, below.value)
  {
    if rest.Some? {
      var kid := tree.value.(alias := alias, local := local);
      assert ([kid] + rest.value)[1..] == rest.value;
      KidsJoin(claims, kid, rest.value);
      assert NodeBatch(kid) == NodeBatch(tree.value);
      assert InCaps(fs, kid, depth, caps) == InCaps(fs, tree.value, depth, caps);
    }
  }

  /** A project claims its own workspaces before its entries claim. */
  lemma NodeClaimStep(fs: Files, n: Node, depth: nat, caps: Caps, claims: Claims)
    ensures TreeClaim(fs, Some(n), depth, caps, claims) ==
            var here := Claim(claims, Batch([], Own(n)));
            if !NodeInCaps(fs, n.path, depth, caps) || here.None? then None
            else KidsClaim(fs, Some(n.kids), depth + 1, caps, here.value)
  {
    FitsJoin(claims, Batch([], Own(n)), KidsBatch(n.kids));
  }

  /** Validation accepts exactly the trees that load, keep the caps and claim without conflict. */
  lemma {:induction false} ValidateIff(fs: Files, path: Path, prefix: string, depth: nat, seen: set<Path>,
                                       claims: Claims, caps: Caps)
    ensures ToOption(Validate(fs, path, prefix, depth, seen, claims, caps))
            == TreeClaim(fs, ToOption(LoadTree(fs, path, prefix, seen)), depth, caps, claims)
    decreases fs.Keys - seen, 0
  {
    if path !in seen && path in fs && fs[path].Parsed? {
      var cfg := fs[path].config;
      var names, kidNames := SortedKeys(cfg.workspaces.Keys), SortedKeys(cfg.children.Keys);
      var kids := LoadKids(fs, cfg, prefix, seen + {path}, kidNames);
      var tree := LoadTree(fs, path, prefix, seen);
      LiveNode(fs, path, prefix, seen);
      LiveChecks(fs, path, prefix, depth, seen, claims, caps);
      ClaimWorkspacesIff(claims, prefix, names);
      var here := Claim(claims, Batch([], Merged(prefix, names)));
      if here.Some? { KidsValidateIff(fs, cfg, prefix, depth, seen + {path}, here.value, caps, kidNames); }
      if tree.Ok? {
        RefsName(cfg, prefix, names);
        NodeClaimStep(fs, tree.value, depth, caps, claims);
      }
    }
  }

  /** How a readable configuration is loaded before its entries. */
  lemma LiveNode(fs: Files, path: Path, prefix: string, seen: set<Path>)
    requires path !in seen && path in fs && fs[path].Parsed?
    ensures var cfg := fs[path].config;
            var kids := LoadKids(fs, cfg, prefix, seen + {path}, SortedKeys(cfg.children.Keys));
            var tree := LoadTree(fs, path, prefix, seen);
            && tree.Ok? == kids.Ok?
            && (tree.Ok? ==> tree.value.path == path && tree.value.prefix == prefix && tree.value.kids == kids.value
                             && tree.value.workspaces == Refs(cfg, prefix, SortedKeys(cfg.workspaces.Keys)))
  {}

  /** How a readable configuration is validated before its entries. */
  lemma LiveChecks(fs: Files, path: Path, prefix: string, depth: nat, seen: set<Path>, claims: Claims, caps: Caps)
    requires path !in seen && path in fs && fs[path].Parsed?
    ensures var cfg := fs[path].config;
            var own := ToOption(ClaimWorkspaces(claims, prefix, SortedKeys(cfg.workspaces.Keys)));
            ToOption(Validate(fs, path, prefix, depth, seen, claims, caps)) ==
            if !NodeInCaps(fs, path, depth, caps) || own.None? then None
            else ToOption(ValidateKids(fs, cfg, prefix, depth, seen + {path}, own.value, caps,
                                       SortedKeys(cfg.children.Keys)))
  {
    var cfg := fs[path].config;
    var kidNames := SortedKeys(cfg.children.Keys);
    var own := ClaimWorkspaces(claims, prefix, SortedKeys(cfg.workspaces.Keys));
    assert ToOption(Validate(fs, path, prefix, depth, seen, claims, caps)) ==
           if !NodeInCaps(fs, path, depth, caps) || own.Err? then None
           else ToOption(ValidateKids(fs, cfg, prefix, depth, seen + {path}, own.value, caps, kidNames));
  }

  /** How the first entry of a list, when it is live, is loaded before the others. */
  lemma LiveKid(fs: Files, cfg: Config, prefix: string, seen: set<Path>, names: seq<string>)
    requires (forall x :: x in names ==> x in cfg.children) && names != [] && cfg.children[names[0]].path in fs
    ensures var local := Local(names[0], cfg.children[names[0]]);
            var mounted := Qualify(prefix, local);
            var tree, rest := ToOption(LoadTree(fs, cfg.children[names[0]].path, mounted, seen)),
                              ToOption(LoadKids(fs, cfg, prefix, seen, names[1..]));
            && (tree.Some? ==> tree.value.prefix == mounted)
            && ToOption(LoadKids(fs, cfg, prefix, seen, names)) ==
               if tree.None? || rest.None? then None
                  else Some([tree.value.(alias := names[0], local := local)] + rest.value)
  {}

  /** How the first entry of a list, when it is live, is validated before the others. */
  lemma LiveKidChecks(fs: Files, cfg: Config, prefix: string, depth: nat, seen: set<Path>, claims: Claims, caps: Caps,
                      names: seq<string>)
    requires (forall x :: x in names ==> x in cfg.children) && names != [] && cfg.children[names[0]].path in fs
    ensures var mounted := Qualify(prefix, Local(names[0], cfg.children[names[0]]));
            var here := ToOption(ClaimChild(claims, mounted));
            ToOption(ValidateKids(fs, cfg, prefix, depth, seen, claims, caps, names)) ==
            if here.None? then None else
              var below := ToOption(Validate(fs, cfg.children[names[0]].path, mounted, depth + 1, seen, here.value,
                                             caps));
              if below.None? then None else ToOption(ValidateKids(fs, cfg, prefix, depth, seen, below.value, caps,
                                                                  names[1..]))
  {}

  lemma {:induction false} KidsValidateIff(fs: Files, cfg: Config, prefix: string, depth: nat, seen: set<Path>,
                                           claims: Claims, caps: Caps, names: seq<string>)
    requires forall x :: x in names ==> x in cfg.children
    ensures ToOption(ValidateKids(fs, cfg, prefix, depth, seen, claims, caps, names))
            == KidsClaim(fs, ToOption(LoadKids(fs, cfg, prefix, seen, names)), depth + 1, caps, claims)
    decreases fs.Keys - seen, 1, |names|
  {
    if names == [] {
      EmptyClaim(claims);
    } else if cfg.children[names[0]].path !in fs {
      KidsValidateIff(fs, cfg, prefix, depth, seen, claims, caps, names[1..]);
    } else {
      var child := cfg.children[names[0]];
      var mounted := Qualify(prefix, Local(names[0], child));
      LiveKid(fs, cfg, prefix, seen, names);
      LiveKidChecks(fs, cfg, prefix, depth, seen, claims, caps, names);
      ClaimChildIff(claims, mounted);
      var here := Claim(claims, Batch([mounted], {}));
      if here.Some? {
        ValidateIff(fs, child.path, mounted, depth + 1, seen, here.value, caps);
        var below := ToOption(Validate(fs, child.path, mounted, depth + 1, seen, here.value, caps));
        if below.Some? { KidsValidateIff(fs, cfg, prefix, depth, seen, below.value, caps, names[1..]); }
      }
      var tree, rest := ToOption(LoadTree(fs, child.path, mounted, seen)),
                        ToOption(LoadKids(fs, cfg, prefix, seen, names[1..]));
      if tree.Some? { KidsClaimStep(fs, tree, rest, names[0], Local(names[0], child), depth + 1, caps, claims); }
    }
  }
}
