/** The projects of a loaded tree are the mounts of the files, each once: validation stated over mounts. */
module ConfigMounts {
  import opened Prelude
  import opened ConfigModel
  import opened ConfigLaws

  /** A project of a loaded tree, by the entry names that lead to it. */
  datatype Site = Site(names: seq<string>, path: Path, prefix: string)

  function Sites(n: Node, at: seq<string>): seq<Site>
    decreases n, 1
  {
    [Site(at, n.path, n.prefix)] + KidSites(n.kids, at)
  }

  function KidSites(kids: seq<Node>, at: seq<string>): seq<Site>
    decreases kids, 0
  {
    if kids == [] then [] else Sites(kids[0], at + [kids[0].alias]) + KidSites(kids[1..], at)
  }

  /** The site is where the files lead along its names, starting from a configuration reached by `at`. */
  ghost predicate IsMount(fs: Files, path: Path, prefix: string, at: seq<string>, s: Site) {
    at <= s.names && Walk(fs, path, prefix, s.names[|at|..]) == Some(Spot(s.path, s.prefix))
  }

  /** The same, through one of the named entries of a configuration. */
  ghost predicate IsKidMount(fs: Files, path: Path, prefix: string, at: seq<string>, names: seq<string>, s: Site) {
    && at < s.names && s.names[|at|] in names && Entry(fs, path, s.names[|at|]).Some?
    && var child := Entry(fs, path, s.names[|at|]).value;
       IsMount(fs, child.path, Qualify(prefix, Local(s.names[|at|], child)), at + [s.names[|at|]], s)
  }

  lemma MountStep(fs: Files, path: Path, prefix: string, at: seq<string>, names: seq<string>, s: Site)
    requires path in fs && fs[path].Parsed? && forall x :: x in fs[path].config.children ==> x in names
    ensures IsMount(fs, path, prefix, at, s) <==>
              s == Site(at, path, prefix) || IsKidMount(fs, path, prefix, at, names, s)
  {
    if at == s.names {
      assert s.names[|at|..] == [];
    } else if at < s.names {
      var x := s.names[|at|];
      assert s.names[|at|..][0] == x && s.names[|at|..][1..] == s.names[|at + [x]|..];
      assert at + [x] <= s.names;
    }
  }

  /** The projects of a loaded tree are exactly the mounts below its root. */
  lemma {:induction false} SitesAreMounts(fs: Files, path: Path, prefix: string, seen: set<Path>, at: seq<string>,
                                          s: Site)
    requires path in fs && LoadTree(fs, path, prefix, seen).Ok?
    ensures s in Sites(LoadTree(fs, path, prefix, seen).value, at) <==> IsMount(fs, path, prefix, at, s)
    decreases fs.Keys - seen, 0
  {
    var cfg := fs[path].config;
    var names := SortedKeys(cfg.children.Keys);
    LiveNode(fs, path, prefix, seen);
    KidSitesAreMounts(fs, path, prefix, seen + {path}, names, at, s);
    MountStep(fs, path, prefix, at, names, s);
  }

  lemma {:induction false} KidSitesAreMounts(fs: Files, path: Path, prefix: string, seen: set<Path>, names: seq<string>,
                                             at: seq<string>, s: Site)
    requires path in fs && fs[path].Parsed? && (forall x :: x in names ==> x in fs[path].config.children)
    requires LoadKids(fs, fs[path].config, prefix, seen, names).Ok?
    ensures s in KidSites(LoadKids(fs, fs[path].config, prefix, seen, names).value, at) <==>
              IsKidMount(fs, path, prefix, at, names, s)
    decreases fs.Keys - seen, 1, |names|
  {
    var cfg := fs[path].config;
    if names != [] {
      var child := cfg.children[names[0]];
      KidSitesAreMounts(fs, path, prefix, seen, names[1..], at, s);
      assert forall x :: x in names <==> x == names[0] || x in names[1..];
      if child.path in fs {
        var mounted := Qualify(prefix, Local(names[0], child));
        FirstSites(fs, cfg, prefix, seen, names, at);
        SitesAreMounts(fs, child.path, mounted, seen, at + [names[0]], s);
      }
    }
  }

  /** The sites of a list of entries begin with those of its first live one. */
  lemma FirstSites(fs: Files, cfg: Config, prefix: string, seen: set<Path>, names: seq<string>, at: seq<string>)
    requires (forall x :: x in names ==> x in cfg.children) && names != [] && cfg.children[names[0]].path in fs
    requires LoadKids(fs, cfg, prefix, seen, names).Ok?
    ensures var mounted := Qualify(prefix, Local(names[0], cfg.children[names[0]]));
            var tree, rest := LoadTree(fs, cfg.children[names[0]].path, mounted, seen),
                              LoadKids(fs, cfg, prefix, seen, names[1..]);
            && tree.Ok? && rest.Ok?
            && KidSites(LoadKids(fs, cfg, prefix, seen, names).value, at)
               == Sites(tree.value, at + [names[0]]) + KidSites(rest.value, at)
  {
    LiveKid(fs, cfg, prefix, seen, names);
    var kids := LoadKids(fs, cfg, prefix, seen, names).value;
    assert kids[1..] == LoadKids(fs, cfg, prefix, seen, names[1..]).value;
  }

  // ---------- each mount once ----------

  ghost predicate Apart(sites: seq<Site>) {
    forall i, j :: 0 <= i < j < |sites| ==> sites[i].names != sites[j].names
  }

  lemma ApartJoin(a: seq<Site>, b: seq<Site>)
    requires Apart(a) && Apart(b) && forall s, t :: s in a && t in b ==> s.names != t.names
    ensures Apart(a + b)
  {
    forall i, j | 0 <= i < j < |a + b| ensures (a + b)[i].names != (a + b)[j].names {
      if i < |a| <= j { assert a[i] in a && b[j - |a|] in b; }
    }
  }

  lemma {:induction false} SitesApart(fs: Files, path: Path, prefix: string, seen: set<Path>, at: seq<string>)
    requires path in fs && LoadTree(fs, path, prefix, seen).Ok?
    ensures Apart(Sites(LoadTree(fs, path, prefix, seen).value, at))
    decreases fs.Keys - seen, 0
  {
    var tree := LoadTree(fs, path, prefix, seen).value;
    var names := SortedKeys(fs[path].config.children.Keys);
    LiveNode(fs, path, prefix, seen);
    KidSitesApart(fs, path, prefix, seen + {path}, names, at);
    forall t | t in KidSites(tree.kids, at) ensures t.names != at {
      KidSitesAreMounts(fs, path, prefix, seen + {path}, names, at, t);
    }
    ApartJoin([Site(at, tree.path, tree.prefix)], KidSites(tree.kids, at));
  }

  lemma {:induction false} KidSitesApart(fs: Files, path: Path, prefix: string, seen: set<Path>, names: seq<string>,
                                         at: seq<string>)
    requires path in fs && fs[path].Parsed? && (forall x :: x in names ==> x in fs[path].config.children)
    requires LoadKids(fs, fs[path].config, prefix, seen, names).Ok? && Distinct(names)
    ensures Apart(KidSites(LoadKids(fs, fs[path].config, prefix, seen, names).value, at))
    decreases fs.Keys - seen, 1, |names|
  {
    if names != [] {
      var cfg := fs[path].config;
      var child := cfg.children[names[0]];
      KidSitesApart(fs, path, prefix, seen, names[1..], at);
      if child.path in fs {
        var mounted := Qualify(prefix, Local(names[0], child));
        FirstSites(fs, cfg, prefix, seen, names, at);
        SitesApart(fs, child.path, mounted, seen, at + [names[0]]);
        var first, rest := Sites(LoadTree(fs, child.path, mounted, seen).value, at + [names[0]]),
                           KidSites(LoadKids(fs, cfg, prefix, seen, names[1..]).value, at);
        forall s, t | s in first && t in rest ensures s.names != t.names {
          SitesAreMounts(fs, child.path, mounted, seen, at + [names[0]], s);
          KidSitesAreMounts(fs, path, prefix, seen, names[1..], at, t);
          assert s.names[|at|] == names[0] && names[0] !in names[1..];
        }
        ApartJoin(first, rest);
      }
    }
  }

  // ---------- what the tree claims, over sites ----------

  function PrefixesOf(sites: seq<Site>): seq<string> {
    seq(|sites|, i requires 0 <= i < |sites| => sites[i].prefix)
  }

  lemma {:induction false} NodePrefixes(n: Node, at: seq<string>)
    ensures NodeBatch(n).prefixes == PrefixesOf(KidSites(n.kids, at))
    decreases n, 1
  {
    KidsPrefixes(n.kids, at);
  }

  lemma {:induction false} KidsPrefixes(kids: seq<Node>, at: seq<string>)
    ensures KidsBatch(kids).prefixes == PrefixesOf(KidSites(kids, at))
    decreases kids, 0
  {
    if kids != [] {
      var here := at + [kids[0].alias];
      NodePrefixes(kids[0], here);
      KidsPrefixes(kids[1..], at);
      assert PrefixesOf(Sites(kids[0], here)) == [kids[0].prefix] + PrefixesOf(KidSites(kids[0].kids, here));
    }
  }

  lemma {:induction false} CapsOverSites(fs: Files, n: Node, at: seq<string>, caps: Caps)
    ensures InCaps(fs, n, |at|, caps) <==> forall s :: s in Sites(n, at) ==> NodeInCaps(fs, s.path, |s.names|, caps)
    decreases n, 1
  {
    KidsCapsOverSites(fs, n.kids, at, caps);
    var here := Site(at, n.path, n.prefix);
    assert here in Sites(n, at);
    assert forall s :: s in Sites(n, at) <==> s == here || s in KidSites(n.kids, at);
  }

  lemma {:induction false} KidsCapsOverSites(fs: Files, kids: seq<Node>, at: seq<string>, caps: Caps)
    ensures KidsInCaps(fs, kids, |at| + 1, caps) <==> forall s :: s in KidSites(kids, at) ==>
              NodeInCaps(fs, s.path, |s.names|, caps)
    decreases kids, 0
  {
    if kids != [] {
      var first := Sites(kids[0], at + [kids[0].alias]);
      CapsOverSites(fs, kids[0], at + [kids[0].alias], caps);
      KidsCapsOverSites(fs, kids[1..], at, caps);
      assert forall s :: s in KidSites(kids, at) <==> s in first || s in KidSites(kids[1..], at);
    }
  }

  /** The workspace names of a configuration, as the whole tree knows them. */
  function NamesAt(fs: Files, path: Path, prefix: string): set<string> {
    if path in fs && fs[path].Parsed? then set x | x in fs[path].config.workspaces :: Qualify(prefix, x) else {}
  }

  lemma {:induction false} NamesOverSites(fs: Files, path: Path, prefix: string, seen: set<Path>, at: seq<string>,
                                          w: string)
    requires path in fs && LoadTree(fs, path, prefix, seen).Ok?
    ensures var tree := LoadTree(fs, path, prefix, seen).value;
            w in NodeBatch(tree).names <==> exists s :: s in Sites(tree, at) && w in NamesAt(fs, s.path, s.prefix)
    decreases fs.Keys - seen, 0
  {
    var cfg := fs[path].config;
    var tree := LoadTree(fs, path, prefix, seen).value;
    var names := SortedKeys(cfg.workspaces.Keys);
    LiveNode(fs, path, prefix, seen);
    RefsName(cfg, prefix, names);
    assert Own(tree) == NamesAt(fs, path, prefix);
    KidNamesOverSites(fs, path, prefix, seen + {path}, SortedKeys(cfg.children.Keys), at, w);
    var here := Site(at, path, prefix);
    assert here in Sites(tree, at);
    assert forall s :: s in Sites(tree, at) <==> s == here || s in KidSites(tree.kids, at);
  }

  lemma {:induction false} KidNamesOverSites(fs: Files, path: Path, prefix: string, seen: set<Path>, names: seq<string>,
                                             at: seq<string>, w: string)
    requires path in fs && fs[path].Parsed? && (forall x :: x in names ==> x in fs[path].config.children)
    requires LoadKids(fs, fs[path].config, prefix, seen, names).Ok?
    ensures var kids := LoadKids(fs, fs[path].config, prefix, seen, names).value;
            w in KidsBatch(kids).names <==> exists s :: s in KidSites(kids, at) && w in NamesAt(fs, s.path, s.prefix)
    decreases fs.Keys - seen, 1, |names|
  {
    if names != [] {
      var cfg := fs[path].config;
      var child := cfg.children[names[0]];
      KidNamesOverSites(fs, path, prefix, seen, names[1..], at, w);
      if child.path in fs {
        var mounted := Qualify(prefix, Local(names[0], child));
        LiveKid(fs, cfg, prefix, seen, names);
        FirstSites(fs, cfg, prefix, seen, names, at);
        NamesOverSites(fs, child.path, mounted, seen, at + [names[0]], w);
        FirstNames(LoadTree(fs, child.path, mounted, seen).value, names[0], Local(names[0], child),
                   LoadKids(fs, cfg, prefix, seen, names[1..]).value);
      }
    }
  }

  lemma FirstNames(tree: Node, alias: string, local: string, rest: seq<Node>)
    ensures KidsBatch([tree.(alias := alias, local := local)] + rest).names
            == NodeBatch(tree).names + KidsBatch(rest).names
  {
    var kid := tree.(alias := alias, local := local);
    assert ([kid] + rest)[1..] == rest;
    assert NodeBatch(kid) == NodeBatch(tree);
  }

  // ---------- validation over mounts ----------

  /** Every file along every chain of live entries is readable, and no chain comes back to a file it went through. */
  ghost predicate Grounded(fs: Files, root: Path) {
    root in fs && AllSane(fs, root, {})
  }

  ghost predicate KeepsCaps(fs: Files, root: Path, caps: Caps) {
    forall m :: Walk(fs, root, "", m).Some? ==> NodeInCaps(fs, Walk(fs, root, "", m).value.path, |m|, caps)
  }

  /** Two different mounts below the root never have the same fully qualified prefix. */
  ghost predicate PrefixesDiffer(fs: Files, root: Path) {
    forall a, b :: a != [] && b != [] && a != b && Walk(fs, root, "", a).Some? && Walk(fs, root, "", b).Some? ==>
      Walk(fs, root, "", a).value.prefix != Walk(fs, root, "", b).value.prefix
  }

  /** The mount has a workspace of that merged name. */
  ghost predicate NamedAt(fs: Files, root: Path, m: seq<string>, w: string) {
    var spot := Walk(fs, root, "", m);
    spot.Some? && w in NamesAt(fs, spot.value.path, spot.value.prefix)
  }

  /** No workspace anywhere has the name of an orchestrator session; the root's session counts unless disabled. */
  ghost predicate SessionsFree(fs: Files, root: Path, disableRoot: bool) {
    forall m, o :: Walk(fs, root, "", o).Some? && (o != [] || !disableRoot) ==>
      !NamedAt(fs, root, m, Session(Walk(fs, root, "", o).value.prefix))
  }

  ghost predicate WellFormed(fs: Files, root: Path) {
    && Grounded(fs, root) && fs[root].Parsed?
    && var cfg := fs[root].config;
       && KeepsCaps(fs, root, Caps(cfg.maxDepth, cfg.maxChildren))
       && PrefixesDiffer(fs, root)
       && SessionsFree(fs, root, cfg.disableRoot)
  }

  /** A site of the whole tree and the chain that leads to it are the same thing. */
  lemma SiteOf(fs: Files, root: Path, m: seq<string>)
    requires root in fs && LoadTree(fs, root, "", {}).Ok?
    ensures var sites := Sites(LoadTree(fs, root, "", {}).value, []);
            && (forall i :: 0 <= i < |sites| ==>
                  Walk(fs, root, "", sites[i].names) == Some(Spot(sites[i].path, sites[i].prefix)))
            && (Walk(fs, root, "", m).Some? ==>
                  Site(m, Walk(fs, root, "", m).value.path, Walk(fs, root, "", m).value.prefix) in sites)
  {
    var sites := Sites(LoadTree(fs, root, "", {}).value, []);
    forall i | 0 <= i < |sites|
      ensures Walk(fs, root, "", sites[i].names) == Some(Spot(sites[i].path, sites[i].prefix))
    {
      SitesAreMounts(fs, root, "", {}, [], sites[i]);
      assert sites[i].names[0..] == sites[i].names;
    }
    if Walk(fs, root, "", m).Some? {
      SitesAreMounts(fs, root, "", {}, [],
                     Site(m, Walk(fs, root, "", m).value.path, Walk(fs, root, "", m).value.prefix));
      assert m[0..] == m;
    }
  }

  lemma CapsIff(fs: Files, root: Path, caps: Caps)
    requires root in fs && LoadTree(fs, root, "", {}).Ok?
    ensures InCaps(fs, LoadTree(fs, root, "", {}).value, 0, caps) <==> KeepsCaps(fs, root, caps)
  {
    var tree := LoadTree(fs, root, "", {}).value;
    CapsOverSites(fs, tree, [], caps);
    SiteOf(fs, root, []);
    if InCaps(fs, tree, 0, caps) {
      forall m | Walk(fs, root, "", m).Some? ensures NodeInCaps(fs, Walk(fs, root, "", m).value.path, |m|, caps) {
        SiteOf(fs, root, m);
      }
    }
  }

  /** The sites are the mounts below the root, each once. */
  ghost predicate ListsMounts(fs: Files, root: Path, sites: seq<Site>) {
    && Apart(sites)
    && (forall i :: 0 <= i < |sites| ==>
          sites[i].names != [] && Walk(fs, root, "", sites[i].names) == Some(Spot(sites[i].path, sites[i].prefix)))
    && (forall m :: m != [] && Walk(fs, root, "", m).Some? ==> exists i :: 0 <= i < |sites| && sites[i].names == m)
  }

  lemma BelowRoot(fs: Files, root: Path)
    requires root in fs && LoadTree(fs, root, "", {}).Ok?
    ensures var tree := LoadTree(fs, root, "", {}).value;
            var sites := KidSites(tree.kids, []);
            ListsMounts(fs, root, sites) && NodeBatch(tree).prefixes == PrefixesOf(sites)
  {
    var tree := LoadTree(fs, root, "", {}).value;
    var all, sites := Sites(tree, []), KidSites(tree.kids, []);
    SitesApart(fs, root, "", {}, []);
    NodePrefixes(tree, []);
    SiteOf(fs, root, []);
    assert all[1..] == sites;
    forall i | 0 <= i < |sites|
      ensures sites[i].names != [] && Walk(fs, root, "", sites[i].names) == Some(Spot(sites[i].path, sites[i].prefix))
    {
      assert all[0].names != all[i + 1].names && sites[i] == all[i + 1];
    }
    forall m | m != [] && Walk(fs, root, "", m).Some? ensures exists i :: 0 <= i < |sites| && sites[i].names == m {
      SiteOf(fs, root, m);
      var j :| 0 <= j < |all| && all[j].names == m;
      assert sites[j - 1] == all[j];
    }
  }

  lemma PrefixesIff(fs: Files, root: Path, sites: seq<Site>)
    requires ListsMounts(fs, root, sites)
    ensures Distinct(PrefixesOf(sites)) <==> PrefixesDiffer(fs, root)
  {
    if Distinct(PrefixesOf(sites)) {
      forall a, b | a != [] && b != [] && a != b && Walk(fs, root, "", a).Some? && Walk(fs, root, "", b).Some?
        ensures Walk(fs, root, "", a).value.prefix != Walk(fs, root, "", b).value.prefix
      {
        var i :| 0 <= i < |sites| && sites[i].names == a;
        var j :| 0 <= j < |sites| && sites[j].names == b;
        assert PrefixesOf(sites)[i] != PrefixesOf(sites)[j];
      }
    }
    if PrefixesDiffer(fs, root) {
      forall i, j | 0 <= i < j < |sites| ensures PrefixesOf(sites)[i] != PrefixesOf(sites)[j] {
        assert sites[i].names != sites[j].names;
      }
    }
  }

  ghost predicate OrchestratorAt(fs: Files, root: Path, disableRoot: bool, o: seq<string>, x: string) {
    Walk(fs, root, "", o).Some? && (o != [] || !disableRoot) && x == Session(Walk(fs, root, "", o).value.prefix)
  }

  /** The orchestrator sessions of the tree: those of its mounts, the root's unless it is disabled. */
  lemma SessionsOverMounts(fs: Files, root: Path, sites: seq<Site>, disableRoot: bool, x: string)
    requires ListsMounts(fs, root, sites)
    ensures x in RootSessions(disableRoot) + Sessions(PrefixesOf(sites))
            <==> exists o :: OrchestratorAt(fs, root, disableRoot, o, x)
  {
    if x in RootSessions(disableRoot) { assert OrchestratorAt(fs, root, disableRoot, [], x); }
    if x in Sessions(PrefixesOf(sites)) {
      var i :| 0 <= i < |sites| && x == Session(sites[i].prefix);
      assert OrchestratorAt(fs, root, disableRoot, sites[i].names, x);
    }
    if o :| OrchestratorAt(fs, root, disableRoot, o, x) {
      if o != [] {
        var i :| 0 <= i < |sites| && sites[i].names == o;
        assert PrefixesOf(sites)[i] in PrefixesOf(sites);
      }
    }
  }

  lemma NamesOverMounts(fs: Files, root: Path, w: string)
    requires root in fs && LoadTree(fs, root, "", {}).Ok?
    ensures w in NodeBatch(LoadTree(fs, root, "", {}).value).names
            <==> exists m :: NamedAt(fs, root, m, w)
  {
    var tree := LoadTree(fs, root, "", {}).value;
    NamesOverSites(fs, root, "", {}, [], w);
    SiteOf(fs, root, []);
    if m :| NamedAt(fs, root, m, w) {
      SiteOf(fs, root, m);
    }
    if s :| s in Sites(tree, []) && w in NamesAt(fs, s.path, s.prefix) {
      assert Walk(fs, root, "", s.names) == Some(Spot(s.path, s.prefix));
      assert NamedAt(fs, root, s.names, w);
    }
  }

  lemma SessionsIff(fs: Files, root: Path, disableRoot: bool)
    requires root in fs && LoadTree(fs, root, "", {}).Ok?
    ensures var b := NodeBatch(LoadTree(fs, root, "", {}).value);
            b.names !! (RootSessions(disableRoot) + Sessions(b.prefixes)) <==> SessionsFree(fs, root, disableRoot)
  {
    var tree := LoadTree(fs, root, "", {}).value;
    var b := NodeBatch(tree);
    BelowRoot(fs, root);
    var sessions := RootSessions(disableRoot) + Sessions(b.prefixes);
    if b.names !! sessions {
      forall m, o | Walk(fs, root, "", o).Some? && (o != [] || !disableRoot)
        ensures !NamedAt(fs, root, m, Session(Walk(fs, root, "", o).value.prefix))
      {
        var x := Session(Walk(fs, root, "", o).value.prefix);
        assert OrchestratorAt(fs, root, disableRoot, o, x);
        SessionsOverMounts(fs, root, KidSites(tree.kids, []), disableRoot, x);
        NamesOverMounts(fs, root, x);
      }
    }
    if SessionsFree(fs, root, disableRoot) {
      forall x | x in b.names ensures x !in sessions {
        SessionsOverMounts(fs, root, KidSites(tree.kids, []), disableRoot, x);
        NamesOverMounts(fs, root, x);
      }
    }
  }

  /**
    Validation accepts a project tree exactly when every reachable file is readable, no file is its own ancestor,
    the root's caps on depth and entries hold everywhere, fully qualified prefixes are pairwise distinct, and no
    workspace bears the name of an orchestrator session.
   */
  lemma ValidateTreeExact(fs: Files, root: Path)
    ensures ValidateTree(fs, root).Ok? <==> WellFormed(fs, root)
  {
    if root in fs && fs[root].Parsed? {
      var cfg := fs[root].config;
      var caps := Caps(cfg.maxDepth, cfg.maxChildren);
      LoadsIff(fs, root, "", {});
      ValidateIff(fs, root, "", 0, {}, RootClaims(cfg), caps);
      if LoadTree(fs, root, "", {}).Ok? {
        CapsIff(fs, root, caps);
        BelowRoot(fs, root);
        PrefixesIff(fs, root, KidSites(LoadTree(fs, root, "", {}).value.kids, []));
        SessionsIff(fs, root, cfg.disableRoot);
      }
    }
  }
}
