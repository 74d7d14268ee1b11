/** The flat load against the tree load: the same failures, the same workspaces, the same winners among equal names. */
module ConfigFlat {
  import opened Prelude
  import opened ConfigModel
  import opened ConfigLaws

  // ---------- first come, first served ----------

  /** The map in which each name keeps its first entry. */
  function FirstMap<V>(l: seq<(string, V)>): map<string, V> {
    if l == [] then map[] else FirstMap(l[1..])[l[0].0 := l[0].1]
  }

  /** A name is in the map exactly when it is listed, with the value of its first listing. */
  lemma {:induction false} FirstMapMeaning<V>(l: seq<(string, V)>, k: string)
    ensures k in FirstMap(l) <==> exists i :: 0 <= i < |l| && l[i].0 == k
    ensures k in FirstMap(l) ==> exists i :: 0 <= i < |l| && l[i] == (k, FirstMap(l)[k]) && forall j :: 0 <= j < i ==>
              l[j].0 != k
  {
    if l != [] {
      FirstMapMeaning(l[1..], k);
      if l[0].0 == k {
        assert l[0] == (k, FirstMap(l)[k]);
      } else if k in FirstMap(l[1..]) {
        var i :| 0 <= i < |l[1..]| && l[1..][i] == (k, FirstMap(l)[k]) && forall j :: 0 <= j < i ==> l[1..][j].0 != k;
        assert l[i + 1] == (k, FirstMap(l)[k]);
        assert forall j :: 0 <= j < i + 1 ==> l[j].0 != k by {
          forall j | 0 <= j < i + 1 ensures l[j].0 != k { if j > 0 { assert l[1..][j - 1].0 != k; } }
        }
      } else {
        assert forall i :: 0 <= i < |l| ==> l[i].0 != k by {
          forall i | 0 <= i < |l| ensures l[i].0 != k { if i > 0 { assert l[1..][i - 1].0 != k; } }
        }
      }
    }
  }

  lemma {:induction false} FirstMapJoin<V>(a: seq<(string, V)>, b: seq<(string, V)>)
    ensures FirstMap(a + b) == FirstMap(b) + FirstMap(a)
  {
    if a == [] {
      assert a + b == b;
    } else {
      FirstMapJoin(a[1..], b);
      assert (a + b)[1..] == a[1..] + b;
    }
  }

  function RenameList<V>(l: seq<(string, V)>, prefix: string): seq<(string, V)> {
    seq(|l|, i requires 0 <= i < |l| => (Qualify(prefix, l[i].0), l[i].1))
  }

  lemma {:induction false} FirstMapRename<V>(l: seq<(string, V)>, prefix: string)
    ensures FirstMap(RenameList(l, prefix)) == Renamed(FirstMap(l), prefix)
  {
    if l != [] {
      FirstMapRename(l[1..], prefix);
      assert RenameList(l, prefix)[1..] == RenameList(l[1..], prefix);
      RenamedUpdate(FirstMap(l[1..]), prefix, l[0].0, l[0].1);
    }
  }

  function Pairs<V>(m: map<string, V>, names: seq<string>): seq<(string, V)>
    requires forall x :: x in names ==> x in m
  {
    seq(|names|, i requires 0 <= i < |names| => (names[i], m[names[i]]))
  }

  lemma PairsMap<V>(m: map<string, V>)
    ensures FirstMap(Pairs(m, SortedKeys(m.Keys))) == m
  {
    var names := SortedKeys(m.Keys);
    var l := Pairs(m, names);
    forall k ensures k in FirstMap(l) <==> k in m
             ensures k in m ==> FirstMap(l)[k] == m[k]
    {
      FirstMapMeaning(l, k);
      if k in m {
        assert k in names;
        var i :| 0 <= i < |names| && names[i] == k;
        assert l[i].0 == k;
      }
    }
  }

  // ---------- listings ----------

  /** Workspaces in pre-order, own before children, under the names the flat load builds from the bottom up. */
  function FlatList(n: Node): seq<(string, Workspace)>
    decreases n, 1
  {
    OwnList(n.workspaces) + KidFlatLists(n.kids)
  }

  function KidFlatLists(kids: seq<Node>): seq<(string, Workspace)>
    decreases kids, 0
  {
    if kids == [] then [] else RenameList(FlatList(kids[0]), kids[0].local) + KidFlatLists(kids[1..])
  }

  function OwnList(refs: seq<WorkspaceRef>): seq<(string, Workspace)> {
    seq(|refs|, i requires 0 <= i < |refs| => (refs[i].name, refs[i].workspace))
  }

  /** The same workspaces under the merged names the tree shows. */
  function TreeList(n: Node): seq<(string, Workspace)>
    decreases n, 1
  {
    MergedList(n.workspaces) + KidTreeLists(n.kids)
  }

  function KidTreeLists(kids: seq<Node>): seq<(string, Workspace)>
    decreases kids, 0
  {
    if kids == [] then [] else TreeList(kids[0]) + KidTreeLists(kids[1..])
  }

  function MergedList(refs: seq<WorkspaceRef>): seq<(string, Workspace)> {
    seq(|refs|, i requires 0 <= i < |refs| => (refs[i].merged, refs[i].workspace))
  }

  function ProviderList(fs: Files, n: Node): seq<(string, Provider)>
    decreases n, 1
  {
    OwnProviders(fs, n.path) + KidProviderLists(fs, n.kids)
  }

  function KidProviderLists(fs: Files, kids: seq<Node>): seq<(string, Provider)>
    decreases kids, 0
  {
    if kids == [] then [] else ProviderList(fs, kids[0]) + KidProviderLists(fs, kids[1..])
  }

  function OwnProviders(fs: Files, path: Path): seq<(string, Provider)> {
    if path in fs && fs[path].Parsed?
    then Pairs(fs[path].config.providers, SortedKeys(fs[path].config.providers.Keys)) else []
  }

  lemma {:induction false} RefsPairs(cfg: Config, prefix: string, names: seq<string>)
    requires forall x :: x in names ==> x in cfg.workspaces
    ensures OwnList(Refs(cfg, prefix, names)) == Pairs(cfg.workspaces, names)
    ensures forall r :: r in Refs(cfg, prefix, names) ==> r.merged == Qualify(prefix, r.name)
  {
    if names != [] {
      RefsPairs(cfg, prefix, names[1..]);
      var first, rest := Refs(cfg, prefix, names)[0], Refs(cfg, prefix, names[1..]);
      assert OwnList([first] + rest) == [(first.name, first.workspace)] + OwnList(rest);
      assert Pairs(cfg.workspaces, names) == [(names[0], cfg.workspaces[names[0]])] + Pairs(cfg.workspaces, names[1..]);
    }
  }

  // ---------- what the flat load computes ----------

  ghost predicate SameOutcome(flat: Result<Flat>, tree: Result<Node>, fs: Files) {
    && (flat.Err? <==> tree.Err?)
    && (flat.Err? ==> flat.error == tree.error)
    && (flat.Ok? ==> flat.value == Flat(FirstMap(FlatList(tree.value)), FirstMap(ProviderList(fs, tree.value))))
  }

  ghost predicate SameKids(flat: Result<Flat>, kids: Result<seq<Node>>, fs: Files, into: Flat) {
    && (flat.Err? <==> kids.Err?)
    && (flat.Err? ==> flat.error == kids.error)
    && (flat.Ok? ==> flat.value == Flat(FirstMap(KidFlatLists(kids.value)) + into.workspaces,
                                        FirstMap(KidProviderLists(fs, kids.value)) + into.providers))
  }

  /**
    The flat load fails exactly when the tree load does, with the same error; otherwise it holds, for every name,
    the first workspace listed under it in pre-order, and likewise for providers.
   */
  lemma {:induction false} FlatMeans(fs: Files, path: Path, prefix: string, seen: set<Path>)
    ensures SameOutcome(LoadFlat(fs, path, seen), LoadTree(fs, path, prefix, seen), fs)
    decreases fs.Keys - seen, 0
  {
    if path !in seen && path in fs && fs[path].Parsed? {
      var cfg := fs[path].config;
      var names, kidNames := SortedKeys(cfg.workspaces.Keys), SortedKeys(cfg.children.Keys);
      var into := Flat(cfg.workspaces, cfg.providers);
      var flat, tree := LoadFlat(fs, path, seen), LoadTree(fs, path, prefix, seen);
      var kids := LoadKids(fs, cfg, prefix, seen + {path}, kidNames);
      KidsFlatMean(fs, cfg, prefix, seen + {path}, kidNames, into);
      LiveNode(fs, path, prefix, seen);
      assert flat == MergeKids(fs, cfg, seen + {path}, kidNames, into);
      if tree.Ok? {
        RefsPairs(cfg, prefix, names);
        PairsMap(cfg.workspaces);
        PairsMap(cfg.providers);
        FirstMapJoin(OwnList(tree.value.workspaces), KidFlatLists(kids.value));
        FirstMapJoin(OwnProviders(fs, path), KidProviderLists(fs, kids.value));
      }
    }
  }

  lemma {:induction false} KidsFlatMean(fs: Files, cfg: Config, prefix: string, seen: set<Path>, names: seq<string>,
                                        into: Flat)
    requires forall x :: x in names ==> x in cfg.children
    ensures SameKids(MergeKids(fs, cfg, seen, names, into), LoadKids(fs, cfg, prefix, seen, names), fs, into)
    decreases fs.Keys - seen, 1, |names|
  {
    if names != [] {
      var child := cfg.children[names[0]];
      if child.path !in fs {
        KidsFlatMean(fs, cfg, prefix, seen, names[1..], into);
      } else {
        var local := Local(names[0], child);
        var flat, tree := LoadFlat(fs, child.path, seen), LoadTree(fs, child.path, Qualify(prefix, local), seen);
        FlatMeans(fs, child.path, Qualify(prefix, local), seen);
        if flat.Ok? {
          KidsFlatMean(fs, cfg, prefix, seen, names[1..], Merge(into, flat.value, local));
          LiveKid(fs, cfg, prefix, seen, names);
          var rest := LoadKids(fs, cfg, prefix, seen, names[1..]);
          if rest.Ok? { MergeListed(fs, tree.value, names[0], local, rest.value, into); }
        }
      }
    }
  }

  /** Merging a project and then the rest is merging them in listing order. */
  lemma MergeListed(fs: Files, tree: Node, alias: string, local: string, rest: seq<Node>, into: Flat)
    ensures var kids := [tree.(alias := alias, local := local)] + rest;
            var flat := Flat(FirstMap(FlatList(tree)), FirstMap(ProviderList(fs, tree)));
            var merged := Merge(into, flat, local);
            && FirstMap(KidFlatLists(rest)) + merged.workspaces == FirstMap(KidFlatLists(kids)) + into.workspaces
            && FirstMap(KidProviderLists(fs, rest)) + merged.providers
               == FirstMap(KidProviderLists(fs, kids)) + into.providers
  {
    var kid := tree.(alias := alias, local := local);
    FirstLists(fs, kid, rest);
    assert FlatList(kid) == FlatList(tree) && ProviderList(fs, kid) == ProviderList(fs, tree);
    FirstMapRename(FlatList(tree), local);
    UnionAssociates(FirstMap(KidFlatLists(rest)), Renamed(FirstMap(FlatList(tree)), local), into.workspaces);
    UnionAssociates(FirstMap(KidProviderLists(fs, rest)), FirstMap(ProviderList(fs, tree)), into.providers);
  }

  lemma FirstLists(fs: Files, kid: Node, rest: seq<Node>)
    ensures FirstMap(KidFlatLists([kid] + rest))
            == FirstMap(KidFlatLists(rest)) + FirstMap(RenameList(FlatList(kid), kid.local))
    ensures FirstMap(KidProviderLists(fs, [kid] + rest))
            == FirstMap(KidProviderLists(fs, rest)) + FirstMap(ProviderList(fs, kid))
  {
    assert ([kid] + rest)[1..] == rest;
    FirstMapJoin(RenameList(FlatList(kid), kid.local), KidFlatLists(rest));
    FirstMapJoin(ProviderList(fs, kid), KidProviderLists(fs, rest));
  }

  lemma UnionAssociates<V>(a: map<string, V>, b: map<string, V>, c: map<string, V>)
    ensures a + (b + c) == (a + b) + c
  {}

  // ---------- the names ----------

  /** Every project's names and its children's prefixes are qualified by its own prefix. */
  ghost predicate Coherent(n: Node)
    decreases n, 1
  {
    (forall r :: r in n.workspaces ==> r.merged == Qualify(n.prefix, r.name)) && KidsCoherent(n.prefix, n.kids)
  }

  ghost predicate KidsCoherent(prefix: string, kids: seq<Node>)
    decreases kids, 0
  {
    kids == [] || (kids[0].prefix == Qualify(prefix, kids[0].local) && Coherent(kids[0])
                   && KidsCoherent(prefix, kids[1..]))
  }

  lemma {:induction false} TreeCoherent(fs: Files, path: Path, prefix: string, seen: set<Path>)
    requires LoadTree(fs, path, prefix, seen).Ok?
    ensures LoadTree(fs, path, prefix, seen).value.prefix == prefix && Coherent(LoadTree(fs, path, prefix, seen).value)
    decreases fs.Keys - seen, 0
  {
    var cfg := fs[path].config;
    LiveNode(fs, path, prefix, seen);
    RefsPairs(cfg, prefix, SortedKeys(cfg.workspaces.Keys));
    KidsAreCoherent(fs, cfg, prefix, seen + {path}, SortedKeys(cfg.children.Keys));
  }

  lemma {:induction false} KidsAreCoherent(fs: Files, cfg: Config, prefix: string, seen: set<Path>, names: seq<string>)
    requires (forall x :: x in names ==> x in cfg.children) && LoadKids(fs, cfg, prefix, seen, names).Ok?
    ensures KidsCoherent(prefix, LoadKids(fs, cfg, prefix, seen, names).value)
    decreases fs.Keys - seen, 1, |names|
  {
    if names != [] {
      var child := cfg.children[names[0]];
      if child.path in fs {
        LiveKid(fs, cfg, prefix, seen, names);
        TreeCoherent(fs, child.path, Qualify(prefix, Local(names[0], child)), seen);
        var kids := LoadKids(fs, cfg, prefix, seen, names).value;
        assert kids[1..] == LoadKids(fs, cfg, prefix, seen, names[1..]).value;
        assert Coherent(kids[0]);
      }
      KidsAreCoherent(fs, cfg, prefix, seen, names[1..]);
    }
  }

  /** Qualifying twice is qualifying by the qualified prefix, unless an empty prefix sits inside a non-empty one. */
  lemma QualifyAssociatesIff(a: string, b: string, c: string)
    ensures Qualify(Qualify(a, b), c) == Qualify(a, Qualify(b, c)) <==> a == "" || b != ""
    ensures |Qualify(a, Qualify(b, c))| <= |Qualify(Qualify(a, b), c)|
    ensures !(a == "" || b != "") ==> |Qualify(a, Qualify(b, c))| < |Qualify(Qualify(a, b), c)|
  {
    if a != "" && b != "" {
      assert (a + "." + b) + "." + c == a + "." + (b + "." + c);
    }
  }

  /** No project with workspaces at or below it is mounted under an empty prefix inside a non-empty one. */
  predicate Straight(n: Node)
    decreases n, 1
  {
    KidsStraight(n.prefix, n.kids)
  }

  predicate KidsStraight(prefix: string, kids: seq<Node>)
    decreases kids, 0
  {
    kids == [] || ((FlatList(kids[0]) == [] || prefix == "" || kids[0].local != "") && Straight(kids[0])
                   && KidsStraight(prefix, kids[1..]))
  }

  /** Position by position, the second list has the same workspaces and names at least as long. */
  ghost predicate Shorter(a: seq<(string, Workspace)>, b: seq<(string, Workspace)>) {
    |a| == |b| && forall i :: 0 <= i < |a| ==> a[i].1 == b[i].1 && |a[i].0| <= |b[i].0|
  }

  lemma ShorterJoin(a: seq<(string, Workspace)>, b: seq<(string, Workspace)>, c: seq<(string, Workspace)>,
                    d: seq<(string, Workspace)>)
    requires Shorter(a, b) && Shorter(c, d)
    ensures Shorter(a + c, b + d)
    ensures a + c == b + d <==> a == b && c == d
  {
    if a + c == b + d {
      assert a == (a + c)[..|a|] == (b + d)[..|b|] == b;
      assert c == (a + c)[|a|..] == (b + d)[|b|..] == d;
    }
  }

  lemma RenameJoin<V>(a: seq<(string, V)>, b: seq<(string, V)>, prefix: string)
    ensures RenameList(a + b, prefix) == RenameList(a, prefix) + RenameList(b, prefix)
  {}

  /** Prefixes from the bottom up give the names of the tree exactly when the tree is straight. */
  lemma {:induction false} ListsAgreeIff(n: Node)
    requires Coherent(n)
    ensures Shorter(RenameList(FlatList(n), n.prefix), TreeList(n))
    ensures RenameList(FlatList(n), n.prefix) == TreeList(n) <==> Straight(n)
    decreases n, 1
  {
    KidListsAgreeIff(n.prefix, n.kids);
    RenameJoin(OwnList(n.workspaces), KidFlatLists(n.kids), n.prefix);
    assert RenameList(OwnList(n.workspaces), n.prefix) == MergedList(n.workspaces);
    ShorterJoin(MergedList(n.workspaces), MergedList(n.workspaces), RenameList(KidFlatLists(n.kids), n.prefix),
                KidTreeLists(n.kids));
  }

  lemma {:induction false} KidListsAgreeIff(prefix: string, kids: seq<Node>)
    requires KidsCoherent(prefix, kids)
    ensures Shorter(RenameList(KidFlatLists(kids), prefix), KidTreeLists(kids))
    ensures RenameList(KidFlatLists(kids), prefix) == KidTreeLists(kids) <==> KidsStraight(prefix, kids)
    decreases kids, 0
  {
    if kids != [] {
      var first := RenameList(RenameList(FlatList(kids[0]), kids[0].local), prefix);
      ListsAgreeIff(kids[0]);
      KidListsAgreeIff(prefix, kids[1..]);
      RenameJoin(RenameList(FlatList(kids[0]), kids[0].local), KidFlatLists(kids[1..]), prefix);
      FirstAgreesIff(prefix, kids[0]);
      ShorterJoin(first, TreeList(kids[0]), RenameList(KidFlatLists(kids[1..]), prefix), KidTreeLists(kids[1..]));
    }
  }

  lemma FirstAgreesIff(prefix: string, kid: Node)
    requires kid.prefix == Qualify(prefix, kid.local)
    requires Shorter(RenameList(FlatList(kid), kid.prefix), TreeList(kid))
    ensures var twice := RenameList(RenameList(FlatList(kid), kid.local), prefix);
            && Shorter(twice, TreeList(kid))
            && (twice == TreeList(kid) <==>
                (FlatList(kid) == [] || prefix == "" || kid.local != "")
                && RenameList(FlatList(kid), kid.prefix) == TreeList(kid))
  {
    var l := FlatList(kid);
    var once, twice := RenameList(l, kid.prefix), RenameList(RenameList(l, kid.local), prefix);
    forall i | 0 <= i < |l|
      ensures |twice[i].0| <= |once[i].0|
      ensures twice[i] == once[i] <==> prefix == "" || kid.local != ""
      ensures !(prefix == "" || kid.local != "") ==> |twice[i].0| < |once[i].0|
    {
      QualifyAssociatesIff(prefix, kid.local, l[i].0);
    }
    if l != [] && !(prefix == "" || kid.local != "") {
      assert twice[0] != TreeList(kid)[0];
    } else {
      assert twice == once;
    }
  }

  /**
    The two listings are the same exactly when the tree is straight; then the flat map shows the merged names of the
    tree, each with the first workspace of that name in pre-order.
   */
  lemma FlatAgreesWithTree(fs: Files, root: Path)
    requires LoadTree(fs, root, "", {}).Ok?
    ensures LoadFlat(fs, root, {}).Ok?
    ensures var tree := LoadTree(fs, root, "", {}).value;
            && (FlatList(tree) == TreeList(tree) <==> Straight(tree))
            && (Straight(tree) ==> LoadFlat(fs, root, {}).value.workspaces == FirstMap(TreeList(tree)))
  {
    var tree := LoadTree(fs, root, "", {}).value;
    FlatMeans(fs, root, "", {});
    TreeCoherent(fs, root, "", {});
    ListsAgreeIff(tree);
    assert RenameList(FlatList(tree), "") == FlatList(tree);
  }

  // ---------- over the files ----------

  /** Every child entry has a name or a prefix. */
  predicate EntriesNamed(fs: Files) {
    forall path, name :: path in fs && fs[path].Parsed? && name in fs[path].config.children ==>
      Local(name, fs[path].config.children[name]) != ""
  }

  predicate KidsNamed(kids: seq<Node>) {
    forall i :: 0 <= i < |kids| ==> kids[i].local != "" && Straight(kids[i])
  }

  lemma {:induction false} NamedKidsStraight(prefix: string, kids: seq<Node>)
    requires KidsNamed(kids)
    ensures KidsStraight(prefix, kids)
  {
    if kids != [] { NamedKidsStraight(prefix, kids[1..]); }
  }

  lemma {:induction false} NamedTreeStraight(fs: Files, path: Path, prefix: string, seen: set<Path>)
    requires EntriesNamed(fs) && LoadTree(fs, path, prefix, seen).Ok?
    ensures Straight(LoadTree(fs, path, prefix, seen).value)
    decreases fs.Keys - seen, 0
  {
    LiveNode(fs, path, prefix, seen);
    var names := SortedKeys(fs[path].config.children.Keys);
    KidsAreNamed(fs, path, prefix, seen + {path}, names);
    NamedKidsStraight(prefix, LoadTree(fs, path, prefix, seen).value.kids);
  }

  lemma {:induction false} KidsAreNamed(fs: Files, path: Path, prefix: string, seen: set<Path>, names: seq<string>)
    requires EntriesNamed(fs) && path in fs && fs[path].Parsed?
             && (forall x :: x in names ==> x in fs[path].config.children)
    requires LoadKids(fs, fs[path].config, prefix, seen, names).Ok?
    ensures KidsNamed(LoadKids(fs, fs[path].config, prefix, seen, names).value)
    decreases fs.Keys - seen, 1, |names|
  {
    if names != [] {
      var cfg := fs[path].config;
      var child := cfg.children[names[0]];
      if child.path in fs {
        LiveKid(fs, cfg, prefix, seen, names);
        NamedTreeStraight(fs, child.path, Qualify(prefix, Local(names[0], child)), seen);
      }
      KidsAreNamed(fs, path, prefix, seen, names[1..]);
    }
  }

  /**
    When every child entry in the files has a name or a prefix, the flat load shows exactly the merged names of the
    tree, each with the first workspace of that name in pre-order.
   */
  lemma NamedEntriesAgree(fs: Files, root: Path)
    requires EntriesNamed(fs) && LoadTree(fs, root, "", {}).Ok?
    ensures LoadFlat(fs, root, {}).Ok?
    ensures LoadFlat(fs, root, {}).value.workspaces == FirstMap(TreeList(LoadTree(fs, root, "", {}).value))
  {
    NamedTreeStraight(fs, root, "", {});
    FlatAgreesWithTree(fs, root);
  }

  // ---------- trees that are not straight ----------

  function Plain(workspaces: map<string, Workspace>, children: map<string, Child>): File {
    Parsed(Config("", false, 0, 0, workspaces, children, map[]))
  }

  lemma OneKey(x: string)
    ensures SortedKeys({x}) == [x]
  {
    var r := SortedKeys({x});
    assert r[0] in r;
  }

  lemma LeafTree(fs: Files, path: Path, prefix: string, seen: set<Path>, w: string, ws: Workspace) returns (tree: Node)
    requires path in fs && path !in seen && fs[path] == Plain(map[w := ws], map[])
    ensures LoadTree(fs, path, prefix, seen) == Ok(tree)
    ensures tree.workspaces == [WorkspaceRef(w, Qualify(prefix, w), ws)] && tree.kids == []
  {
    OneKey(w);
    var cfg := fs[path].config;
    assert cfg.workspaces.Keys == {w} && cfg.children.Keys == {};
    assert Refs(cfg, prefix, [w]) == [WorkspaceRef(w, Qualify(prefix, w), ws)];
    LiveNode(fs, path, prefix, seen);
    tree := LoadTree(fs, path, prefix, seen).value;
  }

  lemma StemTree(fs: Files, path: Path, prefix: string, seen: set<Path>, name: string, child: Child, kid: Node)
    returns (tree: Node)
    requires path in fs && path !in seen && fs[path] == Plain(map[], map[name := child]) && child.path in fs
    requires LoadTree(fs, child.path, Qualify(prefix, Local(name, child)), seen + {path}) == Ok(kid)
    ensures LoadTree(fs, path, prefix, seen) == Ok(tree)
    ensures tree.prefix == prefix && tree.workspaces == []
            && tree.kids == [kid.(alias := name, local := Local(name, child))]
  {
    OneKey(name);
    var cfg := fs[path].config;
    assert cfg.children.Keys == {name} && cfg.workspaces.Keys == {};
    LiveKid(fs, cfg, prefix, seen + {path}, [name]);
    LiveNode(fs, path, prefix, seen);
    tree := LoadTree(fs, path, prefix, seen).value;
  }

  lemma OnlyKid(n: Node, kid: Node)
    requires n.workspaces == [] && n.kids == [kid]
    ensures FlatList(n) == RenameList(FlatList(kid), kid.local) && TreeList(n) == TreeList(kid)
    ensures Straight(n) == ((FlatList(kid) == [] || n.prefix == "" || kid.local != "") && Straight(kid))
  {
    var own, flat, merged := OwnList(n.workspaces), RenameList(FlatList(kid), kid.local), TreeList(kid);
    assert n.kids[1..] == [] && own == [] && MergedList(n.workspaces) == [];
    assert KidFlatLists(n.kids) == flat + [] == flat && own + flat == flat;
    assert KidTreeLists(n.kids) == merged + [] == merged && [] + merged == merged;
    assert KidsStraight(n.prefix, n.kids[1..]);
  }

  /** Three files in a row, the second reached by the entry "a" and the third by an entry with an empty name. */
  ghost predicate Nested(fs: Files, ws: Workspace) {
    && fs.Keys == {"r", "c", "d"}
    && fs["r"] == Plain(map[], map["a" := Child("c", "")])
    && fs["c"] == Plain(map[], map["" := Child("d", "")])
    && fs["d"] == Plain(map["w" := ws], map[])
  }

  lemma NestedMiddle(fs: Files, ws: Workspace) returns (mid: Node, leaf: Node)
    requires Nested(fs, ws)
    ensures LoadTree(fs, "c", "a", {"r"}) == Ok(mid)
    ensures mid.prefix == "a" && mid.workspaces == [] && mid.kids == [leaf.(alias := "", local := "")]
    ensures leaf.workspaces == [WorkspaceRef("w", Qualify("a.", "w"), ws)] && leaf.kids == []
  {
    assert Qualify("a", Local("", Child("d", ""))) == "a.";
    leaf := LeafTree(fs, "d", "a.", {"r"} + {"c"}, "w", ws);
    mid := StemTree(fs, "c", "a", {"r"}, "", Child("d", ""), leaf);
  }

  lemma NestedTree(fs: Files, ws: Workspace) returns (tree: Node, mid: Node, leaf: Node)
    requires Nested(fs, ws)
    ensures LoadTree(fs, "r", "", {}) == Ok(tree)
    ensures tree.workspaces == [] && tree.kids == [mid.(alias := "a", local := "a")]
    ensures mid.prefix == "a" && mid.workspaces == [] && mid.kids == [leaf.(alias := "", local := "")]
    ensures leaf.workspaces == [WorkspaceRef("w", Qualify("a.", "w"), ws)] && leaf.kids == []
  {
    mid, leaf := NestedMiddle(fs, ws);
    assert {} + {"r"} == {"r"};
    tree := StemTree(fs, "r", "", {}, "a", Child("c", ""), mid);
  }

  /** There the tree calls the workspace "a..w" and the flat load "a.w". */
  lemma NestedEmptyPrefixDisagrees(ws: Workspace) returns (fs: Files, tree: Node)
    ensures Nested(fs, ws) && LoadTree(fs, "r", "", {}) == Ok(tree) && !Straight(tree)
    ensures TreeList(tree) == [("a..w", ws)]
    ensures LoadFlat(fs, "r", {}).Ok? && LoadFlat(fs, "r", {}).value.workspaces == map["a.w" := ws]
  {
    fs := map["r" := Plain(map[], map["a" := Child("c", "")]), "c" := Plain(map[], map["" := Child("d", "")]),
              "d" := Plain(map["w" := ws], map[])];
    var mid, leaf;
    tree, mid, leaf := NestedTree(fs, ws);
    FlatMeans(fs, "r", "", {});
    Levels(tree, mid, leaf, ws);
    assert FirstMap([("a.w", ws)]) == map["a.w" := ws];
  }

  lemma Levels(tree: Node, mid: Node, leaf: Node, ws: Workspace)
    requires tree.workspaces == [] && tree.kids == [mid.(alias := "a", local := "a")]
    requires mid.prefix == "a" && mid.workspaces == [] && mid.kids == [leaf.(alias := "", local := "")]
    requires leaf.workspaces == [WorkspaceRef("w", Qualify("a.", "w"), ws)] && leaf.kids == []
    ensures FlatList(tree) == [("a.w", ws)] && TreeList(tree) == [("a..w", ws)] && !Straight(tree)
  {
    assert Qualify("a", "w") == "a.w" && Qualify("a.", "w") == "a..w";
    assert FlatList(leaf) == [("w", ws)] && TreeList(leaf) == [("a..w", ws)];
    var a, b := mid.(alias := "a", local := "a"), leaf.(alias := "", local := "");
    assert FlatList(b) == FlatList(leaf) && TreeList(b) == TreeList(leaf);
    OnlyKid(a, b);
    OnlyKid(tree, a);
    assert RenameList([("w", ws)], "") == [("w", ws)];
    assert RenameList([("w", ws)], "a") == [("a.w", ws)];
  }

  /**
    The listings can differ and the maps still agree: the second file owns "w" and ".w" as well, so that both names
    of the third file's workspace are taken.
   */
  ghost predicate Masked(fs: Files, x: Workspace, y: Workspace, z: Workspace) {
    && fs.Keys == {"r", "c", "d"}
    && fs["r"] == Plain(map[], map["a" := Child("c", "")])
    && fs["c"] == Plain(map["w" := x, ".w" := y], map["" := Child("d", "")])
    && fs["d"] == Plain(map["w" := z], map[])
  }

  lemma TwoKeys(a: string, b: string)
    requires a != b && Leq(a, b)
    ensures SortedKeys({a, b}) == [a, b]
  {
    AscendingUnique(SortedKeys({a, b}), [a, b]);
  }

  lemma MaskedMiddle(fs: Files, x: Workspace, y: Workspace, z: Workspace) returns (mid: Node, leaf: Node)
    requires Masked(fs, x, y, z)
    ensures LoadTree(fs, "c", "a", {"r"}) == Ok(mid)
    ensures mid.prefix == "a" && mid.kids == [leaf.(alias := "", local := "")]
    ensures mid.workspaces == [WorkspaceRef(".w", Qualify("a", ".w"), y), WorkspaceRef("w", Qualify("a", "w"), x)]
    ensures leaf.workspaces == [WorkspaceRef("w", Qualify("a.", "w"), z)] && leaf.kids == []
  {
    assert Qualify("a", Local("", Child("d", ""))) == "a.";
    leaf := LeafTree(fs, "d", "a.", {"r"} + {"c"}, "w", z);
    mid := MaskedStem(fs, x, y, leaf);
  }

  lemma MaskedStem(fs: Files, x: Workspace, y: Workspace, leaf: Node) returns (mid: Node)
    requires "c" in fs && "d" in fs && fs["c"] == Plain(map["w" := x, ".w" := y], map["" := Child("d", "")])
    requires LoadTree(fs, "d", Qualify("a", Local("", Child("d", ""))), {"r"} + {"c"}) == Ok(leaf)
    ensures LoadTree(fs, "c", "a", {"r"}) == Ok(mid)
    ensures mid.prefix == "a" && mid.kids == [leaf.(alias := "", local := "")]
    ensures mid.workspaces == [WorkspaceRef(".w", Qualify("a", ".w"), y), WorkspaceRef("w", Qualify("a", "w"), x)]
  {
    var cfg := fs["c"].config;
    OneKey("");
    assert cfg.children.Keys == {""};
    LiveKid(fs, cfg, "a", {"r"} + {"c"}, [""]);
    LiveNode(fs, "c", "a", {"r"});
    mid := LoadTree(fs, "c", "a", {"r"}).value;
    MaskedRefs(cfg, x, y);
  }

  lemma MaskedRefs(cfg: Config, x: Workspace, y: Workspace)
    requires cfg.workspaces == map["w" := x, ".w" := y]
    ensures Refs(cfg, "a", SortedKeys(cfg.workspaces.Keys))
            == [WorkspaceRef(".w", Qualify("a", ".w"), y), WorkspaceRef("w", Qualify("a", "w"), x)]
  {
    TwoKeys(".w", "w");
    assert cfg.workspaces.Keys == {".w", "w"};
    TwoRefs(cfg, "a", ".w", "w");
  }

  lemma TwoRefs(cfg: Config, prefix: string, a: string, b: string)
    requires a in cfg.workspaces && b in cfg.workspaces
    ensures Refs(cfg, prefix, [a, b])
            == [WorkspaceRef(a, Qualify(prefix, a), cfg.workspaces[a]),
                WorkspaceRef(b, Qualify(prefix, b), cfg.workspaces[b])]
  {
    assert [a, b][1..] == [b];
    assert Refs(cfg, prefix, [b]) == [WorkspaceRef(b, Qualify(prefix, b), cfg.workspaces[b])];
  }

  lemma MaskedLists(tree: Node, mid: Node, leaf: Node, x: Workspace, y: Workspace, z: Workspace)
    requires tree.workspaces == [] && tree.kids == [mid.(alias := "a", local := "a")]
    requires mid.prefix == "a" && mid.kids == [leaf.(alias := "", local := "")]
    requires mid.workspaces == [WorkspaceRef(".w", Qualify("a", ".w"), y), WorkspaceRef("w", Qualify("a", "w"), x)]
    requires leaf.workspaces == [WorkspaceRef("w", Qualify("a.", "w"), z)] && leaf.kids == []
    ensures FlatList(tree) == [("a..w", y), ("a.w", x), ("a.w", z)]
            && TreeList(tree) == [("a..w", y), ("a.w", x), ("a..w", z)]
  {
    assert Qualify("a", "w") == "a.w" && Qualify("a", ".w") == "a..w" && Qualify("a.", "w") == "a..w";
    var a, b := mid.(alias := "a", local := "a"), leaf.(alias := "", local := "");
    assert FlatList(b) == [("w", z)] && TreeList(b) == [("a..w", z)];
    assert a.kids[1..] == [];
    assert RenameList([("w", z)], "") == [("w", z)];
    assert KidFlatLists(a.kids) == [("w", z)] + [] && KidTreeLists(a.kids) == [("a..w", z)] + [];
    assert FlatList(a) == [(".w", y), ("w", x), ("w", z)];
    assert TreeList(a) == [("a..w", y), ("a.w", x), ("a..w", z)];
    OnlyKid(tree, a);
    assert RenameList(FlatList(a), "a") == [("a..w", y), ("a.w", x), ("a.w", z)];
  }

  lemma MaskedMaps(x: Workspace, y: Workspace, z: Workspace)
    ensures FirstMap([("a..w", y), ("a.w", x), ("a.w", z)]) == map["a..w" := y, "a.w" := x]
    ensures FirstMap([("a..w", y), ("a.w", x), ("a..w", z)]) == map["a..w" := y, "a.w" := x]
  {
    FirstThree("a..w", y, "a.w", x, "a.w", z);
    FirstThree("a..w", y, "a.w", x, "a..w", z);
  }

  lemma FirstThree(a: string, x: Workspace, b: string, y: Workspace, c: string, z: Workspace)
    ensures FirstMap([(a, x), (b, y), (c, z)]) == map[c := z][b := y][a := x]
  {
    assert [(a, x), (b, y), (c, z)][1..] == [(b, y), (c, z)];
    assert [(b, y), (c, z)][1..] == [(c, z)];
    assert FirstMap([(c, z)]) == map[c := z];
  }

  /** So straightness is exact for the listings, and sufficient for the map. */
  lemma MaskedNamesAgree(x: Workspace, y: Workspace, z: Workspace) returns (fs: Files, tree: Node)
    ensures Masked(fs, x, y, z) && LoadTree(fs, "r", "", {}) == Ok(tree)
    ensures !Straight(tree) && FlatList(tree) != TreeList(tree)
    ensures LoadFlat(fs, "r", {}).Ok? && LoadFlat(fs, "r", {}).value.workspaces == FirstMap(TreeList(tree))
  {
    fs := map["r" := Plain(map[], map["a" := Child("c", "")]),
              "c" := Plain(map["w" := x, ".w" := y], map["" := Child("d", "")]),
              "d" := Plain(map["w" := z], map[])];
    var mid, leaf := MaskedMiddle(fs, x, y, z);
    assert {} + {"r"} == {"r"};
    tree := StemTree(fs, "r", "", {}, "a", Child("c", ""), mid);
    MaskedLists(tree, mid, leaf, x, y, z);
    MaskedMaps(x, y, z);
    FlatMeans(fs, "r", "", {});
    assert FlatList(tree)[2].0 != TreeList(tree)[2].0;
    FlatAgreesWithTree(fs, "r");
  }
}
