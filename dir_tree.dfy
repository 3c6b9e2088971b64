/**
 * `getDirectoryTree` of src/dir-tree.ts: walk a directory and return its
 * entries as a tree, cut at a depth limit, without `node_modules`, without
 * entries an exclude pattern matches and, when include patterns are given,
 * only with files they match and the directories leading to them.
 *
 * The file system is replaced by an input tree whose children are listed in
 * `readdirSync` order. A path is the starting directory and the names joined
 * onto it; its relative part is what `path.relative` gives. A pattern is a
 * test on relative paths, standing for `RegExp.test` on the rendered path.
 */
module DirTree {
  import opened Wrappers

  /** What `statSync` and `readdirSync` report for an entry; `Other` is neither a file nor a directory. */
  datatype Entry = Dir(name: string, children: seq<Entry>) | File(name: string, size: nat) | Other(name: string)

  /** The directory the walk starts from and the names joined onto it. */
  datatype FsPath = FsPath(base: string, rel: seq<string>)

  /** `path.join(p, name)`. */
  function Join(p: FsPath, name: string): FsPath
  {
    FsPath(p.base, p.rel + [name])
  }

  /** A node of the result: `DirectoryNode` of type 'directory' or 'file'. */
  datatype Node = DirNode(name: string, children: seq<Node>, path: FsPath) | FileNode(name: string, size: nat, path: FsPath)

  type Pattern = seq<string> -> bool

  /** A depth limit; `Infinity` is the default. */
  datatype Depth = Finite(n: int) | Infinity

  /** The options as passed; an option left out is None. */
  datatype Options = Options(
    excludeNodeModules: Option<bool>,
    maxDepth: Option<Depth>,
    includePatterns: Option<seq<Pattern>>,
    excludePatterns: Option<seq<Pattern>>)

  /** The options after their defaults are applied. */
  datatype Settings = Settings(excludeNodeModules: bool, maxDepth: Depth, includes: seq<Pattern>, excludes: seq<Pattern>)

  function WithDefaults(o: Options): Settings
  {
    Settings(
      if o.excludeNodeModules.Some? then o.excludeNodeModules.value else true,
      if o.maxDepth.Some? then o.maxDepth.value else Infinity,
      if o.includePatterns.Some? then o.includePatterns.value else [],
      if o.excludePatterns.Some? then o.excludePatterns.value else [])
  }

  /** With no options, `node_modules` is excluded, there is no depth limit and there are no patterns. */
  lemma DefaultSettings()
    ensures var s := WithDefaults(Options(None, None, None, None));
            s.excludeNodeModules && s.maxDepth == Infinity && s.includes == [] && s.excludes == []
  {
  }

  /** `pathMatchesAny`: some pattern accepts the relative path (`patterns.some`). */
  function PathMatchesAny(rel: seq<string>, patterns: seq<Pattern>): (b: bool)
    ensures b <==> exists i :: 0 <= i < |patterns| && patterns[i](rel)
  {
    if patterns == [] then false
    else patterns[0](rel) || PathMatchesAny(rel, patterns[1..])
  }

  /** `shouldExclude`: some exclude pattern accepts the relative path. */
  function ShouldExclude(rel: seq<string>, s: Settings): (b: bool)
    ensures b <==> exists i :: 0 <= i < |s.excludes| && s.excludes[i](rel)
  {
    PathMatchesAny(rel, s.excludes)
  }

  predicate TooDeep(depth: int, s: Settings)
  {
    s.maxDepth.Finite? && depth > s.maxDepth.n
  }

  /** `buildDirectoryNode`: the node for entry `e` at path `p` and depth `depth`, or None for null. */
  function BuildNode(e: Entry, p: FsPath, depth: int, s: Settings): Option<Node>
    decreases e
  {
    if TooDeep(depth, s) then None
    else
      match e
      case Dir(name, kids) =>
        if s.excludeNodeModules && name == "node_modules" then None
        else if ShouldExclude(p.rel, s) then None
        else
          var children := BuildChildren(kids, p, depth + 1, s);
          if |s.includes| > 0 then
            if PathMatchesAny(p.rel, s.includes) then Some(DirNode(name, children, p))
            else if |children| > 0 then Some(DirNode(name, children, p))
            else None
          else Some(DirNode(name, children, p))
      case File(name, size) =>
        if |s.includes| > 0 && !PathMatchesAny(p.rel, s.includes) then None
        else if !ShouldExclude(p.rel, s) then Some(FileNode(name, size, p))
        else None
      case Other(_) => None
  }

  /** The children of a directory at `p`: each listed entry built at its joined path, nulls dropped. */
  function BuildChildren(kids: seq<Entry>, p: FsPath, depth: int, s: Settings): seq<Node>
    decreases kids
  {
    if kids == [] then []
    else
      var first := BuildNode(kids[0], Join(p, kids[0].name), depth, s);
      (if first.Some? then [first.value] else []) + BuildChildren(kids[1..], p, depth, s)
  }

  /** `getDirectoryTree`: the root's children when the root survives as a directory, otherwise empty. */
  function GetDirectoryTree(root: Entry, dirPath: string, o: Options): seq<Node>
  {
    var result := BuildNode(root, FsPath(dirPath, []), 0, WithDefaults(o));
    if result.Some? && result.value.DirNode? then result.value.children else []
  }

  // ---------------------------------------------------------------------------
  // Properties of the result.

  /** `P` holds of `n` and of every node below it. */
  predicate EveryNode(n: Node, P: Node -> bool)
  {
    P(n) && (n.DirNode? ==> forall i :: 0 <= i < |n.children| ==> EveryNode(n.children[i], P))
  }

  predicate EveryInForest(ns: seq<Node>, P: Node -> bool)
  {
    forall i :: 0 <= i < |ns| ==> EveryNode(ns[i], P)
  }

  /**
   * `n` is what is left of entry `e` at path `p`: same name, path and kind,
   * a file keeps its size, and a directory's children are prunings of some of
   * the entry's children, in listing order, each at its joined path.
   */
  ghost predicate Prunes(n: Node, e: Entry, p: FsPath)
    decreases e
  {
    && n.path == p && n.name == e.name
    && match e
       case File(_, size) => n.FileNode? && n.size == size
       case Dir(_, kids) => n.DirNode? && SubForest(n.children, kids, p)
       case Other(_) => false
  }

  ghost predicate SubForest(ns: seq<Node>, kids: seq<Entry>, p: FsPath)
    decreases kids
  {
    if ns == [] then true
    else if kids == [] then false
    else (Prunes(ns[0], kids[0], Join(p, kids[0].name)) && SubForest(ns[1..], kids[1..], p))
         || SubForest(ns, kids[1..], p)
  }

  /** The node is no deeper below the root than `max`. */
  predicate WithinDepth(m: Node, max: int)
  {
    |m.path.rel| <= max
  }

  /** No directory on the way to the node is `node_modules`, nor is the node itself such a directory. */
  predicate OutsideNodeModules(m: Node)
  {
    && (forall j :: 0 <= j < |m.path.rel| - 1 ==> m.path.rel[j] != "node_modules")
    && (m.DirNode? ==> m.name != "node_modules")
  }

  /** Neither the node's relative path nor that of any directory above it is excluded. */
  predicate Unexcluded(m: Node, excludes: seq<Pattern>)
  {
    forall k :: 0 <= k <= |m.path.rel| ==> !PathMatchesAny(m.path.rel[..k], excludes)
  }

  /** The node matches an include pattern, or some node below it does. */
  predicate Witnessed(m: Node, includes: seq<Pattern>)
  {
    PathMatchesAny(m.path.rel, includes)
    || (m.DirNode? && exists i :: 0 <= i < |m.children| && Witnessed(m.children[i], includes))
  }

  /** Every result node is a pruning of the input: names, sizes, order and joined paths come from it. */
  lemma {:induction false} BuildNodePrunes(e: Entry, p: FsPath, depth: int, s: Settings)
    ensures BuildNode(e, p, depth, s).Some? ==> Prunes(BuildNode(e, p, depth, s).value, e, p)
    decreases e
  {
    if !TooDeep(depth, s) && e.Dir? {
      BuildChildrenPrune(e.children, p, depth + 1, s);
    }
  }

  lemma {:induction false} BuildChildrenPrune(kids: seq<Entry>, p: FsPath, depth: int, s: Settings)
    ensures SubForest(BuildChildren(kids, p, depth, s), kids, p)
    decreases kids
  {
    if kids != [] {
      var first := BuildNode(kids[0], Join(p, kids[0].name), depth, s);
      var rest := BuildChildren(kids[1..], p, depth, s);
      BuildNodePrunes(kids[0], Join(p, kids[0].name), depth, s);
      BuildChildrenPrune(kids[1..], p, depth, s);
      var ns := BuildChildren(kids, p, depth, s);
      if first.Some? {
        assert ns == [first.value] + rest;
        assert ns[0] == first.value && ns[1..] == rest;
      } else {
        assert ns == rest;
      }
    }
  }

  /** Every listed child that survives appears among the children, and nothing else does. */
  lemma {:induction false} BuildChildrenAreTheSurvivors(kids: seq<Entry>, p: FsPath, depth: int, s: Settings)
    ensures forall i :: 0 <= i < |kids| && BuildNode(kids[i], Join(p, kids[i].name), depth, s).Some? ==>
              BuildNode(kids[i], Join(p, kids[i].name), depth, s).value in BuildChildren(kids, p, depth, s)
    ensures forall c :: c in BuildChildren(kids, p, depth, s) ==>
              exists i :: 0 <= i < |kids| && BuildNode(kids[i], Join(p, kids[i].name), depth, s) == Some(c)
    decreases kids
  {
    if kids != [] {
      BuildChildrenAreTheSurvivors(kids[1..], p, depth, s);
      var first := BuildNode(kids[0], Join(p, kids[0].name), depth, s);
      var rest := BuildChildren(kids[1..], p, depth, s);
      assert BuildChildren(kids, p, depth, s) == (if first.Some? then [first.value] else []) + rest;
      forall i | 1 <= i < |kids| ensures kids[i] == kids[1..][i - 1] { }
      forall c | c in rest
        ensures exists i :: 0 <= i < |kids| && BuildNode(kids[i], Join(p, kids[i].name), depth, s) == Some(c)
      {
        var j :| 0 <= j < |kids[1..]| && BuildNode(kids[1..][j], Join(p, kids[1..][j].name), depth, s) == Some(c);
        assert kids[j + 1] == kids[1..][j];
      }
    }
  }

  /** With a finite limit, no node lies deeper below the root than the limit. */
  lemma {:induction false} BuildNodeWithinDepth(e: Entry, p: FsPath, depth: int, s: Settings)
    requires depth == |p.rel| && s.maxDepth.Finite?
    ensures BuildNode(e, p, depth, s).Some? ==>
              EveryNode(BuildNode(e, p, depth, s).value, (m: Node) => WithinDepth(m, s.maxDepth.n))
    decreases e
  {
    if !TooDeep(depth, s) && e.Dir? {
      BuildChildrenWithinDepth(e.children, p, depth + 1, s);
    }
  }

  lemma {:induction false} BuildChildrenWithinDepth(kids: seq<Entry>, p: FsPath, depth: int, s: Settings)
    requires depth == |p.rel| + 1 && s.maxDepth.Finite?
    ensures EveryInForest(BuildChildren(kids, p, depth, s), (m: Node) => WithinDepth(m, s.maxDepth.n))
    decreases kids
  {
    if kids != [] {
      BuildNodeWithinDepth(kids[0], Join(p, kids[0].name), depth, s);
      BuildChildrenWithinDepth(kids[1..], p, depth, s);
    }
  }

  /** The height of an entry: how many levels below it the walk can reach. */
  function Height(e: Entry): nat
    decreases e
  {
    match e
    case Dir(_, kids) => if kids == [] then 0 else 1 + MaxHeight(kids)
    case _ => 0
  }

  function MaxHeight(kids: seq<Entry>): (h: nat)
    ensures forall i :: 0 <= i < |kids| ==> Height(kids[i]) <= h
    decreases kids
  {
    if kids == [] then 0
    else
      var rest := MaxHeight(kids[1..]);
      assert forall i :: 1 <= i < |kids| ==> kids[i] == kids[1..][i - 1];
      if Height(kids[0]) > rest then Height(kids[0]) else rest
  }

  /** A limit that every entry of the tree lies within cuts nothing: the result is the unlimited one. */
  lemma {:induction false} DepthLimitAboveHeightCutsNothing(e: Entry, p: FsPath, depth: int, s: Settings, max: int)
    requires depth + Height(e) <= max
    ensures BuildNode(e, p, depth, s.(maxDepth := Finite(max))) == BuildNode(e, p, depth, s.(maxDepth := Infinity))
    decreases e
  {
    if e.Dir? && e.children != [] {
      ChildrenDepthLimitAboveHeight(e.children, p, depth + 1, s, max);
    }
  }

  lemma {:induction false} ChildrenDepthLimitAboveHeight(kids: seq<Entry>, p: FsPath, depth: int, s: Settings, max: int)
    requires depth + MaxHeight(kids) <= max
    ensures BuildChildren(kids, p, depth, s.(maxDepth := Finite(max))) == BuildChildren(kids, p, depth, s.(maxDepth := Infinity))
    decreases kids
  {
    if kids != [] {
      DepthLimitAboveHeightCutsNothing(kids[0], Join(p, kids[0].name), depth, s, max);
      assert MaxHeight(kids[1..]) <= MaxHeight(kids);
      ChildrenDepthLimitAboveHeight(kids[1..], p, depth, s, max);
    }
  }

  /** With `excludeNodeModules`, no `node_modules` directory and nothing inside one appears. */
  lemma {:induction false} BuildNodeOutsideNodeModules(e: Entry, p: FsPath, depth: int, s: Settings)
    requires s.excludeNodeModules
    requires p.rel != [] ==> p.rel[|p.rel| - 1] == e.name
    requires forall j :: 0 <= j < |p.rel| - 1 ==> p.rel[j] != "node_modules"
    ensures BuildNode(e, p, depth, s).Some? ==> EveryNode(BuildNode(e, p, depth, s).value, OutsideNodeModules)
    decreases e
  {
    if !TooDeep(depth, s) && e.Dir? && e.name != "node_modules" {
      BuildChildrenOutsideNodeModules(e.children, p, depth + 1, s);
    }
  }

  lemma {:induction false} BuildChildrenOutsideNodeModules(kids: seq<Entry>, p: FsPath, depth: int, s: Settings)
    requires s.excludeNodeModules
    requires forall j :: 0 <= j < |p.rel| ==> p.rel[j] != "node_modules"
    ensures EveryInForest(BuildChildren(kids, p, depth, s), OutsideNodeModules)
    decreases kids
  {
    if kids != [] {
      BuildNodeOutsideNodeModules(kids[0], Join(p, kids[0].name), depth, s);
      BuildChildrenOutsideNodeModules(kids[1..], p, depth, s);
    }
  }

  /** No node whose own or any ancestor's relative path is excluded appears. */
  lemma {:induction false} BuildNodeUnexcluded(e: Entry, p: FsPath, depth: int, s: Settings)
    requires forall k :: 0 <= k < |p.rel| ==> !PathMatchesAny(p.rel[..k], s.excludes)
    ensures BuildNode(e, p, depth, s).Some? ==>
              EveryNode(BuildNode(e, p, depth, s).value, (m: Node) => Unexcluded(m, s.excludes))
    decreases e
  {
    assert p.rel[..|p.rel|] == p.rel;
    if BuildNode(e, p, depth, s).Some? && e.Dir? {
      BuildChildrenUnexcluded(e.children, p, depth + 1, s);
    }
  }

  lemma {:induction false} BuildChildrenUnexcluded(kids: seq<Entry>, p: FsPath, depth: int, s: Settings)
    requires forall k :: 0 <= k <= |p.rel| ==> !PathMatchesAny(p.rel[..k], s.excludes)
    ensures EveryInForest(BuildChildren(kids, p, depth, s), (m: Node) => Unexcluded(m, s.excludes))
    decreases kids
  {
    if kids != [] {
      var q := Join(p, kids[0].name);
      forall k | 0 <= k < |q.rel| ensures !PathMatchesAny(q.rel[..k], s.excludes) {
        assert q.rel[..k] == p.rel[..k];
      }
      BuildNodeUnexcluded(kids[0], q, depth, s);
      BuildChildrenUnexcluded(kids[1..], p, depth, s);
    }
  }

  /** With include patterns, every file in the result matches one, at any depth. */
  lemma {:induction false} BuildNodeFilesIncluded(e: Entry, p: FsPath, depth: int, s: Settings)
    requires |s.includes| > 0
    ensures BuildNode(e, p, depth, s).Some? ==>
              EveryNode(BuildNode(e, p, depth, s).value,
                        (m: Node) => m.FileNode? ==> PathMatchesAny(m.path.rel, s.includes))
    decreases e
  {
    if !TooDeep(depth, s) && e.Dir? {
      BuildChildrenFilesIncluded(e.children, p, depth + 1, s);
    }
  }

  lemma {:induction false} BuildChildrenFilesIncluded(kids: seq<Entry>, p: FsPath, depth: int, s: Settings)
    requires |s.includes| > 0
    ensures EveryInForest(BuildChildren(kids, p, depth, s),
                          (m: Node) => m.FileNode? ==> PathMatchesAny(m.path.rel, s.includes))
    decreases kids
  {
    if kids != [] {
      BuildNodeFilesIncluded(kids[0], Join(p, kids[0].name), depth, s);
      BuildChildrenFilesIncluded(kids[1..], p, depth, s);
    }
  }

  /** With include patterns, every node kept matches one or has a kept node below it that does. */
  lemma {:induction false} BuildNodeWitnessed(e: Entry, p: FsPath, depth: int, s: Settings)
    requires |s.includes| > 0
    ensures BuildNode(e, p, depth, s).Some? ==>
              EveryNode(BuildNode(e, p, depth, s).value, (m: Node) => Witnessed(m, s.includes))
    decreases e
  {
    if !TooDeep(depth, s) && e.Dir? {
      var children := BuildChildren(e.children, p, depth + 1, s);
      BuildChildrenWitnessed(e.children, p, depth + 1, s);
      if |children| > 0 {
        assert EveryNode(children[0], (m: Node) => Witnessed(m, s.includes));
      }
    }
  }

  lemma {:induction false} BuildChildrenWitnessed(kids: seq<Entry>, p: FsPath, depth: int, s: Settings)
    requires |s.includes| > 0
    ensures EveryInForest(BuildChildren(kids, p, depth, s), (m: Node) => Witnessed(m, s.includes))
    decreases kids
  {
    if kids != [] {
      BuildNodeWitnessed(kids[0], Join(p, kids[0].name), depth, s);
      BuildChildrenWitnessed(kids[1..], p, depth, s);
    }
  }

  /**
   * Without include patterns the decision is local: a directory within the
   * limit is kept, with its built children, unless it is `node_modules` or
   * excluded; a file is kept, with its size, unless excluded.
   */
  lemma KeptWithoutIncludePatterns(e: Entry, p: FsPath, depth: int, s: Settings)
    requires s.includes == []
    ensures e.Dir? ==>
              BuildNode(e, p, depth, s)
              == if TooDeep(depth, s) || (s.excludeNodeModules && e.name == "node_modules") || ShouldExclude(p.rel, s)
                 then None
                 else Some(DirNode(e.name, BuildChildren(e.children, p, depth + 1, s), p))
    ensures e.File? ==>
              BuildNode(e, p, depth, s)
              == if TooDeep(depth, s) || ShouldExclude(p.rel, s) then None else Some(FileNode(e.name, e.size, p))
    ensures e.Other? ==> BuildNode(e, p, depth, s) == None
  {
  }

  /**
   * With include patterns, a directory within the limit that is neither
   * `node_modules` nor excluded is kept exactly when it matches an include
   * pattern or one of its children survived.
   */
  lemma DirectoryKeptWithIncludePatterns(e: Entry, p: FsPath, depth: int, s: Settings)
    requires |s.includes| > 0 && e.Dir?
    requires !TooDeep(depth, s) && !(s.excludeNodeModules && e.name == "node_modules") && !ShouldExclude(p.rel, s)
    ensures BuildNode(e, p, depth, s).Some?
            <==> PathMatchesAny(p.rel, s.includes) || |BuildChildren(e.children, p, depth + 1, s)| > 0
    ensures BuildNode(e, p, depth, s).Some? ==>
              BuildNode(e, p, depth, s).value.children == BuildChildren(e.children, p, depth + 1, s)
  {
  }

  /** The properties above, for the array `getDirectoryTree` returns. */
  lemma DirectoryTreeProperties(root: Entry, dirPath: string, o: Options)
    ensures var s, r := WithDefaults(o), GetDirectoryTree(root, dirPath, o);
            && (root.Dir? ==> SubForest(r, root.children, FsPath(dirPath, [])))
            && (!root.Dir? || BuildNode(root, FsPath(dirPath, []), 0, s).None? ==> r == [])
            && (root.Dir? && BuildNode(root, FsPath(dirPath, []), 0, s).Some? ==>
                  && (forall i :: 0 <= i < |root.children|
                        && BuildNode(root.children[i], Join(FsPath(dirPath, []), root.children[i].name), 1, s).Some?
                        ==> BuildNode(root.children[i], Join(FsPath(dirPath, []), root.children[i].name), 1, s).value in r)
                  && (forall c :: c in r ==>
                        exists i :: 0 <= i < |root.children|
                          && BuildNode(root.children[i], Join(FsPath(dirPath, []), root.children[i].name), 1, s) == Some(c)))
            && (s.maxDepth.Finite? ==> EveryInForest(r, (m: Node) => WithinDepth(m, s.maxDepth.n)))
            && (s.excludeNodeModules ==> EveryInForest(r, OutsideNodeModules))
            && (s.excludeNodeModules && root.name == "node_modules" ==> r == [])
            && EveryInForest(r, (m: Node) => Unexcluded(m, s.excludes))
            && (|s.includes| > 0 ==>
                  && EveryInForest(r, (m: Node) => m.FileNode? ==> PathMatchesAny(m.path.rel, s.includes))
                  && EveryInForest(r, (m: Node) => Witnessed(m, s.includes)))
  {
    var s := WithDefaults(o);
    var p := FsPath(dirPath, []);
    var result := BuildNode(root, p, 0, s);
    if root.Dir? && result.Some? {
      BuildChildrenAreTheSurvivors(root.children, p, 1, s);
      BuildChildrenPrune(root.children, p, 1, s);
      if s.maxDepth.Finite? {
        BuildChildrenWithinDepth(root.children, p, 1, s);
      }
      if s.excludeNodeModules {
        BuildChildrenOutsideNodeModules(root.children, p, 1, s);
      }
      assert p.rel[..0] == [];
      BuildChildrenUnexcluded(root.children, p, 1, s);
      if |s.includes| > 0 {
        BuildChildrenFilesIncluded(root.children, p, 1, s);
        BuildChildrenWitnessed(root.children, p, 1, s);
      }
    }
  }
}
