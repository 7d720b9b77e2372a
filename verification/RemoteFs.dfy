/** Listing a remote file tree and bringing another file system up to date with it. */
module RemoteFs {
  import opened Wrappers

  /** Names from the root down. */
  type Path = seq<string>

  datatype Node =
    | File(content: seq<bv8>, mtime: Option<int>)
    | Dir(entries: seq<Entry>)

  datatype Entry = Entry(name: string, node: Node)

  /** A listed path with what was found there. */
  datatype Item = Item(path: Path, node: Node)

  predicate DistinctNames(entries: seq<Entry>) {
    forall i, j :: 0 <= i < j < |entries| ==> entries[i].name != entries[j].name
  }

  predicate WellFormed(entries: seq<Entry>) {
    && DistinctNames(entries)
    && forall i :: 0 <= i < |entries| && entries[i].node.Dir? ==> WellFormed(entries[i].node.entries)
  }

  predicate Below(p: Path, dir: Path) {
    |dir| < |p| && p[..|dir|] == dir
  }

  lemma BelowSub(p: Path, path: Path, name: string)
    ensures Below(p, path + [name]) <==> |p| > |path| + 1 && Below(p, path) && p[|path|] == name
  {
    if |p| > |path| + 1 { assert p[..|path| + 1] == p[..|path|] + [p[|path|]]; }
  }

  // ---------------------------------------------------------------- listing

  /** The entries of one directory. */
  function Items(path: Path, entries: seq<Entry>): (r: seq<Item>)
    ensures |r| == |entries|
  {
    seq(|entries|, i requires 0 <= i < |entries| => Item(path + [entries[i].name], entries[i].node))
  }

  function Dirs(path: Path, entries: seq<Entry>): seq<Item> {
    if entries == [] then []
    else Dirs(path, entries[..|entries| - 1])
         + (var last := entries[|entries| - 1];
            if last.node.Dir? then [Item(path + [last.name], last.node)] else [])
  }

  /** All entries of a directory, then those of its directories one after the other. */
  function Listing(path: Path, entries: seq<Entry>): seq<Item>
    decreases entries, 1
  {
    Items(path, entries) + Deeper(path, entries)
  }

  function Deeper(path: Path, entries: seq<Entry>): seq<Item>
    decreases entries, 0
  {
    if entries == [] then []
    else
      var last := entries[|entries| - 1];
      Deeper(path, entries[..|entries| - 1])
      + if last.node.Dir? then Listing(path + [last.name], last.node.entries) else []
  }

  /** `node` is found by walking down `p` from a directory. */
  ghost predicate Reaches(entries: seq<Entry>, p: Path, node: Node)
    decreases |p|
  {
    p != [] && exists i :: 0 <= i < |entries| && ReachesThrough(entries[i], p, node)
  }

  ghost predicate ReachesThrough(entry: Entry, p: Path, node: Node)
    requires p != []
    decreases |p|, 0
  {
    entry.name == p[0] &&
    if |p| == 1 then node == entry.node else entry.node.Dir? && Reaches(entry.node.entries, p[1..], node)
  }

  lemma ItemsMembers(path: Path, entries: seq<Entry>, it: Item)
    ensures it in Items(path, entries) <==>
            |it.path| == |path| + 1 && Below(it.path, path) && Reaches(entries, it.path[|path|..], it.node)
  {
    var items := Items(path, entries);
    if it in items {
      var i :| 0 <= i < |items| && items[i] == it;
      assert it.path[|path|..] == [entries[i].name];
      assert ReachesThrough(entries[i], it.path[|path|..], it.node);
    }
    if |it.path| == |path| + 1 && Below(it.path, path) && Reaches(entries, it.path[|path|..], it.node) {
      var i :| 0 <= i < |entries| && ReachesThrough(entries[i], it.path[|path|..], it.node);
      assert it.path == path + [entries[i].name];
      assert items[i] == it;
    }
  }

  /** The listing contains exactly what can be reached. */
  lemma {:induction false} ListingMembers(path: Path, entries: seq<Entry>, it: Item)
    ensures it in Listing(path, entries) <==> Below(it.path, path) && Reaches(entries, it.path[|path|..], it.node)
    decreases entries, 1
  {
    ItemsMembers(path, entries, it);
    DeeperMembers(path, entries, it);
  }

  lemma {:induction false} DeeperMembers(path: Path, entries: seq<Entry>, it: Item)
    ensures it in Deeper(path, entries) <==>
            |it.path| > |path| + 1 && Below(it.path, path) && Reaches(entries, it.path[|path|..], it.node)
    decreases entries, 0
  {
    if entries != [] {
      var n := |entries| - 1;
      var front, last := entries[..n], entries[n];
      DeeperMembers(path, front, it);
      var sub := path + [last.name];
      if last.node.Dir? { ListingMembers(sub, last.node.entries, it); }
      BelowSub(it.path, path, last.name);
      if |it.path| > |path| + 1 && Below(it.path, path) {
        var rest := it.path[|path|..];
        assert rest[1..] == it.path[|sub|..];
        assert Reaches(entries, rest, it.node) <==>
            Reaches(front, rest, it.node) || ReachesThrough(last, rest, it.node);
      }
    }
  }

  ghost predicate Distinct(items: seq<Item>) {
    forall i, j :: 0 <= i < j < |items| ==> items[i].path != items[j].path
  }

  ghost predicate Lists(items: seq<Item>, p: Path) {
    exists i :: 0 <= i < |items| && items[i].path == p
  }

  lemma DistinctTogether(a: seq<Item>, b: seq<Item>)
    requires Distinct(a) && Distinct(b) && forall p :: !(Lists(a, p) && Lists(b, p))
    ensures Distinct(a + b)
  {
    forall i, j | 0 <= i < j < |a + b| ensures (a + b)[i].path != (a + b)[j].path {
      if i < |a| <= j { assert Lists(a, a[i].path) && Lists(b, b[j - |a|].path); }
    }
  }

  lemma ItemsAreDistinct(path: Path, entries: seq<Entry>)
    requires DistinctNames(entries)
    ensures Distinct(Items(path, entries))
  {
    var items := Items(path, entries);
    forall i, j | 0 <= i < j < |items| ensures items[i].path != items[j].path {
      assert items[i].path[|path|] == entries[i].name && items[j].path[|path|] == entries[j].name;
    }
  }

  /** Nothing is listed twice. */
  lemma {:induction false} ListingIsDistinct(path: Path, entries: seq<Entry>)
    requires WellFormed(entries)
    ensures Distinct(Listing(path, entries))
    decreases entries, 1
  {
    DeeperIsDistinct(path, entries);
    ItemsAreDistinct(path, entries);
    forall p ensures !(Lists(Items(path, entries), p) && Lists(Deeper(path, entries), p)) {
      ListedBelow(path, entries, p);
    }
    DistinctTogether(Items(path, entries), Deeper(path, entries));
  }

  lemma {:induction false} DeeperIsDistinct(path: Path, entries: seq<Entry>)
    requires WellFormed(entries)
    ensures Distinct(Deeper(path, entries))
    decreases entries, 0
  {
    if entries != [] {
      var n := |entries| - 1;
      var front, last := entries[..n], entries[n];
      DeeperIsDistinct(path, front);
      if last.node.Dir? {
        var sub := path + [last.name];
        ListingIsDistinct(sub, last.node.entries);
        forall p ensures !(Lists(Deeper(path, front), p) && Lists(Listing(sub, last.node.entries), p)) {
          ListedBelow(path, front, p);
          ListedBelow(sub, last.node.entries, p);
          BelowSub(p, path, last.name);
        }
        DistinctTogether(Deeper(path, front), Listing(sub, last.node.entries));
      }
    }
  }

  /** Where listed paths lie. */
  lemma ListedBelow(path: Path, entries: seq<Entry>, p: Path)
    ensures Lists(Items(path, entries), p) ==> |p| == |path| + 1
    ensures Lists(Listing(path, entries), p) ==> Below(p, path)
    ensures Lists(Deeper(path, entries), p) ==>
              |p| > |path| + 1 && Below(p, path) && exists i :: 0 <= i < |entries| && entries[i].name == p[|path|]
  {
    var items, deeper, all := Items(path, entries), Deeper(path, entries), Listing(path, entries);
    if i :| 0 <= i < |all| && all[i].path == p {
      assert all[i] in all;
      ListingMembers(path, entries, all[i]);
    }
    if i :| 0 <= i < |deeper| && deeper[i].path == p {
      assert deeper[i] in deeper;
      DeeperMembers(path, entries, deeper[i]);
      var k :| 0 <= k < |entries| && ReachesThrough(entries[k], p[|path|..], deeper[i].node);
      assert p[|path|..][0] == p[|path|];
    }
  }

  /** Every path below the directory has its own directory listed in front of it. */
  ghost predicate ParentsFirst(path: Path, items: seq<Item>) {
    forall j :: 0 <= j < |items| && |items[j].path| > |path| + 1 ==> ParentBefore(items, j)
  }

  ghost predicate ParentBefore(items: seq<Item>, j: nat)
    requires j < |items|
  {
    items[j].path != [] &&
    exists i :: 0 <= i < j && items[i].node.Dir? && items[i].path == items[j].path[..|items[j].path| - 1]
  }

  lemma ParentBeforeStays(a: seq<Item>, b: seq<Item>, j: nat)
    requires j < |a| && ParentBefore(a, j)
    ensures ParentBefore(a + b, j)
  {
    var i :| 0 <= i < j && a[i].node.Dir? && a[i].path == a[j].path[..|a[j].path| - 1];
    assert (a + b)[i] == a[i];
  }

  lemma {:induction false} ListingHasParentsFirst(path: Path, entries: seq<Entry>)
    ensures ParentsFirst(path, Listing(path, entries))
    decreases entries, |entries| + 1
  {
    assert entries[..|entries|] == entries;
    DeeperHasParentsFirst(path, entries, |entries|);
  }

  lemma {:induction false} DeeperHasParentsFirst(path: Path, entries: seq<Entry>, k: nat)
    requires k <= |entries|
    ensures ParentsFirst(path, Items(path, entries) + Deeper(path, entries[..k]))
    decreases entries, k
  {
    if k > 0 {
      DeeperHasParentsFirst(path, entries, k - 1);
      var front := Items(path, entries) + Deeper(path, entries[..k - 1]);
      var last := entries[k - 1];
      assert entries[..k][..k - 1] == entries[..k - 1];
      if last.node.Dir? {
        var sub := path + [last.name];
        ListingHasParentsFirst(sub, last.node.entries);
        ParentsTogether(path, front, sub, last.node, k - 1);
        assert Items(path, entries) + Deeper(path, entries[..k]) == front + Listing(sub, last.node.entries);
      } else {
        assert Deeper(path, entries[..k]) == Deeper(path, entries[..k - 1]);
      }
    } else {
      var items := Items(path, entries);
      assert forall j :: 0 <= j < |items| ==> |items[j].path| == |path| + 1;
    }
  }

  lemma ParentsTogether(path: Path, front: seq<Item>, sub: Path, node: Node, k: nat)
    requires k < |front| && front[k] == Item(sub, node) && node.Dir?
    requires ParentsFirst(path, front) && ParentsFirst(sub, Listing(sub, node.entries))
    ensures ParentsFirst(path, front + Listing(sub, node.entries))
  {
    var more := Listing(sub, node.entries);
    var all: seq<Item> := front + more;
    forall j | 0 <= j < |all| && |all[j].path| > |path| + 1 ensures ParentBefore(all, j) {
      if j < |front| {
        ParentBeforeStays(front, more, j);
      } else {
        ParentInBoth(front, sub, node, k, more, j - |front|);
      }
    }
  }

  lemma ParentInBoth(front: seq<Item>, sub: Path, node: Node, k: nat, more: seq<Item>, j: nat)
    requires k < |front| && front[k] == Item(sub, node) && node.Dir?
    requires j < |more| && more == Listing(sub, node.entries) && ParentsFirst(sub, more)
    ensures ParentBefore(front + more, |front| + j)
  {
    var p := more[j].path;
    ListedBelow(sub, node.entries, p);
    if |p| > |sub| + 1 {
      assert ParentBefore(more, j);
      var i :| 0 <= i < j && more[i].node.Dir? && more[i].path == p[..|p| - 1];
      assert (front + more)[|front| + i] == more[i];
    } else {
      assert (front + more)[k] == front[k];
    }
  }

  /** The source side: the directory tree and the listing read from it when connecting. */
  class FtpFS {
    const root: seq<Entry>
    var files: seq<Item>

    constructor (root: seq<Entry>)
      requires WellFormed(root)
      ensures this.root == root && files == Listing([], root)
    {
      this.root, files := root, [];
      new;
      GetFiles([], root);
    }

    /** Fills `files` with all entries of a directory before going into its directories. */
    method GetFiles(path: Path, entries: seq<Entry>)
      requires WellFormed(entries) && NoneBelow(files, path)
      modifies this`files
      ensures files == old(files) + Listing(path, entries)
      decreases entries, 1
    {
      var dirs := ListDir(path, entries);
      ghost var top := files;
      assert top + Inside(dirs[..0]) == top;
      for k := 0 to |dirs|
        invariant files == top + Inside(dirs[..k])
      {
        NoneBelowNext(old(files), path, entries, k);
        DirsAreEntries(path, entries, k);
        ghost var i :| 0 <= i < |entries| && IsDir(path, entries, k, i);
        GetFiles(dirs[k].path, dirs[k].node.entries);
        InsideOneMore(top, dirs, k);
      }
      AllInside(old(files), path, entries);
    }

    /** The first loop: every entry is noted, directories are remembered. */
    method ListDir(path: Path, entries: seq<Entry>) returns (dirs: seq<Item>)
      requires DistinctNames(entries) && NoneBelow(files, path)
      modifies this`files
      ensures dirs == Dirs(path, entries)
      ensures files == old(files) + Items(path, entries)
      decreases entries, 0
    {
      dirs := [];
      for i := 0 to |entries|
        invariant dirs == Dirs(path, entries[..i])
        invariant files == old(files) + Items(path, entries)[..i]
      {
        var item := Item(path + [entries[i].name], entries[i].node);
        StoreNew(old(files), path, entries, i);
        if item.node.Dir? { dirs := dirs + [item]; }
        files := Store(files, item);
        assert entries[..i + 1][..i] == entries[..i];
      }
      assert entries[..|entries|] == entries;
      assert Items(path, entries)[..|entries|] == Items(path, entries);
    }
  }

  lemma InsideOneMore(top: seq<Item>, dirs: seq<Item>, k: nat)
    requires k < |dirs| && dirs[k].node.Dir?
    ensures top + Inside(dirs[..k]) + Listing(dirs[k].path, dirs[k].node.entries) == top + Inside(dirs[..k + 1])
  {
    assert dirs[..k + 1][..k] == dirs[..k];
  }

  lemma AllInside(before: seq<Item>, path: Path, entries: seq<Entry>)
    ensures var dirs := Dirs(path, entries);
            before + Items(path, entries) + Inside(dirs[..|dirs|]) == before + Listing(path, entries)
  {
    var dirs := Dirs(path, entries);
    assert dirs[..|dirs|] == dirs;
    InsideIsDeeper(path, entries);
  }

  /** Assignment to a dictionary: a listed path keeps its place. */
  function Store(files: seq<Item>, item: Item): seq<Item> {
    if files == [] then [item]
    else if files[0].path == item.path then [item] + files[1..]
    else [files[0]] + Store(files[1..], item)
  }

  lemma {:induction false} StoreAppends(files: seq<Item>, item: Item)
    requires forall j :: 0 <= j < |files| ==> files[j].path != item.path
    ensures Store(files, item) == files + [item]
  {
    if files != [] { StoreAppends(files[1..], item); }
  }

  ghost predicate NoneBelow(files: seq<Item>, path: Path) {
    forall j :: 0 <= j < |files| ==> !Below(files[j].path, path)
  }

  lemma StoreNew(before: seq<Item>, path: Path, entries: seq<Entry>, i: nat)
    requires DistinctNames(entries) && NoneBelow(before, path) && i < |entries|
    ensures var item := Item(path + [entries[i].name], entries[i].node);
            Store(before + Items(path, entries)[..i], item) == before + Items(path, entries)[..i + 1]
  {
    var items := Items(path, entries);
    var item := items[i];
    assert Below(item.path, path);
    ItemsAreDistinct(path, entries);
    var files: seq<Item> := before + items[..i];
    forall j | 0 <= j < |files| ensures files[j].path != item.path {
      if j >= |before| { assert files[j] == items[j - |before|]; }
    }
    StoreAppends(files, item);
    assert files + [item] == before + items[..i + 1];
  }

  /** The listings of some directories, one after the other. */
  function Inside(dirs: seq<Item>): seq<Item> {
    if dirs == [] then []
    else
      var last := dirs[|dirs| - 1];
      Inside(dirs[..|dirs| - 1]) + if last.node.Dir? then Listing(last.path, last.node.entries) else []
  }

  lemma {:induction false} InsideIsDeeper(path: Path, entries: seq<Entry>)
    ensures Inside(Dirs(path, entries)) == Deeper(path, entries)
  {
    if entries != [] {
      var n := |entries| - 1;
      InsideIsDeeper(path, entries[..n]);
      var dirs := Dirs(path, entries);
      if entries[n].node.Dir? {
        assert dirs[..|dirs| - 1] == Dirs(path, entries[..n]);
      } else {
        assert dirs == Dirs(path, entries[..n]);
      }
    }
  }

  lemma {:induction false} DirsAreEntries(path: Path, entries: seq<Entry>, k: nat)
    requires k < |Dirs(path, entries)|
    ensures exists i :: 0 <= i < |entries| && IsDir(path, entries, k, i)
  {
    var n := |entries| - 1;
    var dirs, front := Dirs(path, entries), Dirs(path, entries[..n]);
    if k < |front| {
      DirsAreEntries(path, entries[..n], k);
      var i :| 0 <= i < n && IsDir(path, entries[..n], k, i);
      assert entries[..n][..i] == entries[..i] && entries[..n][i] == entries[i];
      assert dirs[..k] == front[..k];
      assert IsDir(path, entries, k, i);
    } else {
      assert dirs[..k] == front;
      assert IsDir(path, entries, k, n);
    }
  }

  /** The directory at `k` comes from the entry at `i`. */
  ghost predicate IsDir(path: Path, entries: seq<Entry>, k: nat, i: nat)
    requires k < |Dirs(path, entries)| && i < |entries|
  {
    && entries[i].node.Dir?
    && Dirs(path, entries)[k] == Item(path + [entries[i].name], entries[i].node)
    && Dirs(path, entries)[..k] == Dirs(path, entries[..i])
  }

  /** Nothing listed so far lies in the directory to go into next. */
  lemma NoneBelowNext(before: seq<Item>, path: Path, entries: seq<Entry>, k: nat)
    requires DistinctNames(entries) && NoneBelow(before, path) && k < |Dirs(path, entries)|
    ensures NoneBelow(before + Items(path, entries) + Inside(Dirs(path, entries)[..k]), Dirs(path, entries)[k].path)
  {
    DirsAreEntries(path, entries, k);
    var i :| 0 <= i < |entries| && IsDir(path, entries, k, i);
    var dir := path + [entries[i].name];
    var inside := Inside(Dirs(path, entries)[..k]);
    InsideIsDeeper(path, entries[..i]);
    forall j | 0 <= j < |before| ensures !Below(before[j].path, dir) {
      BelowSub(before[j].path, path, entries[i].name);
    }
    forall j | 0 <= j < |inside| ensures !Below(inside[j].path, dir) {
      var p := inside[j].path;
      ListedBelow(path, entries[..i], p);
      assert Lists(inside, p);
      BelowSub(p, path, entries[i].name);
    }
    var items := Items(path, entries);
    assert NoneBelow(before, dir) && NoneBelow(inside, dir);
    assert NoneBelow(items, dir) by { assert forall j :: 0 <= j < |items| ==> |items[j].path| == |dir|; }
    NoneBelowTogether(before, items, dir);
    NoneBelowTogether(before + items, inside, dir);
  }

  lemma NoneBelowTogether(a: seq<Item>, b: seq<Item>, dir: Path)
    requires NoneBelow(a, dir) && NoneBelow(b, dir)
    ensures NoneBelow(a + b, dir)
  {
  }

  // ---------------------------------------------------------------- synchronising

  /** A path of the target, with the size and time its listing shows. */
  datatype Stored =
    | Object(content: seq<bv8>, mtime: int)
    | Directory(size: nat, mtime: int)

  type Tree = map<Path, Stored>

  datatype Trouble = MissingParent(path: Path) | Conflict(path: Path)

  function SizeOf(s: Stored): nat {
    match s
    case Object(content, _) => |content|
    case Directory(size, _) => size
  }

  function ModifiedAt(mtime: Option<int>): int {
    match mtime
    case Some(t) => t
    case None => 0
  }

  /** The regular file is missing in the target, has another size there, or is newer than it is there. */
  predicate NeedsCopy(item: Item, seen: Tree) {
    item.node.File? &&
    (item.path !in seen || |item.node.content| != SizeOf(seen[item.path]) ||
     ModifiedAt(item.node.mtime) > seen[item.path].mtime)
  }

  function Copies(items: seq<Item>, seen: Tree): nat {
    if items == [] then 0
    else Copies(items[..|items| - 1], seen) + if NeedsCopy(items[|items| - 1], seen) then 1 else 0
  }

  /** The path is a directory on one side and a file on the other. */
  ghost predicate InConflict(items: seq<Item>, seen: Tree, p: Path) {
    p in seen && exists i :: 0 <= i < |items| && items[i].path == p && (items[i].node.Dir? <==> seen[p].Object?)
  }

  /** Every path of the target but the top ones lies in a directory of the target. */
  ghost predicate HasParents(t: Tree) {
    forall p :: p in t && |p| > 1 ==> p[..|p| - 1] in t && t[p[..|p| - 1]].Directory?
  }

  /** What synchronising one listed path leaves at that path. */
  ghost predicate Done(item: Item, seen: Tree, after: Tree, flat: bool, stamp: Path -> int) {
    match item.node
    case File(content, mtime) =>
      item.path in after &&
      after[item.path] == if NeedsCopy(item, seen) then Object(content, stamp(item.path)) else seen[item.path]
    case Dir(_) =>
      if item.path in seen then item.path in after && after[item.path] == seen[item.path]
      else if flat then item.path !in after
      else item.path in after && after[item.path].Directory?
  }

  ghost predicate Synced(items: seq<Item>, seen: Tree, after: Tree, flat: bool, stamp: Path -> int) {
    && (forall i :: 0 <= i < |items| ==> Done(items[i], seen, after, flat, stamp))
    && (forall p :: !Lists(items, p) ==> (p in after <==> p in seen) && (p in seen ==> after[p] == seen[p]))
  }

  /** The target lacks the file, has another size there, or is older than the source records; without a record,
      the source counts as from the beginning of time. */
  ghost predicate Due(p: Path, content: seq<bv8>, mtime: Option<int>, seen: Tree) {
    || p !in seen
    || (seen[p].Object? && |seen[p].content| != |content|) || (seen[p].Directory? && seen[p].size != |content|)
    || (mtime.Some? && seen[p].mtime < mtime.value) || (mtime.None? && seen[p].mtime < 0)
  }

  /** A file is written exactly if it is due. */
  ghost predicate FileSynced(p: Path, content: seq<bv8>, mtime: Option<int>, seen: Tree, after: Tree,
                             stamp: Path -> int)
  {
    p in after && after[p] == if Due(p, content, mtime, seen) then Object(content, stamp(p)) else seen[p]
  }

  /** The paths of the files that are due. */
  ghost function Written(items: seq<Item>, seen: Tree): set<Path> {
    set item | item in items && item.node.File? && Due(item.path, item.node.content, item.node.mtime, seen) :: item.path
  }

  lemma LastIsNew(items: seq<Item>)
    requires items != [] && Distinct(items)
    ensures forall item :: item in items[..|items| - 1] ==> item.path != items[|items| - 1].path
  {
    var n := |items| - 1;
    forall item | item in items[..n] ensures item.path != items[n].path {
      var i :| 0 <= i < n && items[..n][i] == item;
      assert items[i].path != items[n].path;
    }
  }

  lemma WrittenOneMore(front: seq<Item>, last: Item, seen: Tree)
    requires forall item :: item in front ==> item.path != last.path
    ensures last.path !in Written(front, seen)
    ensures Written(front + [last], seen) == Written(front, seen) + if NeedsCopy(last, seen) then {last.path} else {}
  {
  }

  lemma {:induction false} CopiesAreWritten(items: seq<Item>, seen: Tree)
    requires Distinct(items)
    ensures Copies(items, seen) == |Written(items, seen)|
  {
    if items != [] {
      var n := |items| - 1;
      CopiesAreWritten(items[..n], seen);
      LastIsNew(items);
      WrittenOneMore(items[..n], items[n], seen);
      assert items == items[..n] + [items[n]];
    }
  }

  lemma SyncedAsFile(item: Item, seen: Tree, after: Tree, flat: bool, stamp: Path -> int)
    requires Done(item, seen, after, flat, stamp) && item.node.File?
    ensures FileSynced(item.path, item.node.content, item.node.mtime, seen, after, stamp)
  {
  }

  /** The path cannot be made or written: something is to be done for it, and the target has a file where its
      directory should be, or a directory where the file should be. */
  predicate Blocked(item: Item, seen: Tree) {
    var p := item.path;
    && (if item.node.Dir? then p !in seen else NeedsCopy(item, seen))
    && (|| (|p| > 1 && p[..|p| - 1] in seen && seen[p[..|p| - 1]].Object?)
        || (item.node.File? && p in seen && seen[p].Directory?))
  }

  class Target {
    /** An object store knows no directories: making one does nothing, and writing needs none. */
    const flat: bool
    /** When a write is stamped, by path. */
    const stamp: Path -> int
    var tree: Tree

    constructor (flat: bool, stamp: Path -> int, tree: Tree)
      ensures this.flat == flat && this.stamp == stamp && this.tree == tree
    {
      this.flat, this.stamp, this.tree := flat, stamp, tree;
    }

    /** What keeps a path from being made or written. */
    function Obstacle(p: Path, dir: bool): Option<Trouble>
      reads this
    {
      if flat then None
      else if |p| > 1 && p[..|p| - 1] !in tree then Some(MissingParent(p[..|p| - 1]))
      else if |p| > 1 && tree[p[..|p| - 1]].Object? then Some(Conflict(p[..|p| - 1]))
      else if p in tree && (dir || tree[p].Directory?) then Some(Conflict(p))
      else None
    }

    method Mkdir(p: Path) returns (trouble: Option<Trouble>)
      modifies this`tree
      ensures trouble == old(Obstacle(p, true))
      ensures tree == if trouble.Some? || flat then old(tree) else old(tree)[p := Directory(0, stamp(p))]
    {
      trouble := Obstacle(p, true);
      if trouble.None? && !flat { tree := tree[p := Directory(0, stamp(p))]; }
    }

    method Put(p: Path, content: seq<bv8>) returns (trouble: Option<Trouble>)
      modifies this`tree
      ensures trouble == old(Obstacle(p, false))
      ensures tree == if trouble.Some? then old(tree) else old(tree)[p := Object(content, stamp(p))]
    {
      trouble := Obstacle(p, false);
      if trouble.None? { tree := tree[p := Object(content, stamp(p))]; }
    }

    /** Brings the target up to date with a listing that has parents first, and counts the copies. The
        target's own listing `seen` is taken before. The only thing that can go wrong is a path that is a
        directory on one side and a file on the other: nothing is ever written into a missing directory. It
        stops at the first path that is blocked, with all in front of it brought up to date and no other
        touched. */
    method Sync(items: seq<Item>) returns (r: Result<nat, Trouble>, ghost done: nat)
      requires Distinct(items) && ParentsFirst([], items)
      modifies this`tree
      ensures done <= |items| && Synced(items[..done], old(tree), tree, flat, stamp)
      ensures flat || forall j :: 0 <= j < done ==> !Blocked(items[j], old(tree))
      ensures forall j :: 0 <= j < done && items[j].node.File? ==>
                FileSynced(items[j].path, items[j].node.content, items[j].node.mtime, old(tree), tree, stamp)
      ensures r.Ok? ==> done == |items| && items[..done] == items && r.value == Copies(items, old(tree))
      ensures r.Ok? ==> r.value == |Written(items, old(tree))|
      ensures r.Err? ==> !flat && done < |items| && Blocked(items[done], old(tree))
      ensures r.Err? ==> r.error.Conflict? && InConflict(items, old(tree), r.error.path)
    {
      r, done := SyncAll(items);
      FilesSynced(items, done, old(tree), tree, flat, stamp);
      CopiesAreWritten(items, old(tree));
    }

    /** The loop over the listing. */
    method SyncAll(items: seq<Item>) returns (r: Result<nat, Trouble>, ghost done: nat)
      requires Distinct(items) && ParentsFirst([], items)
      modifies this`tree
      ensures done <= |items| && Synced(items[..done], old(tree), tree, flat, stamp)
      ensures flat || forall j :: 0 <= j < done ==> !Blocked(items[j], old(tree))
      ensures r.Ok? ==> done == |items| && items[..done] == items && r.value == Copies(items, old(tree))
      ensures r.Err? ==> !flat && done < |items| && Blocked(items[done], old(tree))
      ensures r.Err? ==> r.error.Conflict? && InConflict(items, old(tree), r.error.path)
    {
      var seen := tree;
      var synced := 0;
      done := 0;
      for i := 0 to |items|
        invariant done == i && synced == Copies(items[..i], seen)
        invariant Synced(items[..i], seen, tree, flat, stamp)
        invariant flat || forall j :: 0 <= j < i ==> !Blocked(items[j], seen)
      {
        var copied, trouble := SyncOne(items, i, seen);
        if trouble.Some? { return Err(trouble.value), i; }
        assert items[..i + 1][..i] == items[..i];
        if copied { synced := synced + 1; }
        done := i + 1;
      }
      assert items[..|items|] == items;
      r := Ok(synced);
    }

    /** One turn of the loop. */
    method SyncOne(items: seq<Item>, i: nat, seen: Tree) returns (copied: bool, trouble: Option<Trouble>)
      requires Distinct(items) && ParentsFirst([], items) && i < |items|
      requires Synced(items[..i], seen, tree, flat, stamp)
      modifies this`tree
      ensures trouble.None? ==>
                && Synced(items[..i + 1], seen, tree, flat, stamp) && (flat || !Blocked(items[i], seen))
                && (copied <==> NeedsCopy(items[i], seen))
      ensures trouble.Some? ==>
                && tree == old(tree) && !flat && Blocked(items[i], seen)
                && trouble.value.Conflict? && InConflict(items, seen, trouble.value.path)
    {
      var item := items[i];
      copied, trouble := false, None;
      ghost var before := tree;
      ParentIsThere(items, i, seen, tree, flat, stamp);
      if item.node.Dir? {
        if item.path !in seen { trouble := Mkdir(item.path); }
      } else if item.path !in seen || |item.node.content| != SizeOf(seen[item.path])
                || ModifiedAt(item.node.mtime) > seen[item.path].mtime {
        trouble := Put(item.path, item.node.content);
        copied := true;
      }
      if trouble.None? { SyncedOneMore(items, i, seen, before, tree, flat, stamp); }
    }
  }

  lemma FilesSynced(items: seq<Item>, n: nat, seen: Tree, after: Tree, flat: bool, stamp: Path -> int)
    requires n <= |items| && Synced(items[..n], seen, after, flat, stamp)
    ensures forall j :: 0 <= j < n && items[j].node.File? ==>
              FileSynced(items[j].path, items[j].node.content, items[j].node.mtime, seen, after, stamp)
  {
    forall j | 0 <= j < n && items[j].node.File?
      ensures FileSynced(items[j].path, items[j].node.content, items[j].node.mtime, seen, after, stamp)
    {
      assert Done(items[..n][j], seen, after, flat, stamp);
      SyncedAsFile(items[j], seen, after, flat, stamp);
    }
  }

  lemma ParentIsThere(items: seq<Item>, i: nat, seen: Tree, tree: Tree, flat: bool, stamp: Path -> int)
    requires i < |items| && Distinct(items) && ParentsFirst([], items) && Synced(items[..i], seen, tree, flat, stamp)
    ensures var p := items[i].path;
            && (p in tree <==> p in seen) && (p in seen ==> tree[p] == seen[p])
            && (!flat && |p| > 1 ==>
                  && p[..|p| - 1] in tree
                  && (tree[p[..|p| - 1]].Object? <==> p[..|p| - 1] in seen && seen[p[..|p| - 1]].Object?)
                  && (tree[p[..|p| - 1]].Object? ==> InConflict(items, seen, p[..|p| - 1])))
  {
    var p := items[i].path;
    assert !Lists(items[..i], p);
    if !flat && |p| > 1 {
      assert ParentBefore(items, i);
      var j :| 0 <= j < i && items[j].node.Dir? && items[j].path == p[..|p| - 1];
      assert items[..i][j] == items[j];
      assert Done(items[j], seen, tree, flat, stamp);
    }
  }

  lemma SyncedOneMore(items: seq<Item>, i: nat, seen: Tree, before: Tree, after: Tree, flat: bool, stamp: Path -> int)
    requires i < |items| && Distinct(items) && Synced(items[..i], seen, before, flat, stamp)
    requires forall p :: p != items[i].path ==> (p in after <==> p in before) && (p in before ==> after[p] == before[p])
    requires Done(items[i], seen, after, flat, stamp)
    ensures Synced(items[..i + 1], seen, after, flat, stamp)
  {
    var front, more := items[..i], items[..i + 1];
    forall j | 0 <= j <= i ensures Done(more[j], seen, after, flat, stamp) {
      if j < i { assert Done(front[j], seen, before, flat, stamp); }
    }
    forall p | !Lists(more, p) ensures (p in after <==> p in seen) && (p in seen ==> after[p] == seen[p]) {
      assert more[i].path == items[i].path;
      assert forall j :: 0 <= j < i ==> front[j] == more[j];
      assert !Lists(front, p);
    }
  }

  /** After synchronising, every source file is in the target with the size it has in the source; its
      content is the source's exactly if it was copied or had been the same before. */
  lemma SyncedFiles(items: seq<Item>, seen: Tree, after: Tree, flat: bool, stamp: Path -> int, i: nat)
    requires Synced(items, seen, after, flat, stamp) && i < |items| && items[i].node.File?
    requires !InConflict(items, seen, items[i].path)
    ensures items[i].path in after && after[items[i].path].Object?
    ensures SizeOf(after[items[i].path]) == |items[i].node.content|
    ensures after[items[i].path].content == items[i].node.content <==>
            NeedsCopy(items[i], seen) || seen[items[i].path].content == items[i].node.content
  {
    assert Done(items[i], seen, after, flat, stamp);
  }

  /** A second run, from fresh listings of both sides, copies a file again exactly if the first run copied
      it and the target stamped it earlier than the source did. */
  lemma SecondRunCopies(items: seq<Item>, seen: Tree, after: Tree, flat: bool, stamp: Path -> int, i: nat)
    requires Synced(items, seen, after, flat, stamp) && i < |items|
    ensures NeedsCopy(items[i], after) <==>
            NeedsCopy(items[i], seen) && stamp(items[i].path) < ModifiedAt(items[i].node.mtime)
  {
    assert Done(items[i], seen, after, flat, stamp);
  }

  /** With stamps no earlier than the source's times the second run copies nothing. */
  lemma {:induction false} SecondRunIsIdle(items: seq<Item>, seen: Tree, after: Tree, flat: bool, stamp: Path -> int,
                                           n: nat)
    requires Synced(items, seen, after, flat, stamp) && n <= |items|
    requires forall i :: 0 <= i < |items| && items[i].node.File? ==>
             stamp(items[i].path) >= ModifiedAt(items[i].node.mtime)
    ensures Copies(items[..n], after) == 0
  {
    if n > 0 {
      SecondRunIsIdle(items, seen, after, flat, stamp, n - 1);
      SecondRunCopies(items, seen, after, flat, stamp, n - 1);
      assert items[..n][..n - 1] == items[..n - 1];
    }
  }

  /** Without conflicts the target stays a tree. */
  lemma SyncKeepsTheTree(items: seq<Item>, seen: Tree, after: Tree, stamp: Path -> int)
    requires Synced(items, seen, after, false, stamp) && ParentsFirst([], items)
    requires HasParents(seen) && forall p :: !InConflict(items, seen, p)
    ensures HasParents(after)
  {
    forall p | p in after && |p| > 1 ensures p[..|p| - 1] in after && after[p[..|p| - 1]].Directory? {
      var q := p[..|p| - 1];
      if p in seen {
        StaysDirectory(items, seen, after, stamp, q);
      } else {
        var i :| 0 <= i < |items| && items[i].path == p;
        assert ParentBefore(items, i);
        var j :| 0 <= j < i && items[j].node.Dir? && items[j].path == q;
        assert Done(items[j], seen, after, false, stamp);
        assert !InConflict(items, seen, q);
      }
    }
  }

  lemma StaysDirectory(items: seq<Item>, seen: Tree, after: Tree, stamp: Path -> int, q: Path)
    requires Synced(items, seen, after, false, stamp) && q in seen && seen[q].Directory? && !InConflict(items, seen, q)
    ensures q in after && after[q].Directory?
  {
    if i :| 0 <= i < |items| && items[i].path == q {
      assert Done(items[i], seen, after, false, stamp);
    } else {
      assert !Lists(items, q);
    }
  }

  /** Connecting to a source and synchronising: what is listed satisfies what `Sync` asks for. */
  method SyncFrom(root: seq<Entry>, trg: Target) returns (r: Result<nat, Trouble>, ghost done: nat)
    requires WellFormed(root)
    modifies trg`tree
    ensures var items := Listing([], root);
            && done <= |items| && Synced(items[..done], old(trg.tree), trg.tree, trg.flat, trg.stamp)
            && (forall j :: 0 <= j < done && items[j].node.File? ==>
                  FileSynced(items[j].path, items[j].node.content, items[j].node.mtime, old(trg.tree), trg.tree,
                             trg.stamp))
            && (r.Ok? ==> r.value == |Written(items, old(trg.tree))|)
            && (r.Ok? <==> trg.flat || forall j :: 0 <= j < |items| ==> !Blocked(items[j], old(trg.tree)))
            && (r.Ok? ==> done == |items| && items[..done] == items && r.value == Copies(items, old(trg.tree)))
            && (r.Err? ==>
                  && done < |items| && Blocked(items[done], old(trg.tree))
                  && InConflict(items, old(trg.tree), r.error.path))
  {
    var src := new FtpFS(root);
    ListingIsDistinct([], root);
    ListingHasParentsFirst([], root);
    r, done := trg.Sync(src.files);
  }
}
