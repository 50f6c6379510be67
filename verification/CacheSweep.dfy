/** Removing stale files from the cache: a worklist over a directory tree, against what it should remove. */
module CacheSweep {

  import opened PartPlan

  /** A directory that cannot be listed has nothing in it as far as the sweep sees. */
  datatype Node = File(name: string, written: u64) | Directory(name: string, children: seq<Node>, readable: bool)

  datatype Found = Found(path: string, written: u64)

  function PathOf(dir: string, n: Node): string {
    dir + "\\" + n.name
  }

  // ------------------------------------------------------ what is to be removed

  /** Every file below a directory, however deep. */
  function FilesBelow(path: string, children: seq<Node>): seq<Found>
    decreases children
  {
    if children == [] then []
    else
      var last := children[|children| - 1];
      FilesBelow(path, children[..|children| - 1]) + FilesAt(PathOf(path, last), last)
  }

  function FilesAt(path: string, n: Node): seq<Found>
    decreases n
  {
    match n
    case File(_, written) => [Found(path, written)]
    case Directory(_, children, readable) => if readable then FilesBelow(path, children) else []
  }

  /** Which files go: older than the cutoff, not protected, and `canDelete` says where the delete succeeds. */
  datatype Policy = Policy(cutoff: u64, keep: string -> bool, canDelete: string -> bool)

  predicate Stale(f: Found, g: Policy) {
    f.written < g.cutoff && !g.keep(f.path) && g.canDelete(f.path)
  }

  /** The stale files among them. */
  function StaleFiles(fs: seq<Found>, g: Policy): multiset<string> {
    if fs == [] then multiset{}
    else
      var f := fs[|fs| - 1];
      StaleFiles(fs[..|fs| - 1], g) + if Stale(f, g) then multiset{f.path} else multiset{}
  }

  lemma {:induction false} StaleAppend(a: seq<Found>, b: seq<Found>, g: Policy)
    ensures StaleFiles(a + b, g) == StaleFiles(a, g) + StaleFiles(b, g)
  {
    if b == [] {
      assert a + b == a;
    } else {
      assert (a + b)[..|a + b| - 1] == a + b[..|b| - 1];
      StaleAppend(a, b[..|b| - 1], g);
    }
  }

  /** A path is among them exactly if it is that of a stale file that was found: never a directory, never a kept one. */
  lemma {:induction false} StaleFilesIff(fs: seq<Found>, g: Policy, path: string)
    ensures path in StaleFiles(fs, g) <==> exists k :: 0 <= k < |fs| && fs[k].path == path && Stale(fs[k], g)
  {
    if fs != [] {
      var front, last := fs[..|fs| - 1], |fs| - 1;
      StaleFilesIff(front, g, path);
      if path in StaleFiles(front, g) {
        var k :| 0 <= k < |front| && front[k].path == path && Stale(front[k], g);
        assert fs[k] == front[k];
      }
      if k :| 0 <= k < |fs| && fs[k].path == path && Stale(fs[k], g) {
        if k < last {
          assert front[k] == fs[k];
        }
      }
    }
  }

  // --------------------------------------------------------------- the worklist

  datatype Todo = Todo(path: string, dir: Node)

  /** Stale files in everything still on the worklist. */
  function StaleIn(todo: seq<Todo>, g: Policy): multiset<string> {
    if todo == [] then multiset{}
    else
      var t := todo[|todo| - 1];
      StaleIn(todo[..|todo| - 1], g) + StaleFiles(FilesAt(t.path, t.dir), g)
  }

  function Size(n: Node): nat
    decreases n
  {
    1 + if n.Directory? then SizeOf(n.children) else 0
  }

  function SizeOf(children: seq<Node>): nat
    decreases children
  {
    if children == [] then 0 else SizeOf(children[..|children| - 1]) + Size(children[|children| - 1])
  }

  function SizeOfTodo(todo: seq<Todo>): nat {
    if todo == [] then 0 else SizeOfTodo(todo[..|todo| - 1]) + Size(todo[|todo| - 1].dir)
  }

  lemma StaleInOneMore(todo: seq<Todo>, t: Todo, g: Policy)
    ensures StaleIn(todo + [t], g) == StaleIn(todo, g) + StaleFiles(FilesAt(t.path, t.dir), g)
    ensures SizeOfTodo(todo + [t]) == SizeOfTodo(todo) + Size(t.dir)
  {
    assert (todo + [t])[..|todo|] == todo;
  }

  lemma OneMoreChild(path: string, children: seq<Node>, k: nat, g: Policy)
    requires k < |children|
    ensures StaleFiles(FilesBelow(path, children[..k + 1]), g)
         == StaleFiles(FilesBelow(path, children[..k]), g)
            + StaleFiles(FilesAt(PathOf(path, children[k]), children[k]), g)
    ensures SizeOf(children[..k + 1]) == SizeOf(children[..k]) + Size(children[k])
  {
    assert children[..k + 1][..k] == children[..k];
    StaleAppend(FilesBelow(path, children[..k]), FilesAt(PathOf(path, children[k]), children[k]), g);
  }

  lemma OneFile(path: string, n: Node, g: Policy)
    requires n.File?
    ensures StaleFiles(FilesAt(path, n), g)
         == if Stale(Found(path, n.written), g) then multiset{path} else multiset{}
  {
    assert [Found(path, n.written)][..0] == [];
  }

  /** `deleted` lists the paths whose delete succeeded. */
  method Sweep(root: string, tree: Node, g: Policy) returns (removed: nat, deleted: seq<string>)
    requires tree.Directory?
    ensures removed == |deleted|
    ensures multiset(deleted) == if root == "" then multiset{} else StaleFiles(FilesAt(root, tree), g)
  {
    removed, deleted := 0, [];
    if root == "" {
      return;
    }
    var dirs := [Todo(root, tree)];
    StaleInOneMore([], Todo(root, tree), g);
    assert [] + [Todo(root, tree)] == [Todo(root, tree)];
    while dirs != []
      invariant forall k :: 0 <= k < |dirs| ==> dirs[k].dir.Directory?
      invariant removed == |deleted|
      invariant multiset(deleted) + StaleIn(dirs, g) == StaleFiles(FilesAt(root, tree), g)
      decreases SizeOfTodo(dirs)
    {
      var next := dirs[|dirs| - 1];
      dirs := dirs[..|dirs| - 1];
      if next.dir.readable {
        dirs, removed, deleted := SweepOne(next.path, next.dir.children, g, dirs, removed, deleted);
      }
    }
  }

  /** One directory: its subdirectories go on the worklist, its stale files go. */
  method SweepOne(path: string, children: seq<Node>, g: Policy,
                  before: seq<Todo>, count: nat, gone: seq<string>)
    returns (dirs: seq<Todo>, removed: nat, deleted: seq<string>)
    requires count == |gone| && forall k :: 0 <= k < |before| ==> before[k].dir.Directory?
    ensures removed == |deleted| && forall k :: 0 <= k < |dirs| ==> dirs[k].dir.Directory?
    ensures multiset(deleted) + StaleIn(dirs, g)
         == multiset(gone) + StaleIn(before, g) + StaleFiles(FilesBelow(path, children), g)
    ensures SizeOfTodo(dirs) <= SizeOfTodo(before) + SizeOf(children)
  {
    dirs, removed, deleted := before, count, gone;
    var k := 0;
    while k < |children|
      invariant 0 <= k <= |children| && removed == |deleted| && forall j :: 0 <= j < |dirs| ==> dirs[j].dir.Directory?
      invariant multiset(deleted) + StaleIn(dirs, g)
             == multiset(gone) + StaleIn(before, g) + StaleFiles(FilesBelow(path, children[..k]), g)
      invariant SizeOfTodo(dirs) <= SizeOfTodo(before) + SizeOf(children[..k])
    {
      OneMoreChild(path, children, k, g);
      dirs, removed, deleted := SweepEntry(PathOf(path, children[k]), children[k], g, dirs, removed, deleted);
      k := k + 1;
    }
    assert children[..|children|] == children;
  }

  method SweepEntry(path: string, entry: Node, g: Policy,
                    before: seq<Todo>, count: nat, gone: seq<string>)
    returns (dirs: seq<Todo>, removed: nat, deleted: seq<string>)
    requires count == |gone| && forall k :: 0 <= k < |before| ==> before[k].dir.Directory?
    ensures removed == |deleted| && forall k :: 0 <= k < |dirs| ==> dirs[k].dir.Directory?
    ensures multiset(deleted) + StaleIn(dirs, g)
         == multiset(gone) + StaleIn(before, g) + StaleFiles(FilesAt(path, entry), g)
    ensures SizeOfTodo(dirs) <= SizeOfTodo(before) + Size(entry)
  {
    dirs, removed, deleted := before, count, gone;
    if entry.Directory? {
      StaleInOneMore(dirs, Todo(path, entry), g);
      dirs := dirs + [Todo(path, entry)];
      return;
    }
    OneFile(path, entry, g);
    if entry.written < g.cutoff {
      if g.keep(path) {
        return;
      }
      if g.canDelete(path) {
        deleted := deleted + [path];
        removed := removed + 1;
      }
    }
  }

  // ------------------------------------------------------------------- the cutoff

  /** 100-nanosecond ticks of a day. */
  const DAY: nat := 24 * 3600 * 10000000

  /** What `CleanupStale` passes on, in unsigned 64-bit arithmetic. */
  function Cutoff(now: u64, days: int): u64 {
    Wrap(now - Wrap(Wrap(days) * DAY))
  }

  /** A file counts as stale after `days` days exactly as long as that many days fit between 1601 and now; beyond, the
      cutoff wraps round and is no longer that moment. */
  lemma CutoffIsDaysAgoIff(now: u64, days: int)
    requires 0 < days <= MAX_INT
    ensures Cutoff(now, days) as int == now as int - days * DAY <==> days * DAY <= now
  {
    var ticks := days * DAY;
    assert Wrap(days) == days;
    if ticks <= now {
      assert Wrap(ticks) == ticks;
      assert Wrap(now - ticks) == now - ticks;
    }
  }
}
