/** The recursive walk that denies everything under the home directory which does
    not lead to an allowed path, over a directory graph that may be cyclic. */
module DenyCover {

  type Path = seq<string>

  datatype Entry = Entry(name: string, target: nat)

  /** What a name leads to, symbolic links followed. */
  datatype Node =
    | File
    | Broken
    | Dir(readable: bool, entries: seq<Entry>)

  type Disk = map<nat, Node>

  function At(disk: Disk, n: nat): Node {
    if n in disk then disk[n] else Broken
  }

  predicate DistinctNames(es: seq<Entry>) {
    forall i, j :: 0 <= i < j < |es| ==> es[i].name != es[j].name
  }

  predicate WellFormed(disk: Disk) {
    forall n :: n in disk && disk[n].Dir? ==> DistinctNames(disk[n].entries)
  }

  predicate AllReadable(disk: Disk) {
    forall n :: n in disk && disk[n].Dir? ==> disk[n].readable
  }

  datatype Deny = Deny(path: Path, isDir: bool)

  // A directory pattern reaches everything below the directory, a file pattern one file.
  predicate Covers(d: Deny, p: Path) {
    if d.isDir then d.path < p else d.path == p
  }

  // ---------- one directory ----------

  function Heads(relevant: seq<Path>): set<string> {
    set p | p in relevant && p != [] && p[0] != "" :: p[0]
  }

  /** The allowed paths through `name`, their first segment stripped. */
  function Children(relevant: seq<Path>, name: string): seq<Path> {
    if relevant == [] then []
    else if relevant[0] != [] && relevant[0][0] == name then
      [relevant[0][1..]] + Children(relevant[1..], name)
    else Children(relevant[1..], name)
  }

  function Total(relevant: seq<Path>): nat {
    if relevant == [] then 0 else |relevant[0]| + Total(relevant[1..])
  }

  lemma {:induction false} ChildrenOf(relevant: seq<Path>, name: string)
    ensures forall p :: p in Children(relevant, name) <==> [name] + p in relevant
    ensures Total(Children(relevant, name)) <= Total(relevant)
    ensures Children(relevant, name) != [] ==> Total(Children(relevant, name)) < Total(relevant)
    ensures name in Heads(relevant) ==> Children(relevant, name) != []
  {
    if relevant != [] {
      ChildrenOf(relevant[1..], name);
      var r := relevant[0];
      if r != [] && r[0] == name {
        assert r == [name] + r[1..];
      }
      forall p
        ensures p in Children(relevant, name) <==> [name] + p in relevant
      {
        if [name] + p == r {
          assert r[1..] == p;
        }
        assert [name] + p in relevant <==> [name] + p == r || [name] + p in relevant[1..];
      }
    }
  }

  function WalkDir(disk: Disk, n: nat, dir: Path, relevant: seq<Path>): seq<Deny>
    decreases Total(relevant), 1, 0
  {
    match At(disk, n)
    case Dir(true, entries) => WalkEntries(disk, entries, dir, relevant)
    case _ => []
  }

  function WalkEntries(disk: Disk, es: seq<Entry>, dir: Path, relevant: seq<Path>): seq<Deny>
    decreases Total(relevant), 0, |es|
  {
    if es == [] then [] else
      WalkEntry(disk, es[0], dir, relevant) + WalkEntries(disk, es[1..], dir, relevant)
  }

  function WalkEntry(disk: Disk, e: Entry, dir: Path, relevant: seq<Path>): seq<Deny>
    decreases Total(relevant), 0, 0
  {
    var full := dir + [e.name];
    if e.name in Heads(relevant) then
      ChildrenOf(relevant, e.name);
      var below := Children(relevant, e.name);
      if [] in below then [] else WalkDir(disk, e.target, full, below)
    else if At(disk, e.target).Broken? then []
    else [Deny(full, At(disk, e.target).Dir?)]
  }

  lemma EntriesFrom(disk: Disk, es: seq<Entry>, i: nat, dir: Path, relevant: seq<Path>, ds: seq<Deny>)
    requires i < |es|
    ensures ds + WalkEntries(disk, es[i..], dir, relevant)
         == ds + WalkEntry(disk, es[i], dir, relevant) + WalkEntries(disk, es[i + 1..], dir, relevant)
  {
    assert es[i..][1..] == es[i + 1..];
  }

  lemma EntryCases(disk: Disk, e: Entry, dir: Path, relevant: seq<Path>, ds: seq<Deny>)
    ensures var w, full, below := ds + WalkEntry(disk, e, dir, relevant), dir + [e.name], Children(relevant, e.name);
            if e.name in Heads(relevant) then
              Total(below) < Total(relevant)
              && w == (if [] in below then ds else ds + WalkDir(disk, e.target, full, below))
            else w == if At(disk, e.target).Broken? then ds else ds + [Deny(full, At(disk, e.target).Dir?)]
  {
    ChildrenOf(relevant, e.name);
    assert ds + [] == ds;
  }

  class DenyWalk {
    var disallowed: seq<Deny>

    constructor ()
      ensures disallowed == []
    {
      disallowed := [];
    }

    method ProcessDir(disk: Disk, n: nat, dir: Path, relevant: seq<Path>)
      modifies this
      ensures disallowed == old(disallowed) + WalkDir(disk, n, dir, relevant)
      decreases Total(relevant)
    {
      var allowedNames := Heads(relevant);
      var node := At(disk, n);
      if !(node.Dir? && node.readable) {
        return;
      }
      var entries := node.entries;
      assert entries[0..] == entries;
      ghost var goal := old(disallowed) + WalkDir(disk, n, dir, relevant);
      hide WalkDir, WalkEntries, WalkEntry, Children, Heads, At, Total;
      for i := 0 to |entries|
        invariant disallowed + WalkEntries(disk, entries[i..], dir, relevant) == goal
      {
        var entry := entries[i];
        var fullPath := dir + [entry.name];
        EntriesFrom(disk, entries, i, dir, relevant, disallowed);
        EntryCases(disk, entry, dir, relevant, disallowed);
        if entry.name in allowedNames {
          var childPaths := Children(relevant, entry.name);
          if [] in childPaths {
            continue;
          }
          ProcessDir(disk, entry.target, fullPath, childPaths);
          continue;
        }
        if At(disk, entry.target).Broken? {
          continue;
        }
        disallowed := disallowed + [Deny(fullPath, At(disk, entry.target).Dir?)];
      }
      NothingLeft(disk, dir, relevant);
      assert entries[|entries|..] == [];
    }
  }

  lemma NothingLeft(disk: Disk, dir: Path, relevant: seq<Path>)
    ensures WalkEntries(disk, [], dir, relevant) == []
  {
  }

  // ---------- what the walk covers ----------

  function Find(es: seq<Entry>, name: string): (r: seq<nat>)
    ensures |r| <= 1
  {
    if es == [] then [] else if es[0].name == name then [es[0].target] else Find(es[1..], name)
  }

  /** `p` leads from node `n` through directories to an existing regular file. */
  predicate FileAt(disk: Disk, n: nat, p: Path)
    decreases |p|
  {
    match At(disk, n)
    case Broken => false
    case File => p == []
    case Dir(_, es) => p != [] && var t := Find(es, p[0]); t != [] && FileAt(disk, t[0], p[1..])
  }

  /** Neither on the way to an allowed path nor below one. */
  predicate OffLimits(relevant: seq<Path>, p: Path) {
    forall r :: r in relevant ==> !(r <= p) && !(p <= r)
  }

  /** The directory in which `p` leaves the allowed paths can be listed, and so can
      those above it. */
  predicate Listed(disk: Disk, n: nat, relevant: seq<Path>, p: Path)
    decreases |p|
  {
    var node := At(disk, n);
    node.Dir? && node.readable && p != [] &&
    (p[0] in Heads(relevant) ==>
      var t := Find(node.entries, p[0]);
      t != [] && Listed(disk, t[0], Children(relevant, p[0]), p[1..]))
  }

  predicate Named(relevant: seq<Path>) {
    forall r :: r in relevant ==> r != [] && forall k :: 0 <= k < |r| ==> r[k] != ""
  }

  predicate Denied(ds: seq<Deny>, p: Path) {
    exists d :: d in ds && Covers(d, p)
  }

  lemma {:induction false} Below(disk: Disk, n: nat, dir: Path, relevant: seq<Path>)
    ensures forall d :: d in WalkDir(disk, n, dir, relevant) ==> dir < d.path
    decreases Total(relevant), 1, 0
  {
    var node := At(disk, n);
    if node.Dir? && node.readable {
      EntriesBelow(disk, node.entries, dir, relevant);
    }
  }

  lemma {:induction false} EntriesBelow(disk: Disk, es: seq<Entry>, dir: Path, relevant: seq<Path>)
    ensures forall d :: d in WalkEntries(disk, es, dir, relevant) ==>
              dir < d.path && exists k :: 0 <= k < |es| && d.path[|dir|] == es[k].name
    decreases Total(relevant), 0, |es|
  {
    if es != [] {
      EntryBelow(disk, es[0], dir, relevant);
      EntriesBelow(disk, es[1..], dir, relevant);
      forall d | d in WalkEntries(disk, es[1..], dir, relevant)
        ensures exists k :: 0 <= k < |es| && d.path[|dir|] == es[k].name
      {
        var k :| 0 <= k < |es[1..]| && d.path[|dir|] == es[1..][k].name;
        assert es[k + 1].name == d.path[|dir|];
      }
    }
  }

  lemma {:induction false} EntryBelow(disk: Disk, e: Entry, dir: Path, relevant: seq<Path>)
    ensures forall d :: d in WalkEntry(disk, e, dir, relevant) ==> dir + [e.name] <= d.path
    decreases Total(relevant), 0, 0
  {
    if e.name in Heads(relevant) {
      ChildrenOf(relevant, e.name);
      Below(disk, e.target, dir + [e.name], Children(relevant, e.name));
    }
  }

  /** Only the entry that `p` goes through decides about `p`. */
  lemma {:induction false} EntriesDecide(disk: Disk, es: seq<Entry>, dir: Path, relevant: seq<Path>, p: Path)
    requires DistinctNames(es) && p != []
    ensures Denied(WalkEntries(disk, es, dir, relevant), dir + p) <==>
            var t := Find(es, p[0]);
            t != [] && Denied(WalkEntry(disk, Entry(p[0], t[0]), dir, relevant), dir + p)
    decreases |es|
  {
    if es != [] {
      var here := WalkEntry(disk, es[0], dir, relevant);
      var rest := WalkEntries(disk, es[1..], dir, relevant);
      EntriesDecide(disk, es[1..], dir, relevant, p);
      EntryBelow(disk, es[0], dir, relevant);
      EntriesBelow(disk, es[1..], dir, relevant);
      assert forall d :: d in here + rest <==> d in here || d in rest;
      if es[0].name == p[0] {
        forall d | d in rest
          ensures !Covers(d, dir + p)
        {
          var k :| 0 <= k < |es[1..]| && d.path[|dir|] == es[1..][k].name;
          assert es[1..][k] == es[k + 1];
          assert (dir + p)[|dir|] == p[0];
        }
        assert es[0] == Entry(p[0], es[0].target);
      } else {
        forall d | d in here
          ensures !Covers(d, dir + p)
        {
          assert d.path[|dir|] == es[0].name && (dir + p)[|dir|] == p[0];
        }
      }
    }
  }

  lemma OffLimitsBelow(relevant: seq<Path>, p: Path)
    requires Named(relevant) && p != [] && p[0] in Heads(relevant)
    ensures OffLimits(relevant, p) <==> OffLimits(Children(relevant, p[0]), p[1..])
  {
    var below := Children(relevant, p[0]);
    ChildrenOf(relevant, p[0]);
    assert p == [p[0]] + p[1..];
    forall r
      ensures r in below ==> [p[0]] + r in relevant
      ensures r <= p[1..] <==> [p[0]] + r <= p
      ensures p[1..] <= r <==> p <= [p[0]] + r
    {
      assert ([p[0]] + r)[1..] == r;
    }
    forall r | r in relevant
      ensures r[0] == p[0] ==> r[1..] in below && r == [p[0]] + r[1..]
      ensures r[0] != p[0] ==> !(r <= p) && !(p <= r)
    {
      assert r == [r[0]] + r[1..];
    }
  }

  /** A file is denied exactly when it is off limits and the directory in which it
      leaves the allowed paths can be listed. */
  lemma {:induction false} WalkExact(disk: Disk, n: nat, dir: Path, relevant: seq<Path>, p: Path)
    requires WellFormed(disk) && Named(relevant) && FileAt(disk, n, p)
    ensures Denied(WalkDir(disk, n, dir, relevant), dir + p) <==>
            OffLimits(relevant, p) && Listed(disk, n, relevant, p)
    decreases |p|
  {
    var node := At(disk, n);
    if node.Dir? && node.readable {
      var t := Find(node.entries, p[0])[0];
      EntriesDecide(disk, node.entries, dir, relevant, p);
      assert p == [p[0]] + p[1..] && dir + p == dir + [p[0]] + p[1..];
      if p[0] in Heads(relevant) {
        var below := Children(relevant, p[0]);
        ChildrenOf(relevant, p[0]);
        OffLimitsBelow(relevant, p);
        if [] in below {
          assert [] <= p[1..];
        } else {
          forall r | r in below
            ensures r != [] && forall k :: 0 <= k < |r| ==> r[k] != ""
          {
            var q := [p[0]] + r;
            assert q in relevant;
            assert forall k :: 0 <= k < |r| ==> r[k] == q[k + 1];
          }
          hide Covers, WalkDir;
          WalkExact(disk, t, dir + [p[0]], below, p[1..]);
        }
      } else {
        forall r | r in relevant
          ensures !(r <= p) && !(p <= r)
        {
          assert r[0] != p[0];
        }
        var d := Deny(dir + [p[0]], At(disk, t).Dir?);
        assert WalkEntry(disk, Entry(p[0], t), dir, relevant) == [d];
        assert Covers(d, dir + p);
      }
    }
  }

  lemma {:induction false} ReadableListed(disk: Disk, n: nat, relevant: seq<Path>, p: Path)
    requires AllReadable(disk) && Named(relevant) && FileAt(disk, n, p)
    requires OffLimits(relevant, p) && relevant != []
    ensures Listed(disk, n, relevant, p)
    decreases |p|
  {
    assert relevant[0] in relevant && !(p <= relevant[0]);
    if p[0] in Heads(relevant) {
      var below := Children(relevant, p[0]);
      ChildrenOf(relevant, p[0]);
      OffLimitsBelow(relevant, p);
      forall r | r in below
        ensures r != [] && forall k :: 0 <= k < |r| ==> r[k] != ""
      {
        var q := [p[0]] + r;
        assert q in relevant && !(r <= p[1..]);
        assert forall k :: 0 <= k < |r| ==> r[k] == q[k + 1];
      }
      ReadableListed(disk, Find(At(disk, n).entries, p[0])[0], below, p[1..]);
    }
  }

  // ---------- each deny once ----------

  predicate DistinctDenies(ds: seq<Deny>) {
    forall i, j :: 0 <= i < j < |ds| ==> ds[i].path != ds[j].path
  }

  lemma {:induction false} DirOnce(disk: Disk, n: nat, dir: Path, relevant: seq<Path>)
    requires WellFormed(disk)
    ensures DistinctDenies(WalkDir(disk, n, dir, relevant))
    decreases Total(relevant), 1, 0
  {
    var node := At(disk, n);
    if node.Dir? && node.readable {
      EntriesOnce(disk, node.entries, dir, relevant);
    }
  }

  lemma {:induction false} EntriesOnce(disk: Disk, es: seq<Entry>, dir: Path, relevant: seq<Path>)
    requires WellFormed(disk) && DistinctNames(es)
    ensures DistinctDenies(WalkEntries(disk, es, dir, relevant))
    decreases Total(relevant), 0, |es|
  {
    if es != [] {
      var here := WalkEntry(disk, es[0], dir, relevant);
      var rest := WalkEntries(disk, es[1..], dir, relevant);
      if es[0].name in Heads(relevant) {
        ChildrenOf(relevant, es[0].name);
        DirOnce(disk, es[0].target, dir + [es[0].name], Children(relevant, es[0].name));
      }
      EntriesOnce(disk, es[1..], dir, relevant);
      EntryBelow(disk, es[0], dir, relevant);
      EntriesBelow(disk, es[1..], dir, relevant);
      forall a, b | a in here && b in rest
        ensures a.path != b.path
      {
        assert a.path[|dir|] == es[0].name;
        var k :| 0 <= k < |es[1..]| && b.path[|dir|] == es[1..][k].name;
        assert es[1..][k] == es[k + 1];
      }
    }
  }

  // ---------- the request: absolute paths, made relative to home ----------

  function CommonPrefix(a: Path, b: Path): (n: nat)
    ensures n <= |a| && n <= |b| && a[..n] == b[..n]
    ensures n < |a| && n < |b| ==> a[n] != b[n]
  {
    if a == [] || b == [] || a[0] != b[0] then 0 else
      var n := 1 + CommonPrefix(a[1..], b[1..]);
      assert a[..n] == [a[0]] + a[1..][..n - 1] && b[..n] == [b[0]] + b[1..][..n - 1];
      n
  }

  /** `relative(home, p)` of two absolute, normalised paths. */
  function Relative(home: Path, p: Path): Path {
    var n := CommonPrefix(home, p);
    seq(|home| - n, _ => "..") + p[n..]
  }

  /** The source filters on the joined text: not empty and not starting with two dots. */
  predicate Kept(home: Path, p: Path) {
    var rel := Relative(home, p);
    rel != [] && !(".." <= rel[0])
  }

  /** Kept are the paths strictly below home whose first name does not start with two dots,
      hidden ones included. */
  lemma KeptExactly(home: Path, p: Path)
    ensures Kept(home, p) <==> home < p && !(".." <= p[|home|])
    ensures home <= p ==> Relative(home, p) == p[|home|..]
  {
    var n := CommonPrefix(home, p);
    if n < |home| {
      assert Relative(home, p)[0] == "..";
    } else {
      assert p[..n] == home && Relative(home, p) == p[n..];
    }
  }

  function KeptPaths(home: Path, requests: seq<Path>): (r: seq<Path>)
    ensures forall q :: q in r <==> exists p :: p in requests && Kept(home, p) && Relative(home, p) == q
  {
    if requests == [] then [] else
      (if Kept(home, requests[0]) then [Relative(home, requests[0])] else [])
      + KeptPaths(home, requests[1..])
  }

  predicate Absolute(requests: seq<Path>) {
    forall p :: p in requests ==> forall k :: 0 <= k < |p| ==> p[k] != ""
  }

  function DisallowedTools(disk: Disk, root: nat, home: Path, requests: seq<Path>): seq<Deny> {
    var rels := KeptPaths(home, requests);
    if rels == [] then [] else WalkDir(disk, root, home, rels)
  }

  method BuildHomeDirectoryDisallowedTools(disk: Disk, root: nat, home: Path, cwd: Path, additional: seq<Path>)
    returns (disallowed: seq<Deny>)
    ensures disallowed == DisallowedTools(disk, root, home, [cwd] + additional)
  {
    var allRelPaths := KeptPaths(home, [cwd] + additional);
    if allRelPaths == [] {
      return [];
    }
    var walk := new DenyWalk();
    walk.ProcessDir(disk, root, home, allRelPaths);
    disallowed := walk.disallowed;
  }

  /** For every graph: each deny is emitted once, and a file under home is denied
      exactly when some path was kept, the file is off limits to all kept paths, and
      the directory where it leaves them can be listed. */
  lemma {:induction false} DeniedExactly(disk: Disk, root: nat, home: Path, requests: seq<Path>, p: Path)
    requires WellFormed(disk) && Absolute(requests) && FileAt(disk, root, p)
    ensures var rels := KeptPaths(home, requests);
            var ds := DisallowedTools(disk, root, home, requests);
            && DistinctDenies(ds)
            && (Denied(ds, home + p) <==> rels != [] && OffLimits(rels, p) && Listed(disk, root, rels, p))
            && (AllReadable(disk) ==> (Denied(ds, home + p) <==> rels != [] && OffLimits(rels, p)))
  {
    var rels := KeptPaths(home, requests);
    KeptNamed(home, requests);
    DirOnce(disk, root, home, rels);
    WalkExact(disk, root, home, rels, p);
    if AllReadable(disk) && rels != [] && OffLimits(rels, p) {
      ReadableListed(disk, root, rels, p);
    }
  }

  lemma KeptNamed(home: Path, requests: seq<Path>)
    requires Absolute(requests)
    ensures Named(KeptPaths(home, requests))
  {
    forall q | q in KeptPaths(home, requests)
      ensures q != [] && forall k :: 0 <= k < |q| ==> q[k] != ""
    {
      var p :| p in requests && Kept(home, p) && Relative(home, p) == q;
      KeptExactly(home, p);
      assert forall k :: 0 <= k < |q| ==> q[k] == p[|home| + k];
    }
  }

  // ---------- when the kept paths are all that was asked for ----------

  /** What a caller expects: a file is denied when no requested path leads to it or below it. */
  predicate Expected(home: Path, requests: seq<Path>, p: Path) {
    forall r :: r in requests && home <= r ==> !(r <= home + p) && !(home + p <= r)
  }

  ghost predicate CoverAsAsked(home: Path, requests: seq<Path>) {
    forall disk, root, p :: WellFormed(disk) && AllReadable(disk) && FileAt(disk, root, p) ==>
      (Denied(DisallowedTools(disk, root, home, requests), home + p) <==> Expected(home, requests, p))
  }

  /** A request under home is below it, and its first name there begins with no two dots. */
  predicate NothingDropped(home: Path, requests: seq<Path>) {
    forall r :: r in requests && home <= r ==> home < r && !(".." <= r[|home|])
  }

  lemma KeptShape(home: Path, r: Path, p: Path)
    requires home <= r
    ensures r == home + Relative(home, r)
    ensures r <= home + p <==> Relative(home, r) <= p
    ensures home + p <= r <==> p <= Relative(home, r)
  {
    KeptExactly(home, r);
    hide Relative;
    var q := r[|home|..];
    assert r == home + q;
    Shifted(home, q, p);
    Shifted(home, p, q);
  }

  lemma {:induction false} ExpectedOfKept(home: Path, requests: seq<Path>, p: Path)
    requires NothingDropped(home, requests)
    ensures Expected(home, requests, p) <==> OffLimits(KeptPaths(home, requests), p)
  {
    var rels := KeptPaths(home, requests);
    KeptAsRead(home, requests);
    hide Relative;
    forall r | r in requests && home <= r
      ensures Relative(home, r) in rels
      ensures r <= home + p <==> Relative(home, r) <= p
      ensures home + p <= r <==> p <= Relative(home, r)
    {
      KeptShape(home, r, p);
    }
    forall q | q in rels
      ensures exists r :: r in requests && home <= r && Relative(home, r) == q
    {
      var r :| r in requests && Kept(home, r) && Relative(home, r) == q;
      KeptExactly(home, r);
    }
  }

  lemma Shifted(home: Path, a: Path, b: Path)
    ensures home + a <= home + b <==> a <= b
  {
    assert (home + a)[|home|..] == a;
    assert (home + b)[|home|..] == b;
    if home + a <= home + b {
      assert (home + b)[..|home| + |a|] == home + a;
      assert b[..|a|] == (home + b)[..|home| + |a|][|home|..];
    }
  }

  /** A chain of directories that leads to one file. */
  function Chain(p: Path): (disk: Disk)
    ensures WellFormed(disk) && AllReadable(disk)
    ensures forall k :: 0 <= k <= |p| ==> k in disk
    ensures disk[|p|] == File
    ensures forall k :: 0 <= k < |p| ==> disk[k] == Dir(true, [Entry(p[k], k + 1)])
  {
    map k: nat | 0 <= k <= |p| :: if k == |p| then File else Dir(true, [Entry(p[k], k + 1)])
  }

  lemma {:induction false} ChainLeads(p: Path, k: nat)
    requires k <= |p|
    ensures FileAt(Chain(p), k, p[k..])
    decreases |p| - k
  {
    if k < |p| {
      ChainLeads(p, k + 1);
      assert p[k..][1..] == p[k + 1..];
    }
  }

  /** A name that differs from all the given ones: longer than each. */
  function Longer(names: seq<Path>): (s: string)
    ensures s != ""
    ensures forall q :: q in names && q != [] ==> |q[0]| < |s| && q[0] != s
  {
    if names == [] then "f" else
      var s := Longer(names[1..]);
      if names[0] != [] && |names[0][0]| >= |s| then names[0][0] + "f" else s
  }

  lemma {:induction false} KeptAsRead(home: Path, requests: seq<Path>)
    ensures NothingDropped(home, requests) <==> forall r :: r in requests && home <= r ==> Kept(home, r)
    ensures KeptPaths(home, requests) == [] <==> forall r :: r in requests && home < r ==> ".." <= r[|home|]
  {
    forall r ensures Kept(home, r) <==> home < r && !(".." <= r[|home|]) {
      KeptExactly(home, r);
    }
    hide Kept, Relative;
    var rels := KeptPaths(home, requests);
    if rels != [] {
      assert rels[0] in rels;
      var r :| r in requests && Kept(home, r) && Relative(home, r) == rels[0];
      assert home < r && !(".." <= r[|home|]);
    } else {
      forall r | r in requests && home < r ensures ".." <= r[|home|] {
        assert Kept(home, r) ==> Relative(home, r) in rels;
      }
    }
  }

  /** With every directory readable: a file under home is denied exactly when some request is
      below home under a first name that begins with no two dots, and none of those leads to
      the file or below it. */
  lemma {:induction false} DeniedAsRead(disk: Disk, root: nat, home: Path, requests: seq<Path>, p: Path)
    requires WellFormed(disk) && AllReadable(disk) && Absolute(requests) && FileAt(disk, root, p)
    ensures Denied(DisallowedTools(disk, root, home, requests), home + p) <==>
            && (exists r :: r in requests && home < r && !(".." <= r[|home|]))
            && (forall r :: r in requests && home < r && !(".." <= r[|home|]) ==> !(r <= home + p) && !(home + p <= r))
  {
    hide Relative, DisallowedTools, Denied;
    var rels := KeptPaths(home, requests);
    DeniedExactly(disk, root, home, requests, p);
    KeptAsRead(home, requests);
    forall r | r in requests && home < r && !(".." <= r[|home|])
      ensures Relative(home, r) in rels
      ensures r <= home + p <==> Relative(home, r) <= p
      ensures home + p <= r <==> p <= Relative(home, r)
    {
      KeptExactly(home, r);
      KeptShape(home, r, p);
    }
    forall q | q in rels
      ensures exists r :: r in requests && home < r && !(".." <= r[|home|]) && Relative(home, r) == q
    {
      var r :| r in requests && Kept(home, r) && Relative(home, r) == q;
      KeptExactly(home, r);
    }
  }

  /** When some requested path is under home, the walk covers what was asked for exactly
      when each request under home is below it under a first name that begins with no two
      dots, or home itself was requested and every request below it begins with two dots there. */
  lemma {:induction false} CoverExactly(home: Path, requests: seq<Path>)
    requires Absolute(requests)
    requires exists r :: r in requests && home <= r
    ensures CoverAsAsked(home, requests) <==>
            (forall r :: r in requests && home <= r ==> home < r && !(".." <= r[|home|]))
            || (home in requests && forall r :: r in requests && home < r ==> ".." <= r[|home|])
  {
    var rels := KeptPaths(home, requests);
    KeptAsRead(home, requests);
    if NothingDropped(home, requests) {
      var r :| r in requests && home <= r;
      assert Relative(home, r) in rels;
      forall disk, root, p | WellFormed(disk) && AllReadable(disk) && FileAt(disk, root, p)
        ensures Denied(DisallowedTools(disk, root, home, requests), home + p) <==> Expected(home, requests, p)
      {
        DeniedExactly(disk, root, home, requests, p);
        ExpectedOfKept(home, requests, p);
      }
    } else if home in requests && rels == [] {
      forall disk, root, p | FileAt(disk, root, p)
        ensures !Expected(home, requests, p)
      {
        assert home <= home + p;
      }
    } else {
      DroppedFails(home, requests);
    }
  }

  /** One file at the end of a chain that the walk and the caller judge differently. */
  lemma Disagree(home: Path, requests: seq<Path>, p: Path)
    requires Absolute(requests)
    requires var rels := KeptPaths(home, requests);
             Expected(home, requests, p) != (rels != [] && OffLimits(rels, p))
    ensures !CoverAsAsked(home, requests)
  {
    ChainLeads(p, 0);
    assert p[0..] == p;
    DeniedExactly(Chain(p), 0, home, requests, p);
  }

  lemma OffByFirstName(rels: seq<Path>, p: Path)
    requires Named(rels) && p != []
    requires forall q :: q in rels ==> q[0] != p[0]
    ensures OffLimits(rels, p)
  {
  }

  /** Nothing is denied, yet a file beside every request should be. */
  lemma NothingDenied(home: Path, requests: seq<Path>)
    requires Absolute(requests) && home !in requests && KeptPaths(home, requests) == []
    ensures !CoverAsAsked(home, requests)
  {
    var tails := RequestTails(home, requests);
    var name := Longer(tails);
    hide RequestTails, Longer;
    BesideAll(home, requests, tails, name);
    Disagree(home, requests, [name]);
  }

  /** Everything below home was asked for, yet names beside the kept ones are denied. */
  lemma {:induction false} HomeDropped(home: Path, requests: seq<Path>)
    requires Absolute(requests) && home in requests && KeptPaths(home, requests) != []
    ensures !CoverAsAsked(home, requests)
  {
    var rels := KeptPaths(home, requests);
    KeptNamed(home, requests);
    var name := Longer(rels);
    hide Longer, KeptPaths;
    OffByFirstName(rels, [name]);
    assert home <= home + [name];
    Disagree(home, requests, [name]);
  }

  /** A dropped request is itself denied. */
  lemma RequestDropped(home: Path, requests: seq<Path>, r: Path)
    requires Absolute(requests) && KeptPaths(home, requests) != []
    requires r in requests && home < r && !Kept(home, r)
    ensures !CoverAsAsked(home, requests)
  {
    DroppedApart(home, requests, r);
    hide KeptPaths, Kept;
    assert home + r[|home|..] == r;
    Disagree(home, requests, r[|home|..]);
  }

  lemma {:induction false} DroppedFails(home: Path, requests: seq<Path>)
    requires Absolute(requests) && !NothingDropped(home, requests)
    requires home !in requests || KeptPaths(home, requests) != []
    ensures !CoverAsAsked(home, requests)
  {
    KeptAsRead(home, requests);
    hide KeptPaths, Kept, CoverAsAsked;
    if KeptPaths(home, requests) == [] {
      NothingDenied(home, requests);
    } else if home in requests {
      HomeDropped(home, requests);
    } else {
      var r :| r in requests && home <= r && !Kept(home, r);
      assert r != home && r[..|home|] == home && r[..|r|] == r;
      RequestDropped(home, requests, r);
    }
  }

  lemma DroppedApart(home: Path, requests: seq<Path>, r: Path)
    requires Absolute(requests) && r in requests && home < r && !Kept(home, r)
    ensures OffLimits(KeptPaths(home, requests), r[|home|..])
  {
    var rels := KeptPaths(home, requests);
    var p := r[|home|..];
    KeptNamed(home, requests);
    KeptExactly(home, r);
    hide Relative, Kept;
    forall q | q in rels
      ensures q[0] != p[0]
    {
      var k :| k in requests && Kept(home, k) && Relative(home, k) == q;
      KeptExactly(home, k);
    }
    OffByFirstName(rels, p);
  }

  lemma BesideAll(home: Path, requests: seq<Path>, tails: seq<Path>, name: string)
    requires home !in requests
    requires forall p :: p in requests && home <= p ==> p[|home|..] in tails
    requires forall q :: q in tails && q != [] ==> q[0] != name
    ensures Expected(home, requests, [name])
  {
    forall r | r in requests && home <= r
      ensures !(r <= home + [name]) && !(home + [name] <= r)
    {
      var q := r[|home|..];
      assert home + [] == home && r == home + q;
      assert q in tails && q[0] != name;
      Shifted(home, q, [name]);
      Shifted(home, [name], q);
    }
  }

  function RequestTails(home: Path, requests: seq<Path>): (r: seq<Path>)
    ensures forall p :: p in requests && home <= p ==> p[|home|..] in r
  {
    if requests == [] then [] else
      (if home <= requests[0] then [requests[0][|home|..]] else []) + RequestTails(home, requests[1..])
  }
}
