/** Reloading the config file: the repository diff, its application, and what a second
    reload of the same file reports. */
module ConfigReload {
  import opened Records
  import opened Wrappers

  /** `text` is the repository's JSON, by which the source compares. */
  datatype Repo = Repo(id: string, active: bool, text: string)

  datatype Changes = Changes(added: seq<Repo>, modified: seq<Repo>, removed: seq<Repo>)

  // ---------- the diff ----------

  /** The file's repositories as a map; a later one of the same id replaces. */
  function FileMap(rs: seq<Repo>): Record<Repo> {
    if rs == [] then [] else Set(FileMap(rs[..|rs| - 1]), rs[|rs| - 1].id, rs[|rs| - 1])
  }

  predicate Differs(current: Option<Repo>, r: Repo) {
    current.Some? && current.value.text != r.text
  }

  function Added(current: Record<Repo>, file: Record<Repo>): seq<Repo> {
    if file == [] then [] else
      var (id, r) := file[|file| - 1];
      Added(current, file[..|file| - 1]) + if Get(current, id).None? then [r] else []
  }

  function Modified(current: Record<Repo>, file: Record<Repo>): seq<Repo> {
    if file == [] then [] else
      var (id, r) := file[|file| - 1];
      Modified(current, file[..|file| - 1]) + if Differs(Get(current, id), r) then [r] else []
  }

  function Removed(current: Record<Repo>, file: Record<Repo>): seq<Repo> {
    if current == [] then [] else
      var (id, r) := current[|current| - 1];
      Removed(current[..|current| - 1], file) + if Get(file, id).None? then [r] else []
  }

  function Detected(current: Record<Repo>, file: Record<Repo>): Changes {
    Changes(Added(current, file), Modified(current, file), Removed(current, file))
  }

  predicate Quiet(c: Changes) {
    c.added == [] && c.modified == [] && c.removed == []
  }

  // ---------- its application ----------

  /** A repository's text with its paths resolved, if that does not throw: a repository
      without `workspaceBaseDir` is declared validly, yet its path cannot be resolved. */
  type Resolver = string -> Option<string>

  /** What is stored of a repository; nothing where resolving throws, which is caught. */
  function Resolved(r: Repo, resolve: Resolver): Option<Repo> {
    var text := resolve(r.text);
    if text.Some? then Some(r.(text := text.value)) else None
  }

  function Store(m: Record<Repo>, r: Repo, resolve: Resolver): Record<Repo> {
    var stored := Resolved(r, resolve);
    if stored.Some? then Set(m, r.id, stored.value) else m
  }

  function Without(m: Record<Repo>, id: string): Record<Repo> {
    if m == [] then [] else if m[0].0 == id then m[1..] else [m[0]] + Without(m[1..], id)
  }

  function RemoveAll(m: Record<Repo>, rs: seq<Repo>): Record<Repo> {
    if rs == [] then m else Without(RemoveAll(m, rs[..|rs| - 1]), rs[|rs| - 1].id)
  }

  function UpdateAll(m: Record<Repo>, rs: seq<Repo>, resolve: Resolver): Record<Repo> {
    if rs == [] then m else
      var u, r := UpdateAll(m, rs[..|rs| - 1], resolve), rs[|rs| - 1];
      if Get(u, r.id).None? then u else Store(u, r, resolve)
  }

  function AddAll(m: Record<Repo>, rs: seq<Repo>, resolve: Resolver): Record<Repo> {
    if rs == [] then m else
      var u, r := AddAll(m, rs[..|rs| - 1], resolve), rs[|rs| - 1];
      if r.active then Store(u, r, resolve) else u
  }

  function Applied(m: Record<Repo>, c: Changes, resolve: Resolver): Record<Repo> {
    AddAll(UpdateAll(RemoveAll(m, c.removed), c.modified, resolve), c.added, resolve)
  }

  /** The map that the worker and the config manager share. */
  class Repositories {
    var repositories: Record<Repo>

    constructor (start: Record<Repo>)
      ensures repositories == start
    {
      repositories := start;
    }

    method DetectRepositoryChanges(declared: seq<Repo>) returns (c: Changes)
      ensures c == Detected(repositories, FileMap(declared))
    {
      var file: Record<Repo> := [];
      for i := 0 to |declared|
        invariant file == FileMap(declared[..i])
      {
        file := Set(file, declared[i].id, declared[i]);
        assert declared[..i + 1][..i] == declared[..i];
      }
      assert declared[..|declared|] == declared;
      var added: seq<Repo>, modified: seq<Repo>, removed: seq<Repo> := [], [], [];
      for i := 0 to |file|
        invariant added == Added(repositories, file[..i]) && modified == Modified(repositories, file[..i])
      {
        var id, repo := file[i].0, file[i].1;
        var held := Get(repositories, id);
        if held.None? {
          added := added + [repo];
        } else if held.value.text != repo.text {
          modified := modified + [repo];
        }
        assert file[..i + 1][..i] == file[..i];
      }
      assert file[..|file|] == file;
      for i := 0 to |repositories|
        invariant removed == Removed(repositories[..i], file)
      {
        if Get(file, repositories[i].0).None? {
          removed := removed + [repositories[i].1];
        }
        assert repositories[..i + 1][..i] == repositories[..i];
      }
      assert repositories[..|repositories|] == repositories;
      c := Changes(added, modified, removed);
    }

    method StoreResolved(repo: Repo, resolve: Resolver)
      modifies this
      ensures repositories == Store(old(repositories), repo, resolve)
    {
      var resolved := Resolved(repo, resolve);
      if resolved.Some? {
        repositories := Set(repositories, repo.id, resolved.value);
      }
    }

    method ApplyChanges(c: Changes, resolve: Resolver)
      modifies this
      ensures repositories == Applied(old(repositories), c, resolve)
    {
      for i := 0 to |c.removed|
        invariant repositories == RemoveAll(old(repositories), c.removed[..i])
      {
        repositories := Without(repositories, c.removed[i].id);
        assert c.removed[..i + 1][..i] == c.removed[..i];
      }
      assert c.removed[..|c.removed|] == c.removed;
      ghost var removed := repositories;
      for i := 0 to |c.modified|
        invariant repositories == UpdateAll(removed, c.modified[..i], resolve)
      {
        var repo := c.modified[i];
        if Get(repositories, repo.id).Some? {
          StoreResolved(repo, resolve);
        }
        assert c.modified[..i + 1][..i] == c.modified[..i];
      }
      assert c.modified[..|c.modified|] == c.modified;
      ghost var updated := repositories;
      for i := 0 to |c.added|
        invariant repositories == AddAll(updated, c.added[..i], resolve)
      {
        var repo := c.added[i];
        if repo.active {
          StoreResolved(repo, resolve);
        }
        assert c.added[..i + 1][..i] == c.added[..i];
      }
      assert c.added[..|c.added|] == c.added;
    }
  }

  // ---------- what the diff says ----------

  /** Every repository is filed under its own id, and no id twice. */
  predicate Keyed(m: Record<Repo>) {
    NamesOnce(m) && forall k :: 0 <= k < |m| ==> m[k].1.id == m[k].0
  }

  function Find(rs: seq<Repo>, id: string): Option<Repo> {
    if rs == [] then None
    else if rs[|rs| - 1].id == id then Some(rs[|rs| - 1]) else Find(rs[..|rs| - 1], id)
  }

  lemma KeyedFront(m: Record<Repo>)
    requires Keyed(m) && m != []
    ensures Keyed(m[..|m| - 1]) && Get(m[..|m| - 1], m[|m| - 1].0).None?
  {
    var front, last := m[..|m| - 1], m[|m| - 1];
    GetNames(front, last.0);
  }

  lemma {:induction false} FileMapKeyed(rs: seq<Repo>)
    ensures Keyed(FileMap(rs))
  {
    if rs != [] {
      var m, r := FileMap(rs[..|rs| - 1]), rs[|rs| - 1];
      FileMapKeyed(rs[..|rs| - 1]);
      SetShape(m, r.id, r);
      if j: nat :| j < |m| && m[j].0 == r.id {
        SetReplaces(m, j, r);
      } else {
        SetAppends(m, r.id, r);
      }
    }
  }

  lemma {:induction false} AddedById(current: Record<Repo>, file: Record<Repo>, id: string)
    requires Keyed(file)
    ensures Find(Added(current, file), id) ==
            if Get(file, id).Some? && Get(current, id).None? then Get(file, id) else None
  {
    if file != [] {
      var front, last := file[..|file| - 1], file[|file| - 1];
      KeyedFront(file);
      AddedById(current, front, id);
      GetSnoc(front, last, id);
      assert front + [last] == file;
      FindSnoc(Added(current, front), last.1, id);
      assert Added(current, front) + [] == Added(current, front);
      assert last.1.id == last.0;
      hide Get, Find, Keyed;
    }
  }

  lemma {:induction false} ModifiedById(current: Record<Repo>, file: Record<Repo>, id: string)
    requires Keyed(file)
    ensures Find(Modified(current, file), id) ==
            if Get(file, id).Some? && Get(current, id).Some? && Get(current, id).value.text != Get(file, id).value.text
            then Get(file, id) else None
  {
    if file != [] {
      var front, last := file[..|file| - 1], file[|file| - 1];
      KeyedFront(file);
      ModifiedById(current, front, id);
      GetSnoc(front, last, id);
      assert front + [last] == file;
      FindSnoc(Modified(current, front), last.1, id);
      assert Modified(current, front) + [] == Modified(current, front);
      assert last.1.id == last.0;
      hide Get, Find, Keyed;
    }
  }

  lemma FindSnoc(rs: seq<Repo>, r: Repo, id: string)
    ensures Find(rs + [r], id) == if r.id == id then Some(r) else Find(rs, id)
  {
    assert (rs + [r])[..|rs|] == rs;
  }

  lemma {:induction false} RemovedById(current: Record<Repo>, file: Record<Repo>, id: string)
    requires Keyed(current)
    ensures Find(Removed(current, file), id) == if Get(file, id).None? then Get(current, id) else None
  {
    if current != [] {
      var front, last := current[..|current| - 1], current[|current| - 1];
      KeyedFront(current);
      RemovedById(front, file, id);
      GetSnoc(front, last, id);
      assert front + [last] == current;
      FindSnoc(Removed(front, file), last.1, id);
      assert Removed(front, file) + [] == Removed(front, file);
      assert last.1.id == last.0;
      hide Get, Find, Keyed;
    }
  }

  lemma {:induction false} FileMapFind(declared: seq<Repo>, id: string)
    ensures Get(FileMap(declared), id) == Find(declared, id)
  {
    if declared != [] {
      var front, r := declared[..|declared| - 1], declared[|declared| - 1];
      FileMapFind(front, id);
      GetSet(FileMap(front), r.id, r, id);
      hide Get, Set;
    }
  }

  lemma {:induction false} FoundIn(rs: seq<Repo>, id: string)
    ensures Find(rs, id).Some? <==> exists k :: 0 <= k < |rs| && rs[k].id == id
    ensures forall k :: 0 <= k < |rs| && rs[k].id == id && (forall j :: k < j < |rs| ==> rs[j].id != id) ==>
              Find(rs, id) == Some(rs[k])
  {
    if rs != [] {
      var front := rs[..|rs| - 1];
      FoundIn(front, id);
      assert forall k :: 0 <= k < |front| ==> front[k] == rs[k];
      if rs[|rs| - 1].id == id {
        assert Find(rs, id) == Some(rs[|rs| - 1]);
      }
    }
  }

  /** The file's map holds what the file declares, of several with one id the last. */
  lemma {:induction false} FileMapExactly(declared: seq<Repo>, id: string)
    ensures forall k :: 0 <= k < |declared| && declared[k].id == id
                        && (forall j :: k < j < |declared| ==> declared[j].id != id) ==>
              Get(FileMap(declared), id) == Some(declared[k])
    ensures Get(FileMap(declared), id).Some? <==> exists k :: 0 <= k < |declared| && declared[k].id == id
  {
    FileMapFind(declared, id);
    FoundIn(declared, id);
    hide Get, Find, FileMap;
  }

  /** Reported as added are the ids declared and not held, as removed those held and not
      declared, and as modified those held with another text than the last one declared. */
  lemma {:induction false} DetectedExactly(current: Record<Repo>, declared: seq<Repo>, id: string)
    requires Keyed(current)
    ensures var c := Detected(current, FileMap(declared));
            var held := exists k :: 0 <= k < |current| && current[k].0 == id;
            var known := exists k :: 0 <= k < |declared| && declared[k].id == id;
            && ((exists k :: 0 <= k < |c.added| && c.added[k].id == id) <==> known && !held)
            && ((exists k :: 0 <= k < |c.removed| && c.removed[k].id == id) <==> held && !known)
            && ((exists k :: 0 <= k < |c.modified| && c.modified[k].id == id) <==>
                 exists i, j :: 0 <= i < |current| && 0 <= j < |declared| && current[i].0 == id && declared[j].id == id
                                && (forall l :: j < l < |declared| ==> declared[l].id != id)
                                && current[i].1.text != declared[j].text)
  {
    var file := FileMap(declared);
    var c := Detected(current, file);
    FileMapKeyed(declared);
    FileMapExactly(declared, id);
    GetExactly(current, id);
    AddedById(current, file, id);
    ModifiedById(current, file, id);
    RemovedById(current, file, id);
    FoundIn(c.added, id);
    FoundIn(c.modified, id);
    FoundIn(c.removed, id);
    hide Get, Find, Added, Modified, Removed, FileMap;
    if j :| 0 <= j < |declared| && declared[j].id == id {
      var last := LastDeclared(declared, id);
      assert Get(file, id) == Some(declared[last]);
    }
  }

  lemma {:induction false} LastDeclared(declared: seq<Repo>, id: string) returns (k: nat)
    requires exists j :: 0 <= j < |declared| && declared[j].id == id
    ensures k < |declared| && declared[k].id == id && forall j :: k < j < |declared| ==> declared[j].id != id
  {
    k := |declared| - 1;
    if declared[k].id != id {
      var j :| 0 <= j < |declared| && declared[j].id == id;
      assert declared[..k][j].id == id;
      k := LastDeclared(declared[..k], id);
      assert forall l :: k < l < |declared| - 1 ==> declared[..|declared| - 1][l] == declared[l];
    }
  }

  // ---------- what applying it leaves ----------

  lemma {:induction false} WithoutShape(m: Record<Repo>, id: string, other: string)
    requires Keyed(m)
    ensures Keyed(Without(m, id))
    ensures Get(Without(m, id), other) == if other == id then None else Get(m, other)
    ensures forall k :: 0 <= k < |Without(m, id)| ==> Without(m, id)[k] in m
  {
    if m != [] {
      assert Keyed(m[1..]);
      GetNames(m[1..], m[0].0);
      WithoutShape(m[1..], id, other);
      if m[0].0 != id {
        ConsKeyed(m[0], Without(m[1..], id), m);
        assert ([m[0]] + Without(m[1..], id))[1..] == Without(m[1..], id);
      }
    }
  }

  lemma ConsKeyed(p: (string, Repo), rest: Record<Repo>, m: Record<Repo>)
    requires Keyed(m) && m != [] && m[0] == p && Keyed(rest) && forall k :: 0 <= k < |rest| ==> rest[k] in m[1..]
    ensures Keyed([p] + rest)
  {
    forall k | 0 <= k < |rest|
      ensures rest[k].0 != p.0
    {
      var j :| 0 <= j < |m[1..]| && m[1..][j] == rest[k];
      assert m[j + 1].0 != m[0].0;
    }
  }

  lemma {:induction false} RemoveAllById(m: Record<Repo>, rs: seq<Repo>, id: string)
    requires Keyed(m)
    ensures Keyed(RemoveAll(m, rs))
    ensures Get(RemoveAll(m, rs), id) == if Find(rs, id).Some? then None else Get(m, id)
  {
    if rs != [] {
      RemoveAllById(m, rs[..|rs| - 1], id);
      WithoutShape(RemoveAll(m, rs[..|rs| - 1]), rs[|rs| - 1].id, id);
      hide Get, Keyed, Without;
    }
  }

  lemma {:induction false} StoreById(m: Record<Repo>, r: Repo, resolve: Resolver, id: string)
    requires Keyed(m)
    ensures Keyed(Store(m, r, resolve))
    ensures Get(Store(m, r, resolve), id) ==
            if id == r.id && Resolved(r, resolve).Some? then Resolved(r, resolve) else Get(m, id)
  {
    var stored := Resolved(r, resolve);
    if stored.Some? {
      GetSet(m, r.id, stored.value, id);
      SetShape(m, r.id, stored.value);
      if j: nat :| j < |m| && m[j].0 == r.id {
        SetReplaces(m, j, stored.value);
      } else {
        SetAppends(m, r.id, stored.value);
      }
    }
  }

  /** The last repository of that id that can be stored, of the active ones if need be. */
  function FindStored(rs: seq<Repo>, id: string, resolve: Resolver, active: bool): Option<Repo> {
    if rs == [] then None else
      var r := rs[|rs| - 1];
      if r.id == id && (active ==> r.active) && Resolved(r, resolve).Some? then Resolved(r, resolve)
      else FindStored(rs[..|rs| - 1], id, resolve, active)
  }

  lemma {:induction false} UpdateAllById(m: Record<Repo>, rs: seq<Repo>, resolve: Resolver, id: string)
    requires Keyed(m)
    ensures var u, stored := UpdateAll(m, rs, resolve), FindStored(rs, id, resolve, false);
            Keyed(u) && Get(u, id) == if stored.Some? && Get(m, id).Some? then stored else Get(m, id)
  {
    if rs != [] {
      var front, r := rs[..|rs| - 1], rs[|rs| - 1];
      UpdateAllById(m, front, resolve, id);
      UpdateAllById(m, front, resolve, r.id);
      StoreById(UpdateAll(m, front, resolve), r, resolve, id);
      hide Get, Keyed, Store, Resolved;
    }
  }

  lemma {:induction false} AddAllById(m: Record<Repo>, rs: seq<Repo>, resolve: Resolver, id: string)
    requires Keyed(m)
    ensures var u, stored := AddAll(m, rs, resolve), FindStored(rs, id, resolve, true);
            Keyed(u) && Get(u, id) == if stored.Some? then stored else Get(m, id)
  {
    if rs != [] {
      AddAllById(m, rs[..|rs| - 1], resolve, id);
      StoreById(AddAll(m, rs[..|rs| - 1], resolve), rs[|rs| - 1], resolve, id);
      hide Get, Keyed, Store, Resolved;
    }
  }

  lemma StoredSnoc(rs: seq<Repo>, r: Repo, id: string, resolve: Resolver, active: bool)
    ensures FindStored(rs + [r], id, resolve, active) ==
            if r.id == id && (active ==> r.active) && Resolved(r, resolve).Some? then Resolved(r, resolve)
            else FindStored(rs, id, resolve, active)
  {
    assert (rs + [r])[..|rs|] == rs;
  }

  lemma {:induction false} AddedStored(current: Record<Repo>, file: Record<Repo>, resolve: Resolver, id: string)
    requires Keyed(file)
    ensures FindStored(Added(current, file), id, resolve, true) ==
            var f := Get(file, id);
            if f.Some? && f.value.active && Get(current, id).None? then Resolved(f.value, resolve) else None
  {
    if file != [] {
      var front, last := file[..|file| - 1], file[|file| - 1];
      KeyedFront(file);
      AddedStored(current, front, resolve, id);
      GetSnoc(front, last, id);
      assert front + [last] == file;
      StoredSnoc(Added(current, front), last.1, id, resolve, true);
      assert Added(current, front) + [] == Added(current, front);
      assert last.1.id == last.0;
      hide Get, Keyed, FindStored, Resolved;
    }
  }

  lemma {:induction false} ModifiedStored(current: Record<Repo>, file: Record<Repo>, resolve: Resolver, id: string)
    requires Keyed(file)
    ensures FindStored(Modified(current, file), id, resolve, false) ==
            var f := Get(file, id);
            if f.Some? && Differs(Get(current, id), f.value) then Resolved(f.value, resolve) else None
  {
    if file != [] {
      var front, last := file[..|file| - 1], file[|file| - 1];
      KeyedFront(file);
      ModifiedStored(current, front, resolve, id);
      GetSnoc(front, last, id);
      assert front + [last] == file;
      StoredSnoc(Modified(current, front), last.1, id, resolve, false);
      assert Modified(current, front) + [] == Modified(current, front);
      assert last.1.id == last.0;
      hide Get, Keyed, FindStored, Resolved, Differs;
    }
  }

  /** What a repository is after a reload: gone with the file, untouched if its text is the
      file's; otherwise the file's with its paths resolved. Where they do not resolve, or it
      is new and inactive, the map stays as it was. */
  function Reloaded(current: Option<Repo>, file: Option<Repo>, resolve: Resolver): Option<Repo> {
    if file.None? then None
    else
      var stored := Resolved(file.value, resolve);
      if current.None? then (if file.value.active then stored else None)
      else if current.value.text == file.value.text || stored.None? then current
      else stored
  }

  lemma {:induction false} ReloadedIs(held: Option<Repo>, f: Option<Repo>, resolve: Resolver)
    ensures Reloaded(held, f, resolve) ==
            if f.None? then None
            else if held.Some? && held.value.text == f.value.text then held
            else if resolve(f.value.text).None? then held
            else if held.None? && !f.value.active then None
            else Some(f.value.(text := resolve(f.value.text).value))
  {
  }

  lemma ReloadById(current: Record<Repo>, declared: seq<Repo>, resolve: Resolver, id: string)
    requires Keyed(current)
    ensures var after := Applied(current, Detected(current, FileMap(declared)), resolve);
            var held, f := Get(current, id), Get(FileMap(declared), id);
            && Keyed(after) && Get(after, id) == Reloaded(held, f, resolve)
            && Get(after, id) ==
               if f.None? then None
               else if held.Some? && held.value.text == f.value.text then held
               else if resolve(f.value.text).None? then held
               else if held.None? && !f.value.active then None
               else Some(f.value.(text := resolve(f.value.text).value))
  {
    var file := FileMap(declared);
    var c := Detected(current, file);
    FileMapKeyed(declared);
    AddedStored(current, file, resolve, id);
    ModifiedStored(current, file, resolve, id);
    RemovedById(current, file, id);
    var m := RemoveAll(current, c.removed);
    RemoveAllById(current, c.removed, id);
    UpdateAllById(m, c.modified, resolve, id);
    AddAllById(UpdateAll(m, c.modified, resolve), c.added, resolve, id);
    ReloadedIs(Get(current, id), Get(file, id), resolve);
    hide Reloaded, Get, Find, FindStored, Keyed, FileMap, Added, Modified, Removed, RemoveAll, UpdateAll, AddAll, Resolved;
  }

  // ---------- reloading the same file again ----------

  predicate Reports(c: Changes, id: string) {
    Find(c.added, id).Some? || Find(c.modified, id).Some? || Find(c.removed, id).Some?
  }

  lemma QuietReportsNone(c: Changes)
    ensures Quiet(c) <==> forall id :: !Reports(c, id)
  {
    if c.added != [] {
      assert Reports(c, c.added[|c.added| - 1].id);
    }
    if c.modified != [] {
      assert Reports(c, c.modified[|c.modified| - 1].id);
    }
    if c.removed != [] {
      assert Reports(c, c.removed[|c.removed| - 1].id);
    }
  }

  /** No report for an id: it is in both with one text, or in neither. */
  predicate Agree(current: Option<Repo>, file: Option<Repo>) {
    (current.None? <==> file.None?) && (current.Some? && file.Some? ==> current.value.text == file.value.text)
  }

  predicate AgreeAt(current: Record<Repo>, file: Record<Repo>, id: string) {
    Agree(Get(current, id), Get(file, id))
  }

  lemma ReportsExactly(current: Record<Repo>, file: Record<Repo>, id: string)
    requires Keyed(current) && Keyed(file)
    ensures Reports(Detected(current, file), id) <==> !AgreeAt(current, file, id)
  {
    AddedById(current, file, id);
    ModifiedById(current, file, id);
    RemovedById(current, file, id);
    hide Get, Find, Added, Modified, Removed, Keyed;
  }

  /** A reload reports nothing exactly when map and file agree on every id. */
  lemma QuietExactly(current: Record<Repo>, file: Record<Repo>)
    requires Keyed(current) && Keyed(file)
    ensures Quiet(Detected(current, file)) <==> forall id :: AgreeAt(current, file, id)
  {
    hide *;
    QuietReportsNone(Detected(current, file));
    forall id ensures Reports(Detected(current, file), id) <==> !AgreeAt(current, file, id) {
      ReportsExactly(current, file, id);
    }
  }

  /** The repository of that id has been added or changed without loss: its paths resolve,
      and to themselves, and if it is new it is active. */
  predicate Kept(current: Record<Repo>, file: Record<Repo>, resolve: Resolver, id: string) {
    var f := Get(file, id);
    f.Some? && !AgreeAt(current, file, id) ==>
      (resolve(f.value.text) == Some(f.value.text) && (Get(current, id).None? ==> f.value.active))
  }

  lemma SettledCase(c: Option<Repo>, f: Option<Repo>, resolve: Resolver)
    ensures Agree(Reloaded(c, f, resolve), f) <==>
            (f.Some? && !Agree(c, f) ==>
              resolve(f.value.text) == Some(f.value.text) && (c.None? ==> f.value.active))
  {
  }

  lemma SettledAt(current: Record<Repo>, declared: seq<Repo>, resolve: Resolver, id: string)
    requires Keyed(current)
    ensures var file := FileMap(declared);
            AgreeAt(Applied(current, Detected(current, file), resolve), file, id) <==> Kept(current, file, resolve, id)
  {
    ReloadById(current, declared, resolve, id);
    SettledCase(Get(current, id), Get(FileMap(declared), id), resolve);
    hide Get, FileMap, Applied, Detected, Keyed, Agree, Reloaded, Resolved;
  }

  /** After a reload has been applied, reloading the same file reports nothing if and only
      if every repository that was added or changed has paths that resolve, and resolve to
      themselves, and none that was added is inactive. */
  lemma ReloadSettles(current: Record<Repo>, declared: seq<Repo>, resolve: Resolver)
    requires Keyed(current)
    ensures var file := FileMap(declared);
            var after := Applied(current, Detected(current, file), resolve);
            Quiet(Detected(after, file)) <==> forall id :: Kept(current, file, resolve, id)
  {
    hide *;
    var file := FileMap(declared);
    var after := Applied(current, Detected(current, file), resolve);
    FileMapKeyed(declared);
    ReloadById(current, declared, resolve, "");
    QuietExactly(after, file);
    forall id ensures AgreeAt(after, file, id) <==> Kept(current, file, resolve, id) {
      SettledAt(current, declared, resolve, id);
    }
  }

  /** Even where it keeps reporting, a second reload changes nothing. */
  lemma ReloadTwice(current: Record<Repo>, declared: seq<Repo>, resolve: Resolver, id: string)
    requires Keyed(current)
    ensures var file := FileMap(declared);
            var after := Applied(current, Detected(current, file), resolve);
            Get(Applied(after, Detected(after, file), resolve), id) == Get(after, id)
  {
    var after := Applied(current, Detected(current, FileMap(declared)), resolve);
    ReloadById(current, declared, resolve, id);
    ReloadById(after, declared, resolve, id);
    hide Get, FileMap, Applied, Detected, Keyed;
  }

  // ---------- the global settings ----------

  /** A setting as JavaScript sees it: undefined or null, otherwise falsy, or truthy. */
  datatype Setting = Absent(json: string) | Falsy(json: string) | Truthy(json: string)

  type Config = string -> Setting

  /** `x || y` */
  function Or(x: Setting, y: Setting): Setting {
    if x.Truthy? then x else y
  }

  /** `x ?? y` */
  function IfAbsent(x: Setting, y: Setting): Setting {
    if x.Absent? then y else x
  }

  /** How a setting of the file is merged with the one in memory: the file's if truthy, the
      file's if there is one, or the same along with a setting of an older name. */
  datatype Rule = IfTruthy | IfPresent | WithOlder(older: string)

  /** The rules of the reload; a later one for the same key holds. */
  type Rules = seq<(string, Rule)>

  function RuleFor(rules: Rules, key: string): Option<Rule> {
    if rules == [] then None
    else if rules[|rules| - 1].0 == key then Some(rules[|rules| - 1].1)
    else RuleFor(rules[..|rules| - 1], key)
  }

  /** Settings without a rule stay as they are in memory. */
  function MergedAt(rules: Rules, parsed: Config, current: Config, key: string): Setting {
    match RuleFor(rules, key)
    case None => current(key)
    case Some(IfTruthy) => Or(parsed(key), current(key))
    case Some(IfPresent) => IfAbsent(parsed(key), current(key))
    case Some(WithOlder(older)) => Or(parsed(key), Or(parsed(older), Or(current(key), current(older))))
  }

  function Merge(rules: Rules, parsed: Config, current: Config): Config {
    key => MergedAt(rules, parsed, current, key)
  }

  /** Some watched setting differs: of all merged ones, less those with a pipeline of their own. */
  predicate Changed(keys: seq<string>, exempt: set<string>, config: Config, newConfig: Config) {
    exists k :: 0 <= k < |keys| && keys[k] !in exempt && config(keys[k]).json != newConfig(keys[k]).json
  }

  method DetectGlobalConfigChanges(keys: seq<string>, exempt: set<string>, config: Config, newConfig: Config)
    returns (changed: bool)
    ensures changed == Changed(keys, exempt, config, newConfig)
    ensures changed <==>
            exists k :: 0 <= k < |keys| && keys[k] !in exempt && config(keys[k]).json != newConfig(keys[k]).json
  {
    for i := 0 to |keys|
      invariant forall k :: 0 <= k < i && keys[k] !in exempt ==> config(keys[k]).json == newConfig(keys[k]).json
    {
      if keys[i] in exempt {
        continue;
      }
      if config(keys[i]).json != newConfig(keys[i]).json {
        return true;
      }
    }
    changed := false;
  }

  /** A setting that another one is the older name of is itself taken if truthy, or not
      merged at all. */
  predicate OlderNamesPlain(rules: Rules) {
    forall k :: 0 <= k < |rules| && rules[k].1.WithOlder? ==>
      RuleFor(rules, rules[k].1.older) in {None, Some(IfTruthy)}
  }

  lemma {:induction false} RuleIsListed(rules: Rules, key: string)
    ensures RuleFor(rules, key).Some? ==> exists k :: 0 <= k < |rules| && rules[k] == (key, RuleFor(rules, key).value)
  {
    if rules != [] && rules[|rules| - 1].0 != key {
      var front := rules[..|rules| - 1];
      RuleIsListed(front, key);
      if RuleFor(front, key).Some? {
        var k :| 0 <= k < |front| && front[k] == (key, RuleFor(front, key).value);
        assert rules[k] == front[k];
      }
    }
  }

  /** A setting of the file wins over the one in memory as its rule says: if it is truthy, if
      it is there at all, or else the older name of the file's, and memory's only then. */
  lemma {:induction false} FileWins(rules: Rules, parsed: Config, current: Config, k: nat)
    requires k < |rules| && forall j :: k < j < |rules| ==> rules[j].0 != rules[k].0
    ensures var key, merged := rules[k].0, Merge(rules, parsed, current);
            match rules[k].1
            case IfTruthy => merged(key) == if parsed(key).Truthy? then parsed(key) else current(key)
            case IfPresent => merged(key) == if parsed(key).Absent? then current(key) else parsed(key)
            case WithOlder(older) =>
              merged(key) == if parsed(key).Truthy? then parsed(key)
                             else if parsed(older).Truthy? then parsed(older)
                             else if current(key).Truthy? then current(key) else current(older)
  {
    LastRule(rules, k);
    hide RuleFor;
  }

  lemma {:induction false} LastRule(rules: Rules, k: nat)
    requires k < |rules| && forall j :: k < j < |rules| ==> rules[j].0 != rules[k].0
    ensures RuleFor(rules, rules[k].0) == Some(rules[k].1)
  {
    if k < |rules| - 1 {
      assert rules[|rules| - 1].0 != rules[k].0;
      LastRule(rules[..|rules| - 1], k);
    }
  }

  /** A setting no rule speaks of stays as it was. */
  lemma {:induction false} MemoryStays(rules: Rules, parsed: Config, current: Config, key: string)
    requires forall j :: 0 <= j < |rules| ==> rules[j].0 != key
    ensures Merge(rules, parsed, current)(key) == current(key)
  {
    RuleIsListed(rules, key);
    hide RuleFor;
  }

  /** Merging the same file into the merged settings changes none of them, if the older names
      are plain. */
  lemma MergeTwice(rules: Rules, parsed: Config, current: Config, key: string)
    requires OlderNamesPlain(rules)
    ensures var merged := Merge(rules, parsed, current);
            MergedAt(rules, parsed, merged, key) == merged(key)
  {
    RuleIsListed(rules, key);
    hide RuleFor;
  }

  /** Once the merged settings are in place, reloading the same file reports no global
      change, for every such table of rules, all keys and all settings. */
  lemma ReloadGlobals(rules: Rules, keys: seq<string>, exempt: set<string>, parsed: Config, current: Config)
    requires OlderNamesPlain(rules)
    ensures var merged := Merge(rules, parsed, current); !Changed(keys, exempt, merged, Merge(rules, parsed, merged))
  {
    var merged := Merge(rules, parsed, current);
    forall k | 0 <= k < |keys|
      ensures MergedAt(rules, parsed, merged, keys[k]) == merged(keys[k])
    {
      MergeTwice(rules, parsed, current, keys[k]);
    }
  }
}
