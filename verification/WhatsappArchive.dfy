/**
 The session archive of `whatsapp_session_backup.py`: what a copy holds, and what a restore leaves
 behind when it is cut short at any point.

 A directory is a map from relative path to content. The tar and gzip bytes, file modes and symbolic
 links inside the state directory are not part of this model.
 */
module WhatsappArchive {
  import opened Common

  type Path = seq<string>
  type Bytes = seq<nat>
  type Tree = map<Path, Bytes>

  /** A tar member; `absolute` and `parts` are its name split at slashes. */
  datatype Member = Member(isFile: bool, absolute: bool, parts: seq<string>, data: Bytes)

  const SESSION_DIR: Path := ["credentials", "whatsapp"]
  const CREDS: string := "creds.json"

  /** `has_local_whatsapp_session`: some account directory holds credentials. */
  ghost predicate HasSession(root: Option<Tree>) {
    root.Some? && exists p :: p in root.value && |p| == 2 && p[1] == CREDS
  }

  predicate Plain(part: string) { part != "" && part != "." && part != ".." }

  predicate PlainPath(p: Path) { forall i :: 0 <= i < |p| ==> Plain(p[i]) }

  /** `Path.resolve` without links: dots vanish and double dots climb, not above the top. */
  function Resolve(from: Path, parts: seq<string>): Path
    decreases |parts|
  {
    if parts == [] then from
    else if parts[0] == "" || parts[0] == "." then Resolve(from, parts[1..])
    else if parts[0] == ".." then Resolve(if from == [] then [] else from[..|from| - 1], parts[1..])
    else Resolve(from + [parts[0]], parts[1..])
  }

  /** Where a member goes inside the session directory, or nothing when it would land outside. */
  function Target(state: Path, m: Member): Option<Path> {
    var dest := Resolve(if m.absolute then [] else state, m.parts);
    var root := state + SESSION_DIR;
    if root <= dest then Some(dest[|root|..]) else None
  }

  /** The files an archive asks for; nothing at all when one of them would land outside. */
  function Wanted(state: Path, members: seq<Member>): Option<seq<(Path, Bytes)>> {
    if members == [] then Some([])
    else
      var before := Wanted(state, members[..|members| - 1]);
      var m := members[|members| - 1];
      if before.None? || !m.isFile then before
      else
        var target := Target(state, m);
        if target.None? then None else Some(before.value + [(target.value, m.data)])
  }

  lemma {:induction false} WantedPrefix(state: Path, members: seq<Member>, n: nat)
    requires n <= |members| && Wanted(state, members[..n]).None?
    ensures Wanted(state, members).None?
    decreases |members|
  {
    if n < |members| {
      assert members[..|members| - 1][..n] == members[..n];
      WantedPrefix(state, members[..|members| - 1], n);
    } else {
      assert members[..n] == members;
    }
  }

  /** An archive is refused exactly when one of its regular files would land outside. */
  lemma {:induction false} RefusedExactly(state: Path, members: seq<Member>)
    ensures Wanted(state, members).None? <==>
            exists i :: 0 <= i < |members| && members[i].isFile && Target(state, members[i]).None?
  {
    if members != [] {
      var n := |members| - 1;
      RefusedExactly(state, members[..n]);
      if Wanted(state, members[..n]).None? {
        var i :| 0 <= i < n && members[..n][i].isFile && Target(state, members[..n][i]).None?;
        assert members[i].isFile && Target(state, members[i]).None?;
      } else {
        forall i | 0 <= i < n ensures !(members[i].isFile && Target(state, members[i]).None?) {
          assert members[..n][i] == members[i];
        }
      }
    }
  }

  /** Writing files one after the other: a later one replaces an earlier one of the same path. */
  function Written(files: seq<(Path, Bytes)>): Tree {
    if files == [] then map[]
    else Written(files[..|files| - 1])[files[|files| - 1].0 := files[|files| - 1].1]
  }

  // --- restore ----------------------------------------------------------------------------------

  /** Whether a file can stand at `path`: not at the top, not below a file and not where a directory is. */
  predicate Fits(tree: Tree, path: Path) {
    path != [] && forall p | p in tree :: !(p < path) && !(path < p)
  }

  /** No file stands where another one needs a directory. */
  ghost predicate NoClash(paths: set<Path>) {
    [] !in paths && forall p, q | p in paths && q in paths :: !(p < q)
  }

  /**
   The session directory and the scratch directory beside it. `good` operations are still carried out;
   the one after them fails, as on a full disk. `crashes` is history: the session directory as a crash
   right after each primitive operation would have left it.
   */
  class Disk {
    var root: Option<Tree>
    var scratch: Option<Tree>
    var good: nat
    ghost var crashes: seq<Option<Tree>>

    constructor (root: Option<Tree>, good: nat)
      ensures this.root == root && scratch == None && this.good == good && crashes == [root]
    {
      this.root, scratch, this.good, crashes := root, None, good, [root];
    }

    /** Whether the next operation is carried out. */
    method Works() returns (ok: bool)
      modifies this`good
      ensures ok == (old(good) > 0)
      ensures good == if ok then old(good) - 1 else 0
    {
      ok := good > 0;
      if ok { good := good - 1; }
    }

    method MakeScratch() returns (ok: bool)
      modifies this
      ensures ok == (old(good) > 0) && good == if ok then old(good) - 1 else 0
      ensures root == old(root) && crashes == old(crashes) + [root]
      ensures scratch == if ok then Some(map[]) else None
    {
      ok := Works();
      scratch := if ok then Some(map[]) else None;
      crashes := crashes + [root];
    }

    /** A write that fails may leave the file torn. */
    method WriteScratch(path: Path, data: Bytes) returns (ok: bool)
      requires scratch.Some?
      modifies this
      ensures ok == (old(good) > 0 && Fits(old(scratch.value), path))
      ensures ok ==> good == old(good) - 1 && scratch == Some(old(scratch.value)[path := data])
      ensures root == old(root) && crashes == old(crashes) + [root] && scratch.Some?
    {
      ok := Works();
      if Fits(scratch.value, path) {
        var torn: Bytes := *;
        scratch := Some(scratch.value[path := if ok then data else torn]);
      } else {
        ok := false;
      }
      crashes := crashes + [root];
    }

    method RemoveScratch()
      modifies this
      ensures root == old(root) && scratch == None && crashes == old(crashes) + [root]
    {
      scratch := None;
      crashes := crashes + [root];
    }

    method RemoveFile(path: Path) returns (ok: bool)
      requires root.Some? && path in root.value
      modifies this
      ensures ok == (old(good) > 0) && good == if ok then old(good) - 1 else 0
      ensures scratch == old(scratch) && crashes == old(crashes) + [root]
      ensures root == if ok then Some(old(root.value) - {path}) else old(root)
    {
      ok := Works();
      if ok { root := Some(root.value - {path}); }
      crashes := crashes + [root];
    }

    method RemoveRoot() returns (ok: bool)
      modifies this
      ensures ok == (old(good) > 0) && good == if ok then old(good) - 1 else 0
      ensures root == (if ok then None else old(root)) && scratch == old(scratch) && crashes == old(crashes) + [root]
    {
      ok := Works();
      if ok { root := None; }
      crashes := crashes + [root];
    }

    /** `os.replace`: the scratch directory becomes the session directory in one rename. */
    method Replace() returns (ok: bool)
      requires scratch.Some? && root.None?
      modifies this
      ensures ok == (old(good) > 0)
      ensures root == (if ok then old(scratch) else old(root)) && crashes == old(crashes) + [root]
      ensures scratch == if ok then None else old(scratch)
    {
      ok := Works();
      if ok { root, scratch := scratch, None; }
      crashes := crashes + [root];
    }
  }

  /** No session that could be taken for a whole one, or exactly the archive's files. */
  ghost predicate Safe(after: Option<Tree>, archive: Tree) {
    !HasSession(after) || after == Some(archive)
  }

  ghost predicate AllSafe(crashes: seq<Option<Tree>>, archive: Tree) {
    forall i :: 0 <= i < |crashes| ==> Safe(crashes[i], archive)
  }

  datatype Restored = Refused | Failed | Restored(count: nat)

  lemma SubtreeHasNoSession(before: Tree, after: Tree)
    requires after.Keys <= before.Keys && !HasSession(Some(before))
    ensures !HasSession(Some(after))
  {}

  /** What it takes to remove a directory: every file, then the directory itself. */
  ghost function Removals(root: Option<Tree>): nat {
    if root.None? then 0 else |root.value.Keys| + 1
  }

  /** `shutil.rmtree` of the session directory: its files go in any order and it may stop midway. */
  method RemoveTree(disk: Disk, ghost archive: Tree) returns (ok: bool)
    requires !HasSession(disk.root) && AllSafe(disk.crashes, archive)
    modifies disk
    ensures !HasSession(disk.root) && AllSafe(disk.crashes, archive) && disk.scratch == old(disk.scratch)
    ensures ok == (old(disk.good) >= Removals(old(disk.root)))
    ensures ok ==> disk.root.None? && disk.good == old(disk.good) - Removals(old(disk.root))
  {
    if disk.root.None? { return true; }
    var left := disk.root.value.Keys;
    while left != {}
      invariant disk.root.Some? && left <= disk.root.value.Keys && !HasSession(disk.root)
      invariant AllSafe(disk.crashes, archive) && disk.scratch == old(disk.scratch)
      invariant disk.good + Removals(old(disk.root)) == old(disk.good) + |left| + 1
      decreases left
    {
      var path :| path in left;
      ghost var before := disk.root.value;
      ok := disk.RemoveFile(path);
      SubtreeHasNoSession(before, disk.root.value);
      if !ok { return false; }
      left := left - {path};
    }
    ok := disk.RemoveRoot();
  }

  /** The files to put down, read before anything is written; a member that would land outside refuses them all. */
  method ReadMembers(state: Path, members: seq<Member>) returns (wanted: Option<seq<(Path, Bytes)>>)
    ensures wanted == Wanted(state, members)
  {
    var files: seq<(Path, Bytes)> := [];
    var i := 0;
    while i < |members|
      invariant 0 <= i <= |members|
      invariant Wanted(state, members[..i]) == Some(files)
    {
      assert members[..i + 1][..i] == members[..i];
      if members[i].isFile {
        var target := Target(state, members[i]);
        if target.None? {
          WantedPrefix(state, members, i + 1);
          return None;
        }
        files := files + [(target.value, members[i].data)];
      }
      i := i + 1;
    }
    assert members[..i] == members;
    return Some(files);
  }

  ghost function Paths(files: seq<(Path, Bytes)>): set<Path> { set i | 0 <= i < |files| :: files[i].0 }

  lemma {:induction false} WrittenPaths(files: seq<(Path, Bytes)>)
    ensures Written(files).Keys == Paths(files)
  {
    if files != [] {
      var before := files[..|files| - 1];
      WrittenPaths(before);
      assert Paths(files) == Paths(before) + {files[|files| - 1].0};
    }
  }

  /** All files go into the scratch directory; the first one that cannot be written ends it. */
  method WriteFiles(disk: Disk, files: seq<(Path, Bytes)>, ghost archive: Tree) returns (ok: bool)
    requires !HasSession(disk.root) && disk.scratch == Some(map[]) && AllSafe(disk.crashes, archive)
    modifies disk
    ensures disk.root == old(disk.root) && disk.scratch.Some? && AllSafe(disk.crashes, archive)
    ensures ok <==> NoClash(Paths(files)) && old(disk.good) >= |files|
    ensures ok ==> disk.scratch == Some(Written(files)) && disk.good == old(disk.good) - |files|
  {
    var i := 0;
    while i < |files|
      invariant 0 <= i <= |files| && old(disk.good) == disk.good + i && NoClash(Paths(files[..i]))
      invariant disk.root == old(disk.root) && disk.scratch == Some(Written(files[..i]))
      invariant AllSafe(disk.crashes, archive)
    {
      assert files[..i + 1][..i] == files[..i];
      OneMorePath(files, i);
      ok := disk.WriteScratch(files[i].0, files[i].1);
      if !ok { return false; }
      i := i + 1;
    }
    assert files[..i] == files;
    ok := true;
  }

  /** A further file fits exactly when it adds no clash. */
  lemma OneMorePath(files: seq<(Path, Bytes)>, i: nat)
    requires i < |files| && NoClash(Paths(files[..i]))
    ensures Fits(Written(files[..i]), files[i].0) <==> NoClash(Paths(files[..i + 1]))
    ensures NoClash(Paths(files)) ==> NoClash(Paths(files[..i + 1]))
  {
    WrittenPaths(files[..i]);
    assert Paths(files[..i + 1]) == Paths(files[..i]) + {files[i].0} by {
      assert files[..i + 1] == files[..i] + [files[i]];
      forall p | p in Paths(files[..i]) ensures p in Paths(files[..i + 1]) {
        var j :| 0 <= j < i && files[..i][j].0 == p;
        assert files[..i + 1][j].0 == p;
      }
      assert files[..i + 1][i].0 == files[i].0;
    }
    assert Paths(files[..i + 1]) <= Paths(files);
  }

  /**
   `restore_whatsapp_session`. From a directory without credentials, whatever operation fails and
   wherever the process dies, the session directory holds no credentials or exactly the archive's files.
   A member that would land outside refuses the archive before anything is written. It succeeds exactly
   when no file stands where another needs a directory and every operation it takes is carried out.
   */
  method Restore(disk: Disk, state: Path, members: seq<Member>) returns (result: Restored)
    requires !HasSession(disk.root) && disk.crashes == [disk.root]
    modifies disk
    ensures Wanted(state, members).None? <==> result == Refused
    ensures result == Refused ==> disk.root == old(disk.root) && disk.crashes == old(disk.crashes)
    ensures result != Refused ==> AllSafe(disk.crashes, Written(Wanted(state, members).value))
    ensures result == Failed ==> !HasSession(disk.root) && disk.scratch.None?
    ensures result.Restored? <==>
              && Wanted(state, members).Some? && NoClash(Paths(Wanted(state, members).value))
              && old(disk.good) >= |Wanted(state, members).value| + Removals(old(disk.root)) + 2
    ensures result.Restored? ==>
              && disk.root == Some(Written(Wanted(state, members).value)) && disk.scratch.None?
              && result.count == |Wanted(state, members).value|
  {
    var wanted := ReadMembers(state, members);
    if wanted.None? { return Refused; }
    var files := wanted.value;
    ghost var archive := Written(files);
    var ok := disk.MakeScratch();
    if !ok { return Failed; }
    ok := WriteFiles(disk, files, archive);
    if !ok { disk.RemoveScratch(); return Failed; }
    ok := RemoveTree(disk, archive);
    if ok { ok := disk.Replace(); }
    if !ok { disk.RemoveScratch(); return Failed; }
    return Restored(|files|);
  }

  /** The starting point matters: removing a live session file by file can leave credentials alone. */
  lemma LiveSessionCouldBeTorn(account: string, keys: Bytes, creds: Bytes, archive: Tree)
    requires Some(map[[account, CREDS] := creds]) != Some(archive)
    ensures var live: Tree := map[[account, CREDS] := creds, [account, "keys.json"] := keys];
            !Safe(Some(live - {[account, "keys.json"]}), archive)
  {
    var live: Tree := map[[account, CREDS] := creds, [account, "keys.json"] := keys];
    var torn := live - {[account, "keys.json"]};
    assert [account, CREDS][1] != [account, "keys.json"][1];
    assert [account, CREDS] in torn && |[account, CREDS]| == 2;
    assert torn == map[[account, CREDS] := creds];
  }

  // --- build ------------------------------------------------------------------------------------

  datatype Snapshot = NoSession | Unstable | Archive(members: seq<Member>)

  /** The member written for one session file. */
  function Packed(path: Path, data: Bytes): Member { Member(true, false, SESSION_DIR + path, data) }

  ghost predicate PackedFrom(m: Member, tree: Tree) {
    exists p {:trigger p in tree} :: p in tree && m == Packed(p, tree[p])
  }

  /** `members` holds the files of `tree` and nothing else. */
  ghost predicate Holds(members: seq<Member>, tree: Tree) {
    && (forall i :: 0 <= i < |members| ==> PackedFrom(members[i], tree))
    && (forall p :: p in tree ==> Packed(p, tree[p]) in members)
  }

  /**
   `build_whatsapp_session_archive`. `readable` and `parses` say which files can be read and which of
   those that must be JSON parse; one bad file fails the whole snapshot.
   */
  method Build(root: Option<Tree>, readable: set<Path>, mustParse: set<Path>, parses: set<Path>) returns (r: Snapshot)
    ensures r == NoSession <==> !HasSession(root)
    ensures HasSession(root) && (forall p :: p in root.value ==> p in readable && (p in mustParse ==> p in parses)) ==> r.Archive?
    ensures r.Archive? ==> forall p :: p in root.value ==> p in readable && (p in mustParse ==> p in parses)
    ensures r.Archive? ==> Holds(r.members, root.value)
  {
    if root.None? { return NoSession; }
    if !(exists p | p in root.value.Keys :: |p| == 2 && p[1] == CREDS) { return NoSession; }
    var members: seq<Member> := [];
    var left := root.value.Keys;
    while left != {}
      invariant left <= root.value.Keys
      invariant forall p :: p in root.value && p !in left ==> p in readable && (p in mustParse ==> p in parses)
      invariant Holds(members, map p | p in root.value && p !in left :: root.value[p])
      decreases left
    {
      var path :| path in left;
      if path !in readable { return Unstable; }
      if path in mustParse && path !in parses { return Unstable; }
      ghost var before := map p | p in root.value && p !in left :: root.value[p];
      left := left - {path};
      ghost var after := map p | p in root.value && p !in left :: root.value[p];
      HoldsOneMore(members, before, path, root.value[path], after);
      members := members + [Packed(path, root.value[path])];
    }
    assert (map p | p in root.value && p !in left :: root.value[p]) == root.value;
    return Archive(members);
  }

  lemma HoldsOneMore(members: seq<Member>, before: Tree, path: Path, data: Bytes, after: Tree)
    requires Holds(members, before) && after == before[path := data] && path !in before
    ensures Holds(members + [Packed(path, data)], after)
  {
    var more := members + [Packed(path, data)];
    forall i | 0 <= i < |more| ensures PackedFrom(more[i], after) {
      if i < |members| {
        assert more[i] == members[i] && PackedFrom(members[i], before);
        var p {:trigger p in before} :| p in before && members[i] == Packed(p, before[p]);
        assert p in after && more[i] == Packed(p, after[p]);
      } else {
        assert path in after && more[i] == Packed(path, after[path]);
      }
    }
  }

  // --- round trip -------------------------------------------------------------------------------

  lemma {:induction false} PlainResolves(from: Path, parts: seq<string>)
    requires PlainPath(parts)
    ensures Resolve(from, parts) == from + parts
    decreases |parts|
  {
    if parts != [] {
      PlainResolves(from + [parts[0]], parts[1..]);
      assert from + parts == from + [parts[0]] + parts[1..];
    }
  }

  lemma {:induction false} ResolvesOneByOne(from: Path, parts: seq<string>, rest: seq<string>)
    ensures Resolve(from, parts + rest) == Resolve(Resolve(from, parts), rest)
    decreases |parts|
  {
    if parts == [] {
      assert parts + rest == rest;
    } else {
      assert (parts + rest)[1..] == parts[1..] + rest;
      var below :=
        if parts[0] == "" || parts[0] == "." then from
        else if parts[0] == ".." then if from == [] then [] else from[..|from| - 1]
        else from + [parts[0]];
      ResolvesOneByOne(below, parts[1..], rest);
    }
  }

  /** Empty parts and dots mean nothing, and a double dot takes back the part before it. */
  lemma DotsVanish(from: Path, parts: seq<string>, part: string, rest: seq<string>)
    ensures Resolve(from, parts + [""] + rest) == Resolve(from, parts + ["."] + rest) == Resolve(from, parts + rest)
    ensures Plain(part) ==> Resolve(from, parts + [part, ".."] + rest) == Resolve(from, parts + rest)
    ensures Resolve([], [".."] + rest) == Resolve([], rest)
  {
    var below := Resolve(from, parts);
    ResolvesOneByOne(from, parts, rest);
    ResolvesOneByOne(from, parts, [""]);
    ResolvesOneByOne(from, parts + [""], rest);
    ResolvesOneByOne(from, parts, ["."]);
    ResolvesOneByOne(from, parts + ["."], rest);
    assert ([".."] + rest)[1..] == rest;
    if Plain(part) {
      ResolvesOneByOne(from, parts, [part, ".."]);
      ResolvesOneByOne(from, parts + [part, ".."], rest);
      assert [part, ".."][1..] == [".."];
      assert (below + [part])[..|below|] == below;
      assert Resolve(below, [part, ".."]) == Resolve(below + [part], [".."]) == Resolve(below, []) == below;
    }
  }

  /** A name without dots is accepted exactly below the session directory, counted from the top when it is absolute. */
  lemma PlainTarget(state: Path, m: Member, path: Path)
    requires PlainPath(m.parts)
    ensures Target(state, m) == Some(path) <==> m.parts == (if m.absolute then state else []) + SESSION_DIR + path
  {
    var from := if m.absolute then [] else state;
    var root := state + SESSION_DIR;
    PlainResolves(from, m.parts);
    if m.absolute {
      assert from + m.parts == m.parts;
      assert root + path == state + SESSION_DIR + path;
    } else {
      assert (state + m.parts)[|state|..] == m.parts;
      assert [] + SESSION_DIR + path == SESSION_DIR + path;
      assert root + path == state + (SESSION_DIR + path);
      if root <= state + m.parts {
        var p := (state + m.parts)[|root|..];
        assert state + m.parts == root + p == state + (SESSION_DIR + p);
        assert (state + (SESSION_DIR + p))[|state|..] == SESSION_DIR + p;
        assert (SESSION_DIR + p)[2..] == p && (SESSION_DIR + path)[2..] == path;
      }
      assert (root + path)[|root|..] == path;
    }
    if m.parts == (if m.absolute then state else []) + SESSION_DIR + path {
      assert from + m.parts == root + path;
      assert (root + path)[|root|..] == path;
    }
    if Target(state, m) == Some(path) {
      assert from + m.parts == root + path;
    }
  }

  lemma PackedTarget(state: Path, path: Path, data: Bytes)
    requires PlainPath(path)
    ensures Target(state, Packed(path, data)) == Some(path)
  {
    assert Plain("credentials") && Plain("whatsapp");
    PlainTarget(state, Packed(path, data), path);
  }

  /** Members that all hold files of one tree put down a part of that tree. */
  lemma {:induction false} PackedWanted(state: Path, members: seq<Member>, tree: Tree)
    requires forall p :: p in tree ==> PlainPath(p)
    requires forall i :: 0 <= i < |members| ==> PackedFrom(members[i], tree)
    ensures Wanted(state, members).Some?
    ensures var w := Written(Wanted(state, members).value);
            && (forall p :: p in w <==> p in tree && Packed(p, tree[p]) in members)
            && (forall p :: p in w ==> w[p] == tree[p])
  {
    if members != [] {
      var n := |members| - 1;
      PackedWanted(state, members[..n], tree);
      assert PackedFrom(members[n], tree);
      var p :| p in tree && members[n] == Packed(p, tree[p]);
      PackedTarget(state, p, tree[p]);
      var files := Wanted(state, members[..n]).value;
      assert (files + [(p, tree[p])])[..|files|] == files;
      forall q | q in tree ensures Packed(q, tree[q]) in members <==> Packed(q, tree[q]) in members[..n] || q == p {
        if Packed(q, tree[q]) == members[n] {
          assert q == (SESSION_DIR + q)[2..] == (SESSION_DIR + p)[2..] == p;
        }
      }
    }
  }

  /**
   Restoring a built archive gives back exactly the files it was built from. It asks for their paths and
   no others, so none stands in another's way: the files of a directory do not clash.
   */
  lemma RestoreOfBuild(state: Path, members: seq<Member>, tree: Tree)
    requires Holds(members, tree) && forall p :: p in tree ==> PlainPath(p)
    ensures Wanted(state, members).Some? && Written(Wanted(state, members).value) == tree
    ensures Paths(Wanted(state, members).value) == tree.Keys
  {
    PackedWanted(state, members, tree);
    WrittenPaths(Wanted(state, members).value);
  }
}
