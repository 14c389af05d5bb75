/** writeJournalAtomic over a disk whose unsynced contents and directory changes a crash may lose. */
module JournalDisk {
  import opened Outcomes

  type Name = string
  type Inode = nat

  datatype DirOp = Link(name: Name, inode: Inode) | Unlink(name: Name) | Rename(source: Name, target: Name)

  /**
   * `files` and `dir` are what processes see. A crash keeps the contents of `synced` inodes only, and
   * falls back to `durable` with any of the `pending` directory changes applied, in order, or not.
   */
  datatype DiskState = DiskState(
    files: map<Inode, string>,
    synced: set<Inode>,
    dir: map<Name, Inode>,
    durable: map<Name, Inode>,
    pending: seq<DirOp>)

  function ApplyOp(dir: map<Name, Inode>, op: DirOp): map<Name, Inode> {
    match op
    case Link(name, inode) => dir[name := inode]
    case Unlink(name) => dir - {name}
    case Rename(source, target) => if source in dir then (dir - {source})[target := dir[source]] else dir
  }

  /** The directory after a crash that let through the pending changes marked in `kept`. */
  function Survived(durable: map<Name, Inode>, pending: seq<DirOp>, kept: seq<bool>): map<Name, Inode>
    requires |kept| == |pending|
  {
    if pending == [] then durable
    else
      var n := |pending| - 1;
      var before := Survived(durable, pending[..n], kept[..n]);
      if kept[n] then ApplyOp(before, pending[n]) else before
  }

  /** After a crash now, `path` may turn out to be absent (None) or to hold exactly these contents. */
  ghost predicate MayRecover(d: DiskState, path: Name, contents: Option<string>) {
    exists kept: seq<bool> | |kept| == |d.pending| :: MayRecoverWith(d, path, contents, kept)
  }

  predicate MayRecoverWith(d: DiskState, path: Name, contents: Option<string>, kept: seq<bool>)
    requires |kept| == |d.pending|
  {
    var dir := Survived(d.durable, d.pending, kept);
    if path !in dir then contents == None
    else contents.Some? && (dir[path] in d.synced && dir[path] in d.files ==> contents.value == d.files[dir[path]])
  }

  function Read(d: DiskState, path: Name): Option<string> {
    if path in d.dir && d.dir[path] in d.files then Some(d.files[d.dir[path]]) else None
  }

  predicate Mentions(op: DirOp, name: Name) {
    match op
    case Link(n, _) => n == name
    case Unlink(n) => n == name
    case Rename(s, t) => s == name || t == name
  }

  /** Inodes in use exist. */
  ghost predicate WellFormed(d: DiskState) {
    && (forall n | n in d.dir :: d.dir[n] in d.files)
    && (forall n | n in d.durable :: d.durable[n] in d.files)
    && (forall op | op in d.pending :: op.Link? ==> op.inode in d.files)
  }

  /** A name no directory entry or pending change uses: what the random suffix of the temporary file provides. */
  ghost predicate Unused(d: DiskState, name: Name) {
    name !in d.dir && name !in d.durable && forall op | op in d.pending :: !Mentions(op, name)
  }

  /** Whatever a crash can leave at `path` now, it could leave before, or it is the complete new contents. */
  ghost predicate OldOrNew(before: DiskState, d: DiskState, path: Name, contents: string) {
    forall c: Option<string> :: MayRecover(d, path, c) ==> c == Some(contents) || MayRecover(before, path, c)
  }

  class Disk {
    var now: DiskState
    ghost var history: seq<DiskState>  // every state the disk went through
    ghost var failures: nat            // how many calls have failed, removals aside

    /** `openSync(name, "wx")`. */
    method CreateExclusive(name: Name) returns (fd: Option<Inode>)
      requires WellFormed(now)
      modifies this
      ensures WellFormed(now) && history == old(history) + [now]
      ensures fd.Some? ==> name !in old(now.dir) && fd.value !in old(now.files) && fd.value !in now.synced
      ensures fd.Some? ==>
                now == old(now).(files := old(now.files)[fd.value := ""], synced := old(now.synced) - {fd.value},
                                 dir := old(now.dir)[name := fd.value],
                                 pending := old(now.pending) + [Link(name, fd.value)])
      ensures fd.None? ==> now == old(now)
      ensures failures == old(failures) + if fd.None? then 1 else 0
    {
      var fails: bool := *;
      fd := None;
      if !fails && name !in now.dir {
        ghost var free := FreeInode(now.files.Keys);
        var i: Inode :| i !in now.files;
        fd := Some(i);
        now := now.(files := now.files[i := ""], synced := now.synced - {i}, dir := now.dir[name := i],
                    pending := now.pending + [Link(name, i)]);
      }
      failures := failures + if fd.None? then 1 else 0;
      history := history + [now];
    }

    /** `writeFileSync(fd, contents)`: a failure may leave a part of the contents behind. */
    method Write(fd: Inode, contents: string) returns (ok: bool)
      requires fd in now.files && fd !in now.synced
      modifies this
      ensures history == old(history) + [now]
      ensures fd in now.files && now == old(now).(files := old(now.files)[fd := now.files[fd]])
      ensures ok ==> now.files[fd] == contents
      ensures failures == old(failures) + if ok then 0 else 1
    {
      ok := *;
      var written := |contents|;
      if !ok {
        written :| 0 <= written <= |contents|;
      }
      now := now.(files := now.files[fd := contents[..written]]);
      failures := failures + if ok then 0 else 1;
      history := history + [now];
    }

    /** `fsyncSync(fd)` on a file. */
    method SyncFile(fd: Inode) returns (ok: bool)
      modifies this
      ensures history == old(history) + [now]
      ensures now == if ok then old(now).(synced := old(now.synced) + {fd}) else old(now)
      ensures failures == old(failures) + if ok then 0 else 1
    {
      ok := *;
      if ok {
        now := now.(synced := now.synced + {fd});
      }
      failures := failures + if ok then 0 else 1;
      history := history + [now];
    }

    method RenameFile(source: Name, target: Name) returns (ok: bool)
      requires source in now.dir
      modifies this
      ensures history == old(history) + [now]
      ensures now == if ok then old(now).(dir := ApplyOp(old(now.dir), Rename(source, target)),
                                          pending := old(now.pending) + [Rename(source, target)]) else old(now)
      ensures failures == old(failures) + if ok then 0 else 1
    {
      ok := *;
      if ok {
        now := now.(dir := ApplyOp(now.dir, Rename(source, target)), pending := now.pending + [Rename(source, target)]);
      }
      failures := failures + if ok then 0 else 1;
      history := history + [now];
    }

    /** `fsyncSync` on the directory. */
    method SyncDirectory() returns (ok: bool)
      modifies this
      ensures history == old(history) + [now]
      ensures now == if ok then old(now).(durable := old(now.dir), pending := []) else old(now)
      ensures failures == old(failures) + if ok then 0 else 1
    {
      ok := *;
      if ok {
        now := now.(durable := now.dir, pending := []);
      }
      failures := failures + if ok then 0 else 1;
      history := history + [now];
    }

    method UnlinkFile(name: Name)
      modifies this
      ensures history == old(history) + [now]
      ensures failures == old(failures)
      ensures now == old(now)
              || now == old(now).(dir := old(now.dir) - {name}, pending := old(now.pending) + [Unlink(name)])
    {
      var fails: bool := *;
      if !fails {
        now := now.(dir := now.dir - {name}, pending := now.pending + [Unlink(name)]);
      }
      history := history + [now];
    }
  }

  /** Some inode number is always free. */
  lemma {:induction false} FreeInode(s: set<Inode>) returns (i: Inode)
    ensures i !in s && forall j | j in s :: j < i
  {
    i := 0;
    if s != {} {
      var x :| x in s;
      var rest := FreeInode(s - {x});
      i := if x < rest then rest else x + 1;
      assert forall j | j in s :: j == x || j in s - {x};
    }
  }

  // ---- How each change moves what a crash can leave behind ----

  lemma {:induction false} SurvivedInodes(d: DiskState, n: nat, kept: seq<bool>, name: Name)
    requires WellFormed(d) && n == |kept| <= |d.pending|
    requires name in Survived(d.durable, d.pending[..n], kept)
    ensures Survived(d.durable, d.pending[..n], kept)[name] in d.files
  {
    if n > 0 {
      var before := Survived(d.durable, d.pending[..n - 1], kept[..n - 1]);
      assert d.pending[..n][..n - 1] == d.pending[..n - 1];
      var op := d.pending[n - 1];
      assert op in d.pending;
      if name in before {
        SurvivedInodes(d, n - 1, kept[..n - 1], name);
      }
      if op.Rename? && op.source in before {
        SurvivedInodes(d, n - 1, kept[..n - 1], op.source);
      }
    }
  }

  /** A name no change mentions is where it durably was. */
  lemma {:induction false} SurvivedUnused(durable: map<Name, Inode>, pending: seq<DirOp>, kept: seq<bool>, name: Name)
    requires |kept| == |pending| && name !in durable && forall op | op in pending :: !Mentions(op, name)
    ensures name !in Survived(durable, pending, kept)
  {
    if pending != [] {
      var n := |pending| - 1;
      assert pending[n] in pending;
      SurvivedUnused(durable, pending[..n], kept[..n], name);
    }
  }

  lemma {:induction false} SurvivedAppend(durable: map<Name, Inode>, pending: seq<DirOp>, op: DirOp, kept: seq<bool>)
    requires |kept| == |pending| + 1
    ensures Survived(durable, pending + [op], kept)
            == if kept[|pending|] then ApplyOp(Survived(durable, pending, kept[..|pending|]), op)
               else Survived(durable, pending, kept[..|pending|])
  {
  }

  /** The new file exists under its temporary name; nothing else changed. `tail` is what happened to the name since. */
  ghost predicate Staged(d0: DiskState, d: DiskState, temp: Name, i: Inode, tail: seq<DirOp>) {
    && i !in d0.files && i in d.files
    && (forall j | j in d0.files :: j in d.files && d.files[j] == d0.files[j] && (j in d.synced <==> j in d0.synced))
    && d.durable == d0.durable && d.pending == d0.pending + [Link(temp, i)] + tail
  }

  /** What a crash makes of the directory while the file is only staged. */
  lemma {:induction false} SurvivedStaged(d0: DiskState, temp: Name, i: Inode, kept: seq<bool>, path: Name)
    requires WellFormed(d0) && Unused(d0, temp) && |kept| == |d0.pending| + 1
    ensures var before := Survived(d0.durable, d0.pending, kept[..|d0.pending|]);
            var after := Survived(d0.durable, d0.pending + [Link(temp, i)], kept);
            && (path != temp ==> (path in after <==> path in before) && (path in after ==> after[path] == before[path]))
            && (temp in after ==> after[temp] == i)
            && (path in before ==> before[path] in d0.files)
  {
    var n := |d0.pending|;
    SurvivedAppend(d0.durable, d0.pending, Link(temp, i), kept);
    SurvivedUnused(d0.durable, d0.pending, kept[..n], temp);
    assert d0.pending[..n] == d0.pending;
    if path in Survived(d0.durable, d0.pending, kept[..n]) {
      SurvivedInodes(d0, n, kept[..n], path);
    }
  }

  lemma {:induction false} StagedIsInvisible(d0: DiskState, d: DiskState, path: Name, temp: Name, i: Inode, tail: seq<DirOp>, contents: string)
    requires WellFormed(d0) && Unused(d0, temp) && path != temp && Staged(d0, d, temp, i, tail)
    requires tail == [] || tail == [Unlink(temp)]
    ensures OldOrNew(d0, d, path, contents)
  {
    var n := |d0.pending|;
    forall c: Option<string>, kept: seq<bool> | |kept| == |d.pending| && MayRecoverWith(d, path, c, kept)
      ensures MayRecover(d0, path, c)
    {
      var linked := kept[..n + 1];
      SurvivedStaged(d0, temp, i, linked, path);
      if tail != [] {
        SurvivedAppend(d0.durable, d0.pending + [Link(temp, i)], Unlink(temp), kept);
      } else {
        assert d.pending == d0.pending + [Link(temp, i)] && kept == linked;
      }
      assert linked[..n] == kept[..n];
      assert MayRecoverWith(d0, path, c, kept[..n]);
    }
  }

  lemma {:induction false} RenamedIsOldOrNew(d0: DiskState, d: DiskState, path: Name, temp: Name, i: Inode, contents: string)
    requires WellFormed(d0) && Unused(d0, temp) && path != temp && Staged(d0, d, temp, i, [Rename(temp, path)])
    requires i in d.synced && d.files[i] == contents
    ensures OldOrNew(d0, d, path, contents)
  {
    var n := |d0.pending|;
    forall c: Option<string>, kept: seq<bool> | |kept| == |d.pending| && MayRecoverWith(d, path, c, kept) && c != Some(contents)
      ensures MayRecover(d0, path, c)
    {
      var linked := kept[..n + 1];
      SurvivedStaged(d0, temp, i, linked, path);
      SurvivedAppend(d0.durable, d0.pending + [Link(temp, i)], Rename(temp, path), kept);
      assert linked[..n] == kept[..n];
      assert MayRecoverWith(d0, path, c, kept[..n]);
    }
  }

  /** Every state from index `start` of the history on shows the old or the new journal, whenever the crash comes. */
  ghost predicate CrashAtomic(history: seq<DiskState>, start: nat, d0: DiskState, path: Name, contents: string) {
    forall k | start <= k < |history| :: OldOrNew(d0, history[k], path, contents)
  }

  /** The part up to and including the flush of the temporary file. */
  method StageTemporary(disk: Disk, ghost path: Name, temp: Name, contents: string) returns (fd: Option<Inode>, flushed: bool)
    requires WellFormed(disk.now) && Unused(disk.now, temp) && path != temp
    modifies disk
    ensures Extends(old(disk.history), disk.history, disk.now)
    ensures CrashAtomic(disk.history, |old(disk.history)|, old(disk.now), path, contents)
    ensures fd.None? ==> disk.now == old(disk.now) && !flushed
    ensures fd.Some? ==> Staged(old(disk.now), disk.now, temp, fd.value, []) && disk.now.dir == old(disk.now).dir[temp := fd.value]
    ensures flushed <==> disk.failures == old(disk.failures)
    ensures flushed ==> fd.Some? && fd.value in disk.now.synced && disk.now.files[fd.value] == contents
  {
    ghost var d0 := disk.now;
    flushed := false;
    fd := disk.CreateExclusive(temp);
    if fd.Some? {
      StagedIsInvisible(d0, disk.now, path, temp, fd.value, [], contents);
      var written := disk.Write(fd.value, contents);
      StagedIsInvisible(d0, disk.now, path, temp, fd.value, [], contents);
      if written {
        flushed := disk.SyncFile(fd.value);
        StagedIsInvisible(d0, disk.now, path, temp, fd.value, [], contents);
      }
    }
  }

  /** The temporary file is removed again; the path does not notice. */
  method DiscardTemporary(disk: Disk, ghost d0: DiskState, ghost path: Name, temp: Name, ghost i: Inode, ghost contents: string)
    requires WellFormed(d0) && Unused(d0, temp) && path != temp && Staged(d0, disk.now, temp, i, [])
    modifies disk
    ensures Extends(old(disk.history), disk.history, disk.now)
    ensures CrashAtomic(disk.history, |old(disk.history)|, d0, path, contents)
    ensures Read(disk.now, path) == Read(old(disk.now), path) && disk.failures == old(disk.failures)
  {
    ghost var before := disk.now;
    disk.UnlinkFile(temp);
    StagedIsInvisible(d0, disk.now, path, temp, i, if disk.now == before then [] else [Unlink(temp)], contents);
  }

  ghost predicate Extends(before: seq<DiskState>, after: seq<DiskState>, now: DiskState) {
    before < after && after[|after| - 1] == now
  }

  /**
   * Writes `contents` to `path`. However the system calls fail and whenever a crash comes, `path` holds what it could
   * have held before or the complete new contents; once the call has returned normally, only the new contents. It
   * returns normally exactly if no call it needs has failed.
   */
  method WriteJournalAtomic(disk: Disk, path: Name, temp: Name, contents: string) returns (ok: bool)
    requires WellFormed(disk.now) && Unused(disk.now, temp) && path != temp
    modifies disk
    ensures Extends(old(disk.history), disk.history, disk.now)
    ensures CrashAtomic(disk.history, |old(disk.history)|, old(disk.now), path, contents)
    ensures ok <==> disk.failures == old(disk.failures)
    ensures ok ==> forall c: Option<string> :: MayRecover(disk.now, path, c) <==> c == Some(contents)
    ensures ok ==> Read(disk.now, path) == Some(contents) && temp !in disk.now.dir
    ensures !ok ==> Read(disk.now, path) == Read(old(disk.now), path) || Read(disk.now, path) == Some(contents)
  {
    ghost var d0 := disk.now;
    var fd, flushed := StageTemporary(disk, path, temp, contents);
    if fd.None? {
      return false;
    }
    var renamed := false;
    if flushed {
      renamed := disk.RenameFile(temp, path);
      if !renamed {
        StagedIsInvisible(d0, disk.now, path, temp, fd.value, [], contents);
      }
    }
    if !renamed {
      DiscardTemporary(disk, d0, path, temp, fd.value, contents);
      return false;
    }
    RenamedIsOldOrNew(d0, disk.now, path, temp, fd.value, contents);
    ok := disk.SyncDirectory();
    if ok {
      SettledAfterSync(disk.now, path, fd.value, contents);
    }
  }

  lemma {:induction false} SettledAfterSync(d: DiskState, path: Name, i: Inode, contents: string)
    requires d.pending == [] && path in d.durable && d.durable[path] == i
    requires i in d.synced && i in d.files && d.files[i] == contents
    ensures forall c: Option<string> :: MayRecover(d, path, c) <==> c == Some(contents)
  {
  }
}
