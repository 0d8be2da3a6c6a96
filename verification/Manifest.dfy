/** Replacing an entry's manifest on a disk that, at a crash, may lose whatever was not synced. */
module Manifest {
  import opened Prelude
  import opened Digest

  type Inode = nat
  type Bytes = seq<Byte>

  /** A change to a directory. A rename carries the inode it moves: a file system may keep it and
    * lose the creation before it. */
  datatype DirOp =
    | Link(name: string, inode: Inode)
    | Rename(source: string, target: string, inode: Inode)
    | Unlink(name: string)

  type Names = map<string, Inode>

  /** `durable` is the directory as last synced and `pending` what changed since; `synced` are the
    * files whose data is on disk. */
  datatype Disk = Disk(durable: Names, pending: seq<DirOp>, data: map<Inode, Bytes>, synced: set<Inode>)

  function Apply(names: Names, op: DirOp): Names {
    match op
    case Link(name, inode) => names[name := inode]
    case Rename(source, target, inode) => (names - {source})[target := inode]
    case Unlink(name) => names - {name}
  }

  /** The directory after a crash that kept just the pending changes `kept` marks. */
  function Image(names: Names, ops: seq<DirOp>, kept: seq<bool>): Names
    requires |kept| == |ops|
  {
    if ops == [] then names
    else
      var n := |ops| - 1;
      var sooner := Image(names, ops[..n], kept[..n]);
      if kept[n] then Apply(sooner, ops[n]) else sooner
  }

  function All(n: nat): seq<bool> {
    seq(n, _ => true)
  }

  /** The directory as a running process sees it. */
  function View(d: Disk): Names {
    Image(d.durable, d.pending, All(|d.pending|))
  }

  /** Whether `name` may hold `bytes` after such a crash: a file not synced may hold anything. */
  ghost predicate MayRead(d: Disk, kept: seq<bool>, name: string, bytes: Bytes)
    requires |kept| == |d.pending|
  {
    var names := Image(d.durable, d.pending, kept);
    name in names && (names[name] in d.synced ==> names[name] in d.data && bytes == d.data[names[name]])
  }

  /** After a crash now, `name` is there and reads as one of `contents`, in full. */
  ghost predicate Survives(d: Disk, name: string, contents: set<Bytes>) {
    forall kept: seq<bool> | |kept| == |d.pending| ::
      && name in Image(d.durable, d.pending, kept)
      && forall bytes :: MayRead(d, kept, name, bytes) ==> bytes in contents
  }

  /** The inode a name may have after any crash is one whose data is safe and as wanted. */
  ghost predicate Holds(d: Disk, name: string, contents: set<Bytes>) {
    forall kept: seq<bool> | |kept| == |d.pending| ::
      IsSafe(d, Image(d.durable, d.pending, kept), name, contents)
  }

  predicate IsSafe(d: Disk, names: Names, name: string, contents: set<Bytes>) {
    && name in names
    && names[name] in d.synced
    && names[name] in d.data
    && d.data[names[name]] in contents
  }

  /** Finitely many contents leave some out. */
  lemma {:induction false} Outside(contents: set<Bytes>) returns (bytes: Bytes)
    ensures bytes != [] && forall c :: c in contents ==> |c| < |bytes|
  {
    bytes := [0];
    if contents != {} {
      var c :| c in contents;
      var longer := Outside(contents - {c});
      bytes := c + longer;
      assert forall x :: x in contents && x != c ==> x in contents - {c};
    }
  }

  lemma UnsyncedReadsAnything(d: Disk, kept: seq<bool>, name: string, contents: set<Bytes>)
    requires |kept| == |d.pending| && name in Image(d.durable, d.pending, kept)
    requires forall bytes :: MayRead(d, kept, name, bytes) ==> bytes in contents
    ensures Image(d.durable, d.pending, kept)[name] in d.synced
  {
    var other := Outside(contents);
    assert other !in contents;
    assert !MayRead(d, kept, name, other);
  }

  lemma SurvivesIff(d: Disk, name: string, contents: set<Bytes>)
    requires Sane(d)
    ensures Survives(d, name, contents) <==> Holds(d, name, contents)
  {
    if Survives(d, name, contents) {
      forall kept: seq<bool> | |kept| == |d.pending|
        ensures IsSafe(d, Image(d.durable, d.pending, kept), name, contents)
      {
        var names := Image(d.durable, d.pending, kept);
        UnsyncedReadsAnything(d, kept, name, contents);
        assert MayRead(d, kept, name, d.data[names[name]]);
      }
    }
    if Holds(d, name, contents) {
      forall kept: seq<bool> | |kept| == |d.pending|
        ensures name in Image(d.durable, d.pending, kept)
        ensures forall bytes :: MayRead(d, kept, name, bytes) ==> bytes in contents
      {
        assert IsSafe(d, Image(d.durable, d.pending, kept), name, contents);
      }
    }
  }

  // ---------------------------------------------------------------- one step at a time

  function Created(d: Disk, name: string, inode: Inode): Disk {
    d.(pending := d.pending + [Link(name, inode)], data := d.data[inode := []])
  }

  function Written(d: Disk, inode: Inode, bytes: Bytes): Disk {
    d.(data := d.data[inode := bytes])
  }

  function FileSynced(d: Disk, inode: Inode): Disk {
    d.(synced := d.synced + {inode})
  }

  function Renamed(d: Disk, source: string, target: string, inode: Inode): Disk {
    d.(pending := d.pending + [Rename(source, target, inode)])
  }

  function Removed(d: Disk, name: string): Disk {
    d.(pending := d.pending + [Unlink(name)])
  }

  function DirSynced(d: Disk): Disk {
    d.(durable := View(d), pending := [])
  }

  lemma ImagePush(names: Names, ops: seq<DirOp>, op: DirOp, kept: seq<bool>)
    requires |kept| == |ops| + 1
    ensures var sooner := Image(names, ops, kept[..|ops|]);
            Image(names, ops + [op], kept) == if kept[|ops|] then Apply(sooner, op) else sooner
  {
  }

  lemma ViewPush(d: Disk, op: DirOp)
    ensures View(d.(pending := d.pending + [op])) == Apply(View(d), op)
  {
    ImagePush(d.durable, d.pending, op, All(|d.pending| + 1));
    assert All(|d.pending| + 1)[..|d.pending|] == All(|d.pending|);
  }

  /** A change elsewhere in the directory, or to a file not synced, leaves `name` as it was. */
  lemma CreateKeeps(d: Disk, temp: string, inode: Inode, name: string, contents: set<Bytes>)
    requires Holds(d, name, contents) && temp != name && inode !in d.data
    ensures Holds(Created(d, temp, inode), name, contents)
  {
  }

  lemma RemoveKeeps(d: Disk, temp: string, name: string, contents: set<Bytes>)
    requires Holds(d, name, contents) && temp != name
    ensures Holds(Removed(d, temp), name, contents)
  {
  }

  lemma WriteKeeps(d: Disk, inode: Inode, bytes: Bytes, name: string, contents: set<Bytes>)
    requires Holds(d, name, contents) && inode !in d.synced
    ensures Holds(Written(d, inode, bytes), name, contents)
  {
  }

  lemma FileSyncKeeps(d: Disk, inode: Inode, name: string, contents: set<Bytes>)
    requires Holds(d, name, contents)
    ensures Holds(FileSynced(d, inode), name, contents)
  {
  }

  /** Renaming a synced file over `name` adds its data to what `name` may hold. */
  lemma RenameKeeps(d: Disk, temp: string, inode: Inode, name: string, contents: set<Bytes>)
    requires Holds(d, name, contents) && inode in d.synced && inode in d.data
    ensures Holds(Renamed(d, temp, name, inode), name, contents + {d.data[inode]})
  {
  }

  /** Renaming a file not synced over `name` puts its data at risk. */
  lemma RenameRisks(d: Disk, temp: string, inode: Inode, name: string, contents: set<Bytes>)
    requires inode !in d.synced
    ensures !Holds(Renamed(d, temp, name, inode), name, contents)
  {
    var e := Renamed(d, temp, name, inode);
    ViewPush(d, Rename(temp, name, inode));
    assert !IsSafe(e, Image(e.durable, e.pending, All(|e.pending|)), name, contents);
  }

  /** Syncing the directory settles `name` on what the process sees. */
  lemma DirSyncSettles(d: Disk, name: string, contents: set<Bytes>)
    requires Holds(d, name, contents)
    ensures name in View(d) && View(d)[name] in d.data
    ensures Holds(DirSynced(d), name, {d.data[View(d)[name]]})
    ensures View(DirSynced(d)) == View(d)
    ensures Holds(DirSynced(d), name, contents)
  {
  }

  // ---------------------------------------------------------------- the rewrite

  /** Which calls fail; a failed write stops after some of the bytes. */
  datatype Fails = Fails(serialize: bool, create: bool, write: Option<nat>, syncFile: bool,
                         rename: bool, remove: bool, syncDir: bool)

  /** The rename happens just when nothing before it fails. */
  predicate RenameHappens(fails: Fails) {
    WriteHappens(fails) && !fails.rename
  }

  predicate WriteHappens(fails: Fails) {
    !fails.serialize && !fails.create && fails.write.None? && !fails.syncFile
  }

  ghost predicate Sane(d: Disk) {
    d.synced <= d.data.Keys
  }

  /** Every state the disk went through from `from` on holds one of `contents` under `name`. */
  ghost predicate Throughout(states: seq<Disk>, from: nat, name: string, contents: set<Bytes>) {
    forall i :: from <= i < |states| ==> Sane(states[i]) && Holds(states[i], name, contents)
  }

  /** Every such state leaves one of `contents` to a crash. */
  ghost predicate CrashSafe(states: seq<Disk>, from: nat, name: string, contents: set<Bytes>) {
    forall i :: from <= i < |states| ==> Survives(states[i], name, contents)
  }

  lemma ThroughoutIsCrashSafe(states: seq<Disk>, from: nat, name: string, contents: set<Bytes>)
    requires Throughout(states, from, name, contents)
    ensures CrashSafe(states, from, name, contents)
  {
    forall i | from <= i < |states| ensures Survives(states[i], name, contents) {
      SurvivesIff(states[i], name, contents);
    }
  }

  lemma HoldsMore(d: Disk, name: string, contents: set<Bytes>, more: set<Bytes>)
    requires Holds(d, name, contents) && contents <= more
    ensures Holds(d, name, more)
  {
  }

  class EntryDir {
    var disk: Disk

    /** Whether this file system can sync. Where it cannot, a sync does nothing and still succeeds. */
    const canSync: bool

    /** The states the disk goes through. */
    ghost var trace: seq<Disk>

    constructor (disk: Disk, canSync: bool)
      ensures this.disk == disk && this.canSync == canSync && trace == []
    {
      this.disk, this.canSync, trace := disk, canSync, [];
    }

    method Become(next: Disk)
      modifies this
      ensures disk == next && trace == old(trace) + [next]
    {
      disk := next;
      trace := trace + [next];
    }

    /** Writes `rendered` to a new file at `path` and syncs it. `inode` is the one the file system
      * gives it; whatever `contents` a crash may leave under `name` before, it may leave meanwhile. */
    method WriteTomlFile(path: string, inode: Inode, rendered: Bytes, fails: Fails,
                         ghost name: string, ghost contents: set<Bytes>)
      returns (ok: bool)
      requires Sane(disk) && inode !in disk.data && path != name
      modifies this
      ensures ok == WriteHappens(fails)
      ensures Sane(disk) && old(trace) <= trace
      ensures Holds(old(disk), name, contents) ==>
                Holds(disk, name, contents) && Throughout(trace, |old(trace)|, name, contents)
      ensures forall i :: i in old(disk).data ==> i in disk.data && disk.data[i] == old(disk).data[i]
      ensures View(disk) == if fails.serialize || fails.create then View(old(disk)) else View(old(disk))[path := inode]
      ensures ok ==> inode in disk.data && disk.data[inode] == rendered && (inode in disk.synced <==> canSync)
    {
      ok := WriteHappens(fails);
      if !fails.serialize && !fails.create {
        NewFileKeeps(disk, path, inode, rendered, name, contents);
        ViewPush(disk, Link(path, inode));
        Become(Created(disk, path, inode));
        var n := match fails.write case None => |rendered| case Some(k) => Min(k, |rendered|);
        Become(Written(disk, inode, rendered[..n]));
        if ok && canSync {
          Become(FileSynced(disk, inode));
        }
      }
    }

    /** Best effort: a temporary file not there, or not removable, stays as it is. */
    method RemoveTemp(temp: string, fails: Fails, ghost name: string, ghost contents: set<Bytes>)
      requires Sane(disk) && temp != name
      modifies this
      ensures Sane(disk) && old(trace) <= trace
      ensures Holds(old(disk), name, contents) ==>
                Holds(disk, name, contents) && Throughout(trace, |old(trace)|, name, contents)
      ensures disk.data == old(disk).data
      ensures View(disk) == if fails.remove then View(old(disk)) else View(old(disk)) - {temp}
    {
      if !fails.remove && temp in View(disk) {
        if Holds(disk, name, contents) {
          RemoveKeeps(disk, temp, name, contents);
        }
        ViewPush(disk, Unlink(temp));
        Become(Removed(disk, temp));
      }
    }

    /** Renames the temporary file over the manifest and syncs the directory. */
    method MoveOver(name: string, temp: string, inode: Inode, fails: Fails, ghost olds: set<Bytes>)
      returns (ok: bool)
      requires Sane(disk) && inode in disk.data && (inode in disk.synced <==> canSync)
      modifies this
      ensures ok == !fails.syncDir
      ensures Sane(disk) && disk.data == old(disk).data
      ensures old(trace) < trace
      ensures Holds(old(disk), name, olds) && canSync ==>
                && Throughout(trace, |old(trace)|, name, olds + {disk.data[inode]})
                && Holds(disk, name, if ok then {disk.data[inode]} else olds + {disk.data[inode]})
      ensures !canSync ==> !Survives(trace[|old(trace)|], name, olds + {disk.data[inode]})
      ensures View(disk) == (View(old(disk)) - {temp})[name := inode]
    {
      ghost var new_ := disk.data[inode];
      ViewPush(disk, Rename(temp, name, inode));
      if !canSync {
        RenameRisks(disk, temp, inode, name, olds + {new_});
        SurvivesIff(Renamed(disk, temp, name, inode), name, olds + {new_});
      } else if Holds(disk, name, olds) {
        RenameKeeps(disk, temp, inode, name, olds);
        DirSyncSettles(Renamed(disk, temp, name, inode), name, olds + {new_});
      }
      Become(Renamed(disk, temp, name, inode));
      ok := !fails.syncDir;
      if ok && canSync {
        Become(DirSynced(disk));
      }
    }

    /** Replaces the manifest: write beside it, rename over it, sync the directory. `olds` is any set of
      * contents a crash may leave before, so one rewrite can follow another that could not sync. */
    method RewriteManifest(name: string, temp: string, inode: Inode, new_: Bytes, fails: Fails,
                           ghost olds: set<Bytes>)
      returns (ok: bool)
      requires Sane(disk) && inode !in disk.data
      requires temp != name && temp !in View(disk)
      modifies this
      ensures ok <==> RenameHappens(fails) && !fails.syncDir
      ensures Sane(disk) && old(trace) <= trace
      ensures Holds(old(disk), name, olds) ==>
                && (CrashSafe(trace, |old(trace)|, name, olds + {new_}) <==> canSync || !RenameHappens(fails))
                && (canSync || !RenameHappens(fails) ==> Holds(disk, name, LeftBy(olds, new_, fails)))
      ensures View(disk) == ViewAfter(View(old(disk)), name, temp, inode, fails)
      ensures RenameHappens(fails) ==> inode in disk.data && disk.data[inode] == new_
    {
      ghost var start := trace;
      ok := WriteTomlFile(temp, inode, new_, fails, name, olds);
      ghost var mid := trace;
      if !ok || fails.rename {
        ok := false;
        RemoveTemp(temp, fails, name, olds);
        if Holds(old(disk), name, olds) {
          SafeJoin(start, mid, trace, name, olds, olds, olds + {new_});
        }
      } else {
        ok := MoveOver(name, temp, inode, fails, olds);
        if Holds(old(disk), name, olds) && canSync {
          SafeJoin(start, mid, trace, name, olds, olds + {new_}, olds + {new_});
        }
      }
    }
  }

  /** A new file elsewhere, written and then synced, leaves `name` as it was at every step. */
  lemma NewFileKeeps(d: Disk, path: string, inode: Inode, rendered: Bytes, name: string, contents: set<Bytes>)
    requires inode !in d.data && Sane(d) && path != name
    ensures Holds(d, name, contents) ==>
              && Holds(Created(d, path, inode), name, contents)
              && forall bytes ::
                   && Holds(Written(Created(d, path, inode), inode, bytes), name, contents)
                   && Holds(FileSynced(Written(Created(d, path, inode), inode, bytes), inode), name, contents)
  {
    if Holds(d, name, contents) {
      CreateKeeps(d, path, inode, name, contents);
      forall bytes
        ensures Holds(Written(Created(d, path, inode), inode, bytes), name, contents)
        ensures Holds(FileSynced(Written(Created(d, path, inode), inode, bytes), inode), name, contents)
      {
        WriteKeeps(Created(d, path, inode), inode, bytes, name, contents);
        FileSyncKeeps(Written(Created(d, path, inode), inode, bytes), inode, name, contents);
      }
    }
  }

  lemma SafeJoin(start: seq<Disk>, mid: seq<Disk>, end: seq<Disk>, name: string,
                 first: set<Bytes>, second: set<Bytes>, all: set<Bytes>)
    requires start <= mid <= end && first <= all && second <= all
    requires Throughout(mid, |start|, name, first) && Throughout(end, |mid|, name, second)
    ensures CrashSafe(end, |start|, name, all)
  {
    forall i | |start| <= i < |end| ensures Sane(end[i]) && Holds(end[i], name, all) {
      if i < |mid| {
        assert mid[i] == end[i];
        HoldsMore(end[i], name, first, all);
      } else {
        HoldsMore(end[i], name, second, all);
      }
    }
    ThroughoutIsCrashSafe(end, |start|, name, all);
  }

  /** What a crash may leave after a rewrite: the old contents, the new, or, if the directory was not
    * synced, either. */
  function LeftBy(olds: set<Bytes>, new_: Bytes, fails: Fails): set<Bytes> {
    if !RenameHappens(fails) then olds else if fails.syncDir then olds + {new_} else {new_}
  }

  /** What the directory lists afterwards. */
  function ViewAfter(names: Names, name: string, temp: string, inode: Inode, fails: Fails): Names {
    if RenameHappens(fails) then names[name := inode]
    else if fails.serialize || fails.create || !fails.remove then names
    else names[temp := inode]
  }
}
