/** Publishing a prepared directory: sync the whole tree, rename it into the store, sync the store,
  * on a disk that may lose what was not synced. */
module Publish {
  import opened Prelude
  import opened Manifest

  /** A file or directory and whether it was synced: a file's data, a directory's own list. */
  datatype Node =
    | File(data: Bytes, synced: bool)
    | Dir(children: Forest, synced: bool)
    | Symlink(target: string)

  datatype Forest = Nil | Cons(name: string, node: Node, rest: Forest)

  /** The tree without its sync marks, as a reader finds it. */
  function Plain(n: Node): Node {
    match n
    case File(data, _) => File(data, true)
    case Dir(children, _) => Dir(PlainForest(children), true)
    case Symlink(_) => n
  }

  function PlainForest(f: Forest): Forest {
    match f
    case Nil => Nil
    case Cons(name, node, rest) => Cons(name, Plain(node), PlainForest(rest))
  }

  /** Whether a crash may leave `image` of `n`: an unsynced file may hold anything, and an unsynced
    * directory may have lost any of its entries. */
  predicate MayLeave(n: Node, image: Node) {
    match n
    case File(data, synced) => image.File? && image.synced && (synced ==> image.data == data)
    case Dir(children, synced) => image.Dir? && image.synced && MayLeaveForest(children, synced, image.children)
    case Symlink(_) => image == n
  }

  predicate MayLeaveForest(f: Forest, synced: bool, image: Forest) {
    match f
    case Nil => image.Nil?
    case Cons(name, node, rest) =>
      || (image.Cons? && image.name == name && MayLeave(node, image.node) && MayLeaveForest(rest, synced, image.rest))
      || (!synced && MayLeaveForest(rest, synced, image))
  }

  /** Nothing in the tree is at risk. An empty directory has no entry to lose. */
  predicate Firm(n: Node) {
    match n
    case File(_, synced) => synced
    case Dir(children, synced) => FirmForest(children) && (synced || children.Nil?)
    case Symlink(_) => true
  }

  predicate FirmForest(f: Forest) {
    match f
    case Nil => true
    case Cons(_, node, rest) => Firm(node) && FirmForest(rest)
  }

  lemma {:induction false} MayLeaveItself(n: Node)
    ensures MayLeave(n, Plain(n))
  {
    match n
    case File(_, _) =>
    case Symlink(_) =>
    case Dir(children, synced) => MayLeaveForestItself(children, synced);
  }

  lemma {:induction false} MayLeaveForestItself(f: Forest, synced: bool)
    ensures MayLeaveForest(f, synced, PlainForest(f))
  {
    match f
    case Nil =>
    case Cons(_, node, rest) =>
      MayLeaveItself(node);
      MayLeaveForestItself(rest, synced);
  }

  lemma {:induction false} FirmLeavesItself(n: Node, image: Node)
    requires Firm(n) && MayLeave(n, image)
    ensures image == Plain(n)
  {
    match n
    case File(_, _) =>
    case Symlink(_) =>
    case Dir(children, synced) =>
      if synced {
        FirmForestLeavesItself(children, image.children);
      }
  }

  lemma {:induction false} FirmForestLeavesItself(f: Forest, image: Forest)
    requires FirmForest(f) && MayLeaveForest(f, true, image)
    ensures image == PlainForest(f)
  {
    match f
    case Nil =>
    case Cons(_, node, rest) =>
      FirmLeavesItself(node, image.node);
      FirmForestLeavesItself(rest, image.rest);
  }

  /** A tree that is not firm may come back as something else. */
  lemma {:induction false} LooseMayLeaveOther(n: Node) returns (image: Node)
    requires !Firm(n)
    ensures MayLeave(n, image) && image != Plain(n)
  {
    match n
    case File(data, _) => image := File(data + [0], true);
    case Dir(children, synced) =>
      if FirmForest(children) {
        MayLeaveForestItself(children.rest, false);
        image := Dir(PlainForest(children.rest), true);
        ShorterRest(children);
      } else {
        var other := LooseForestMayLeaveOther(children, synced);
        image := Dir(other, true);
      }
  }

  lemma {:induction false} LooseForestMayLeaveOther(f: Forest, synced: bool) returns (image: Forest)
    requires !FirmForest(f)
    ensures MayLeaveForest(f, synced, image) && image != PlainForest(f)
  {
    if Firm(f.node) {
      var rest := LooseForestMayLeaveOther(f.rest, synced);
      MayLeaveItself(f.node);
      image := Cons(f.name, Plain(f.node), rest);
    } else {
      var node := LooseMayLeaveOther(f.node);
      MayLeaveForestItself(f.rest, synced);
      image := Cons(f.name, node, PlainForest(f.rest));
    }
  }

  function Length(f: Forest): nat {
    match f case Nil => 0 case Cons(_, _, rest) => 1 + Length(rest)
  }

  lemma {:induction false} PlainLength(f: Forest)
    ensures Length(PlainForest(f)) == Length(f)
  {
    match f
    case Nil =>
    case Cons(_, _, rest) => PlainLength(rest);
  }

  lemma ShorterRest(f: Forest)
    requires f.Cons?
    ensures PlainForest(f.rest) != PlainForest(f)
  {
    PlainLength(f);
    PlainLength(f.rest);
  }

  /** Whatever a crash leaves of `staged` is `prepared`. */
  ghost predicate AsPrepared(staged: Node, prepared: Node) {
    forall image :: MayLeave(staged, image) ==> image == Plain(prepared)
  }

  lemma PreparedIsFirm(n: Node)
    requires AsPrepared(n, n)
    ensures Firm(n)
  {
    if !Firm(n) {
      var image := LooseMayLeaveOther(n);
      assert false;
    }
  }

  /** A crash is sure to leave the tree as it is exactly when it is firm. */
  lemma FirmIff(n: Node)
    ensures Firm(n) <==> AsPrepared(n, n)
  {
    if Firm(n) {
      forall image | MayLeave(n, image) ensures image == Plain(n) {
        FirmLeavesItself(n, image);
      }
    }
    if AsPrepared(n, n) {
      PreparedIsFirm(n);
    }
  }

  // ---------------------------------------------------------------- syncing a tree

  datatype SyncResult<T> = SyncResult(ok: bool, value: T)

  /** Which calls fail, by path: `before` reading a node, or `after`, in syncing it. */
  datatype Fault = Before | After

  /** Syncs everything under `n`, and `n`, stopping at the first failure. Where the file system
    * cannot sync, nothing is synced and nothing fails. */
  function SyncTree(n: Node, path: seq<string>, canSync: bool, fails: (seq<string>, Fault) -> bool)
    : SyncResult<Node>
  {
    if fails(path, Before) then SyncResult(false, n)
    else
      match n
      case Symlink(_) => SyncResult(true, n)
      case File(data, synced) =>
        if fails(path, After) then SyncResult(false, n) else SyncResult(true, File(data, synced || canSync))
      case Dir(children, synced) =>
        var below := SyncForest(children, path, canSync, fails);
        if !below.ok || fails(path, After) then SyncResult(false, Dir(below.value, synced))
        else SyncResult(true, Dir(below.value, synced || canSync))
  }

  function SyncForest(f: Forest, path: seq<string>, canSync: bool, fails: (seq<string>, Fault) -> bool)
    : SyncResult<Forest>
  {
    match f
    case Nil => SyncResult(true, Nil)
    case Cons(name, node, rest) =>
      var first := SyncTree(node, path + [name], canSync, fails);
      if !first.ok then SyncResult(false, Cons(name, first.value, rest))
      else
        var more := SyncForest(rest, path, canSync, fails);
        SyncResult(more.ok, Cons(name, first.value, more.value))
  }

  lemma {:induction false} SyncTreeIsSound(n: Node, path: seq<string>, canSync: bool,
                                           fails: (seq<string>, Fault) -> bool)
    ensures var r := SyncTree(n, path, canSync, fails);
            && Plain(r.value) == Plain(n)
            && (r.ok && canSync ==> Firm(r.value))
            && (!canSync ==> r.value == n)
            && (Firm(n) ==> Firm(r.value))
  {
    if n.Dir? {
      SyncForestIsSound(n.children, path, canSync, fails);
    }
  }

  lemma {:induction false} SyncForestIsSound(f: Forest, path: seq<string>, canSync: bool,
                                             fails: (seq<string>, Fault) -> bool)
    ensures var r := SyncForest(f, path, canSync, fails);
            && PlainForest(r.value) == PlainForest(f)
            && (r.ok && canSync ==> FirmForest(r.value))
            && (!canSync ==> r.value == f)
            && (FirmForest(f) ==> FirmForest(r.value))
            && (r.value.Nil? <==> f.Nil?)
  {
    if f.Cons? {
      SyncTreeIsSound(f.node, path + [f.name], canSync, fails);
      SyncForestIsSound(f.rest, path, canSync, fails);
    }
  }

  // ---------------------------------------------------------------- the publish

  /** The store root's directory, and the staged directory's tree. */
  datatype State = State(durable: Names, pending: seq<DirOp>, staged: Node)

  function RootView(s: State): Names {
    Image(s.durable, s.pending, All(|s.pending|))
  }

  /** After a crash now, if `target` names the staged directory then it is as prepared, in full. */
  ghost predicate WholeIfNamed(s: State, target: string, inode: Inode, prepared: Node) {
    forall kept: seq<bool> | |kept| == |s.pending| && IsAt(Image(s.durable, s.pending, kept), target, inode) ::
      AsPrepared(s.staged, prepared)
  }

  predicate IsAt(names: Names, target: string, inode: Inode) {
    target in names && names[target] == inode
  }

  /** No crash now brings up a name for the staged directory. */
  ghost predicate Unnamed(s: State, target: string, inode: Inode) {
    forall kept: seq<bool> | |kept| == |s.pending| :: !IsAt(Image(s.durable, s.pending, kept), target, inode)
  }

  ghost predicate AllWhole(states: seq<State>, target: string, inode: Inode, prepared: Node) {
    forall s :: s in states ==> WholeIfNamed(s, target, inode, prepared)
  }

  lemma FirmIsWhole(s: State, target: string, inode: Inode, prepared: Node)
    requires Firm(s.staged) && Plain(s.staged) == Plain(prepared)
    ensures WholeIfNamed(s, target, inode, prepared)
  {
    FirmIff(s.staged);
  }

  lemma LooseIsNotWhole(s: State, target: string, inode: Inode, prepared: Node)
    requires !Firm(s.staged) && Plain(s.staged) == Plain(prepared)
    requires IsAt(RootView(s), target, inode)
    ensures !WholeIfNamed(s, target, inode, prepared)
  {
    FirmIff(s.staged);
    assert !AsPrepared(s.staged, prepared);
    assert |All(|s.pending|)| == |s.pending|;
  }

  lemma UnlinkKeepsUnnamed(s: State, target: string, inode: Inode)
    requires Unnamed(s, target, inode)
    ensures Unnamed(s.(pending := s.pending + [Unlink(target)]), target, inode)
  {
  }

  lemma RootViewPush(s: State, op: DirOp)
    ensures RootView(s.(pending := s.pending + [op])) == Apply(RootView(s), op)
  {
    ImagePush(s.durable, s.pending, op, All(|s.pending| + 1));
    assert All(|s.pending| + 1)[..|s.pending|] == All(|s.pending|);
  }

  /** Which of the publish's own calls fail. */
  datatype PublishFails = PublishFails(prepare: bool, createParent: bool, removeOld: bool, rename: bool,
                                       cleanup: bool, syncRoot: bool)

  predicate Replaces(names: Names, target: string, fails: PublishFails) {
    !fails.createParent && (target in names ==> !fails.removeOld) && !fails.rename
  }

  ghost predicate SurelyNamed(s: State, target: string, inode: Inode) {
    forall kept: seq<bool> | |kept| == |s.pending| :: IsAt(Image(s.durable, s.pending, kept), target, inode)
  }

  class StoreRoot {
    var state: State
    const canSync: bool
    ghost var trace: seq<State>

    constructor (state: State, canSync: bool)
      ensures this.state == state && this.canSync == canSync && trace == []
    {
      this.state, this.canSync, trace := state, canSync, [];
    }

    method Become(next: State)
      modifies this
      ensures state == next && trace == old(trace) + [next]
    {
      state := next;
      trace := trace + [next];
    }

    /** Removes whatever is at the target, if it is there and can be removed. */
    method RemoveTarget(target: string, fail: bool, ghost inode: Inode, ghost prepared: Node) returns (ok: bool)
      requires Unnamed(state, target, inode)
      modifies this
      ensures ok <==> (target in RootView(old(state)) ==> !fail)
      ensures Unnamed(state, target, inode) && state.staged == old(state).staged
      ensures old(trace) <= trace && AllWhole(trace[|old(trace)|..], target, inode, prepared)
      ensures ok ==> target !in RootView(state)
    {
      if target !in RootView(state) {
        return true;
      }
      if fail {
        return false;
      }
      UnlinkKeepsUnnamed(state, target, inode);
      RootViewPush(state, Unlink(target));
      Become(state.(pending := state.pending + [Unlink(target)]));
      return true;
    }

    /** Renames the staged directory, whose inode is `inode`, to the target. */
    method RenameStaged(target: string, inode: Inode, ghost prepared: Node)
      requires Plain(state.staged) == Plain(prepared)
      modifies this
      ensures state.staged == old(state).staged && IsAt(RootView(state), target, inode)
      ensures old(trace) <= trace
      ensures AllWhole(trace[|old(trace)|..], target, inode, prepared) <==> Firm(state.staged)
    {
      RootViewPush(state, Link(target, inode));
      Become(state.(pending := state.pending + [Link(target, inode)]));
      assert trace[|old(trace)|..] == [state];
      if Firm(state.staged) {
        FirmIsWhole(state, target, inode, prepared);
      } else {
        LooseIsNotWhole(state, target, inode, prepared);
      }
    }

    /** Best effort: a failed sync, or none, does not fail the publish. */
    method SyncRoot(fail: bool, target: string, inode: Inode, ghost prepared: Node)
      requires IsAt(RootView(state), target, inode)
      modifies this
      ensures state.staged == old(state).staged && RootView(state) == RootView(old(state))
      ensures old(trace) <= trace
      ensures Firm(state.staged) && Plain(state.staged) == Plain(prepared) ==>
                AllWhole(trace[|old(trace)|..], target, inode, prepared)
      ensures canSync && !fail ==> SurelyNamed(state, target, inode)
    {
      if fail || !canSync {
        return;
      }
      Become(state.(durable := RootView(state), pending := []));
      if Firm(state.staged) && Plain(state.staged) == Plain(prepared) {
        FirmIsWhole(state, target, inode, prepared);
      }
    }

    /** Puts the staged directory at the target; on failure nothing is left there. */
    method ReplaceStaged(target: string, inode: Inode, fails: PublishFails, ghost prepared: Node) returns (ok: bool)
      requires Unnamed(state, target, inode) && Plain(state.staged) == Plain(prepared)
      modifies this
      ensures ok == Replaces(RootView(old(state)), target, fails)
      ensures state.staged == old(state).staged
      ensures old(trace) <= trace
      ensures AllWhole(trace[|old(trace)|..], target, inode, prepared) <==> Firm(state.staged) || !ok
      ensures ok ==> IsAt(RootView(state), target, inode)
      ensures !ok ==> Unnamed(state, target, inode)
    {
      ghost var start := trace;
      ok := !fails.createParent;
      if ok {
        ok := RemoveTarget(target, fails.removeOld, inode, prepared);
      }
      ghost var mid := trace;
      if !ok || fails.rename {
        var _ := RemoveTarget(target, fails.cleanup, inode, prepared);
        WholeJoin(start, mid, trace, target, inode, prepared);
        return false;
      }
      RenameStaged(target, inode, prepared);
      WholeJoin(start, mid, trace, target, inode, prepared);
    }

    /** Fills the staged directory and syncs it. */
    method Stage(target: string, inode: Inode, prepared: Node, fail: bool, treeFails: (seq<string>, Fault) -> bool)
      returns (ok: bool)
      requires Unnamed(state, target, inode)
      modifies this
      ensures ok <==> !fail && SyncTree(prepared, [], canSync, treeFails).ok
      ensures old(trace) <= trace && AllWhole(trace[|old(trace)|..], target, inode, prepared)
      ensures Unnamed(state, target, inode) && RootView(state) == RootView(old(state))
      ensures ok ==> Plain(state.staged) == Plain(prepared) && (Firm(state.staged) <==> canSync || Firm(prepared))
    {
      Become(state.(staged := prepared));
      var synced := SyncTree(prepared, [], canSync, treeFails);
      SyncTreeIsSound(prepared, [], canSync, treeFails);
      if fail || !synced.ok {
        return false;
      }
      Become(state.(staged := synced.value));
      return true;
    }

    /** Stages `prepared`, syncs it whole, and puts it at the target. The syncs inside the tree change
      * the staged directory only, so a crash between two of them is one before the rename. */
    method Publish(target: string, inode: Inode, prepared: Node, fails: PublishFails,
                   treeFails: (seq<string>, Fault) -> bool)
      returns (ok: bool)
      requires Unnamed(state, target, inode)
      modifies this
      ensures ok <==> && !fails.prepare
                      && SyncTree(prepared, [], canSync, treeFails).ok
                      && Replaces(RootView(old(state)), target, fails)
      ensures old(trace) <= trace
      ensures AllWhole(trace[|old(trace)|..], target, inode, prepared) <==> canSync || Firm(prepared) || !ok
      ensures ok ==> IsAt(RootView(state), target, inode) && Plain(state.staged) == Plain(prepared)
      ensures ok && canSync && !fails.syncRoot ==> SurelyNamed(state, target, inode)
      ensures !ok ==> Unnamed(state, target, inode)
    {
      ghost var start := trace;
      ok := Stage(target, inode, prepared, fails.prepare, treeFails);
      if !ok {
        return;
      }
      ghost var mid := trace;
      ok := ReplaceStaged(target, inode, fails, prepared);
      WholeJoin(start, mid, trace, target, inode, prepared);
      if ok {
        ghost var last := trace;
        SyncRoot(fails.syncRoot, target, inode, prepared);
        WholeJoin(start, last, trace, target, inode, prepared);
      }
    }
  }

  lemma WholeJoin(start: seq<State>, mid: seq<State>, end: seq<State>, target: string, inode: Inode, prepared: Node)
    requires start <= mid <= end
    ensures AllWhole(end[|start|..], target, inode, prepared) <==>
              AllWhole(mid[|start|..], target, inode, prepared) && AllWhole(end[|mid|..], target, inode, prepared)
  {
  }
}
