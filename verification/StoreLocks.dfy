/** Fetches, sweeps and runs sharing one artifact store, as a transition system whose steps
  * are single file-system calls.
  *
  * An agent is one thread of some process. A lock belongs to an inode, not to a path, and is
  * held exactly while the agent's program point says so; an agent that dies, fails or drops
  * its handles goes back to `Idle`, which releases every lock it held and leaves every file
  * where it was. Two assumptions are explicit: file locks work, and a staged name is never
  * drawn twice. */
module StoreLocks {
  import opened Prelude

  type Agent = nat
  type Inode = nat
  type Name = nat
  type Key = string
  type Dir = nat

  const STAGING_LOCK_ATTEMPTS: nat := 3

  /** Where a lock file lives: beside a staged directory, or under `.locks`. */
  datatype LockPath = StagingLock(n: Name) | FetchLock(k: Key) | UseLock(k: Key)

  /** A child of `.staging` a sweep listed: a staged directory or a lock file. */
  datatype Child = StagedDir(n: Name) | StagedLock(n: Name)

  /** Where an agent is. The first group is `ensure_model` down to `StagedDir`, the second the
    * survey and removal of staging children, the third `move_out_and_remove`. */
  datatype Pc =
    | Idle
    | Resolving(k: Key)
    | FetchOpen(k: Key)
    | FetchWait(k: Key, f: Inode)
    | Looking(k: Key, f: Inode)
    | Removing(k: Key, f: Inode)
    | Naming(k: Key, f: Inode, tries: nat)
    | Created(k: Key, f: Inode, n: Name, j: Inode, tries: nat)
    | Locked(k: Key, f: Inode, n: Name, j: Inode, tries: nat)
    | Checked(k: Key, f: Inode, n: Name, j: Inode)
    | Staging(k: Key, f: Inode, n: Name, j: Inode)
    | Cleared(k: Key, f: Inode, n: Name, j: Inode)
    | Leaving(k: Key, f: Inode, n: Name, j: Inode, published: bool)
    | Unlinked(k: Key, f: Inode, n: Name, j: Inode, published: bool)
    | Holding(k: Key)
    | UseWait(k: Key, u: Inode)
    | UseLocked(k: Key, u: Inode)
    | Held(k: Key, u: Inode, d: Dir)
    | Listed(c: Child)
    | Probing(c: Child, j: Inode)
    | Probed(c: Child)
    | Candidate(c: Child)
    | RemoveOpened(c: Child, j: Inode)
    | RemoveHeld(c: Child, lock: Option<Inode>)
    | RemoveUnlinks(c: Child, lock: Option<Inode>)
    | RemoveDone(lock: Option<Inode>)
    | MoveListed(k: Key)
    | MoveOpened(k: Key, u: Inode)
    | MoveHeld(k: Key, u: Inode)
    | Moved(n: Name, u: Inode)
    | Doomed(n: Name)

  /** The disk: the names ever drawn, what each path holds, and where each lock file was
    * born. */
  datatype Files = Files(
    used: set<Name>,
    lockAt: map<LockPath, Inode>,
    dirAt: map<Name, Dir>,
    entryAt: map<Key, Dir>,
    birth: map<Inode, LockPath>,
    nextDir: Dir)

  /** An agent's program point and the inodes its open handles hold locked. */
  datatype Thread = Thread(pc: Pc, excl: set<Inode>, shared: set<Inode>)

  /** What looking an entry up comes to: the wanted artifact, a parse error, nothing, or another error. */
  datatype Sight = Intact | Unparsable | NoManifest | Alien

  /** `sees` is what each agent makes of each directory: builds that read other manifest versions share
    * the store, so two agents may differ. `removers` may run the command that removes an artifact. */
  datatype Store = Store(fs: Files, agents: map<Agent, Thread>, sees: (Agent, Dir) -> Sight, removers: set<Agent>)

  /** `find`: an entry that is not there reads as one without a manifest. */
  function Finds(s: Store, a: Agent, k: Key): Sight {
    if k in s.fs.entryAt then s.sees(a, s.fs.entryAt[k]) else NoManifest
  }

  /** The two finds that send an agent on to fetch. */
  predicate Unreadable(sight: Sight) {
    sight.Unparsable? || sight.NoManifest?
  }

  function Excl(pc: Pc): set<Inode> {
    match pc
    case Looking(_, f) => {f}
    case Removing(_, f) => {f}
    case Naming(_, f, _) => {f}
    case Created(_, f, _, _, _) => {f}
    case Locked(_, f, _, j, _) => {f, j}
    case Checked(_, f, _, j) => {f, j}
    case Staging(_, f, _, j) => {f, j}
    case Cleared(_, f, _, j) => {f, j}
    case Leaving(_, f, _, j, _) => {f, j}
    case Unlinked(_, f, _, j, _) => {f, j}
    case RemoveHeld(_, lock) => if lock.Some? then {lock.value} else {}
    case RemoveUnlinks(_, lock) => if lock.Some? then {lock.value} else {}
    case RemoveDone(lock) => if lock.Some? then {lock.value} else {}
    case MoveHeld(_, u) => {u}
    case Moved(_, u) => {u}
    case _ => {}
  }

  function Shared(pc: Pc): set<Inode> {
    match pc
    case UseLocked(_, u) => {u}
    case Held(_, u, _) => {u}
    case _ => {}
  }

  function At(pc: Pc): Thread {
    Thread(pc, Excl(pc), Shared(pc))
  }

  function ThreadOf(s: Store, a: Agent): Thread {
    if a in s.agents then s.agents[a] else At(Idle)
  }

  /** The agent's next program point, with the locks that go with it, over the files `fs`. */
  function Go(s: Store, fs: Files, a: Agent, pc: Pc): Store {
    Store(fs, s.agents[a := At(pc)], s.sees, s.removers)
  }

  /** No other handle holds a lock on `i`. */
  ghost predicate CanExcl(s: Store, a: Agent, i: Inode) {
    forall b :: b in s.agents && b != a ==> i !in s.agents[b].excl && i !in s.agents[b].shared
  }

  ghost predicate CanShare(s: Store, a: Agent, i: Inode) {
    forall b :: b in s.agents && b != a ==> i !in s.agents[b].excl
  }

  // ---------------------------------------------------------------- file-system effects

  /** `create_new` of a staging lock under a fresh name. */
  function WithStagingLock(fs: Files, n: Name, j: Inode): Files {
    fs.(used := fs.used + {n}, lockAt := fs.lockAt[StagingLock(n) := j], birth := fs.birth[j := StagingLock(n)])
  }

  function WithoutLock(fs: Files, n: Name): Files {
    fs.(lockAt := fs.lockAt - {StagingLock(n)})
  }

  function WithoutDir(fs: Files, n: Name): Files {
    fs.(dirAt := fs.dirAt - {n})
  }

  function WithDir(fs: Files, n: Name): Files {
    if n in fs.dirAt then fs else fs.(dirAt := fs.dirAt[n := fs.nextDir], nextDir := fs.nextDir + 1)
  }

  /** The removal of an entry by `ensure` or by a publish: no in-use lock is taken. */
  function WithoutEntry(fs: Files, k: Key): Files {
    fs.(entryAt := fs.entryAt - {k})
  }

  /** The publish rename. */
  function WithPublished(fs: Files, k: Key, n: Name): Files
    requires n in fs.dirAt
  {
    fs.(dirAt := fs.dirAt - {n}, entryAt := fs.entryAt[k := fs.dirAt[n]])
  }

  /** The sweep's rename of an entry to a fresh staged name. */
  function WithMovedOut(fs: Files, k: Key, n: Name): Files
    requires k in fs.entryAt
  {
    fs.(used := fs.used + {n}, entryAt := fs.entryAt - {k}, dirAt := fs.dirAt[n := fs.entryAt[k]])
  }

  /** Open a lock file under `.locks`, creating it if it is missing. */
  ghost predicate Opens(fs: Files, p: LockPath, i: Inode, fs': Files) {
    if p in fs.lockAt then i == fs.lockAt[p] && fs' == fs
    else i !in fs.birth && fs' == fs.(lockAt := fs.lockAt[p := i], birth := fs.birth[i := p])
  }

  // ---------------------------------------------------------------- steps

  /** `ensure_model` up to a miss: resolve, lock the entry, look again. */
  ghost predicate ResolveStep(s: Store, a: Agent, s': Store) {
    match ThreadOf(s, a).pc
    case Idle => exists k: Key :: s' == Go(s, s.fs, a, Resolving(k))
    case Resolving(k) =>
      !Finds(s, a, k).Alien? && s' == Go(s, s.fs, a, if Finds(s, a, k).Intact? then Holding(k) else FetchOpen(k))
    case FetchOpen(k) => exists f, t :: Opens(s.fs, FetchLock(k), f, t) && s' == Go(s, t, a, FetchWait(k, f))
    case FetchWait(k, f) => CanExcl(s, a, f) && s' == Go(s, s.fs, a, Looking(k, f))
    case Looking(k, f) =>
      (match Finds(s, a, k)
       case Intact => s' == Go(s, s.fs, a, Holding(k))
       case Unparsable => s' == Go(s, s.fs, a, Removing(k, f))
       case NoManifest => s' == Go(s, s.fs, a, Naming(k, f, 0))
       case Alien => false)
    case Removing(k, f) => s' == Go(s, WithoutEntry(s.fs, k), a, Naming(k, f, 0))
    case _ => false
  }

  /** `create_staged_dir`: create the lock file, lock it, check it is still there. */
  ghost predicate StageStep(s: Store, a: Agent, s': Store) {
    match ThreadOf(s, a).pc
    case Naming(k, f, tries) =>
      tries < STAGING_LOCK_ATTEMPTS
      && exists n, j :: n !in s.fs.used && j !in s.fs.birth
                        && s' == Go(s, WithStagingLock(s.fs, n, j), a, Created(k, f, n, j, tries))
    case Created(k, f, n, j, tries) => CanExcl(s, a, j) && s' == Go(s, s.fs, a, Locked(k, f, n, j, tries))
    case Locked(k, f, n, j, tries) =>
      s' == Go(s, s.fs, a, if StagingLock(n) in s.fs.lockAt then Checked(k, f, n, j) else Naming(k, f, tries + 1))
    case _ => false
  }

  /** From the staged directory to the publish, which first removes what stands at the entry, and the
    * drop of `StagedDir`. */
  ghost predicate PublishStep(s: Store, a: Agent, s': Store) {
    match ThreadOf(s, a).pc
    case Checked(k, f, n, j) =>
      || s' == Go(s, WithDir(s.fs, n), a, Staging(k, f, n, j))
      || s' == Go(s, s.fs, a, Leaving(k, f, n, j, false))
    case Staging(k, f, n, j) =>
      || s' == Go(s, WithoutEntry(s.fs, k), a, Cleared(k, f, n, j))
      || s' == Go(s, WithoutDir(s.fs, n), a, Leaving(k, f, n, j, false))
      || s' == Go(s, s.fs, a, Leaving(k, f, n, j, false))
    case Cleared(k, f, n, j) =>
      || (n in s.fs.dirAt && s' == Go(s, WithPublished(s.fs, k, n), a, Leaving(k, f, n, j, true)))
      || s' == Go(s, WithoutDir(s.fs, n), a, Leaving(k, f, n, j, false))
      || s' == Go(s, s.fs, a, Leaving(k, f, n, j, false))
    case Leaving(k, f, n, j, published) =>
      || s' == Go(s, WithoutLock(s.fs, n), a, Unlinked(k, f, n, j, published))
      || s' == Go(s, s.fs, a, Unlinked(k, f, n, j, published))
    case Unlinked(k, f, n, j, published) => s' == Go(s, s.fs, a, if published then Holding(k) else Idle)
    case _ => false
  }

  /** `hold`: share the in-use lock, then resolve again if the entry is gone or does not parse. */
  ghost predicate HoldStep(s: Store, a: Agent, s': Store) {
    match ThreadOf(s, a).pc
    case Holding(k) => exists u, t :: Opens(s.fs, UseLock(k), u, t) && s' == Go(s, t, a, UseWait(k, u))
    case UseWait(k, u) => CanShare(s, a, u) && s' == Go(s, s.fs, a, UseLocked(k, u))
    case UseLocked(k, u) =>
      && !Finds(s, a, k).Alien?
      && s' == Go(s, s.fs, a, if Finds(s, a, k).Intact? then Held(k, u, s.fs.entryAt[k]) else Resolving(k))
    case _ => false
  }

  /** The survey: list a child of `.staging` and probe its lock, which is dropped at once. */
  ghost predicate SurveyStep(s: Store, a: Agent, s': Store) {
    match ThreadOf(s, a).pc
    case Idle =>
      || (exists n :: n in s.fs.dirAt && s' == Go(s, s.fs, a, Listed(StagedDir(n))))
      || (exists n :: StagingLock(n) in s.fs.lockAt && s' == Go(s, s.fs, a, Listed(StagedLock(n))))
    case Listed(c) =>
      if StagingLock(c.n) in s.fs.lockAt then s' == Go(s, s.fs, a, Probing(c, s.fs.lockAt[StagingLock(c.n)]))
      else (c.StagedLock? ==> c.n !in s.fs.dirAt) && s' == Go(s, s.fs, a, Candidate(c))
    case Probing(c, j) => CanExcl(s, a, j) && s' == Go(s, s.fs, a, Probed(c))
    case Probed(c) => (c.StagedLock? ==> c.n !in s.fs.dirAt) && s' == Go(s, s.fs, a, Candidate(c))
    case _ => false
  }

  /** `remove_entry` of a staging child: take its lock if it has one. */
  ghost predicate RemoveStep(s: Store, a: Agent, s': Store) {
    match ThreadOf(s, a).pc
    case Candidate(c) =>
      if StagingLock(c.n) in s.fs.lockAt then s' == Go(s, s.fs, a, RemoveOpened(c, s.fs.lockAt[StagingLock(c.n)]))
      else s' == Go(s, s.fs, a, RemoveHeld(c, None))
    case RemoveOpened(c, j) => CanExcl(s, a, j) && s' == Go(s, s.fs, a, RemoveHeld(c, Some(j)))
    case _ => false
  }

  /** The removals themselves: the child, then its lock file. */
  ghost predicate UnlinkStep(s: Store, a: Agent, s': Store) {
    match ThreadOf(s, a).pc
    case RemoveHeld(c, lock) =>
      s' == Go(s, if c.StagedDir? then WithoutDir(s.fs, c.n) else WithoutLock(s.fs, c.n), a, RemoveUnlinks(c, lock))
    case RemoveUnlinks(c, lock) =>
      || s' == Go(s, WithoutLock(s.fs, c.n), a, RemoveDone(lock))
      || s' == Go(s, s.fs, a, RemoveDone(lock))
    case _ => false
  }

  /** `move_out_and_remove` of an entry: take its in-use lock without waiting. */
  ghost predicate MoveOutStep(s: Store, a: Agent, s': Store) {
    match ThreadOf(s, a).pc
    case Idle => exists k :: k in s.fs.entryAt && s' == Go(s, s.fs, a, MoveListed(k))
    case MoveListed(k) => exists u, t :: Opens(s.fs, UseLock(k), u, t) && s' == Go(s, t, a, MoveOpened(k, u))
    case MoveOpened(k, u) => CanExcl(s, a, u) && s' == Go(s, s.fs, a, MoveHeld(k, u))
    case _ => false
  }

  /** The rename under the in-use lock, and the delete after it. */
  ghost predicate DeleteStep(s: Store, a: Agent, s': Store) {
    match ThreadOf(s, a).pc
    case MoveHeld(k, u) =>
      k in s.fs.entryAt && exists n :: n !in s.fs.used && s' == Go(s, WithMovedOut(s.fs, k, n), a, Moved(n, u))
    case Moved(n, u) => s' == Go(s, s.fs, a, Doomed(n))
    case Doomed(n) => s' == Go(s, WithoutDir(s.fs, n), a, Idle)
    case _ => false
  }

  /** The command that removes an artifact takes no lock at all. */
  ghost predicate CommandStep(s: Store, a: Agent, s': Store) {
    && a in s.removers && ThreadOf(s, a).pc.Idle?
    && exists k: Key :: k in s.fs.entryAt && s' == Go(s, WithoutEntry(s.fs, k), a, Idle)
  }

  /** Dying, failing and finishing all close the agent's handles and nothing else. */
  ghost predicate Stops(s: Store, a: Agent, s': Store) {
    s' == Go(s, s.fs, a, Idle)
  }

  ghost predicate Next(s: Store, a: Agent, s': Store) {
    || ResolveStep(s, a, s') || StageStep(s, a, s') || PublishStep(s, a, s') || HoldStep(s, a, s')
    || SurveyStep(s, a, s') || RemoveStep(s, a, s') || UnlinkStep(s, a, s')
    || MoveOutStep(s, a, s') || DeleteStep(s, a, s')
    || CommandStep(s, a, s') || Stops(s, a, s')
  }

  // ---------------------------------------------------------------- the invariant

  ghost predicate Born(fs: Files, i: Inode, p: LockPath) {
    i in fs.birth && fs.birth[i] == p
  }

  ghost predicate OneInodePerBirth(fs: Files) {
    forall i, j :: i in fs.birth && j in fs.birth && fs.birth[i] == fs.birth[j] ==> i == j
  }

  /** Every lock path holds the one inode born there, staged names are drawn once, and the
    * lock files of entries are never unlinked. */
  ghost predicate FilesOk(fs: Files) {
    && (forall p :: p in fs.lockAt ==> Born(fs, fs.lockAt[p], p))
    && OneInodePerBirth(fs)
    && (forall i :: i in fs.birth ==>
          if fs.birth[i].StagingLock? then fs.birth[i].n in fs.used else fs.birth[i] in fs.lockAt)
    && (forall n :: n in fs.dirAt ==> n in fs.used)
  }

  ghost predicate MutualExclusion(agents: map<Agent, Thread>) {
    forall a, b, i :: a in agents && b in agents && a != b && i in agents[a].excl ==>
                        i !in agents[b].excl && i !in agents[b].shared
  }

  /** What an agent may rely on at its program point, whatever the others do. */
  ghost predicate AgentOk(fs: Files, t: Thread) {
    match t.pc
    case FetchWait(k, f) => Born(fs, f, FetchLock(k))
    case Looking(k, f) => Fetching(fs, t, k, f)
    case Removing(k, f) => Fetching(fs, t, k, f)
    case Naming(k, f, _) => Fetching(fs, t, k, f)
    case Created(k, f, n, j, _) => Fetching(fs, t, k, f) && Born(fs, j, StagingLock(n))
    case Locked(k, f, n, j, _) => Fetching(fs, t, k, f) && Born(fs, j, StagingLock(n)) && j in t.excl
    case Checked(k, f, n, j) => Fetching(fs, t, k, f) && OwnsName(fs, t, n, j)
    case Staging(k, f, n, j) => Fetching(fs, t, k, f) && OwnsName(fs, t, n, j) && n in fs.dirAt
    case Cleared(k, f, n, j) => Fetching(fs, t, k, f) && OwnsName(fs, t, n, j) && n in fs.dirAt && k !in fs.entryAt
    case Leaving(k, f, n, j, _) => OwnsName(fs, t, n, j)
    case UseWait(k, u) => Born(fs, u, UseLock(k))
    case UseLocked(k, u) => Born(fs, u, UseLock(k)) && u in t.shared
    case Held(k, u, _) => Born(fs, u, UseLock(k)) && u in t.shared
    case Listed(c) => c.n in fs.used
    case Probing(c, j) => Born(fs, j, StagingLock(c.n))
    case Probed(c) => c.n in fs.used
    case Candidate(c) => c.n in fs.used
    case RemoveOpened(c, j) => Born(fs, j, StagingLock(c.n))
    case RemoveHeld(c, lock) => MayRemove(fs, t, c.n, lock)
    case RemoveUnlinks(c, lock) => MayRemove(fs, t, c.n, lock)
    case MoveOpened(k, u) => Born(fs, u, UseLock(k))
    case MoveHeld(k, u) => Born(fs, u, UseLock(k)) && u in t.excl
    case Moved(n, _) => n in fs.used && StagingLock(n) !in fs.lockAt
    case Doomed(n) => n in fs.used && StagingLock(n) !in fs.lockAt
    case _ => true
  }

  /** The agent holds the fetch lock of `k`. */
  ghost predicate Fetching(fs: Files, t: Thread, k: Key, f: Inode) {
    Born(fs, f, FetchLock(k)) && f in t.excl
  }

  /** The agent holds the lock of the staged name `n`, whose lock file is still in place. */
  ghost predicate OwnsName(fs: Files, t: Thread, n: Name, j: Inode) {
    Born(fs, j, StagingLock(n)) && j in t.excl && StagingLock(n) in fs.lockAt
  }

  /** A sweep removes under the child's own lock, or when the name's lock file is gone. */
  ghost predicate MayRemove(fs: Files, t: Thread, n: Name, lock: Option<Inode>) {
    match lock
    case Some(j) => Born(fs, j, StagingLock(n)) && j in t.excl
    case None => n in fs.used && StagingLock(n) !in fs.lockAt
  }

  /** An agent holds the locks of its program point and no others. */
  ghost predicate LocksFit(agents: map<Agent, Thread>) {
    forall a :: a in agents ==> agents[a] == At(agents[a].pc)
  }

  ghost predicate AgentsOk(fs: Files, agents: map<Agent, Thread>) {
    forall a :: a in agents ==> AgentOk(fs, agents[a])
  }

  ghost predicate Inv(s: Store) {
    FilesOk(s.fs) && MutualExclusion(s.agents) && LocksFit(s.agents) && AgentsOk(s.fs, s.agents)
  }

  /** Nobody is running; the disk may hold entries, lock files and staged directories that
    * dead processes left behind. */
  ghost predicate Init(s: Store) {
    s.agents == map[] && FilesOk(s.fs)
  }

  // ---------------------------------------------------------------- preservation

  lemma ExclusionMovesOn(s: Store, a: Agent, t: Thread)
    requires MutualExclusion(s.agents)
    requires t.excl <= ThreadOf(s, a).excl && t.shared <= ThreadOf(s, a).shared
    ensures MutualExclusion(s.agents[a := t])
  {
  }

  lemma ExclusionTakes(s: Store, a: Agent, t: Thread, i: Inode)
    requires MutualExclusion(s.agents) && CanExcl(s, a, i)
    requires t.excl <= ThreadOf(s, a).excl + {i} && t.shared == {}
    ensures MutualExclusion(s.agents[a := t])
  {
  }

  lemma ExclusionShares(s: Store, a: Agent, t: Thread, i: Inode)
    requires MutualExclusion(s.agents) && CanShare(s, a, i)
    requires t.excl == {} && t.shared <= {i}
    ensures MutualExclusion(s.agents[a := t])
  {
  }

  lemma OthersKept(fs: Files, agents: map<Agent, Thread>, a: Agent, t: Thread)
    requires forall b :: b in agents && b != a ==> AgentOk(fs, agents[b])
    requires AgentOk(fs, t)
    ensures AgentsOk(fs, agents[a := t])
  {
  }

  /** A step that takes no lock it did not hold, over files the other agents can live with. */
  lemma MovesOn(s: Store, fs: Files, a: Agent, pc: Pc)
    requires Inv(s)
    requires FilesOk(fs) && forall b :: b in s.agents && b != a ==> AgentOk(fs, s.agents[b])
    requires AgentOk(fs, At(pc))
    requires Excl(pc) <= ThreadOf(s, a).excl && Shared(pc) <= ThreadOf(s, a).shared
    ensures Inv(Go(s, fs, a, pc))
  {
    ExclusionMovesOn(s, a, At(pc));
    OthersKept(fs, s.agents, a, At(pc));
  }

  /** A step that touches no file and takes no lock. */
  lemma Moves(s: Store, a: Agent, pc: Pc)
    requires Inv(s)
    requires AgentOk(s.fs, At(pc))
    requires Excl(pc) <= ThreadOf(s, a).excl && Shared(pc) <= ThreadOf(s, a).shared
    ensures Inv(Go(s, s.fs, a, pc))
  {
    ExclusionMovesOn(s, a, At(pc));
    OthersKept(s.fs, s.agents, a, At(pc));
  }

  /** A step that takes one lock and touches no file. */
  lemma Takes(s: Store, a: Agent, pc: Pc, i: Inode)
    requires Inv(s)
    requires AgentOk(s.fs, At(pc))
    requires Excl(pc) <= ThreadOf(s, a).excl + {i} && Shared(pc) == {}
    requires CanExcl(s, a, i)
    ensures Inv(Go(s, s.fs, a, pc))
  {
    ExclusionTakes(s, a, At(pc), i);
    OthersKept(s.fs, s.agents, a, At(pc));
  }

  lemma TakesShared(s: Store, a: Agent, pc: Pc, i: Inode)
    requires Inv(s)
    requires AgentOk(s.fs, At(pc))
    requires Excl(pc) == {} && Shared(pc) <= {i}
    requires CanShare(s, a, i)
    ensures Inv(Go(s, s.fs, a, pc))
  {
    ExclusionShares(s, a, At(pc), i);
    OthersKept(s.fs, s.agents, a, At(pc));
  }

  // What each file-system effect does to one bystander.

  /** The agent past `StagedDir::lock` under the name `n`. */
  predicate Stages(pc: Pc, n: Name) {
    (pc.Checked? || pc.Staging? || pc.Cleared? || pc.Leaving?) && pc.n == n
  }

  /** The agent missed its entry and has the fetch lock. */
  predicate Fetcher(pc: Pc) {
    pc.Removing? || pc.Naming? || pc.Created? || pc.Locked? || pc.Checked? || pc.Staging? || pc.Cleared?
  }

  predicate Fetches(pc: Pc, k: Key) {
    Fetcher(pc) && pc.k == k
  }

  lemma BystanderOfOpen(fs: Files, p: LockPath, i: Inode, fs': Files, t: Thread)
    requires Opens(fs, p, i, fs') && !p.StagingLock? && AgentOk(fs, t)
    ensures AgentOk(fs', t)
  {
  }

  lemma BystanderOfStagingLock(fs: Files, n: Name, j: Inode, t: Thread)
    requires n !in fs.used && j !in fs.birth && AgentOk(fs, t)
    ensures AgentOk(WithStagingLock(fs, n, j), t)
  {
  }

  lemma BystanderOfUnlink(fs: Files, n: Name, t: Thread)
    requires AgentOk(fs, t) && !Stages(t.pc, n)
    ensures AgentOk(WithoutLock(fs, n), t)
  {
  }

  lemma BystanderOfMkdir(fs: Files, n: Name, t: Thread)
    requires AgentOk(fs, t)
    ensures AgentOk(WithDir(fs, n), t)
  {
  }

  lemma BystanderOfRmdir(fs: Files, n: Name, t: Thread)
    requires AgentOk(fs, t) && !Stages(t.pc, n)
    ensures AgentOk(WithoutDir(fs, n), t)
  {
  }

  lemma BystanderOfPublish(fs: Files, k: Key, n: Name, t: Thread)
    requires n in fs.dirAt
    requires AgentOk(fs, t) && !Stages(t.pc, n) && !Fetches(t.pc, k)
    ensures AgentOk(WithPublished(fs, k, n), t)
  {
  }

  lemma BystanderOfMoveOut(fs: Files, k: Key, n: Name, t: Thread)
    requires k in fs.entryAt && n !in fs.used
    requires AgentOk(fs, t)
    ensures AgentOk(WithMovedOut(fs, k, n), t)
  {
  }

  lemma BystandersOfMoveOut(fs: Files, agents: map<Agent, Thread>, k: Key, n: Name)
    requires k in fs.entryAt && n !in fs.used && AgentsOk(fs, agents)
    ensures AgentsOk(WithMovedOut(fs, k, n), agents)
  {
    forall b | b in agents ensures AgentOk(WithMovedOut(fs, k, n), agents[b]) {
      BystanderOfMoveOut(fs, k, n, agents[b]);
    }
  }

  lemma BystanderOfRemoval(fs: Files, k: Key, t: Thread)
    requires AgentOk(fs, t)
    ensures AgentOk(WithoutEntry(fs, k), t)
  {
  }

  // Why the bystanders cannot be in the way: they would hold the same lock.

  /** An agent with the lock of the name `n` is the only one staging under it. */
  lemma OnlyStager(fs: Files, mine: set<Inode>, n: Name, j: Inode, other: Thread)
    requires OneInodePerBirth(fs) && AgentOk(fs, other)
    requires Born(fs, j, StagingLock(n)) && j in mine && mine !! other.excl
    ensures !Stages(other.pc, n)
  {
  }

  lemma OnlyFetcher(fs: Files, mine: set<Inode>, k: Key, f: Inode, other: Thread)
    requires OneInodePerBirth(fs) && AgentOk(fs, other)
    requires Born(fs, f, FetchLock(k)) && f in mine && mine !! other.excl
    ensures !Fetches(other.pc, k)
  {
  }

  /** Nobody else holds what `a` holds exclusively. */
  lemma Alone(s: Store, a: Agent, b: Agent)
    requires MutualExclusion(s.agents) && a in s.agents && b in s.agents && a != b
    ensures s.agents[a].excl !! s.agents[b].excl && s.agents[a].excl !! s.agents[b].shared
  {
  }

  lemma NoOtherStager(s: Store, a: Agent, n: Name, j: Inode)
    requires Inv(s) && a in s.agents && Born(s.fs, j, StagingLock(n)) && j in s.agents[a].excl
    ensures forall b :: b in s.agents && b != a ==> !Stages(s.agents[b].pc, n)
  {
    forall b | b in s.agents && b != a ensures !Stages(s.agents[b].pc, n) {
      Alone(s, a, b);
      OnlyStager(s.fs, s.agents[a].excl, n, j, s.agents[b]);
    }
  }

  /** A name whose lock file is gone has no stager at all. */
  lemma NoStagerWithoutLock(s: Store, n: Name)
    requires Inv(s) && StagingLock(n) !in s.fs.lockAt
    ensures forall b :: b in s.agents ==> !Stages(s.agents[b].pc, n)
  {
    forall b | b in s.agents ensures !Stages(s.agents[b].pc, n) {
      assert AgentOk(s.fs, s.agents[b]);
    }
  }

  lemma NoOtherFetcher(s: Store, a: Agent, k: Key, f: Inode)
    requires Inv(s) && a in s.agents && Fetching(s.fs, s.agents[a], k, f)
    ensures forall b :: b in s.agents && b != a ==> !Fetches(s.agents[b].pc, k)
  {
    forall b | b in s.agents && b != a ensures !Fetches(s.agents[b].pc, k) {
      Alone(s, a, b);
      OnlyFetcher(s.fs, s.agents[a].excl, k, f, s.agents[b]);
    }
  }

  // Each kind of effectful step, for the whole store.

  lemma FilesAfterUnlink(fs: Files, n: Name)
    requires FilesOk(fs)
    ensures FilesOk(WithoutLock(fs, n))
  {
  }

  lemma FilesAfterStagingLock(fs: Files, n: Name, j: Inode)
    requires FilesOk(fs) && n !in fs.used && j !in fs.birth
    ensures FilesOk(WithStagingLock(fs, n, j))
  {
  }

  lemma FilesAfterOpen(fs: Files, p: LockPath, i: Inode, fs': Files)
    requires FilesOk(fs) && Opens(fs, p, i, fs') && !p.StagingLock?
    ensures FilesOk(fs') && Born(fs', i, p)
  {
  }

  lemma FilesAfterMoveOut(fs: Files, k: Key, n: Name)
    requires FilesOk(fs) && k in fs.entryAt && n !in fs.used
    ensures FilesOk(WithMovedOut(fs, k, n)) && StagingLock(n) !in fs.lockAt
  {
  }

  lemma DoesOpen(s: Store, a: Agent, p: LockPath, i: Inode, fs: Files, pc: Pc)
    requires Inv(s) && Opens(s.fs, p, i, fs) && !p.StagingLock?
    requires || (p.FetchLock? && pc == FetchWait(p.k, i))
             || (p.UseLock? && (pc == UseWait(p.k, i) || pc == MoveOpened(p.k, i)))
    ensures Inv(Go(s, fs, a, pc))
  {
    FilesAfterOpen(s.fs, p, i, fs);
    forall b | b in s.agents && b != a ensures AgentOk(fs, s.agents[b]) {
      BystanderOfOpen(s.fs, p, i, fs, s.agents[b]);
    }
    MovesOn(s, fs, a, pc);
  }

  lemma DoesStagingLock(s: Store, a: Agent, k: Key, f: Inode, tries: nat, n: Name, j: Inode)
    requires Inv(s) && a in s.agents && s.agents[a].pc == Naming(k, f, tries)
    requires n !in s.fs.used && j !in s.fs.birth
    ensures Inv(Go(s, WithStagingLock(s.fs, n, j), a, Created(k, f, n, j, tries)))
  {
    var fs := WithStagingLock(s.fs, n, j);
    FilesAfterStagingLock(s.fs, n, j);
    forall b | b in s.agents && b != a ensures AgentOk(fs, s.agents[b]) {
      BystanderOfStagingLock(s.fs, n, j, s.agents[b]);
    }
    assert AgentOk(s.fs, s.agents[a]);
    MovesOn(s, fs, a, Created(k, f, n, j, tries));
  }

  lemma DoesUnlink(s: Store, a: Agent, n: Name, pc: Pc)
    requires Inv(s)
    requires forall b :: b in s.agents && b != a ==> !Stages(s.agents[b].pc, n)
    requires AgentOk(WithoutLock(s.fs, n), At(pc))
    requires Excl(pc) <= ThreadOf(s, a).excl && Shared(pc) == {}
    ensures Inv(Go(s, WithoutLock(s.fs, n), a, pc))
  {
    FilesAfterUnlink(s.fs, n);
    forall b | b in s.agents && b != a ensures AgentOk(WithoutLock(s.fs, n), s.agents[b]) {
      BystanderOfUnlink(s.fs, n, s.agents[b]);
    }
    MovesOn(s, WithoutLock(s.fs, n), a, pc);
  }

  lemma DoesRmdir(s: Store, a: Agent, n: Name, pc: Pc)
    requires Inv(s)
    requires forall b :: b in s.agents && b != a ==> !Stages(s.agents[b].pc, n)
    requires AgentOk(WithoutDir(s.fs, n), At(pc))
    requires Excl(pc) <= ThreadOf(s, a).excl && Shared(pc) == {}
    ensures Inv(Go(s, WithoutDir(s.fs, n), a, pc))
  {
    forall b | b in s.agents && b != a ensures AgentOk(WithoutDir(s.fs, n), s.agents[b]) {
      BystanderOfRmdir(s.fs, n, s.agents[b]);
    }
    MovesOn(s, WithoutDir(s.fs, n), a, pc);
  }

  lemma DoesMkdir(s: Store, a: Agent, k: Key, f: Inode, n: Name, j: Inode)
    requires Inv(s) && a in s.agents && s.agents[a] == At(Checked(k, f, n, j))
    ensures Inv(Go(s, WithDir(s.fs, n), a, Staging(k, f, n, j)))
  {
    var fs := WithDir(s.fs, n);
    forall b | b in s.agents && b != a ensures AgentOk(fs, s.agents[b]) {
      BystanderOfMkdir(s.fs, n, s.agents[b]);
    }
    assert AgentOk(s.fs, s.agents[a]);
    MovesOn(s, fs, a, Staging(k, f, n, j));
  }

  lemma DoesPublish(s: Store, a: Agent, k: Key, f: Inode, n: Name, j: Inode)
    requires Inv(s) && a in s.agents && s.agents[a] == At(Cleared(k, f, n, j))
    ensures n in s.fs.dirAt && Inv(Go(s, WithPublished(s.fs, k, n), a, Leaving(k, f, n, j, true)))
  {
    assert AgentOk(s.fs, s.agents[a]);
    var fs := WithPublished(s.fs, k, n);
    NoOtherStager(s, a, n, j);
    NoOtherFetcher(s, a, k, f);
    forall b | b in s.agents && b != a ensures AgentOk(fs, s.agents[b]) {
      BystanderOfPublish(s.fs, k, n, s.agents[b]);
    }
    MovesOn(s, fs, a, Leaving(k, f, n, j, true));
  }

  lemma DoesRemove(s: Store, a: Agent, k: Key, pc: Pc)
    requires Inv(s)
    requires AgentOk(WithoutEntry(s.fs, k), At(pc))
    requires Excl(pc) <= ThreadOf(s, a).excl && Shared(pc) == {}
    ensures Inv(Go(s, WithoutEntry(s.fs, k), a, pc))
  {
    forall b | b in s.agents && b != a ensures AgentOk(WithoutEntry(s.fs, k), s.agents[b]) {
      BystanderOfRemoval(s.fs, k, s.agents[b]);
    }
    MovesOn(s, WithoutEntry(s.fs, k), a, pc);
  }

  lemma DoesMoveOut(s: Store, a: Agent, k: Key, u: Inode, n: Name)
    requires Inv(s) && a in s.agents && s.agents[a] == At(MoveHeld(k, u))
    requires k in s.fs.entryAt && n !in s.fs.used
    ensures Inv(Go(s, WithMovedOut(s.fs, k, n), a, Moved(n, u)))
  {
    var fs := WithMovedOut(s.fs, k, n);
    FilesAfterMoveOut(s.fs, k, n);
    BystandersOfMoveOut(s.fs, s.agents, k, n);
    assert AgentOk(fs, At(Moved(n, u)));
    MovesOn(s, fs, a, Moved(n, u));
  }

  // ---------------------------------------------------------------- every step keeps the invariant

  /** What the acting agent may rely on. */
  lemma Actor(s: Store, a: Agent)
    requires Inv(s)
    ensures AgentOk(s.fs, ThreadOf(s, a)) && ThreadOf(s, a) == At(ThreadOf(s, a).pc)
  {
  }

  lemma ResolveKeeps(s: Store, a: Agent, s': Store)
    requires Inv(s) && ResolveStep(s, a, s')
    ensures Inv(s')
  {
    Actor(s, a);
    match ThreadOf(s, a).pc
    case Idle =>
      var k: Key :| s' == Go(s, s.fs, a, Resolving(k));
      Moves(s, a, Resolving(k));
    case Resolving(k) => Moves(s, a, if Finds(s, a, k).Intact? then Holding(k) else FetchOpen(k));
    case FetchOpen(k) =>
      var f, t :| Opens(s.fs, FetchLock(k), f, t) && s' == Go(s, t, a, FetchWait(k, f));
      DoesOpen(s, a, FetchLock(k), f, t, FetchWait(k, f));
    case FetchWait(k, f) => Takes(s, a, Looking(k, f), f);
    case Looking(k, f) =>
      var found := Finds(s, a, k);
      Moves(s, a,
            if found.Intact? then Holding(k) else if found.Unparsable? then Removing(k, f) else Naming(k, f, 0));
    case Removing(k, f) => DoesRemove(s, a, k, Naming(k, f, 0));
  }

  lemma NamingKeeps(s: Store, a: Agent, s': Store)
    requires Inv(s) && StageStep(s, a, s') && ThreadOf(s, a).pc.Naming?
    ensures Inv(s')
  {
    Actor(s, a);
    var Naming(k, f, tries) := ThreadOf(s, a).pc;
    var n, j :| n !in s.fs.used && j !in s.fs.birth
                && s' == Go(s, WithStagingLock(s.fs, n, j), a, Created(k, f, n, j, tries));
    DoesStagingLock(s, a, k, f, tries, n, j);
  }

  lemma CreatedKeeps(s: Store, a: Agent, s': Store)
    requires Inv(s) && StageStep(s, a, s') && ThreadOf(s, a).pc.Created?
    ensures Inv(s')
  {
    Actor(s, a);
    var Created(k, f, n, j, tries) := ThreadOf(s, a).pc;
    Takes(s, a, Locked(k, f, n, j, tries), j);
  }

  lemma NameIsKept(s: Store, a: Agent, k: Key, f: Inode, n: Name, j: Inode, tries: nat)
    requires Inv(s) && a in s.agents && s.agents[a] == At(Locked(k, f, n, j, tries)) && StagingLock(n) in s.fs.lockAt
    ensures Inv(Go(s, s.fs, a, Checked(k, f, n, j)))
  {
    Actor(s, a);
    Moves(s, a, Checked(k, f, n, j));
  }

  lemma NameIsSpent(s: Store, a: Agent, k: Key, f: Inode, n: Name, j: Inode, tries: nat)
    requires Inv(s) && a in s.agents && s.agents[a] == At(Locked(k, f, n, j, tries))
    ensures Inv(Go(s, s.fs, a, Naming(k, f, tries + 1)))
  {
    Actor(s, a);
    Moves(s, a, Naming(k, f, tries + 1));
  }

  lemma LockedKeeps(s: Store, a: Agent, s': Store)
    requires Inv(s) && StageStep(s, a, s') && ThreadOf(s, a).pc.Locked?
    ensures Inv(s')
  {
    var Locked(k, f, n, j, tries) := s.agents[a].pc;
    if StagingLock(n) in s.fs.lockAt {
      assert s' == Go(s, s.fs, a, Checked(k, f, n, j));
      NameIsKept(s, a, k, f, n, j, tries);
    } else {
      assert s' == Go(s, s.fs, a, Naming(k, f, tries + 1));
      NameIsSpent(s, a, k, f, n, j, tries);
    }
  }

  lemma StageKeeps(s: Store, a: Agent, s': Store)
    requires Inv(s) && StageStep(s, a, s')
    ensures Inv(s')
  {
    if ThreadOf(s, a).pc.Naming? {
      NamingKeeps(s, a, s');
    } else if ThreadOf(s, a).pc.Created? {
      CreatedKeeps(s, a, s');
    } else {
      LockedKeeps(s, a, s');
    }
  }

  lemma StagingEnds(s: Store, a: Agent, k: Key, f: Inode, n: Name, j: Inode)
    requires Inv(s) && a in s.agents && AgentOk(s.fs, s.agents[a])
    requires s.agents[a] == At(Staging(k, f, n, j)) || s.agents[a] == At(Cleared(k, f, n, j))
    ensures Inv(Go(s, s.fs, a, Leaving(k, f, n, j, false)))
    ensures Inv(Go(s, WithoutDir(s.fs, n), a, Leaving(k, f, n, j, false)))
    ensures s.agents[a].pc.Staging? ==> Inv(Go(s, WithoutEntry(s.fs, k), a, Cleared(k, f, n, j)))
    ensures s.agents[a].pc.Cleared? ==>
              n in s.fs.dirAt && Inv(Go(s, WithPublished(s.fs, k, n), a, Leaving(k, f, n, j, true)))
  {
    Moves(s, a, Leaving(k, f, n, j, false));
    NoOtherStager(s, a, n, j);
    DoesRmdir(s, a, n, Leaving(k, f, n, j, false));
    if s.agents[a].pc.Staging? {
      DoesRemove(s, a, k, Cleared(k, f, n, j));
    } else {
      DoesPublish(s, a, k, f, n, j);
    }
  }

  lemma PublishKeeps(s: Store, a: Agent, s': Store)
    requires Inv(s) && PublishStep(s, a, s')
    ensures Inv(s')
  {
    Actor(s, a);
    match ThreadOf(s, a).pc
    case Checked(k, f, n, j) =>
      if s' == Go(s, s.fs, a, Leaving(k, f, n, j, false)) {
        Moves(s, a, Leaving(k, f, n, j, false));
      } else {
        DoesMkdir(s, a, k, f, n, j);
      }
    case Staging(k, f, n, j) => StagingEnds(s, a, k, f, n, j);
    case Cleared(k, f, n, j) => StagingEnds(s, a, k, f, n, j);
    case Leaving(k, f, n, j, published) =>
      if s' == Go(s, s.fs, a, Unlinked(k, f, n, j, published)) {
        Moves(s, a, Unlinked(k, f, n, j, published));
      } else {
        NoOtherStager(s, a, n, j);
        DoesUnlink(s, a, n, Unlinked(k, f, n, j, published));
      }
    case Unlinked(k, f, n, j, published) => Moves(s, a, if published then Holding(k) else Idle);
  }

  lemma HoldKeeps(s: Store, a: Agent, s': Store)
    requires Inv(s) && HoldStep(s, a, s')
    ensures Inv(s')
  {
    Actor(s, a);
    match ThreadOf(s, a).pc
    case Holding(k) =>
      var u, t :| Opens(s.fs, UseLock(k), u, t) && s' == Go(s, t, a, UseWait(k, u));
      DoesOpen(s, a, UseLock(k), u, t, UseWait(k, u));
    case UseWait(k, u) => TakesShared(s, a, UseLocked(k, u), u);
    case UseLocked(k, u) =>
      Moves(s, a, if Finds(s, a, k).Intact? then Held(k, u, s.fs.entryAt[k]) else Resolving(k));
  }

  lemma ListsKeep(s: Store, a: Agent, s': Store)
    requires Inv(s) && SurveyStep(s, a, s') && ThreadOf(s, a).pc.Idle?
    ensures Inv(s')
  {
    var c :| s' == Go(s, s.fs, a, Listed(c)) && c.n in s.fs.used;
    Moves(s, a, Listed(c));
  }

  lemma ListedKeeps(s: Store, a: Agent, s': Store)
    requires Inv(s) && SurveyStep(s, a, s') && ThreadOf(s, a).pc.Listed?
    ensures Inv(s')
  {
    Actor(s, a);
    var c := ThreadOf(s, a).pc.c;
    if StagingLock(c.n) in s.fs.lockAt {
      Moves(s, a, Probing(c, s.fs.lockAt[StagingLock(c.n)]));
    } else {
      Moves(s, a, Candidate(c));
    }
  }

  lemma ProbeKeeps(s: Store, a: Agent, s': Store)
    requires Inv(s) && SurveyStep(s, a, s') && (ThreadOf(s, a).pc.Probing? || ThreadOf(s, a).pc.Probed?)
    ensures Inv(s')
  {
    Actor(s, a);
    var c := ThreadOf(s, a).pc.c;
    if ThreadOf(s, a).pc.Probing? {
      Moves(s, a, Probed(c));
    } else {
      Moves(s, a, Candidate(c));
    }
  }

  lemma SurveyKeeps(s: Store, a: Agent, s': Store)
    requires Inv(s) && SurveyStep(s, a, s')
    ensures Inv(s')
  {
    if ThreadOf(s, a).pc.Idle? {
      ListsKeep(s, a, s');
    } else if ThreadOf(s, a).pc.Listed? {
      ListedKeeps(s, a, s');
    } else {
      ProbeKeeps(s, a, s');
    }
  }

  /** Whichever way a sweep came to remove a name, no fetch stages under it. */
  lemma RemoverIsAlone(s: Store, a: Agent, n: Name, lock: Option<Inode>)
    requires Inv(s) && a in s.agents && MayRemove(s.fs, s.agents[a], n, lock)
    ensures forall b :: b in s.agents && b != a ==> !Stages(s.agents[b].pc, n)
  {
    match lock
    case Some(j) => NoOtherStager(s, a, n, j);
    case None => NoStagerWithoutLock(s, n);
  }

  lemma RemoveHeldKeeps(s: Store, a: Agent, c: Child, lock: Option<Inode>)
    requires Inv(s) && a in s.agents && s.agents[a] == At(RemoveHeld(c, lock))
    requires MayRemove(s.fs, s.agents[a], c.n, lock)
    ensures c.StagedDir? ==> Inv(Go(s, WithoutDir(s.fs, c.n), a, RemoveUnlinks(c, lock)))
    ensures c.StagedLock? ==> Inv(Go(s, WithoutLock(s.fs, c.n), a, RemoveUnlinks(c, lock)))
  {
    RemoverIsAlone(s, a, c.n, lock);
    if c.StagedDir? {
      DoesRmdir(s, a, c.n, RemoveUnlinks(c, lock));
    } else {
      DoesUnlink(s, a, c.n, RemoveUnlinks(c, lock));
    }
  }

  lemma RemoveUnlinksKeeps(s: Store, a: Agent, c: Child, lock: Option<Inode>)
    requires Inv(s) && a in s.agents && s.agents[a] == At(RemoveUnlinks(c, lock))
    requires MayRemove(s.fs, s.agents[a], c.n, lock)
    ensures Inv(Go(s, WithoutLock(s.fs, c.n), a, RemoveDone(lock)))
  {
    RemoverIsAlone(s, a, c.n, lock);
    DoesUnlink(s, a, c.n, RemoveDone(lock));
  }

  lemma CandidateKeeps(s: Store, a: Agent, s': Store)
    requires Inv(s) && RemoveStep(s, a, s') && ThreadOf(s, a).pc.Candidate?
    ensures Inv(s')
  {
    Actor(s, a);
    var c := ThreadOf(s, a).pc.c;
    if StagingLock(c.n) in s.fs.lockAt {
      Moves(s, a, RemoveOpened(c, s.fs.lockAt[StagingLock(c.n)]));
    } else {
      Moves(s, a, RemoveHeld(c, None));
    }
  }

  lemma RemoveOpenedKeeps(s: Store, a: Agent, s': Store)
    requires Inv(s) && RemoveStep(s, a, s') && ThreadOf(s, a).pc.RemoveOpened?
    ensures Inv(s')
  {
    Actor(s, a);
    var RemoveOpened(c, j) := ThreadOf(s, a).pc;
    Takes(s, a, RemoveHeld(c, Some(j)), j);
  }

  lemma RemoveKeeps(s: Store, a: Agent, s': Store)
    requires Inv(s) && RemoveStep(s, a, s')
    ensures Inv(s')
  {
    if ThreadOf(s, a).pc.Candidate? {
      CandidateKeeps(s, a, s');
    } else {
      RemoveOpenedKeeps(s, a, s');
    }
  }

  lemma UnlinkKeeps(s: Store, a: Agent, s': Store)
    requires Inv(s) && UnlinkStep(s, a, s')
    ensures Inv(s')
  {
    Actor(s, a);
    match ThreadOf(s, a).pc
    case RemoveHeld(c, lock) => RemoveHeldKeeps(s, a, c, lock);
    case RemoveUnlinks(c, lock) =>
      RemoveUnlinksKeeps(s, a, c, lock);
      if s' == Go(s, s.fs, a, RemoveDone(lock)) {
        Moves(s, a, RemoveDone(lock));
      }
  }

  lemma MoveListsKeep(s: Store, a: Agent, s': Store)
    requires Inv(s) && MoveOutStep(s, a, s') && ThreadOf(s, a).pc.Idle?
    ensures Inv(s')
  {
    var k: Key :| s' == Go(s, s.fs, a, MoveListed(k));
    Moves(s, a, MoveListed(k));
  }

  lemma MoveListedKeeps(s: Store, a: Agent, s': Store)
    requires Inv(s) && MoveOutStep(s, a, s') && ThreadOf(s, a).pc.MoveListed?
    ensures Inv(s')
  {
    var k := ThreadOf(s, a).pc.k;
    var u, t :| Opens(s.fs, UseLock(k), u, t) && s' == Go(s, t, a, MoveOpened(k, u));
    DoesOpen(s, a, UseLock(k), u, t, MoveOpened(k, u));
  }

  lemma MoveOpenedKeeps(s: Store, a: Agent, s': Store)
    requires Inv(s) && MoveOutStep(s, a, s') && ThreadOf(s, a).pc.MoveOpened?
    ensures Inv(s')
  {
    Actor(s, a);
    var MoveOpened(k, u) := ThreadOf(s, a).pc;
    Takes(s, a, MoveHeld(k, u), u);
  }

  lemma MoveOutKeeps(s: Store, a: Agent, s': Store)
    requires Inv(s) && MoveOutStep(s, a, s')
    ensures Inv(s')
  {
    if ThreadOf(s, a).pc.Idle? {
      MoveListsKeep(s, a, s');
    } else if ThreadOf(s, a).pc.MoveListed? {
      MoveListedKeeps(s, a, s');
    } else {
      MoveOpenedKeeps(s, a, s');
    }
  }

  lemma DeleteKeeps(s: Store, a: Agent, s': Store)
    requires Inv(s) && DeleteStep(s, a, s')
    ensures Inv(s')
  {
    Actor(s, a);
    match ThreadOf(s, a).pc
    case MoveHeld(k, u) =>
      var n :| n !in s.fs.used && s' == Go(s, WithMovedOut(s.fs, k, n), a, Moved(n, u));
      DoesMoveOut(s, a, k, u, n);
    case Moved(n, u) => Moves(s, a, Doomed(n));
    case Doomed(n) => DoomedKeeps(s, a, n);
  }

  lemma DoomedKeeps(s: Store, a: Agent, n: Name)
    requires Inv(s) && StagingLock(n) !in s.fs.lockAt
    ensures Inv(Go(s, WithoutDir(s.fs, n), a, Idle))
  {
    NoStagerWithoutLock(s, n);
    DoesRmdir(s, a, n, Idle);
  }

  lemma CommandKeeps(s: Store, a: Agent, s': Store)
    requires Inv(s) && CommandStep(s, a, s')
    ensures Inv(s')
  {
    var k: Key :| k in s.fs.entryAt && s' == Go(s, WithoutEntry(s.fs, k), a, Idle);
    DoesRemove(s, a, k, Idle);
  }

  lemma NextKeeps(s: Store, a: Agent, s': Store)
    requires Inv(s) && Next(s, a, s')
    ensures Inv(s')
  {
    if ResolveStep(s, a, s') {
      ResolveKeeps(s, a, s');
    } else if StageStep(s, a, s') {
      StageKeeps(s, a, s');
    } else if PublishStep(s, a, s') {
      PublishKeeps(s, a, s');
    } else if HoldStep(s, a, s') {
      HoldKeeps(s, a, s');
    } else if SurveyStep(s, a, s') {
      SurveyKeeps(s, a, s');
    } else if RemoveStep(s, a, s') {
      RemoveKeeps(s, a, s');
    } else if UnlinkStep(s, a, s') {
      UnlinkKeeps(s, a, s');
    } else if DeleteStep(s, a, s') {
      DeleteKeeps(s, a, s');
    } else if MoveOutStep(s, a, s') {
      MoveOutKeeps(s, a, s');
    } else if CommandStep(s, a, s') {
      CommandKeeps(s, a, s');
    } else {
      Moves(s, a, Idle);
    }
  }

  // ---------------------------------------------------------------- what no step undoes

  /** Names stay drawn, inodes keep their path, a staged name whose lock file is gone never
    * gets one again, the lock files of entries stay, and a staged path is never rebound. */
  ghost predicate Grows(fs: Files, fs': Files) {
    && fs.used <= fs'.used
    && (forall i :: i in fs.birth ==> i in fs'.birth && fs'.birth[i] == fs.birth[i])
    && (forall n :: n in fs.used && StagingLock(n) !in fs.lockAt ==> StagingLock(n) !in fs'.lockAt)
    && (forall p :: p in fs.lockAt && !p.StagingLock? ==> p in fs'.lockAt && fs'.lockAt[p] == fs.lockAt[p])
    && (forall n :: n in fs.dirAt && n in fs'.dirAt ==> fs'.dirAt[n] == fs.dirAt[n])
  }

  lemma ResolveGrows(s: Store, a: Agent, s': Store)
    requires FilesOk(s.fs)
    requires ResolveStep(s, a, s')
    ensures Grows(s.fs, s'.fs)
  {
  }

  lemma HoldGrows(s: Store, a: Agent, s': Store)
    requires FilesOk(s.fs)
    requires HoldStep(s, a, s') || CommandStep(s, a, s') || Stops(s, a, s')
    ensures Grows(s.fs, s'.fs)
  {
  }

  lemma StageGrows(s: Store, a: Agent, s': Store)
    requires FilesOk(s.fs)
    requires StageStep(s, a, s')
    ensures Grows(s.fs, s'.fs)
  {
  }

  lemma StagedGrows(s: Store, a: Agent, s': Store)
    requires FilesOk(s.fs)
    requires PublishStep(s, a, s')
    requires ThreadOf(s, a).pc.Checked? || ThreadOf(s, a).pc.Staging? || ThreadOf(s, a).pc.Cleared?
    ensures Grows(s.fs, s'.fs)
  {
  }

  lemma PublishGrows(s: Store, a: Agent, s': Store)
    requires FilesOk(s.fs)
    requires PublishStep(s, a, s')
    ensures Grows(s.fs, s'.fs)
  {
    if ThreadOf(s, a).pc.Checked? || ThreadOf(s, a).pc.Staging? || ThreadOf(s, a).pc.Cleared? {
      StagedGrows(s, a, s');
    }
  }

  lemma SweepOnlyLooks(s: Store, a: Agent, s': Store)
    requires SurveyStep(s, a, s') || RemoveStep(s, a, s')
    ensures s'.fs == s.fs
  {
  }

  lemma SweepGrows(s: Store, a: Agent, s': Store)
    requires SurveyStep(s, a, s') || RemoveStep(s, a, s')
    ensures Grows(s.fs, s'.fs)
  {
    SweepOnlyLooks(s, a, s');
  }

  lemma MoveOutGrows(s: Store, a: Agent, s': Store)
    requires FilesOk(s.fs)
    requires MoveOutStep(s, a, s')
    ensures Grows(s.fs, s'.fs)
  {
  }

  lemma UnlinkGrows(s: Store, a: Agent, s': Store)
    requires FilesOk(s.fs)
    requires UnlinkStep(s, a, s')
    ensures Grows(s.fs, s'.fs)
  {
  }

  lemma DeleteGrows(s: Store, a: Agent, s': Store)
    requires FilesOk(s.fs)
    requires DeleteStep(s, a, s')
    ensures Grows(s.fs, s'.fs)
  {
  }

  lemma NextGrows(s: Store, a: Agent, s': Store)
    requires Inv(s) && Next(s, a, s')
    ensures Grows(s.fs, s'.fs)
  {
    if PublishStep(s, a, s') {
      PublishGrows(s, a, s');
    } else if StageStep(s, a, s') {
      StageGrows(s, a, s');
    } else if ResolveStep(s, a, s') {
      ResolveGrows(s, a, s');
    } else if HoldStep(s, a, s') || CommandStep(s, a, s') || Stops(s, a, s') {
      HoldGrows(s, a, s');
    } else if UnlinkStep(s, a, s') {
      UnlinkGrows(s, a, s');
    } else if DeleteStep(s, a, s') {
      DeleteGrows(s, a, s');
    } else if MoveOutStep(s, a, s') {
      MoveOutGrows(s, a, s');
    } else {
      SweepGrows(s, a, s');
    }
  }

  lemma OthersStay(s: Store, a: Agent, s': Store, b: Agent)
    requires Next(s, a, s') && b != a && b in s.agents
    ensures b in s'.agents && s'.agents[b] == s.agents[b]
  {
  }

  // ---------------------------------------------------------------- runs

  /** Some agent outside `still` steps. */
  ghost predicate Steps(s: Store, s': Store, still: set<Agent>) {
    exists a: Agent :: a !in still && Next(s, a, s')
  }

  /** Any interleaving of any number of agents, deaths included, in which those in `still` do nothing. */
  ghost predicate Walk(r: seq<Store>, still: set<Agent>) {
    r != [] && forall i, j :: 0 <= i && j == i + 1 < |r| ==> Steps(r[i], r[j], still)
  }

  ghost predicate Run(r: seq<Store>) {
    Walk(r, {}) && Init(r[0])
  }

  lemma {:induction false} RunKeeps(r: seq<Store>, i: nat)
    requires Run(r) && i < |r|
    ensures Inv(r[i])
  {
    if i > 0 {
      RunKeeps(r, i - 1);
      assert Steps(r[i - 1], r[i], {});
      var a: Agent :| Next(r[i - 1], a, r[i]);
      NextKeeps(r[i - 1], a, r[i]);
    }
  }

  lemma RunGrows(r: seq<Store>, i: nat)
    requires Run(r) && i + 1 < |r|
    ensures Grows(r[i].fs, r[i + 1].fs)
  {
    RunKeeps(r, i);
    assert Steps(r[i], r[i + 1], {});
    var a: Agent :| Next(r[i], a, r[i + 1]);
    NextGrows(r[i], a, r[i + 1]);
  }

  ghost predicate GrowsAlong(r: seq<Store>) {
    forall i, j :: 0 <= i && j == i + 1 < |r| ==> Grows(r[i].fs, r[j].fs)
  }

  lemma RunGrowsAlong(r: seq<Store>)
    requires Run(r)
    ensures GrowsAlong(r)
  {
    forall i, j | 0 <= i && j == i + 1 < |r| ensures Grows(r[i].fs, r[j].fs) {
      RunGrows(r, i);
    }
  }

  lemma OwnedLock(fs: Files, t: Thread, n: Name, j: Inode)
    requires FilesOk(fs) && OwnsName(fs, t, n, j)
    ensures fs.lockAt[StagingLock(n)] == j
  {
    assert Born(fs, fs.lockAt[StagingLock(n)], StagingLock(n));
  }

  /** A fetch past `StagedDir::lock`: its lock file is in place and locked by it alone, and its
    * staged directory is there once made. */
  ghost predicate StagingIsSafe(s: Store, a: Agent) {
    a in s.agents &&
    var pc := s.agents[a].pc;
    pc.Checked? || pc.Staging? || pc.Cleared? ==>
      && StagingLock(pc.n) in s.fs.lockAt
      && s.fs.lockAt[StagingLock(pc.n)] == pc.j
      && pc.j in s.agents[a].excl
      && (forall b :: b in s.agents && b != a ==> pc.j !in s.agents[b].excl)
      && (!pc.Checked? ==> pc.n in s.fs.dirAt)
  }

  lemma StagingIsSafeNow(s: Store, a: Agent)
    requires Inv(s) && a in s.agents
    ensures StagingIsSafe(s, a)
  {
    Actor(s, a);
    var pc := s.agents[a].pc;
    if pc.Checked? || pc.Staging? || pc.Cleared? {
      OwnedLock(s.fs, s.agents[a], pc.n, pc.j);
      forall b | b in s.agents && b != a ensures pc.j !in s.agents[b].excl {
        Alone(s, a, b);
      }
    }
  }

  /** Staging safety, in every state of every run. */
  lemma StagingSafety(r: seq<Store>, i: nat, a: Agent)
    requires Run(r) && i < |r| && a in r[i].agents
    ensures StagingIsSafe(r[i], a)
  {
    RunKeeps(r, i);
    StagingIsSafeNow(r[i], a);
  }

  /** No step of another agent, sweep or not, removes or replaces what a live fetch staged. */
  lemma NobodyTouchesAStagedDir(s: Store, a: Agent, b: Agent, s': Store)
    requires Inv(s) && a in s.agents && (s.agents[a].pc.Staging? || s.agents[a].pc.Cleared?)
    requires Next(s, b, s') && a != b
    ensures Inv(s')
    ensures var n := s.agents[a].pc.n;
            && n in s.fs.dirAt && n in s'.fs.dirAt && s'.fs.dirAt[n] == s.fs.dirAt[n]
            && StagingLock(n) in s.fs.lockAt && StagingLock(n) in s'.fs.lockAt
            && s'.fs.lockAt[StagingLock(n)] == s.fs.lockAt[StagingLock(n)]
  {
    NextKeeps(s, b, s');
    NextGrows(s, b, s');
    OthersStay(s, b, s', a);
    StillStaged(s, a, s');
  }

  lemma StillStaged(s: Store, a: Agent, s': Store)
    requires Inv(s) && Inv(s') && Grows(s.fs, s'.fs)
    requires a in s.agents && (s.agents[a].pc.Staging? || s.agents[a].pc.Cleared?)
    requires a in s'.agents && s'.agents[a] == s.agents[a]
    ensures var n := s.agents[a].pc.n;
            && n in s.fs.dirAt && n in s'.fs.dirAt && s'.fs.dirAt[n] == s.fs.dirAt[n]
            && StagingLock(n) in s.fs.lockAt && StagingLock(n) in s'.fs.lockAt
            && s'.fs.lockAt[StagingLock(n)] == s.fs.lockAt[StagingLock(n)]
  {
    StagingIsSafeNow(s, a);
    StagingIsSafeNow(s', a);
  }

  /** A staged name whose lock file is gone stays unusable from then on. */
  lemma {:induction false} SpentNamesStaySpent(r: seq<Store>, i: nat, m: nat, n: Name)
    requires GrowsAlong(r) && i <= m < |r|
    requires n in r[i].fs.used && StagingLock(n) !in r[i].fs.lockAt
    ensures n in r[m].fs.used && StagingLock(n) !in r[m].fs.lockAt
    decreases m
  {
    if i < m {
      SpentNamesStaySpent(r, i, m - 1, n);
      assert Grows(r[m - 1].fs, r[m].fs);
    }
  }

  /** A name whose lock file went missing between its creation and its check is never staged under, by
    * anyone, from then on. */
  lemma UnlinkedBeforeLockNeverStages(r: seq<Store>, i: nat, m: nat, a: Agent)
    requires Run(r) && i <= m < |r| && a in r[i].agents
    requires r[i].agents[a].pc.Created? || r[i].agents[a].pc.Locked?
    requires StagingLock(r[i].agents[a].pc.n) !in r[i].fs.lockAt
    ensures forall b :: b in r[m].agents ==> !Stages(r[m].agents[b].pc, r[i].agents[a].pc.n)
  {
    RunKeeps(r, i);
    Actor(r[i], a);
    RunGrowsAlong(r);
    SpentNamesStaySpent(r, i, m, r[i].agents[a].pc.n);
    RunKeeps(r, m);
    NoStagerWithoutLock(r[m], r[i].agents[a].pc.n);
  }

  /** A held entry: its path's own in-use lock is shared by the holder, no other agent has it exclusively,
    * and no sweep is about to move the entry out. */
  ghost predicate HoldIsSafe(s: Store, a: Agent) {
    a in s.agents &&
    var pc := s.agents[a].pc;
    pc.Held? ==>
      && UseLock(pc.k) in s.fs.lockAt && s.fs.lockAt[UseLock(pc.k)] == pc.u && pc.u in s.agents[a].shared
      && (forall b :: b in s.agents && b != a ==> pc.u !in s.agents[b].excl)
      && (forall b, u :: b in s.agents ==> s.agents[b].pc != MoveHeld(pc.k, u))
  }

  lemma HoldIsSafeNow(s: Store, a: Agent)
    requires Inv(s) && a in s.agents
    ensures HoldIsSafe(s, a)
  {
    Actor(s, a);
    var pc := s.agents[a].pc;
    if pc.Held? {
      assert Born(s.fs, pc.u, UseLock(pc.k));
      assert Born(s.fs, s.fs.lockAt[UseLock(pc.k)], UseLock(pc.k));
      forall b | b in s.agents && b != a ensures pc.u !in s.agents[b].excl {
        Alone(s, b, a);
      }
      forall b, u | b in s.agents ensures s.agents[b].pc != MoveHeld(pc.k, u) {
        Actor(s, b);
      }
    }
  }

  /** In-use safety, in every state of every run: from the moment `ensure_model` returns with a held
    * lock until that lock is dropped, no sweep moves the entry. */
  lemma InUseSafety(r: seq<Store>, i: nat, a: Agent)
    requires Run(r) && i < |r| && a in r[i].agents
    ensures HoldIsSafe(r[i], a)
  {
    RunKeeps(r, i);
    HoldIsSafeNow(r[i], a);
  }

  lemma {:induction false} EntryLocksStay(r: seq<Store>, i: nat, m: nat, p: LockPath)
    requires GrowsAlong(r) && i <= m < |r|
    requires !p.StagingLock? && p in r[i].fs.lockAt
    ensures p in r[m].fs.lockAt && r[m].fs.lockAt[p] == r[i].fs.lockAt[p]
    decreases m
  {
    if i < m {
      EntryLocksStay(r, i, m - 1, p);
      assert Grows(r[m - 1].fs, r[m].fs);
    }
  }

  /** The inode of an entry's lock file never changes, so two agents that lock it by path always
    * contend. */
  lemma EntryLocksKeepTheirInode(r: seq<Store>, i: nat, m: nat, p: LockPath)
    requires Run(r) && i <= m < |r|
    requires !p.StagingLock? && p in r[i].fs.lockAt
    ensures p in r[m].fs.lockAt && r[m].fs.lockAt[p] == r[i].fs.lockAt[p]
  {
    RunGrowsAlong(r);
    EntryLocksStay(r, i, m, p);
  }

  // ---------------------------------------------------------------- entries that come and go

  /** Directory `d` stands at the entry `k`. */
  ghost predicate Stands(s: Store, k: Key, d: Dir) {
    k in s.fs.entryAt && s.fs.entryAt[k] == d
  }

  /** An agent at one of the four calls that change what stands at `k`. */
  predicate Changes(pc: Pc, k: Key) {
    (pc.Removing? || pc.Staging? || pc.Cleared? || pc.MoveHeld?) && pc.k == k
  }

  ghost predicate SameEntry(fs: Files, fs': Files, k: Key) {
    (k in fs.entryAt <==> k in fs'.entryAt) && (k in fs.entryAt ==> fs'.entryAt[k] == fs.entryAt[k])
  }

  lemma FetchChanges(s: Store, a: Agent, s': Store, k: Key)
    requires ResolveStep(s, a, s') || StageStep(s, a, s') || HoldStep(s, a, s') || Stops(s, a, s')
    ensures SameEntry(s.fs, s'.fs, k)
            || (ThreadOf(s, a).pc.Removing? && ThreadOf(s, a).pc.k == k && k !in s'.fs.entryAt)
  {
  }

  lemma PublishChanges(s: Store, a: Agent, s': Store, k: Key)
    requires PublishStep(s, a, s')
    ensures SameEntry(s.fs, s'.fs, k)
            || (Changes(ThreadOf(s, a).pc, k) && (k in s'.fs.entryAt ==> ThreadOf(s, a).pc.Cleared?))
  {
  }

  lemma SweepChanges(s: Store, a: Agent, s': Store, k: Key)
    requires SurveyStep(s, a, s') || RemoveStep(s, a, s') || UnlinkStep(s, a, s')
             || MoveOutStep(s, a, s') || DeleteStep(s, a, s')
    ensures SameEntry(s.fs, s'.fs, k)
            || (ThreadOf(s, a).pc.MoveHeld? && ThreadOf(s, a).pc.k == k && k !in s'.fs.entryAt)
  {
  }

  lemma CommandChanges(s: Store, a: Agent, s': Store, k: Key)
    requires CommandStep(s, a, s')
    ensures SameEntry(s.fs, s'.fs, k) || k !in s'.fs.entryAt
  {
  }

  /** The agent is between runs and may run the command. */
  ghost predicate MayCommand(s: Store, a: Agent) {
    a in s.removers && ThreadOf(s, a).pc.Idle?
  }

  /** What stands at an entry changes only by one of the four calls or by the command, and only a publish
    * puts something there. */
  lemma EntryChanges(s: Store, a: Agent, s': Store, k: Key)
    requires Next(s, a, s') && !SameEntry(s.fs, s'.fs, k)
    ensures Changes(ThreadOf(s, a).pc, k) || MayCommand(s, a)
    ensures k in s'.fs.entryAt ==> ThreadOf(s, a).pc.Cleared? && ThreadOf(s, a).pc.k == k
  {
    if CommandStep(s, a, s') {
      CommandChanges(s, a, s', k);
    } else if PublishStep(s, a, s') {
      PublishChanges(s, a, s', k);
    } else if ResolveStep(s, a, s') || StageStep(s, a, s') || HoldStep(s, a, s') || Stops(s, a, s') {
      FetchChanges(s, a, s', k);
    } else {
      SweepChanges(s, a, s', k);
    }
  }

  /** A fetcher cannot read what stands at its entry, and a holder could read what it holds. */
  ghost predicate ReadOk(s: Store, a: Agent, pc: Pc) {
    && (Fetcher(pc) ==> Unreadable(Finds(s, a, pc.k)))
    && (pc.Held? ==> s.sees(a, pc.d).Intact?)
  }

  ghost predicate ReadsOk(s: Store) {
    forall a :: a in s.agents ==> ReadOk(s, a, s.agents[a].pc)
  }

  // The acting agent's own next program point.

  lemma ResolverReads(s: Store, a: Agent, s': Store)
    requires ResolveStep(s, a, s') || HoldStep(s, a, s')
    ensures a in s'.agents && ReadOk(s', a, s'.agents[a].pc)
  {
  }

  lemma PublisherReads(s: Store, a: Agent, s': Store)
    requires (StageStep(s, a, s') || PublishStep(s, a, s')) && ReadOk(s, a, ThreadOf(s, a).pc)
    ensures a in s'.agents && ReadOk(s', a, s'.agents[a].pc)
  {
  }

  lemma SweeperReads(s: Store, a: Agent, s': Store)
    requires SurveyStep(s, a, s') || RemoveStep(s, a, s') || UnlinkStep(s, a, s')
             || MoveOutStep(s, a, s') || DeleteStep(s, a, s') || CommandStep(s, a, s') || Stops(s, a, s')
    ensures a in s'.agents && ReadOk(s', a, s'.agents[a].pc)
  {
  }

  lemma ActorReads(s: Store, a: Agent, s': Store)
    requires Next(s, a, s') && ReadOk(s, a, ThreadOf(s, a).pc)
    ensures a in s'.agents && ReadOk(s', a, s'.agents[a].pc)
  {
    if ResolveStep(s, a, s') || HoldStep(s, a, s') {
      ResolverReads(s, a, s');
    } else if StageStep(s, a, s') || PublishStep(s, a, s') {
      PublisherReads(s, a, s');
    } else {
      SweeperReads(s, a, s');
    }
  }

  /** What a step of `a` leaves alone: the other agents, what anyone reads or may command, and every entry
    * but that of its own call. */
  ghost predicate Frame(s: Store, a: Agent, s': Store) {
    Itself(s, a, s') && forall k :: SameEntry(s.fs, s'.fs, k) || MayChange(s, a, s', k)
  }

  ghost predicate MayChange(s: Store, a: Agent, s': Store, k: Key) {
    && (Changes(ThreadOf(s, a).pc, k) || MayCommand(s, a))
    && (k in s'.fs.entryAt ==> ThreadOf(s, a).pc.Cleared? && ThreadOf(s, a).pc.k == k)
  }

  /** Nothing but the files and its own thread. */
  ghost predicate Itself(s: Store, a: Agent, s': Store) {
    && s'.sees == s.sees && s'.removers == s.removers
    && a in s'.agents && s'.agents == s.agents[a := s'.agents[a]]
  }

  lemma FetcherItself(s: Store, a: Agent, s': Store)
    requires ResolveStep(s, a, s') || StageStep(s, a, s') || PublishStep(s, a, s') || HoldStep(s, a, s')
    ensures Itself(s, a, s')
  {
  }

  lemma SweeperItself(s: Store, a: Agent, s': Store)
    requires SurveyStep(s, a, s') || RemoveStep(s, a, s') || UnlinkStep(s, a, s')
             || MoveOutStep(s, a, s') || DeleteStep(s, a, s') || CommandStep(s, a, s') || Stops(s, a, s')
    ensures Itself(s, a, s')
  {
  }

  lemma OnlyItsAgent(s: Store, a: Agent, s': Store)
    requires Next(s, a, s')
    ensures Itself(s, a, s')
  {
    if ResolveStep(s, a, s') || StageStep(s, a, s') || PublishStep(s, a, s') || HoldStep(s, a, s') {
      FetcherItself(s, a, s');
    } else {
      SweeperItself(s, a, s');
    }
  }

  lemma NextFrames(s: Store, a: Agent, s': Store)
    requires Next(s, a, s')
    ensures Frame(s, a, s')
  {
    OnlyItsAgent(s, a, s');
    forall k | !SameEntry(s.fs, s'.fs, k) ensures MayChange(s, a, s', k) {
      EntryChanges(s, a, s', k);
    }
  }

  lemma OtherReads(s: Store, a: Agent, s': Store, b: Agent)
    requires Inv(s) && Frame(s, a, s') && a != b && b in s.agents && ReadOk(s, b, s.agents[b].pc)
    ensures ReadOk(s', b, s.agents[b].pc)
  {
    var pc := s.agents[b].pc;
    if Fetcher(pc) && pc.k in s'.fs.entryAt && !SameEntry(s.fs, s'.fs, pc.k) {
      Actor(s, a);
      NoOtherFetcher(s, a, pc.k, ThreadOf(s, a).pc.f);
    }
  }

  lemma FramedReads(s: Store, a: Agent, s': Store)
    requires Inv(s) && ReadsOk(s) && Frame(s, a, s') && ReadOk(s', a, s'.agents[a].pc)
    ensures ReadsOk(s')
  {
    forall b | b in s'.agents && b != a ensures ReadOk(s', b, s'.agents[b].pc) {
      OtherReads(s, a, s', b);
    }
  }

  lemma ReadsKeep(s: Store, a: Agent, s': Store)
    requires Inv(s) && ReadsOk(s) && Next(s, a, s')
    ensures ReadsOk(s')
  {
    NextFrames(s, a, s');
    ActorReads(s, a, s');
    FramedReads(s, a, s');
  }

  lemma {:induction false} RunReads(r: seq<Store>, i: nat)
    requires Run(r) && i < |r|
    ensures ReadsOk(r[i])
  {
    if i > 0 {
      RunReads(r, i - 1);
      RunKeeps(r, i - 1);
      assert Steps(r[i - 1], r[i], {});
      var a: Agent :| Next(r[i - 1], a, r[i]);
      ReadsKeep(r[i - 1], a, r[i]);
    }
  }

  /** One download per miss: two agents never fetch one entry at once, and what stands at the entry while
    * one does, if anything, that agent cannot read. */
  lemma OneFetchPerEntry(r: seq<Store>, i: nat, a: Agent, b: Agent, k: Key)
    requires Run(r) && i < |r| && a in r[i].agents && b in r[i].agents
    requires Fetches(r[i].agents[a].pc, k) && Fetches(r[i].agents[b].pc, k)
    ensures a == b && Unreadable(Finds(r[i], a, k))
  {
    RunKeeps(r, i);
    RunReads(r, i);
    Actor(r[i], a);
    if a != b {
      NoOtherFetcher(r[i], a, k, r[i].agents[a].pc.f);
    }
  }

  // ---------------------------------------------------------------- when a held entry can vanish

  /** Who can take the entry `k`, where `d` stands, away from its holder: an agent that cannot read it, by
    * fetching it, or one that runs the command. */
  ghost predicate Threatens(s: Store, b: Agent, d: Dir) {
    Unreadable(s.sees(b, d)) || b in s.removers
  }

  /** The things that take a held entry away: a fetch, under the fetch lock, by an agent that cannot read
    * the entry, or the command. In particular no sweep does. */
  lemma VanishesOnlyBy(s: Store, a: Agent, b: Agent, s': Store)
    requires Inv(s) && ReadsOk(s) && a in s.agents && s.agents[a].pc.Held? && a != b && Frame(s, b, s')
    requires Stands(s, s.agents[a].pc.k, s.agents[a].pc.d) && !Stands(s', s.agents[a].pc.k, s.agents[a].pc.d)
    ensures MayCommand(s, b)
            || (b in s.agents && Fetches(s.agents[b].pc, s.agents[a].pc.k)
                && Unreadable(s.sees(b, s.agents[a].pc.d)))
  {
    HoldIsSafeNow(s, a);
    Actor(s, b);
    assert !SameEntry(s.fs, s'.fs, s.agents[a].pc.k);
    assert ReadOk(s, b, ThreadOf(s, b).pc);
  }

  lemma HeldEntryVanishes(r: seq<Store>, i: nat, a: Agent, b: Agent)
    requires Run(r) && i + 1 < |r| && Next(r[i], b, r[i + 1])
    requires a in r[i].agents && r[i].agents[a].pc.Held? && a != b
    requires Stands(r[i], r[i].agents[a].pc.k, r[i].agents[a].pc.d)
    requires !Stands(r[i + 1], r[i].agents[a].pc.k, r[i].agents[a].pc.d)
    ensures MayCommand(r[i], b)
            || (b in r[i].agents && Fetches(r[i].agents[b].pc, r[i].agents[a].pc.k)
                && Unreadable(r[i].sees(b, r[i].agents[a].pc.d)))
  {
    RunKeeps(r, i);
    RunReads(r, i);
    NextFrames(r[i], b, r[i + 1]);
    VanishesOnlyBy(r[i], a, b, r[i + 1]);
  }

  /** While everyone else can read a held entry, or refuses it, and nobody runs the command, it stands. */
  lemma {:induction false} HeldEntryStands(r: seq<Store>, a: Agent, i: nat)
    requires Walk(r, {a}) && Inv(r[0]) && ReadsOk(r[0]) && i < |r|
    requires a in r[0].agents && r[0].agents[a].pc.Held?
    requires Stands(r[0], r[0].agents[a].pc.k, r[0].agents[a].pc.d)
    requires forall b: Agent :: b != a ==> !Threatens(r[0], b, r[0].agents[a].pc.d)
    ensures Inv(r[i]) && ReadsOk(r[i]) && r[i].sees == r[0].sees && r[i].removers == r[0].removers
    ensures a in r[i].agents && r[i].agents[a] == r[0].agents[a]
    ensures Stands(r[i], r[0].agents[a].pc.k, r[0].agents[a].pc.d)
  {
    if i > 0 {
      HeldEntryStands(r, a, i - 1);
      assert Steps(r[i - 1], r[i], {a});
      var b: Agent :| b !in {a} && Next(r[i - 1], b, r[i]);
      NextKeeps(r[i - 1], b, r[i]);
      ReadsKeep(r[i - 1], b, r[i]);
      NextFrames(r[i - 1], b, r[i]);
      if !Stands(r[i], r[0].agents[a].pc.k, r[0].agents[a].pc.d) {
        VanishesOnlyBy(r[i - 1], a, b, r[i]);
        assert Threatens(r[0], b, r[0].agents[a].pc.d);
      }
    }
  }

  ghost predicate Reaches(s: Store, s': Store, still: set<Agent>) {
    exists r :: Walk(r, still) && r[0] == s && r[|r| - 1] == s'
  }

  lemma ReachesSelf(s: Store, still: set<Agent>)
    ensures Reaches(s, s, still)
  {
    assert Walk([s], still);
  }

  lemma ReachesNext(o: Store, s: Store, a: Agent, s': Store, still: set<Agent>)
    requires Reaches(o, s, still) && a !in still && Next(s, a, s')
    ensures Reaches(o, s', still)
  {
    var r :| Walk(r, still) && r[0] == o && r[|r| - 1] == s;
    var more := r + [s'];
    forall i, j | 0 <= i && j == i + 1 < |more| ensures Steps(more[i], more[j], still) {
      if j < |r| {
        assert Steps(r[i], r[j], still);
      } else {
        assert Steps(s, s', still);
      }
    }
    assert Walk(more, still);
  }

  lemma {:induction false} Fresh(taken: set<nat>) returns (n: nat)
    ensures forall i :: i in taken ==> i < n
  {
    n := 0;
    if taken != {} {
      var i :| i in taken;
      var above := Fresh(taken - {i});
      n := if i < above then above else i + 1;
      assert forall x :: x in taken && x != i ==> x in taken - {i};
    }
  }

  /** The others hold nothing but in-use locks. */
  ghost predicate Quiet(s: Store, a: Agent) {
    forall b :: b in s.agents && b != a ==>
                  s.agents[b].excl == {}
                  && forall i :: i in s.agents[b].shared ==> i in s.fs.birth && s.fs.birth[i].UseLock?
  }

  /** Every agent but `a` stops. */
  lemma {:induction false} AllStop(o: Store, s: Store, a: Agent, busy: set<Agent>) returns (q: Store)
    requires Reaches(o, s, {a}) && a in s.agents
    requires forall b :: b in s.agents && b != a && b !in busy ==> s.agents[b] == At(Idle)
    ensures Reaches(o, q, {a}) && q.fs == s.fs && q.sees == s.sees && q.removers == s.removers
    ensures a in q.agents && q.agents[a] == s.agents[a]
    ensures forall b :: b in q.agents && b != a ==> q.agents[b] == At(Idle)
    decreases |busy|
  {
    q := s;
    if busy != {} {
      var b :| b in busy;
      if b != a && b in s.agents {
        var s' := Go(s, s.fs, b, Idle);
        assert Stops(s, b, s');
        ReachesNext(o, s, b, s', {a});
        q := AllStop(o, s', a, busy - {b});
      } else {
        q := AllStop(o, s, a, busy - {b});
      }
    }
  }

  /** The fetch lock of `k` opens on an inode that no in-use lock is on. */
  lemma OpensFetchLock(fs: Files, k: Key) returns (f: Inode, t: Files)
    requires FilesOk(fs)
    ensures Opens(fs, FetchLock(k), f, t) && FilesOk(t) && Born(t, f, FetchLock(k))
    ensures forall i :: i in fs.birth && fs.birth[i].UseLock? ==> i != f && i in t.birth && t.birth[i] == fs.birth[i]
  {
    if FetchLock(k) in fs.lockAt {
      f, t := fs.lockAt[FetchLock(k)], fs;
    } else {
      f := Fresh(fs.birth.Keys);
      t := fs.(lockAt := fs.lockAt[FetchLock(k) := f], birth := fs.birth[f := FetchLock(k)]);
    }
    FilesAfterOpen(fs, FetchLock(k), f, t);
  }

  /** Alone, an agent that misses `k` goes on to its fetch lock. */
  lemma Misses(o: Store, s: Store, still: set<Agent>, a: Agent, k: Key) returns (q: Store)
    requires Reaches(o, s, still) && a !in still && ThreadOf(s, a).pc == Idle && Unreadable(Finds(s, a, k))
    ensures Reaches(o, q, still) && q == Go(s, s.fs, a, FetchOpen(k))
  {
    var s1 := Go(s, s.fs, a, Resolving(k));
    assert ResolveStep(s, a, s1);
    ReachesNext(o, s, a, s1, still);
    q := Go(s1, s.fs, a, FetchOpen(k));
    assert ResolveStep(s1, a, q);
    ReachesNext(o, s1, a, q, still);
    assert s1.agents[a := At(FetchOpen(k))] == s.agents[a := At(FetchOpen(k))];
  }

  /** And gets it. */
  lemma LooksUp(o: Store, s: Store, still: set<Agent>, a: Agent, k: Key) returns (q: Store, f: Inode)
    requires Reaches(o, s, still) && a !in still && FilesOk(s.fs) && Quiet(s, a)
    requires ThreadOf(s, a).pc == Idle && Unreadable(Finds(s, a, k))
    ensures Reaches(o, q, still) && Quiet(q, a) && FilesOk(q.fs) && q.sees == s.sees
    ensures q.agents == s.agents[a := At(Looking(k, f))]
    ensures q.fs.entryAt == s.fs.entryAt && q.fs.dirAt == s.fs.dirAt && q.fs.nextDir == s.fs.nextDir
  {
    var s2 := Misses(o, s, still, a, k);
    var t;
    f, t := OpensFetchLock(s.fs, k);
    var s3 := Go(s2, t, a, FetchWait(k, f));
    assert ResolveStep(s2, a, s3);
    ReachesNext(o, s2, a, s3, still);
    q := Go(s3, t, a, Looking(k, f));
    assert CanExcl(s3, a, f);
    assert ResolveStep(s3, a, q);
    ReachesNext(o, s3, a, q, still);
  }

  /** Alone, with the fetch lock and no manifest at the entry, it draws a name and locks it. */
  lemma GetsName(o: Store, s: Store, still: set<Agent>, a: Agent, k: Key, f: Inode)
    returns (q: Store, n: Name, j: Inode)
    requires Reaches(o, s, still) && a !in still && Quiet(s, a)
    requires ThreadOf(s, a) == At(Looking(k, f)) && Finds(s, a, k).NoManifest?
    ensures Reaches(o, q, still) && q == Go(s, WithStagingLock(s.fs, n, j), a, Locked(k, f, n, j, 0))
    ensures n !in s.fs.used && j !in s.fs.birth
  {
    var s1 := Go(s, s.fs, a, Naming(k, f, 0));
    assert ResolveStep(s, a, s1);
    ReachesNext(o, s, a, s1, still);
    n := Fresh(s.fs.used);
    j := Fresh(s.fs.birth.Keys);
    var s2 := Go(s1, WithStagingLock(s.fs, n, j), a, Created(k, f, n, j, 0));
    assert StageStep(s1, a, s2);
    ReachesNext(o, s1, a, s2, still);
    q := Go(s2, s2.fs, a, Locked(k, f, n, j, 0));
    assert CanExcl(s2, a, j);
    assert StageStep(s2, a, q);
    ReachesNext(o, s2, a, q, still);
  }

  /** And gets a staged directory. */
  lemma GetsStaged(o: Store, s: Store, still: set<Agent>, a: Agent, k: Key, f: Inode)
    returns (q: Store, n: Name, j: Inode)
    requires Reaches(o, s, still) && a !in still && FilesOk(s.fs) && Quiet(s, a)
    requires ThreadOf(s, a) == At(Looking(k, f)) && Finds(s, a, k).NoManifest?
    ensures Reaches(o, q, still) && Quiet(q, a) && q.sees == s.sees
    ensures q.agents == s.agents[a := At(Staging(k, f, n, j))]
    ensures q.fs.entryAt == s.fs.entryAt && n in q.fs.dirAt && q.fs.dirAt[n] == s.fs.nextDir
  {
    q, n, j := GetsName(o, s, still, a, k, f);
    var s1 := Go(q, q.fs, a, Checked(k, f, n, j));
    assert StageStep(q, a, s1);
    ReachesNext(o, q, a, s1, still);
    q := Go(s1, WithDir(s1.fs, n), a, Staging(k, f, n, j));
    assert PublishStep(s1, a, q);
    ReachesNext(o, s1, a, q, still);
  }

  /** Alone, an agent that cannot read an entry removes it. */
  lemma Unseats(o: Store, s: Store, still: set<Agent>, a: Agent, k: Key) returns (q: Store)
    requires Reaches(o, s, still) && a !in still && FilesOk(s.fs) && Quiet(s, a)
    requires ThreadOf(s, a).pc == Idle && Unreadable(Finds(s, a, k))
    ensures Reaches(o, q, still) && k !in q.fs.entryAt
    ensures forall b :: b in s.agents && b != a ==> b in q.agents && q.agents[b] == s.agents[b]
  {
    var f;
    q, f := LooksUp(o, s, still, a, k);
    if Finds(s, a, k).Unparsable? {
      var s1 := Go(q, q.fs, a, Removing(k, f));
      assert ResolveStep(q, a, s1);
      ReachesNext(o, q, a, s1, still);
      q := Go(s1, WithoutEntry(s1.fs, k), a, Naming(k, f, 0));
      assert ResolveStep(s1, a, q);
      ReachesNext(o, s1, a, q, still);
    } else {
      var s1, n, j := GetsStaged(o, q, still, a, k, f);
      q := Go(s1, WithoutEntry(s1.fs, k), a, Cleared(k, f, n, j));
      assert PublishStep(s1, a, q);
      ReachesNext(o, s1, a, q, still);
    }
  }

  /** The entry `a` holds is gone in some state reached without a step of `a`. */
  ghost predicate CanVanish(s: Store, a: Agent)
    requires a in s.agents && s.agents[a].pc.Held?
  {
    exists s' :: Reaches(s, s', {a}) && !Stands(s', s.agents[a].pc.k, s.agents[a].pc.d)
  }

  lemma ThreatCanVanish(s: Store, a: Agent, b: Agent) returns (gone: Store)
    requires Inv(s) && ReadsOk(s) && a in s.agents && s.agents[a].pc.Held? && a != b
    requires Stands(s, s.agents[a].pc.k, s.agents[a].pc.d) && Threatens(s, b, s.agents[a].pc.d)
    ensures Reaches(s, gone, {a}) && !Stands(gone, s.agents[a].pc.k, s.agents[a].pc.d)
    ensures a in gone.agents && gone.agents[a] == s.agents[a]
  {
    Actor(s, a);
    ReachesSelf(s, {a});
    var q := AllStop(s, s, a, s.agents.Keys);
    if b in s.removers {
      gone := Go(q, WithoutEntry(q.fs, s.agents[a].pc.k), b, Idle);
      assert CommandStep(q, b, gone);
      ReachesNext(s, q, b, gone, {a});
    } else {
      gone := Unseats(s, q, {a}, b, s.agents[a].pc.k);
    }
  }

  /** Exactly when a held entry can be taken from under its holder: when some other agent cannot read its
    * manifest, or may run the command that removes it. */
  lemma HeldEntryVanishesIff(s: Store, a: Agent)
    requires Inv(s) && ReadsOk(s) && a in s.agents && s.agents[a].pc.Held?
    requires Stands(s, s.agents[a].pc.k, s.agents[a].pc.d)
    ensures CanVanish(s, a) <==> exists b: Agent :: b != a && Threatens(s, b, s.agents[a].pc.d)
  {
    var pc := s.agents[a].pc;
    if b: Agent :| b != a && Threatens(s, b, pc.d) {
      var gone := ThreatCanVanish(s, a, b);
    } else if CanVanish(s, a) {
      var s' :| Reaches(s, s', {a}) && !Stands(s', pc.k, pc.d);
      var r :| Walk(r, {a}) && r[0] == s && r[|r| - 1] == s';
      HeldEntryStands(r, a, |r| - 1);
    }
  }

  // ---------------------------------------------------------------- runs that get there

  /** Alone, an agent that reads the entry comes to hold it. */
  lemma ComesToHold(o: Store, s: Store, still: set<Agent>, a: Agent, k: Key) returns (q: Store, u: Inode)
    requires Reaches(o, s, still) && a !in still && Quiet(s, a)
    requires ThreadOf(s, a) == At(Holding(k)) && Finds(s, a, k).Intact?
    ensures Reaches(o, q, still) && q.fs.entryAt == s.fs.entryAt && q.sees == s.sees && q.removers == s.removers
    ensures k in s.fs.entryAt && q.agents == s.agents[a := At(Held(k, u, s.fs.entryAt[k]))]
  {
    var t;
    if UseLock(k) in s.fs.lockAt {
      u, t := s.fs.lockAt[UseLock(k)], s.fs;
    } else {
      u := Fresh(s.fs.birth.Keys);
      t := s.fs.(lockAt := s.fs.lockAt[UseLock(k) := u], birth := s.fs.birth[u := UseLock(k)]);
    }
    assert Opens(s.fs, UseLock(k), u, t);
    var s1 := Go(s, t, a, UseWait(k, u));
    assert HoldStep(s, a, s1);
    ReachesNext(o, s, a, s1, still);
    var s2 := Go(s1, t, a, UseLocked(k, u));
    assert CanShare(s1, a, u);
    assert HoldStep(s1, a, s2);
    ReachesNext(o, s1, a, s2, still);
    q := Go(s2, t, a, Held(k, u, s.fs.entryAt[k]));
    assert HoldStep(s2, a, q);
    ReachesNext(o, s2, a, q, still);
  }

  /** Alone, an agent with a staged directory publishes it. */
  lemma Publishes(o: Store, s: Store, still: set<Agent>, a: Agent, k: Key, f: Inode, n: Name, j: Inode)
    returns (q: Store)
    requires Reaches(o, s, still) && a !in still && Quiet(s, a)
    requires ThreadOf(s, a) == At(Staging(k, f, n, j)) && n in s.fs.dirAt
    ensures Reaches(o, q, still) && Quiet(q, a) && q.sees == s.sees
    ensures q.agents == s.agents[a := At(Holding(k))] && Stands(q, k, s.fs.dirAt[n])
  {
    var s1 := Go(s, WithoutEntry(s.fs, k), a, Cleared(k, f, n, j));
    assert PublishStep(s, a, s1);
    ReachesNext(o, s, a, s1, still);
    var s2 := Go(s1, WithPublished(s1.fs, k, n), a, Leaving(k, f, n, j, true));
    assert PublishStep(s1, a, s2);
    ReachesNext(o, s1, a, s2, still);
    var s3 := Go(s2, WithoutLock(s2.fs, n), a, Unlinked(k, f, n, j, true));
    assert PublishStep(s2, a, s3);
    ReachesNext(o, s2, a, s3, still);
    q := Go(s3, s3.fs, a, Holding(k));
    assert PublishStep(s3, a, q);
    ReachesNext(o, s3, a, q, still);
  }

  lemma ReachedByRun(o: Store, s: Store)
    requires Init(o) && Reaches(o, s, {})
    ensures Inv(s) && ReadsOk(s)
    ensures exists r :: Run(r) && r[0] == o && r[|r| - 1] == s
  {
    var r :| Walk(r, {}) && r[0] == o && r[|r| - 1] == s;
    assert Run(r);
    RunKeeps(r, |r| - 1);
    RunReads(r, |r| - 1);
  }

  /** A fetch of a missing entry can get through: some run stages it, and goes on until it is held. */
  lemma FetchGetsThrough(o: Store, a: Agent, k: Key)
    returns (mid: Store, end: Store)
    requires Init(o) && k !in o.fs.entryAt && o.sees(a, o.fs.nextDir).Intact?
    ensures Reaches(o, mid, {}) && a in mid.agents && mid.agents[a].pc.Staging?
    ensures Reaches(mid, end, {}) && a in end.agents && end.agents[a].pc.Held?
    ensures end.agents[a].pc.k == k && end.agents[a].pc.d == o.fs.nextDir && Stands(end, k, o.fs.nextDir)
  {
    ReachesSelf(o, {});
    var s, f := LooksUp(o, o, {}, a, k);
    var n, j;
    mid, n, j := GetsStaged(o, s, {}, a, k, f);
    ReachesSelf(mid, {});
    var q := Publishes(mid, mid, {}, a, k, f, n, j);
    var u;
    end, u := ComesToHold(mid, q, {}, a, k);
  }

  lemma ReachesJoin(o: Store, s: Store, s': Store, still: set<Agent>)
    requires Reaches(o, s, {}) && Reaches(s, s', still)
    ensures Reaches(o, s', {})
  {
    var r :| Walk(r, still) && r[0] == s && r[|r| - 1] == s';
    WalksOn(o, r, still, |r| - 1);
  }

  lemma {:induction false} WalksOn(o: Store, r: seq<Store>, still: set<Agent>, i: nat)
    requires Walk(r, still) && i < |r| && Reaches(o, r[0], {})
    ensures Reaches(o, r[i], {})
  {
    if i > 0 {
      WalksOn(o, r, still, i - 1);
      assert Steps(r[i - 1], r[i], still);
      var a: Agent :| a !in still && Next(r[i - 1], a, r[i]);
      ReachesNext(o, r[i - 1], a, r[i], {});
    }
  }

  /** An agent that reads a stored entry can come to hold it. */
  lemma StoredIsHeld(o: Store, a: Agent, k: Key) returns (s: Store)
    requires Init(o) && Finds(o, a, k).Intact?
    ensures Reaches(o, s, {}) && s.sees == o.sees && s.removers == o.removers
    ensures s.fs.entryAt == o.fs.entryAt && k in o.fs.entryAt
    ensures a in s.agents && s.agents[a].pc.Held? && s.agents[a].pc.k == k && s.agents[a].pc.d == o.fs.entryAt[k]
  {
    ReachesSelf(o, {});
    var s1 := Go(o, o.fs, a, Resolving(k));
    assert ResolveStep(o, a, s1);
    ReachesNext(o, o, a, s1, {});
    var s2 := Go(s1, o.fs, a, Holding(k));
    assert ResolveStep(s1, a, s2);
    ReachesNext(o, s1, a, s2, {});
    var u;
    s, u := ComesToHold(o, s2, {}, a, k);
  }

  /** Two builds that share a store and disagree on an entry, or the command beside a run: some run takes
    * the entry from under the one that holds it. */
  lemma HeldEntryDoesVanish(o: Store, a: Agent, b: Agent, k: Key) returns (end: Store)
    requires Init(o) && k in o.fs.entryAt && a != b
    requires o.sees(a, o.fs.entryAt[k]).Intact? && Threatens(o, b, o.fs.entryAt[k])
    ensures exists r :: Run(r) && r[0] == o && r[|r| - 1] == end
    ensures a in end.agents && end.agents[a].pc.Held? && end.agents[a].pc.k == k
    ensures !Stands(end, k, end.agents[a].pc.d)
  {
    var s := StoredIsHeld(o, a, k);
    ReachedByRun(o, s);
    end := ThreatCanVanish(s, a, b);
    ReachesJoin(o, s, end, {a});
    ReachedByRun(o, end);
  }
}
