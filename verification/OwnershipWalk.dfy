/** Changing the ownership of a storage tree through descriptors, on a still tree and beside renames. */
module OwnershipWalk {
  import opened Wrappers

  type Inode = nat

  datatype Kind = Directory | Regular | Symlink | Special
  datatype Node = Node(kind: Kind, device: nat, mount: nat)
  datatype Owner = Owner(uid: nat, gid: nat)
  datatype Link = Link(name: string, inode: Inode)

  const ATTEMPTS := 8

  /** The inodes and the entries of each directory in the order in which they are read. */
  datatype Tree = Tree(nodes: map<Inode, Node>, links: map<Inode, seq<Link>>)
  {
    predicate Closed() {
      forall d | d in nodes && nodes[d].kind == Directory :: d in links && TargetsExist(links[d])
    }

    predicate IsDirectory(d: Inode) {
      d in nodes && nodes[d].kind == Directory
    }

    function EntriesOf(d: Inode): seq<Link> {
      if d in links then links[d] else []
    }

    predicate TargetsExist(entries: seq<Link>) {
      forall i | 0 <= i < |entries| :: entries[i].inode in nodes
    }

    predicate NamesAreDistinct() {
      forall d | d in links :: forall i, j | 0 <= i < j < |links[d]| :: links[d][i].name != links[d][j].name
    }

    /** Directories lie strictly below those that hold them. */
    predicate Ranked(rank: map<Inode, nat>) {
      && Closed()
      && (forall d | d in nodes && nodes[d].kind == Directory :: d in rank && RankedBelow(rank, links[d], rank[d]))
    }

    predicate RankedBelow(rank: map<Inode, nat>, entries: seq<Link>, limit: nat) {
      forall i | 0 <= i < |entries| && entries[i].inode in nodes && nodes[entries[i].inode].kind == Directory ::
        entries[i].inode in rank && rank[entries[i].inode] < limit
    }
  }

  function Find(entries: seq<Link>, name: string): (r: Option<Inode>)
    ensures r.Some? ==> exists i | 0 <= i < |entries| :: entries[i] == Link(name, r.value)
  {
    if entries == [] then None
    else if entries[0].name == name then Some(entries[0].inode)
    else Find(entries[1..], name)
  }

  lemma {:induction false} FindsOwnEntry(entries: seq<Link>, i: nat)
    requires i < |entries| && forall j, k | 0 <= j < k < |entries| :: entries[j].name != entries[k].name
    ensures Find(entries, entries[i].name) == Some(entries[i].inode)
    decreases |entries|
  {
    if i > 0 {
      FindsOwnEntry(entries[1..], i - 1);
    }
  }

  // ------------------------------------------------------------------ what a walk reaches

  /** What a walk reaches, the symbolic links it skips, and whether it may succeed. */
  datatype Report = Report(reached: set<Inode>, links: nat, allowed: bool)
  {
    function Plus(other: Report): Report {
      Report(reached + other.reached, links + other.links, allowed && other.allowed)
    }
  }

  const NOTHING := Report({}, 0, true)

  /** A directory's entries, in order, without following symbolic links. */
  function Visit(t: Tree, rank: map<Inode, nat>, entries: seq<Link>, limit: nat, root: Node): Report
    requires t.Ranked(rank) && t.TargetsExist(entries) && t.RankedBelow(rank, entries, limit)
    decreases limit, 0, |entries|
  {
    if entries == [] then NOTHING
    else
      var i := entries[|entries| - 1].inode;
      var n := t.nodes[i];
      Visit(t, rank, entries[..|entries| - 1], limit, root).Plus(
        if n.device != root.device then Report({}, 0, false)
        else
          match n.kind
          case Directory => VisitDirectory(t, rank, i, root)
          case Regular => Report({i}, 0, n.mount == root.mount)
          case Symlink => Report({}, 1, true)
          case Special => Report({}, 0, false))
  }

  /** A directory must be on the root's mount; it is reached after what it holds. */
  function VisitDirectory(t: Tree, rank: map<Inode, nat>, d: Inode, root: Node): Report
    requires t.Ranked(rank) && d in t.nodes && t.nodes[d].kind == Directory
    decreases rank[d], 1, 0
  {
    Visit(t, rank, t.links[d], rank[d], root).Plus(Report({d}, 0, t.nodes[d].mount == root.mount))
  }

  function VisitEntry(t: Tree, rank: map<Inode, nat>, i: Inode, root: Node): Report
    requires t.Ranked(rank) && i in t.nodes
  {
    var n := t.nodes[i];
    if n.device != root.device then Report({}, 0, false)
    else
      match n.kind
      case Directory => VisitDirectory(t, rank, i, root)
      case Regular => Report({i}, 0, n.mount == root.mount)
      case Symlink => Report({}, 1, true)
      case Special => Report({}, 0, false)
  }

  lemma VisitOneMore(t: Tree, rank: map<Inode, nat>, entries: seq<Link>, k: nat, limit: nat, root: Node)
    requires t.Ranked(rank) && t.TargetsExist(entries) && t.RankedBelow(rank, entries, limit) && k < |entries|
    ensures Visit(t, rank, entries[..k + 1], limit, root) ==
            Visit(t, rank, entries[..k], limit, root).Plus(VisitEntry(t, rank, entries[k].inode, root))
  {
    assert entries[..k + 1][..k] == entries[..k];
  }

  /** The first k entries of a directory. */
  function UpTo(t: Tree, rank: map<Inode, nat>, d: Inode, k: nat, root: Node): Report
    requires t.Ranked(rank) && t.IsDirectory(d) && k <= |t.EntriesOf(d)|
  {
    Visit(t, rank, t.links[d][..k], rank[d], root)
  }

  /** All that a directory holds. */
  function Below(t: Tree, rank: map<Inode, nat>, d: Inode, root: Node): Report
    requires t.Ranked(rank) && t.IsDirectory(d)
  {
    Visit(t, rank, t.links[d], rank[d], root)
  }

  lemma UpToIsBelow(t: Tree, rank: map<Inode, nat>, d: Inode, root: Node)
    requires t.Ranked(rank) && t.IsDirectory(d)
    ensures UpTo(t, rank, d, 0, root) == NOTHING
    ensures UpTo(t, rank, d, |t.EntriesOf(d)|, root) == Below(t, rank, d, root)
  {
    assert t.links[d][..|t.EntriesOf(d)|] == t.links[d];
  }

  lemma UpToOneMore(t: Tree, rank: map<Inode, nat>, d: Inode, k: nat, root: Node)
    requires t.Ranked(rank) && t.IsDirectory(d) && k < |t.EntriesOf(d)|
    ensures t.EntriesOf(d)[k].inode in t.nodes
    ensures UpTo(t, rank, d, k + 1, root) == UpTo(t, rank, d, k, root).Plus(VisitEntry(t, rank, t.EntriesOf(d)[k].inode, root))
  {
    VisitOneMore(t, rank, t.links[d], k, rank[d], root);
  }

  lemma {:induction false} EntryIsAllowed(t: Tree, rank: map<Inode, nat>, entries: seq<Link>, k: nat, limit: nat, root: Node)
    requires t.Ranked(rank) && t.TargetsExist(entries) && t.RankedBelow(rank, entries, limit) && k < |entries|
    requires Visit(t, rank, entries, limit, root).allowed
    ensures VisitEntry(t, rank, entries[k].inode, root).allowed
    decreases |entries|
  {
    VisitOneMore(t, rank, entries, |entries| - 1, limit, root);
    assert entries[..|entries|] == entries;
    if k < |entries| - 1 {
      EntryIsAllowed(t, rank, entries[..|entries| - 1], k, limit, root);
    }
  }

  /**
    Every level holds the descriptor of a directory and that of its listing; the lowest also that of a file
    and, while its mount is looked up, one more.
   */
  function DescriptorsFor(rank: map<Inode, nat>, d: Inode): nat
    requires d in rank
  {
    2 * rank[d] + 3
  }

  /** A directory is not among what lies below its own entries. */
  lemma {:induction false} BelowIsLower(t: Tree, rank: map<Inode, nat>, entries: seq<Link>, limit: nat, root: Node, d: Inode)
    requires t.Ranked(rank) && t.TargetsExist(entries) && t.RankedBelow(rank, entries, limit)
    requires d in t.nodes && t.nodes[d].kind == Directory && rank[d] >= limit
    ensures d !in Visit(t, rank, entries, limit, root).reached
    decreases limit, |entries|
  {
    if entries != [] {
      var i := entries[|entries| - 1].inode;
      BelowIsLower(t, rank, entries[..|entries| - 1], limit, root, d);
      if t.nodes[i].kind == Directory {
        BelowIsLower(t, rank, t.links[i], rank[i], root, d);
      }
    }
  }

  // ------------------------------------------------------------------ reached is reachable

  predicate IsOpened(t: Tree, i: Inode) {
    i in t.nodes && (t.nodes[i].kind == Directory || t.nodes[i].kind == Regular)
  }

  /** With these directories comes every directory and regular file that they hold. */
  ghost predicate ClosedUnderEntries(t: Tree, inodes: set<Inode>) {
    forall d | d in inodes && d in t.nodes && t.nodes[d].kind == Directory && d in t.links ::
      HoldsEntries(t, inodes, t.links[d])
  }

  predicate HoldsEntries(t: Tree, inodes: set<Inode>, entries: seq<Link>) {
    forall k | 0 <= k < |entries| && IsOpened(t, entries[k].inode) :: entries[k].inode in inodes
  }

  /** A successful visit reaches nothing but directories and regular files, and all that they hold. */
  lemma {:induction false} ReachedIsClosed(t: Tree, rank: map<Inode, nat>, entries: seq<Link>, limit: nat, root: Node)
    requires t.Ranked(rank) && t.TargetsExist(entries) && t.RankedBelow(rank, entries, limit)
    requires Visit(t, rank, entries, limit, root).allowed
    ensures var reached := Visit(t, rank, entries, limit, root).reached;
            ClosedUnderEntries(t, reached) && HoldsEntries(t, reached, entries) && forall i | i in reached :: IsOpened(t, i)
    decreases limit, 0, |entries|
  {
    if entries != [] {
      var i := entries[|entries| - 1].inode;
      ReachedIsClosed(t, rank, entries[..|entries| - 1], limit, root);
      if t.nodes[i].kind == Directory {
        DirectoryIsClosed(t, rank, i, root);
      }
    }
  }

  lemma {:induction false} DirectoryIsClosed(t: Tree, rank: map<Inode, nat>, d: Inode, root: Node)
    requires t.Ranked(rank) && d in t.nodes && t.nodes[d].kind == Directory && VisitDirectory(t, rank, d, root).allowed
    ensures var reached := VisitDirectory(t, rank, d, root).reached;
            d in reached && ClosedUnderEntries(t, reached) && forall i | i in reached :: IsOpened(t, i)
    decreases rank[d], 1, 0
  {
    ReachedIsClosed(t, rank, t.links[d], rank[d], root);
  }

  /** What a visit reaches is in every set that has the root and is closed in this way. */
  lemma {:induction false} ReachedIsLeast(t: Tree, rank: map<Inode, nat>, entries: seq<Link>, limit: nat, root: Node, inodes: set<Inode>)
    requires t.Ranked(rank) && t.TargetsExist(entries) && t.RankedBelow(rank, entries, limit)
    requires ClosedUnderEntries(t, inodes) && HoldsEntries(t, inodes, entries)
    ensures Visit(t, rank, entries, limit, root).reached <= inodes
    decreases limit, 0, |entries|
  {
    if entries != [] {
      var i := entries[|entries| - 1].inode;
      ReachedIsLeast(t, rank, entries[..|entries| - 1], limit, root, inodes);
      if t.nodes[i].kind == Directory {
        assert IsOpened(t, entries[|entries| - 1].inode);
        ReachedIsLeast(t, rank, t.links[i], rank[i], root, inodes);
      }
    }
  }

  type Owners = map<Inode, Owner>

  function Chowned(owners: Owners, inodes: set<Inode>, target: Owner): Owners {
    map i | i in owners :: if i in inodes then target else owners[i]
  }

  /** The inodes of a set that are not yet the target's. */
  function Foreign(owners: Owners, inodes: set<Inode>, target: Owner): set<Inode> {
    set i | i in inodes && i in owners && owners[i] != target
  }

  lemma ChownTwice(owners: Owners, a: set<Inode>, b: set<Inode>, target: Owner)
    ensures Chowned(Chowned(owners, a, target), b, target) == Chowned(owners, a + b, target)
    ensures |Foreign(owners, a, target)| + |Foreign(Chowned(owners, a, target), b, target)| == |Foreign(owners, a + b, target)|
  {
    var first, second := Foreign(owners, a, target), Foreign(Chowned(owners, a, target), b, target);
    assert first !! second;
    assert first + second == Foreign(owners, a + b, target);
  }

  /** The owners of all inodes and the walk's two counters. */
  datatype Totals = Totals(owners: Owners, changed: nat, links: nat)

  /** Everything reached is the target's, nothing else is changed, and both counters are exact. */
  predicate Did(before: Totals, after: Totals, report: Report, target: Owner) {
    && report.allowed
    && after.owners == Chowned(before.owners, report.reached, target)
    && after.changed == before.changed + |Foreign(before.owners, report.reached, target)|
    && after.links == before.links + report.links
  }

  lemma DidNothing(totals: Totals, target: Owner)
    ensures Did(totals, totals, NOTHING, target)
  {
    assert Foreign(totals.owners, {}, target) == {};
  }

  lemma DidLink(totals: Totals, target: Owner)
    ensures Did(totals, totals.(links := totals.links + 1), Report({}, 1, true), target)
  {
    assert Foreign(totals.owners, {}, target) == {};
  }

  lemma DidBoth(a: Totals, b: Totals, c: Totals, first: Report, second: Report, target: Owner)
    requires Did(a, b, first, target) && Did(b, c, second, target)
    ensures Did(a, c, first.Plus(second), target)
  {
    ChownTwice(a.owners, first.reached, second.reached, target);
  }

  // ------------------------------------------------------------------ the walk

  /** What an inspection by name found in an open directory, before anything was opened. */
  datatype Observation = Observation(parent: Inode, name: string, inode: Inode)

  /** One change of ownership: the inode behind the descriptor, and which observation led to it; none for the root. */
  datatype Change = Change(inode: Inode, seen: Option<nat>)

  predicate OnMount(n: Node, root: Node) {
    n.device == root.device && n.mount == root.mount
  }

  /**
    What a walk did: the directories whose descriptors it has held and checked, each with the inspection
    that led there, the answers of all inspections in their order, and the changes.
   */
  datatype Log = Log(held: map<Inode, Option<nat>>, observations: seq<Observation>, changes: seq<Change>)
  {
    /** The root, or an inode that this inspection had found under a name in a directory that was held. */
    predicate LeadsTo(i: Inode, seen: Option<nat>, root: Inode) {
      match seen
      case None => i == root
      case Some(k) => k < |observations| && observations[k].inode == i && observations[k].parent in held
    }

    /** Changed on the root's mount, through a descriptor of the very inode that the inspection had found. */
    predicate ChangeIsChecked(c: Change, nodes: map<Inode, Node>, root: Inode)
      requires root in nodes
    {
      c.inode in nodes && OnMount(nodes[c.inode], nodes[root]) && IsOwned(nodes[c.inode].kind) && LeadsTo(c.inode, c.seen, root)
    }

    predicate HoldsDirectory(d: Inode, nodes: map<Inode, Node>, root: Inode)
      requires root in nodes && d in held
    {
      d in nodes && nodes[d].kind == Directory && OnMount(nodes[d], nodes[root]) && LeadsTo(d, held[d], root)
    }

    ghost predicate Sound(nodes: map<Inode, Node>, root: Inode) {
      && root in held && root in nodes
      && (forall d | d in held :: HoldsDirectory(d, nodes, root))
      && (forall k | 0 <= k < |changes| :: ChangeIsChecked(changes[k], nodes, root))
    }

    /** later goes on from this log. */
    predicate GoesOnAs(later: Log) {
      held.Keys <= later.held.Keys && observations <= later.observations && changes <= later.changes
    }

    /** Every change beyond this log goes back to an inspection that is not older than this one. */
    predicate ChangesSince(first: nat, later: Log) {
      forall k | |changes| <= k < |later.changes| :: later.changes[k].seen.Some? && later.changes[k].seen.value >= first
    }

    lemma GoesOnTwice(mid: Log, later: Log, first: nat, second: nat)
      requires GoesOnAs(mid) && mid.GoesOnAs(later) && first <= second
      requires ChangesSince(first, mid) && mid.ChangesSince(second, later)
      ensures GoesOnAs(later) && ChangesSince(first, later)
    {
      forall k | |changes| <= k < |later.changes| ensures later.changes[k].seen.Some? && later.changes[k].seen.value >= first {
        assert k < |mid.changes| ==> mid.changes[k] == later.changes[k];
      }
    }

    function Observed(o: Observation): Log {
      this.(observations := observations + [o])
    }

    function Holding(d: Inode, seen: nat): Log {
      this.(held := held[d := Some(seen)])
    }

    function Changed(c: Change): Log {
      this.(changes := changes + [c])
    }

    lemma ObservedIsSound(o: Observation, nodes: map<Inode, Node>, root: Inode)
      requires Sound(nodes, root)
      ensures Observed(o).Sound(nodes, root) && GoesOnAs(Observed(o))
    {
      forall d | d in held ensures Observed(o).HoldsDirectory(d, nodes, root) {
        assert HoldsDirectory(d, nodes, root);
      }
      forall k | 0 <= k < |changes| ensures Observed(o).ChangeIsChecked(changes[k], nodes, root) {
        assert ChangeIsChecked(changes[k], nodes, root);
      }
    }

    lemma HoldingIsSound(d: Inode, seen: nat, nodes: map<Inode, Node>, root: Inode)
      requires Sound(nodes, root) && LeadsTo(d, Some(seen), root)
      requires d in nodes && nodes[d].kind == Directory && OnMount(nodes[d], nodes[root])
      ensures Holding(d, seen).Sound(nodes, root) && GoesOnAs(Holding(d, seen))
    {
      forall e | e in Holding(d, seen).held ensures Holding(d, seen).HoldsDirectory(e, nodes, root) {
        assert e == d || HoldsDirectory(e, nodes, root);
      }
      forall k | 0 <= k < |changes| ensures Holding(d, seen).ChangeIsChecked(changes[k], nodes, root) {
        assert ChangeIsChecked(changes[k], nodes, root);
      }
    }

    lemma ChangedIsSound(c: Change, nodes: map<Inode, Node>, root: Inode)
      requires Sound(nodes, root) && ChangeIsChecked(c, nodes, root)
      ensures Changed(c).Sound(nodes, root) && GoesOnAs(Changed(c))
    {
      forall d | d in held ensures Changed(c).HoldsDirectory(d, nodes, root) {
        assert HoldsDirectory(d, nodes, root);
      }
      forall k | 0 <= k < |changes| + 1 ensures Changed(c).ChangeIsChecked(Changed(c).changes[k], nodes, root) {
        assert k < |changes| ==> ChangeIsChecked(changes[k], nodes, root);
      }
    }
  }

  predicate IsOwned(kind: Kind) {
    kind == Directory || kind == Regular
  }

  class Walk {
    var tree: Tree
    var owners: Owners
    var changed: nat
    var symlinksSkipped: nat
    ghost var log: Log
    const still: bool
    /** Whether every system call that may succeed does. */
    const reliable: bool
    const root: Inode
    const rootNode: Node
    const target: Owner

    ghost predicate Valid()
      reads this
    {
      && tree.Closed()
      && tree.nodes.Keys == owners.Keys
      && root in tree.nodes && tree.nodes[root] == rootNode
      && log.Sound(tree.nodes, root)
    }

    /** Inodes are what they are, the later ones included; entries come and go unless the tree is still. */
    twostate predicate Goes()
      reads this
    {
      && tree.nodes == old(tree).nodes
      && old(log).GoesOnAs(log)
      && (still ==> tree == old(tree))
    }

    constructor (t: Tree, o: Owners, r: Inode, to: Owner, isStill: bool, isReliable: bool)
      requires t.Closed() && t.nodes.Keys == o.Keys && r in t.nodes && t.nodes[r].kind == Directory
      ensures Valid() && tree == t && owners == o && root == r && target == to
      ensures still == isStill && reliable == isReliable
      ensures changed == 0 && symlinksSkipped == 0 && log == Log(map[r := None], [], [])
    {
      tree, owners, changed, symlinksSkipped := t, o, 0, 0;
      still, reliable, root, rootNode, target := isStill, isReliable, r, t.nodes[r], to;
      log := Log(map[r := None], [], []);
    }

    /** Others rename, link, unlink and create between two system calls, unless the tree is still. */
    method Interfere()
      requires Valid()
      modifies this`tree
      ensures Valid() && Goes()
    {
      if still {
        return;
      }
      var t: Tree := *;
      if t.Closed() && t.nodes == tree.nodes {
        tree := t;
      }
    }

    /** Inspect a name in an open directory without following it. */
    method Observe(parent: Inode, name: string) returns (found: Option<Inode>)
      requires Valid() && parent in log.held
      modifies this`tree, this`log
      ensures Valid() && Goes() && parent in log.held && found == Find(tree.EntriesOf(parent), name)
      ensures found.Some? ==> found.value in tree.nodes
      ensures log == if found.Some? then old(log).Observed(Observation(parent, name, found.value)) else old(log)
    {
      Interfere();
      found := Find(tree.EntriesOf(parent), name);
      if found.Some? {
        log.ObservedIsSound(Observation(parent, name, found.value), tree.nodes, root);
        log := log.Observed(Observation(parent, name, found.value));
      }
    }

    /** Open a name in an open directory without following it: whatever is there by then. */
    method Open(parent: Inode, name: string) returns (found: Option<Inode>)
      requires Valid() && parent in log.held
      modifies this`tree
      ensures Valid() && Goes() && parent in log.held && found == Find(tree.EntriesOf(parent), name)
      ensures found.Some? ==> found.value in tree.nodes
    {
      Interfere();
      found := Find(tree.EntriesOf(parent), name);
    }

    function Now(): Totals
      reads this
    {
      Totals(owners, changed, symlinksSkipped)
    }

    /** stats is the ownership read through the descriptor when it was opened. */
    method ChangeOpenedOwnership(i: Inode, stats: Owner, ghost seen: Option<nat>) returns (ok: bool)
      requires Valid() && log.ChangeIsChecked(Change(i, seen), tree.nodes, root)
      modifies this`owners, this`changed, this`log
      ensures Valid() && Goes()
      ensures reliable ==> ok
      ensures log == if ok && stats != target then old(log).Changed(Change(i, seen)) else old(log)
      ensures owners == if ok && stats != target then old(owners)[i := target] else old(owners)
      ensures ok && stats == old(owners)[i] ==> Did(old(Now()), Now(), Report({i}, 0, true), target)
    {
      if stats == target {
        assert owners[i] == target ==> owners == Chowned(owners, {i}, target) && Foreign(owners, {i}, target) == {};
        return true;
      }
      var denied: bool := *;
      if denied && !reliable {
        return false;
      }
      assert owners[i] != target ==> Foreign(owners, {i}, target) == {i};
      owners := owners[i := target];
      changed := changed + 1;
      log.ChangedIsSound(Change(i, seen), tree.nodes, root);
      log := log.Changed(Change(i, seen));
      return true;
    }

    /** A run over the tree as it stands, on the ranks that make it one. */
    ghost predicate Still(rank: map<Inode, nat>)
      reads this
    {
      still ==> tree.Ranked(rank) && tree.NamesAreDistinct()
    }

    /** A directory whose entries the walk may succeed on with this many descriptors left. */
    ghost predicate SuffersDirectory(rank: map<Inode, nat>, d: Inode, descriptors: nat)
      requires tree.Ranked(rank) && tree.IsDirectory(d)
      reads this
    {
      Below(tree, rank, d, rootNode).allowed && descriptors >= DescriptorsFor(rank, d)
    }

    /** An entry that the walk may succeed on with this many descriptors left. */
    ghost predicate SuffersEntry(rank: map<Inode, nat>, i: Inode, descriptors: nat)
      requires tree.Ranked(rank) && i in tree.nodes
      reads this
    {
      && VisitEntry(tree, rank, i, rootNode).allowed
      && descriptors >= (if tree.nodes[i].kind == Directory then DescriptorsFor(rank, i) + 1 else 2)
    }

    /** One entry, started over up to ATTEMPTS times while it changes under the walk. */
    method PrepareEntry(parent: Inode, name: string, descriptors: nat, ghost rank: map<Inode, nat>) returns (ok: bool)
      requires Valid() && parent in log.held && Still(rank)
      requires still ==> Find(tree.EntriesOf(parent), name).Some?
      modifies this
      ensures Valid() && Goes() && Still(rank) && old(log).ChangesSince(|old(log).observations|, log)
      ensures ok && still ==>
                Did(old(Now()), Now(), VisitEntry(tree, rank, Find(old(tree).EntriesOf(parent), name).value, rootNode), target)
      ensures still && reliable && SuffersEntry(rank, Find(old(tree).EntriesOf(parent), name).value, descriptors) ==> ok
      decreases descriptors, 2
    {
      var attempt := 0;
      while attempt < ATTEMPTS
        invariant Valid() && Goes() && parent in log.held && old(log).ChangesSince(|old(log).observations|, log)
        invariant still ==> Now() == old(Now()) && attempt == 0
      {
        attempt := attempt + 1;
        var settled := AttemptEntry(parent, name, descriptors, rank);
        if settled.Some? {
          return settled.value;
        }
      }
      return false;
    }

    /** Observe the entry, open it, compare what was opened with what was observed; None to start over. */
    method AttemptEntry(parent: Inode, name: string, descriptors: nat, ghost rank: map<Inode, nat>) returns (settled: Option<bool>)
      requires Valid() && parent in log.held && Still(rank)
      requires still ==> Find(tree.EntriesOf(parent), name).Some?
      modifies this
      ensures Valid() && Goes() && Still(rank) && old(log).ChangesSince(|old(log).observations|, log)
      ensures still ==> settled.Some?
      ensures settled == Some(true) && still ==>
                Did(old(Now()), Now(), VisitEntry(tree, rank, Find(old(tree).EntriesOf(parent), name).value, rootNode), target)
      ensures still && reliable && SuffersEntry(rank, Find(old(tree).EntriesOf(parent), name).value, descriptors) ==> settled == Some(true)
      decreases descriptors, 1
    {
      ghost var seen := |log.observations|;
      var observed := Observe(parent, name);
      if observed.None? {
        return Some(true);
      }
      var node := tree.nodes[observed.value];
      if node.device != rootNode.device {
        return Some(false);
      }
      if node.kind == Symlink {
        DidLink(Now(), target);
        symlinksSkipped := symlinksSkipped + 1;
        return Some(true);
      }
      if node.kind == Special || descriptors == 0 {
        return Some(false);
      }
      ghost var logged := log;
      settled := OpenObserved(parent, name, observed.value, seen, descriptors, rank);
      old(log).GoesOnTwice(logged, log, seen, seen);
    }

    /** Open the name that led to this inode; go on only with that inode. */
    method OpenObserved(parent: Inode, name: string, observed: Inode, ghost seen: nat, descriptors: nat, ghost rank: map<Inode, nat>)
      returns (settled: Option<bool>)
      requires Valid() && parent in log.held && Still(rank) && descriptors > 0
      requires observed in tree.nodes && tree.nodes[observed].device == rootNode.device && IsOwned(tree.nodes[observed].kind)
      requires log.LeadsTo(observed, Some(seen), root)
      requires still ==> Find(tree.EntriesOf(parent), name) == Some(observed)
      modifies this
      ensures Valid() && Goes() && Still(rank) && old(log).ChangesSince(seen, log)
      ensures still ==> settled.Some?
      ensures settled == Some(true) && still ==> Did(old(Now()), Now(), VisitEntry(tree, rank, observed, rootNode), target)
      ensures still && reliable && SuffersEntry(rank, observed, descriptors) ==> settled == Some(true)
      decreases descriptors, 0
    {
      var found := Open(parent, name);
      if found != Some(observed) {
        return None;
      }
      var ok := PrepareOpened(found.value, seen, descriptors - 1, rank);
      return Some(ok);
    }

    /** What was opened is what was observed: a directory is entered first, a file just changed. */
    method PrepareOpened(i: Inode, ghost seen: nat, descriptors: nat, ghost rank: map<Inode, nat>) returns (ok: bool)
      requires Valid() && Still(rank) && i in tree.nodes && tree.nodes[i].device == rootNode.device
      requires IsOwned(tree.nodes[i].kind)
      requires log.LeadsTo(i, Some(seen), root)
      modifies this
      ensures Valid() && Goes() && Still(rank) && old(log).ChangesSince(seen, log)
      ensures ok && still ==> Did(old(Now()), Now(), VisitEntry(tree, rank, i, rootNode), target)
      ensures still && reliable && SuffersEntry(rank, i, descriptors + 1) ==> ok
      decreases descriptors, 4
    {
      // Looking up the mount opens a file beside the entry.
      if descriptors == 0 || !OnMount(tree.nodes[i], rootNode) {
        return false;
      }
      var stats := owners[i];
      if tree.nodes[i].kind == Regular {
        ok := ChangeOpenedOwnership(i, stats, Some(seen));
        return;
      }
      ok := EnterDirectory(i, seen, stats, descriptors, rank);
    }

    method EnterDirectory(i: Inode, ghost seen: nat, stats: Owner, descriptors: nat, ghost rank: map<Inode, nat>) returns (ok: bool)
      requires Valid() && Still(rank) && i in tree.nodes && OnMount(tree.nodes[i], rootNode) && tree.nodes[i].kind == Directory
      requires log.LeadsTo(i, Some(seen), root) && stats == owners[i]
      modifies this
      ensures Valid() && Goes() && Still(rank) && old(log).ChangesSince(seen, log)
      ensures ok && still ==> Did(old(Now()), Now(), VisitDirectory(tree, rank, i, rootNode), target)
      ensures still && reliable && VisitDirectory(tree, rank, i, rootNode).allowed && descriptors >= DescriptorsFor(rank, i) ==> ok
      decreases descriptors, 3
    {
      log.HoldingIsSound(i, seen, tree.nodes, root);
      log := log.Holding(i, seen);
      ghost var holding := log;
      ok := PrepareDirectory(i, descriptors, rank);
      old(log).GoesOnTwice(holding, log, seen, |holding.observations|);
      if !ok {
        return;
      }
      ghost var between, logged := Now(), log;
      if still {
        BelowIsLower(tree, rank, tree.EntriesOf(i), rank[i], rootNode, i);
      }
      ok := ChangeOpenedOwnership(i, stats, Some(seen));
      old(log).GoesOnTwice(logged, log, seen, seen);
      if ok && still {
        DidBoth(old(Now()), between, Now(), Below(tree, rank, i, rootNode), Report({i}, 0, true), target);
      }
    }

    method PrepareDirectory(d: Inode, descriptors: nat, ghost rank: map<Inode, nat>) returns (ok: bool)
      requires Valid() && d in log.held && Still(rank)
      modifies this
      ensures Valid() && Goes() && Still(rank) && old(log).ChangesSince(|old(log).observations|, log)
      ensures ok && still ==> Did(old(Now()), Now(), Below(tree, rank, d, rootNode), target)
      ensures still && reliable && SuffersDirectory(rank, d, descriptors) ==> ok
      decreases descriptors, 2
    {
      if descriptors == 0 {
        return false;
      }
      var names := ReadNames(d);
      ghost var start := log;
      var k := 0;
      DidNothing(Now(), target);
      if still {
        UpToIsBelow(tree, rank, d, rootNode);
      }
      while k < |names|
        invariant 0 <= k <= |names| && Valid() && Goes() && Still(rank) && d in log.held
        invariant start.GoesOnAs(log) && start.ChangesSince(|start.observations|, log)
        invariant still ==> |names| == |tree.EntriesOf(d)| && forall j | 0 <= j < |names| :: names[j] == tree.EntriesOf(d)[j].name
        invariant still ==> Did(old(Now()), Now(), UpTo(tree, rank, d, k, rootNode), target)
      {
        ok := PrepareNext(d, names[k], k, descriptors - 1, rank, old(Now()), start);
        if !ok {
          return;
        }
        k := k + 1;
      }
      return true;
    }

    lemma DirectorySuffersEntry(rank: map<Inode, nat>, d: Inode, k: nat, descriptors: nat)
      requires tree.Ranked(rank) && tree.IsDirectory(d) && k < |tree.EntriesOf(d)|
      ensures SuffersDirectory(rank, d, descriptors + 1) ==> SuffersEntry(rank, tree.EntriesOf(d)[k].inode, descriptors)
    {
      if SuffersDirectory(rank, d, descriptors + 1) {
        EntryIsAllowed(tree, rank, tree.EntriesOf(d), k, rank[d], rootNode);
      }
    }

    /** Entry k of a directory whose earlier entries are done. */
    method PrepareNext(
      d: Inode, name: string, ghost k: nat, descriptors: nat, ghost rank: map<Inode, nat>, ghost before: Totals, ghost start: Log)
      returns (ok: bool)
      requires Valid() && d in log.held && Still(rank)
      requires start.GoesOnAs(log) && start.ChangesSince(|start.observations|, log)
      requires still ==> k < |tree.EntriesOf(d)| && name == tree.EntriesOf(d)[k].name
      requires still ==> Did(before, Now(), UpTo(tree, rank, d, k, rootNode), target)
      modifies this
      ensures Valid() && Goes() && Still(rank)
      ensures start.GoesOnAs(log) && start.ChangesSince(|start.observations|, log)
      ensures ok && still ==> Did(before, Now(), UpTo(tree, rank, d, k + 1, rootNode), target)
      ensures still && reliable && SuffersDirectory(rank, d, descriptors + 1) ==> ok
      decreases descriptors, 3
    {
      if still {
        DirectorySuffersEntry(rank, d, k, descriptors);
        FindsOwnEntry(tree.EntriesOf(d), k);
        UpToOneMore(tree, rank, d, k, rootNode);
      }
      ok := PrepareEntry(d, name, descriptors, rank);
      start.GoesOnTwice(old(log), log, |start.observations|, |old(log).observations|);
      if ok && still {
        DidBoth(before, old(Now()), Now(), UpTo(tree, rank, d, k, rootNode),
                VisitEntry(tree, rank, tree.EntriesOf(d)[k].inode, rootNode), target);
      }
    }

    /** The change of the root, or of the inode that an inspection during the run had found under a name. */
    ghost predicate ChangedAsObserved(i: Inode, first: nat)
      reads this
    {
      i == root || exists k | first <= k < |log.observations| :: log.LeadsTo(i, Some(k), root)
    }

    /** The whole walk: what the root holds, then the root. */
    method Run(descriptors: nat, ghost rank: map<Inode, nat>) returns (ok: bool)
      requires Valid() && Still(rank)
      modifies this
      ensures Valid() && Goes()
      ensures forall k | |old(log).changes| <= k < |log.changes| :: ChangedAsObserved(log.changes[k].inode, |old(log).observations|)
      ensures ok && still ==> Did(old(Now()), Now(), VisitDirectory(tree, rank, root, rootNode), target)
      ensures still && reliable && descriptors >= DescriptorsFor(rank, root) ==>
                (ok <==> VisitDirectory(tree, rank, root, rootNode).allowed)
    {
      if descriptors == 0 {
        return false;
      }
      var stats := owners[root];
      ok := PrepareDirectory(root, descriptors, rank);
      if !ok {
        return;
      }
      ghost var between := Now();
      ghost var below := if still then Below(tree, rank, root, rootNode) else NOTHING;
      if still {
        BelowIsLower(tree, rank, tree.EntriesOf(root), rank[root], rootNode, root);
      }
      ok := ChangeOpenedOwnership(root, stats, None);
      if ok && still {
        DidBoth(old(Now()), between, Now(), below, Report({root}, 0, true), target);
      }
    }

    /** The names in a directory; beside renames the list may hold anything. */
    method ReadNames(d: Inode) returns (names: seq<string>)
      requires Valid() && d in log.held
      modifies this`tree
      ensures Valid() && Goes()
      ensures still ==> |names| == |tree.EntriesOf(d)| && forall k | 0 <= k < |names| :: names[k] == tree.EntriesOf(d)[k].name
    {
      Interfere();
      if still {
        var links := tree.EntriesOf(d);
        return seq(|links|, k requires 0 <= k < |links| => links[k].name);
      }
      names := *;
    }
  }
}
