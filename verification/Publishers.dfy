/** The publisher-subscription reconciler. */
module Publishers {
  type SubId = nat
  type Publisher = string
  type Instance = nat

  datatype SubState = Mounting | Subscribed | Stopped | Broken

  /** `unknownPublisher` says that a broken row failed because its publisher was
      not registered. */
  datatype Row = Row(publisher: Publisher, instance: Instance, state: SubState, unknownPublisher: bool)

  type Rows = map<SubId, Row>

  /** A compare-and-set by somebody else. Every writer of this table expects a
      state other than Stopped. */
  datatype Change = Change(id: SubId, from: SubState, to: SubState)

  predicate Wanted(r: Row) { r.state == Mounting || r.state == Subscribed }

  function Write(r: Row, to: SubState): Row { r.(state := to, unknownPublisher := false) }

  /** Stopped rows are as they were. */
  ghost predicate StoppedKept(rows: Rows, rows': Rows) {
    forall id | id in rows && rows[id].state == Stopped :: id in rows' && rows'[id] == rows[id]
  }

  // ------------------------------------------------------------- the target

  /** Where a row belongs once its publisher is registered. */
  function Target(r: Row, gone: Instance -> bool): Row {
    if Wanted(r) || (r.state == Broken && r.unknownPublisher)
    then if gone(r.instance) then Write(r, Stopped)
         else if r.state == Subscribed then r
         else Write(r, Subscribed)
    else r
  }

  function Settled(rows: Rows, registered: seq<Publisher>, gone: Instance -> bool): Rows {
    map id | id in rows :: if rows[id].publisher in registered then Target(rows[id], gone) else rows[id]
  }

  /** A row that a pass deals with: wanted, or broken for want of a publisher that is
      registered by now. */
  predicate Mountable(r: Row, registered: seq<Publisher>) {
    r.publisher in registered
    && (r.state == Mounting || r.state == Subscribed || (r.state == Broken && r.unknownPublisher))
  }

  /** A pass mounts what it deals with unless its instance is gone, stops it if it
      is, and touches nothing else. */
  lemma AllMounted(rows: Rows, registered: seq<Publisher>, gone: Instance -> bool)
    ensures var rows' := Settled(rows, registered, gone);
            && rows'.Keys == rows.Keys
            && forall id | id in rows ::
                 && rows'[id].publisher == rows[id].publisher && rows'[id].instance == rows[id].instance
                 && (!Mountable(rows[id], registered) ==> rows'[id] == rows[id])
                 && (Mountable(rows[id], registered) ==>
                       rows'[id].state == if gone(rows[id].instance) then Stopped else Subscribed)
  {
  }

  function ActiveOf(rows: Rows, p: Publisher): set<SubId> {
    set id | id in rows && rows[id].publisher == p && rows[id].state == Subscribed
  }

  /** Live subscriptions that have a row are listed by that row's publisher. */
  ghost predicate OwnIds(rows: Rows, live: map<Publisher, set<SubId>>, registered: seq<Publisher>) {
    forall p | p in registered :: p in live && forall id | id in live[p] && id in rows :: rows[id].publisher == p
  }

  ghost predicate Distinct(registered: seq<Publisher>) {
    forall i, j | 0 <= i < j < |registered| :: registered[i] != registered[j]
  }

  /** What a pass brings about, and that it has nothing left to do after that. */
  lemma SettledIsStable(rows: Rows, registered: seq<Publisher>, gone: Instance -> bool)
    ensures Settled(Settled(rows, registered, gone), registered, gone) == Settled(rows, registered, gone)
    ensures StoppedKept(rows, Settled(rows, registered, gone))
    ensures forall id | id in rows && rows[id].publisher in registered ::
      var r := Settled(rows, registered, gone)[id];
      r.state != Mounting && (r.state == Subscribed ==> !gone(r.instance))
  {
  }

  // ------------------------------------------------------------ the methods

  class Reconciler {
    const registered: seq<Publisher>
    const gone: Instance -> bool
    var rows: Rows
    var live: map<Publisher, set<SubId>>

    constructor (registered: seq<Publisher>, gone: Instance -> bool, rows: Rows, live: map<Publisher, set<SubId>>)
      ensures this.registered == registered && this.gone == gone && this.rows == rows && this.live == live
    {
      this.registered, this.gone, this.rows, this.live := registered, gone, rows, live;
    }

    method CompareAndSet(id: SubId, from: SubState, to: SubState) returns (flipped: bool)
      modifies this`rows
      ensures flipped <==> id in old(rows) && old(rows)[id].state == from
      ensures rows == if flipped then old(rows)[id := Write(old(rows)[id], to)] else old(rows)
    {
      flipped := id in rows && rows[id].state == from;
      if flipped { rows := rows[id := Write(rows[id], to)]; }
    }

    method Unsubscribe(p: Publisher, id: SubId)
      requires p in live
      modifies this`live
      ensures live == old(live)[p := old(live)[p] - {id}]
    {
      live := live[p := live[p] - {id}];
    }

    method UnsubscribeIfStopped(p: Publisher, id: SubId)
      requires p in live
      modifies this`live
      ensures live == if id !in rows || rows[id].state == Stopped then old(live)[p := old(live)[p] - {id}]
              else old(live)
    {
      if id in rows && rows[id].state != Stopped { return; }
      Unsubscribe(p, id);
    }

    /** What others do to the rows while a publisher call is under way. */
    method Meddle(changes: seq<Change>)
      requires Lawful(changes)
      modifies this`rows
      ensures StoppedKept(old(rows), rows) && rows.Keys == old(rows).Keys
      ensures changes == [] ==> rows == old(rows)
    {
      for i := 0 to |changes|
        invariant StoppedKept(old(rows), rows) && rows.Keys == old(rows).Keys && (i == 0 ==> rows == old(rows))
      {
        assert changes[i] in changes;
        var _ := CompareAndSet(changes[i].id, changes[i].from, changes[i].to);
      }
    }

    /** One row of a pass, as it was listed and as its publisher listed it. Rows
        may have changed since, and change during the call; a stopped one stays
        stopped, and a subscription made during a stop is taken back. The
        publisher may refuse to subscribe. */
    method ReconcileRow(p: Publisher, id: SubId, snap: Row, listed: bool, accepted: bool, during: seq<Change>)
      requires p in live && Wanted(snap) && Lawful(during)
      modifies this`rows, this`live
      ensures StoppedKept(old(rows), rows)
      ensures live.Keys == old(live).Keys && forall q | q in live && q != p :: live[q] == old(live)[q]
      ensures forall x | x != id :: x in live[p] <==> x in old(live)[p]
      ensures rows.Keys == old(rows).Keys
              && (during == [] ==> forall x | x in rows && x != id :: rows[x] == old(rows)[x])
      ensures during == [] && accepted && id in old(rows) && old(rows)[id] == snap
              && (listed <==> id in old(live)[p]) ==>
                rows[id] == Target(snap, gone) && (id in live[p] <==> rows[id].state == Subscribed)
      ensures during == [] && accepted && id in old(rows) && old(rows)[id] == snap
              && (listed <==> id in old(live)[p]) ==>
                rows[id].state == (if gone(snap.instance) then Stopped else Subscribed)
                && (id in live[p] <==> !gone(snap.instance))
      ensures during == [] && id in rows && rows[id].state != old(rows)[id].state ==>
                rows[id].state == if gone(snap.instance) then Stopped else Subscribed
      ensures id in live[p] && id !in old(live)[p] ==> id in rows && rows[id].state != Stopped
      ensures id !in live[p] && id in old(live)[p] ==> id !in rows || rows[id].state == Stopped
      ensures !accepted && !listed && !gone(snap.instance) ==> rows == old(rows) && live == old(live)
    {
      if gone(snap.instance) {
        var _ := CompareAndSet(id, snap.state, Stopped);
        if listed { UnsubscribeIfStopped(p, id); }
        return;
      }
      if listed {
        if snap.state == Mounting {
          var flipped := CompareAndSet(id, Mounting, Subscribed);
          if !flipped { UnsubscribeIfStopped(p, id); }
        }
        return;
      }
      if id !in rows || !Wanted(rows[id]) { return; }
      if !accepted { return; }
      var isMounting := rows[id].state == Mounting;
      live := live[p := live[p] + {id}];
      Meddle(during);
      if isMounting {
        var flipped := CompareAndSet(id, Mounting, Subscribed);
        if !flipped { UnsubscribeIfStopped(p, id); }
      } else {
        UnsubscribeIfStopped(p, id);
      }
    }

    /** A termination of an instance: its wanted subscriptions are dropped and their
        rows stopped. An active row whose publisher refuses stays active. */
    method StopInstance(instance: Instance, refuses: SubId -> bool)
      requires forall q | q in registered :: q in live
      modifies this`rows, this`live
      ensures StoppedKept(old(rows), rows) && live.Keys == old(live).Keys
      ensures rows == StoppedFor(old(rows), OfInstance(old(rows), instance), registered, refuses)
      ensures forall p | p in live ::
              live[p] == old(live)[p] - Unsubscribed(old(rows), OfInstance(old(rows), instance), registered, refuses, p)
      ensures forall id | id in old(rows) && old(rows)[id].instance == instance && Wanted(old(rows)[id]) ::
              rows[id].state ==
                if old(rows)[id].state == Subscribed && old(rows)[id].publisher in registered && refuses(id)
                then Subscribed else Stopped
      ensures forall id | id in old(rows) && (old(rows)[id].instance != instance || !Wanted(old(rows)[id])) ::
              rows[id] == old(rows)[id]
      ensures forall id | id in old(rows) && old(rows)[id].instance == instance && Wanted(old(rows)[id])
                          && old(rows)[id].publisher in registered && !refuses(id) ::
              id !in live[old(rows)[id].publisher]
    {
      var todo := OfInstance(rows, instance);
      ghost var all, done := todo, {};
      NothingStopped(rows, registered, refuses);
      while todo != {}
        invariant todo <= all && done == all - todo && all == OfInstance(old(rows), instance)
                && live.Keys == old(live).Keys
        invariant rows == StoppedFor(old(rows), done, registered, refuses)
        invariant forall p | p in live ::
                live[p] == old(live)[p] - Unsubscribed(old(rows), done, registered, refuses, p)
      {
        var id :| id in todo;
        ghost var rows1, live1 := rows, live;
        StopOne(id, refuses);
        OneMoreStopped(old(rows), rows1, rows, old(live), live1, live, done, id, registered, refuses);
        todo, done := todo - {id}, done + {id};
      }
      assert done == all;
    }

    method StopOne(id: SubId, refuses: SubId -> bool)
      requires (forall q | q in registered :: q in live) && id in rows && Wanted(rows[id])
      modifies this`rows, this`live
      ensures rows == old(rows)[id := StoppedRow(old(rows)[id], registered, refuses(id))]
      ensures live.Keys == old(live).Keys
      ensures forall p | p in live ::
        live[p] == if p == old(rows)[id].publisher && p in registered && !refuses(id) then old(live)[p] - {id}
            else old(live)[p]
    {
      var row := rows[id];
      if row.publisher !in registered {
        var _ := CompareAndSet(id, row.state, Stopped);
        return;
      }
      if refuses(id) {
        if row.state == Mounting { var _ := CompareAndSet(id, Mounting, Stopped); }
        return;
      }
      Unsubscribe(row.publisher, id);
      var _ := CompareAndSet(id, row.state, Stopped);
    }

    /** A stop that publishers refused is made good by the next undisturbed pass:
        of a gone instance nothing is wanted or live any more. */
    method StopAndResync(instance: Instance, refuses: SubId -> bool)
      requires OwnIds(rows, live, registered) && Distinct(registered)
      requires gone(instance)
      modifies this`rows, this`live
      ensures forall id | id in rows && rows[id].instance == instance && rows[id].publisher in registered ::
              !Wanted(rows[id])
      ensures forall p, id | p in registered && id in rows && rows[id].instance == instance ::
              p in live && id !in live[p]
    {
      ghost var rows0 := rows;
      StopInstance(instance, refuses);
      StoppedOwn(rows0, rows, registered, refuses, OfInstance(rows0, instance));
      Resync();
    }

    /** Puts rows that failed for want of their publisher back to mounting. */
    method RecoverUnknown()
      modifies this`rows
      ensures rows == Recovered(old(rows), registered) && StoppedKept(old(rows), rows)
      ensures forall id | id in old(rows) ::
              rows[id].state == if old(rows)[id].state == Broken && Mountable(old(rows)[id], registered) then Mounting
                                else old(rows)[id].state
    {
      var todo := set id | id in rows && rows[id].state == Broken && rows[id].unknownPublisher
          && rows[id].publisher in registered;
      ghost var all := todo;
      while todo != {}
        invariant todo <= all && rows.Keys == old(rows).Keys
        invariant forall id | id in rows ::
                rows[id] == if id in all && id !in todo then Write(old(rows)[id], Mounting) else old(rows)[id]
      {
        var id :| id in todo;
        var _ := CompareAndSet(id, Broken, Mounting);
        todo := todo - {id};
      }
    }

    /** The rows of one publisher, then what it lists beyond them. */
    method ReconcilePublisher(p: Publisher, expected: Rows)
      requires Due(rows, live, p, expected)
      modifies this`rows, this`live
      ensures rows == Reconciled(old(rows), expected, p, gone)
      ensures OthersKept(old(live), live, p) && live[p] == ActiveOf(rows, p)
    {
      var listed := live[p];
      ReconcileRows(p, expected, listed);
      ghost var live1 := live[p];
      DropOrphans(p, listed, expected);
      LiveIsActive(old(rows), rows, p, expected, listed, live1, live[p], gone);
    }

    method ReconcileRows(p: Publisher, expected: Rows, listed: set<SubId>)
      requires Due(rows, live, p, expected) && listed == live[p]
      modifies this`rows, this`live
      ensures rows == Reconciled(old(rows), expected, p, gone) && OthersKept(old(live), live, p)
      ensures PartDone(old(rows), rows, listed, live[p], Mine(expected, p), gone)
    {
      var todo := Mine(expected, p);
      ghost var done: set<SubId> := {};
      while todo != {}
        invariant done == Mine(expected, p) - todo && todo <= Mine(expected, p) && OthersKept(old(live), live, p)
        invariant PartDone(old(rows), rows, listed, live[p], done, gone)
      {
        var id :| id in todo;
        ReconcileNext(p, id, expected[id], listed, old(rows), done);
        todo, done := todo - {id}, done + {id};
      }
      assert done == Mine(expected, p);
      AllMineDone(old(rows), rows, listed, live[p], expected, p, gone);
    }

    method ReconcileNext(p: Publisher, id: SubId, snap: Row, listed: set<SubId>, ghost start: Rows,
                         ghost done: set<SubId>)
      requires p in live && Wanted(snap) && id in start && start[id] == snap && id !in done
      requires PartDone(start, rows, listed, live[p], done, gone)
      modifies this`rows, this`live
      ensures OthersKept(old(live), live, p) && PartDone(start, rows, listed, live[p], done + {id}, gone)
    {
      ghost var rows1, live1 := rows, live[p];
      ReconcileRow(p, id, snap, id in listed, true, []);
      OneRowDone(start, rows1, rows, listed, live1, live[p], done, id, gone);
    }

    /** Drops what a publisher lists beyond the expected rows. */
    method DropOrphans(p: Publisher, listed: set<SubId>, expected: Rows)
      requires p in live
      modifies this`live
      ensures OthersKept(old(live), live, p)
      ensures forall id :: id in live[p] <==> id in old(live)[p] && !Orphan(rows, listed, expected, p, id)
    {
      var rest := set id | id in listed && !(id in expected && expected[id].publisher == p);
      while rest != {}
        invariant OthersKept(old(live), live, p)
        invariant forall id :: Orphan(rows, listed, expected, p, id) && id !in rest ==> id !in live[p]
        invariant forall id :: !Orphan(rows, listed, expected, p, id) || id in rest ==>
                (id in live[p] <==> id in old(live)[p])
      {
        var id :| id in rest;
        rest := rest - {id};
        if id !in rows || !Wanted(rows[id]) { Unsubscribe(p, id); }
      }
    }

    /** A pass that nothing disturbs brings every registered publisher in line with
        its rows. */
    method Resync()
      requires OwnIds(rows, live, registered) && Distinct(registered)
      modifies this`rows, this`live
      ensures rows == Settled(old(rows), registered, gone) && live.Keys == old(live).Keys
      ensures forall p | p in registered :: p in live && live[p] == ActiveOf(rows, p)
      ensures forall p | p in live && p !in registered :: live[p] == old(live)[p]
      ensures forall id | id in old(rows) && Mountable(old(rows)[id], registered) && !gone(old(rows)[id].instance) ::
              rows[id].state == Subscribed && id in live[old(rows)[id].publisher]
      ensures forall id | id in old(rows) && Mountable(old(rows)[id], registered) && gone(old(rows)[id].instance) ::
              rows[id].state == Stopped && id !in live[old(rows)[id].publisher]
      ensures forall id | id in old(rows) && !Mountable(old(rows)[id], registered) :: rows[id] == old(rows)[id]
    {
      RecoverUnknown();
      var expected := map id | id in rows && Wanted(rows[id]) :: rows[id];
      ghost var start, before := rows, live;
      NoneDone(start, before, registered, gone);
      PassReady(old(rows), live, registered, expected);
      for i := 0 to |registered|
        invariant Done(start, before, rows, live, registered, i, gone) && Ready(start, before, registered, expected)
      {
        ghost var rows1, live1 := rows, live;
        StillOwn(start, before, rows1, live1, registered, i, gone, expected);
        ReconcilePublisher(registered[i], expected);
        OneMore(start, before, rows1, live1, rows, live, registered, i, gone, expected);
      }
      assert registered[..|registered|] == registered;
      RecoveredSettles(old(rows), registered, gone);
      AllMounted(old(rows), registered, gone);
    }

    /** After an undisturbed pass another one changes nothing. */
    method ResyncTwice() returns (ghost rows1: Rows, ghost live1: map<Publisher, set<SubId>>)
      requires OwnIds(rows, live, registered) && Distinct(registered)
      modifies this`rows, this`live
      ensures rows1 == Settled(old(rows), registered, gone) && live1.Keys == old(live).Keys
      ensures forall p | p in registered :: p in live1 && live1[p] == ActiveOf(rows1, p)
      ensures rows == rows1 && live == live1
    {
      Resync();
      rows1, live1 := rows, live;
      Resync();
      SettledIsStable(old(rows), registered, gone);
      forall p | p in live1 ensures live[p] == live1[p] { if p in registered { } }
    }

    /** Rows of any number of passes, with whatever snapshots they work on, mixed
        with terminations and other writers: what is stopped stays stopped. */
    method Interleave(acts: seq<Act>)
      requires forall q | q in registered :: q in live
      modifies this`rows, this`live
      ensures StoppedKept(old(rows), rows)
    {
      for i := 0 to |acts|
        invariant StoppedKept(old(rows), rows) && forall q | q in registered :: q in live
      {
        match acts[i] {
          case OneRow(p, id, snap, listed, accepted, during) =>
            if p in live && Wanted(snap) && Lawful(during) { ReconcileRow(p, id, snap, listed, accepted, during); }
          case Recover => RecoverUnknown();
          case Stop(instance, refuses) => StopInstance(instance, refuses);
          case Others(changes) => if Lawful(changes) { Meddle(changes); }
        }
      }
    }
  }

  function OfInstance(rows: Rows, instance: Instance): set<SubId> {
    set id | id in rows && rows[id].instance == instance && Wanted(rows[id])
  }

  function StoppedRow(r: Row, registered: seq<Publisher>, refused: bool): Row {
    if r.publisher in registered && refused && r.state == Subscribed then r else Write(r, Stopped)
  }

  function StoppedFor(rows: Rows, ids: set<SubId>, registered: seq<Publisher>, refuses: SubId -> bool): Rows {
    map id | id in rows :: if id in ids then StoppedRow(rows[id], registered, refuses(id)) else rows[id]
  }

  /** The subscriptions that `p` gave up. */
  function Unsubscribed(rows: Rows, ids: set<SubId>, registered: seq<Publisher>, refuses: SubId -> bool,
                        p: Publisher): set<SubId> {
    set id | id in ids && id in rows && rows[id].publisher == p && p in registered && !refuses(id)
  }

  lemma NothingStopped(rows: Rows, registered: seq<Publisher>, refuses: SubId -> bool)
    ensures StoppedFor(rows, {}, registered, refuses) == rows
  {
  }

  lemma OneMoreStopped(rows: Rows, rows1: Rows, rows2: Rows, live: map<Publisher, set<SubId>>,
                       live1: map<Publisher, set<SubId>>, live2: map<Publisher, set<SubId>>, done: set<SubId>,
                       id: SubId, registered: seq<Publisher>, refuses: SubId -> bool)
    requires id in rows && id !in done && rows1 == StoppedFor(rows, done, registered, refuses)
    requires rows2 == rows1[id := StoppedRow(rows1[id], registered, refuses(id))]
    requires live1.Keys == live.Keys && live2.Keys == live.Keys
    requires forall p | p in live :: live1[p] == live[p] - Unsubscribed(rows, done, registered, refuses, p)
    requires forall p | p in live ::
      live2[p] == if p == rows1[id].publisher && p in registered && !refuses(id) then live1[p] - {id} else live1[p]
    ensures rows2 == StoppedFor(rows, done + {id}, registered, refuses)
    ensures forall p | p in live :: live2[p] == live[p] - Unsubscribed(rows, done + {id}, registered, refuses, p)
  {
    assert rows1[id] == rows[id];
    forall p | p in live ensures live2[p] == live[p] - Unsubscribed(rows, done + {id}, registered, refuses, p) {
      assert Unsubscribed(rows, done + {id}, registered, refuses, p)
          == Unsubscribed(rows, done, registered, refuses, p)
             + (if p == rows[id].publisher && p in registered && !refuses(id) then {id} else {});
    }
  }

  lemma StoppedOwn(rows: Rows, rows': Rows, registered: seq<Publisher>, refuses: SubId -> bool, ids: set<SubId>)
    requires rows' == StoppedFor(rows, ids, registered, refuses)
    ensures forall id | id in rows ::
            rows'[id].publisher == rows[id].publisher && rows'[id].instance == rows[id].instance
  {
  }

  datatype Act =
    | OneRow(p: Publisher, id: SubId, snap: Row, listed: bool, accepted: bool, during: seq<Change>)
    | Recover
    | Stop(instance: Instance, refuses: SubId -> bool)
    | Others(changes: seq<Change>)

  predicate Lawful(changes: seq<Change>) {
    forall c | c in changes :: c.from != Stopped
  }

  /** The expected rows of `p` are its wanted rows, and it lists no other's. */
  ghost predicate Due(rows: Rows, live: map<Publisher, set<SubId>>, p: Publisher, expected: Rows) {
    && p in live && (forall id | id in live[p] && id in rows :: rows[id].publisher == p)
    && (forall id | id in rows && rows[id].publisher == p && Wanted(rows[id]) ::
         id in expected && expected[id].publisher == p)
    && (forall id | id in expected && expected[id].publisher == p ::
         id in rows && rows[id] == expected[id] && Wanted(expected[id]))
  }

  function Reconciled(rows: Rows, expected: Rows, p: Publisher, gone: Instance -> bool): Rows {
    map id | id in rows :: if id in expected && expected[id].publisher == p then Target(rows[id], gone) else rows[id]
  }

  /** The rows `done` have been dealt with. */
  ghost predicate PartDone(rows: Rows, rows': Rows, listed: set<SubId>, live: set<SubId>, done: set<SubId>,
                           gone: Instance -> bool) {
    && rows'.Keys == rows.Keys && done <= rows.Keys
    && (forall id | id in rows :: rows'[id] == if id in done then Target(rows[id], gone) else rows[id])
    && (forall id :: id in live <==> if id in done then rows'[id].state == Subscribed else id in listed)
  }

  function Mine(expected: Rows, p: Publisher): set<SubId> {
    set id | id in expected && expected[id].publisher == p
  }

  lemma AllMineDone(rows: Rows, rows': Rows, listed: set<SubId>, live: set<SubId>, expected: Rows, p: Publisher,
                    gone: Instance -> bool)
    requires PartDone(rows, rows', listed, live, Mine(expected, p), gone)
    ensures rows' == Reconciled(rows, expected, p, gone)
  {
  }

  lemma OneRowDone(rows: Rows, rows1: Rows, rows2: Rows, listed: set<SubId>, live1: set<SubId>, live2: set<SubId>,
                   done: set<SubId>, id: SubId, gone: Instance -> bool)
    requires PartDone(rows, rows1, listed, live1, done, gone) && id in rows && id !in done
    requires rows2.Keys == rows1.Keys && (forall x | x in rows1 && x != id :: rows2[x] == rows1[x])
    requires rows2[id] == Target(rows[id], gone) && (id in live2 <==> rows2[id].state == Subscribed)
    requires forall x | x != id :: x in live2 <==> x in live1
    ensures PartDone(rows, rows2, listed, live2, done + {id}, gone)
  {
  }

  lemma LiveIsActive(rows: Rows, rows': Rows, p: Publisher, expected: Rows, listed: set<SubId>, live1: set<SubId>,
                     live2: set<SubId>, gone: Instance -> bool)
    requires Due(rows, map[p := listed], p, expected) && rows' == Reconciled(rows, expected, p, gone)
    requires PartDone(rows, rows', listed, live1, Mine(expected, p), gone)
    requires forall id :: id in live2 <==> id in live1 && !Orphan(rows', listed, expected, p, id)
    ensures live2 == ActiveOf(rows', p)
  {
  }

  predicate Orphan(rows: Rows, listed: set<SubId>, expected: Rows, p: Publisher, id: SubId) {
    id in listed && !(id in expected && expected[id].publisher == p) && !(id in rows && Wanted(rows[id]))
  }

  ghost predicate OthersKept(live: map<Publisher, set<SubId>>, live': map<Publisher, set<SubId>>, p: Publisher) {
    p in live' && live'.Keys == live.Keys && forall q | q in live && q != p :: live'[q] == live[q]
  }

  /** The first `n` publishers are done, the others as they were. */
  ghost predicate Done(start: Rows, live: map<Publisher, set<SubId>>, rows: Rows, live': map<Publisher, set<SubId>>,
                       registered: seq<Publisher>, n: nat, gone: Instance -> bool) {
    && n <= |registered| && rows == Settled(start, registered[..n], gone) && live'.Keys == live.Keys
    && (forall p | p in registered[..n] :: p in live' && live'[p] == ActiveOf(rows, p))
    && (forall p | p in live && p !in registered[..n] :: live'[p] == live[p])
  }

  lemma RecoveredSettles(rows: Rows, registered: seq<Publisher>, gone: Instance -> bool)
    ensures Settled(Recovered(rows, registered), registered, gone) == Settled(rows, registered, gone)
  {
  }

  /** Rows that a pass starts from: nothing is left to recover, and the expected
      rows are the wanted ones. */
  ghost predicate Ready(start: Rows, live: map<Publisher, set<SubId>>, registered: seq<Publisher>, expected: Rows) {
    && OwnIds(start, live, registered)
    && Distinct(registered)
    && (forall id | id in start && start[id].publisher in registered ::
         !(start[id].state == Broken && start[id].unknownPublisher))
    && expected == map id | id in start && Wanted(start[id]) :: start[id]
  }

  lemma PassReady(rows: Rows, live: map<Publisher, set<SubId>>, registered: seq<Publisher>, expected: Rows)
    requires OwnIds(rows, live, registered) && Distinct(registered)
    requires var start := Recovered(rows, registered);
             expected == map id | id in start && Wanted(start[id]) :: start[id]
    ensures Ready(Recovered(rows, registered), live, registered, expected)
  {
  }

  lemma NoneDone(start: Rows, live: map<Publisher, set<SubId>>, registered: seq<Publisher>, gone: Instance -> bool)
    ensures Done(start, live, start, live, registered, 0, gone)
  {
  }

  lemma StillOwn(start: Rows, live: map<Publisher, set<SubId>>, rows: Rows, live': map<Publisher, set<SubId>>,
                 registered: seq<Publisher>, i: nat, gone: Instance -> bool, expected: Rows)
    requires Ready(start, live, registered, expected) && i < |registered|
            && Done(start, live, rows, live', registered, i, gone)
    ensures registered[i] !in registered[..i] && Due(rows, live', registered[i], expected)
  {
  }

  /** Settling one more publisher leaves the others as they are. */
  lemma OneMore(start: Rows, live: map<Publisher, set<SubId>>, rows: Rows, live1: map<Publisher, set<SubId>>,
                rows': Rows, live2: map<Publisher, set<SubId>>,
                registered: seq<Publisher>, i: nat, gone: Instance -> bool, expected: Rows)
    requires Ready(start, live, registered, expected) && i < |registered|
            && Done(start, live, rows, live1, registered, i, gone)
    requires rows' == Reconciled(rows, expected, registered[i], gone)
    requires OthersKept(live1, live2, registered[i]) && live2[registered[i]] == ActiveOf(rows', registered[i])
    ensures Done(start, live, rows', live2, registered, i + 1, gone)
  {
    StillOwn(start, live, rows, live1, registered, i, gone, expected);
    RowsOneMore(start, rows, rows', registered, i, gone, expected);
    assert registered[..i + 1] == registered[..i] + [registered[i]];
    forall p | p in registered[..i] ensures live2[p] == ActiveOf(rows', p) { SameActive(rows, rows', p); }
  }

  lemma RowsOneMore(start: Rows, rows: Rows, rows': Rows, registered: seq<Publisher>, i: nat, gone: Instance -> bool,
                    expected: Rows)
    requires i < |registered| && registered[i] !in registered[..i] && rows == Settled(start, registered[..i], gone)
    requires forall id | id in start && start[id].publisher in registered ::
            !(start[id].state == Broken && start[id].unknownPublisher)
    requires expected == map id | id in start && Wanted(start[id]) :: start[id]
    requires rows' == Reconciled(rows, expected, registered[i], gone)
    ensures rows' == Settled(start, registered[..i + 1], gone)
    ensures forall id | id in rows' && rows'[id].publisher != registered[i] :: rows'[id] == rows[id]
    ensures forall id | id in rows' :: rows'[id].publisher == rows[id].publisher
  {
    assert registered[..i + 1] == registered[..i] + [registered[i]] && registered[i] in registered;
  }

  lemma SameActive(rows: Rows, rows': Rows, p: Publisher)
    requires rows'.Keys == rows.Keys
    requires forall id | id in rows && (rows[id].publisher == p || rows'[id].publisher == p) :: rows'[id] == rows[id]
    ensures ActiveOf(rows', p) == ActiveOf(rows, p)
  {
  }

  function Recovered(rows: Rows, registered: seq<Publisher>): Rows {
    map id | id in rows ::
      if rows[id].state == Broken && rows[id].unknownPublisher && rows[id].publisher in registered
      then Write(rows[id], Mounting) else rows[id]
  }
}
