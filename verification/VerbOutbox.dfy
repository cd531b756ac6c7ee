/** The producer-verb outbox under any interleaving of settling transactions,
    dispatcher passes and open barriers. A row is named by its sequence number. A
    transaction draws numbers as it settles claims, and its rows become visible
    together when it commits. Deliveries may fail, deletes may fail, and a
    barrier's transaction may roll back after it has delivered. */
module VerbOutbox {

  type Scope = string
  type Key = (string, Scope)

  datatype Row = Row(producer: string, scope: Scope)

  function KeyOf(r: Row): Key { (r.producer, r.scope) }

  /** What a pass blocks on. Rows of one key share it; with NUL bytes in producer
      names rows of different keys may as well. */
  function BlockKey(r: Row): string { r.producer + "\0" + r.scope }

  /** A dispatcher pass: the listing it works through, how far it has got, the
      keys it has given up on, and whether the current row is delivered but not
      yet deleted. */
  datatype Pass = Pass(listing: seq<nat>, next: nat, blocked: set<string>, delivered: bool)

  /** An open barrier: the rows of its producer, how far it has got, and the rows
      its transaction has deleted. */
  datatype Barrier =
    Barrier(producer: string, candidate: Scope, listing: seq<nat>, next: nat, deleted: set<nat>)

  /** `rows` is every row ever drawn a number for, `open` the rows of transactions
      under way, `stamp` tells of each row that was published in which commit,
      `live` are the rows in the table, and `log` the successful deliveries. */
  datatype State = State(
    rows: seq<Row>, open: map<nat, set<nat>>, commits: nat, stamp: map<nat, nat>,
    live: set<nat>, log: seq<nat>, passes: map<nat, Pass>, barriers: map<nat, Barrier>)

  datatype Step =
    | Reserve(tx: nat, row: Row)
    | Publish(tx: nat)
    | Discard(tx: nat)
    | ListAll(pass: nat)
    | Skip(pass: nat)
    | Defer(pass: nat)
    | Deliver(pass: nat)
    | Refuse(pass: nat)
    | Delete(pass: nat)
    | EndPass(pass: nat)
    | OpenBarrier(barrier: nat, producer: string, candidate: Scope)
    | PassOver(barrier: nat)
    | Flush(barrier: nat)
    | Commit(barrier: nat)
    | RollBack(barrier: nat)

  /** The steps of settling transactions. */
  predicate IsMove(step: Step) { step.Reserve? || step.Publish? || step.Discard? }

  function ListUpTo(live: set<nat>, n: nat): seq<nat> {
    if n == 0 then [] else ListUpTo(live, n - 1) + if n - 1 in live then [n - 1] else []
  }

  function OfProducer(s: State, producer: string): set<nat> {
    set i | i in s.live && i < |s.rows| && s.rows[i].producer == producer
  }

  predicate AtRow(s: State, p: nat) {
    && p in s.passes && s.passes[p].next < |s.passes[p].listing|
    && s.passes[p].listing[s.passes[p].next] < |s.rows|
  }

  function Current(s: State, p: nat): nat
    requires AtRow(s, p)
  {
    s.passes[p].listing[s.passes[p].next]
  }

  function CurrentKey(s: State, p: nat): string
    requires AtRow(s, p)
  {
    BlockKey(s.rows[Current(s, p)])
  }

  predicate AtBarrierRow(s: State, b: nat) {
    && b in s.barriers && s.barriers[b].next < |s.barriers[b].listing|
    && s.barriers[b].listing[s.barriers[b].next] < |s.rows|
  }

  function BarrierRow(s: State, b: nat): nat
    requires AtBarrierRow(s, b)
  {
    s.barriers[b].listing[s.barriers[b].next]
  }

  /** The pass stands at a row it has neither delivered nor given up on. */
  predicate Undecided(s: State, p: nat) {
    AtRow(s, p) && !s.passes[p].delivered && CurrentKey(s, p) !in s.passes[p].blocked
  }

  /** When a step can be taken. `conflict` is the producer's scope comparison. */
  predicate Enabled(s: State, step: Step, conflict: (Scope, Scope) -> bool) {
    match step
    case Reserve(_, _) => true
    case Publish(x) => x in s.open
    case Discard(x) => x in s.open
    case ListAll(p) => p !in s.passes
    case Skip(p) => AtRow(s, p) && !s.passes[p].delivered && CurrentKey(s, p) in s.passes[p].blocked
    case Defer(p) => Undecided(s, p)
    case Deliver(p) => Undecided(s, p)
    case Refuse(p) => Undecided(s, p)
    case Delete(p) => AtRow(s, p) && s.passes[p].delivered
    case EndPass(p) => p in s.passes
    case OpenBarrier(b, _, _) => b !in s.barriers
    case PassOver(b) => AtBarrierRow(s, b) && !conflict(s.barriers[b].candidate, s.rows[BarrierRow(s, b)].scope)
    case Flush(b) => AtBarrierRow(s, b) && conflict(s.barriers[b].candidate, s.rows[BarrierRow(s, b)].scope)
    case Commit(b) => b in s.barriers && s.barriers[b].next == |s.barriers[b].listing|
    case RollBack(b) => b in s.barriers
  }

  /** A refused delivery and a row that is not yet due both block their key for
      the rest of the pass; a failed delete ends the pass with the row in place. */
  function Apply(s: State, step: Step, conflict: (Scope, Scope) -> bool): State
    requires Enabled(s, step, conflict)
  {
    match step
    case Reserve(x, row) => Reserved(s, x, row)
    case Publish(x) => Published(s, x)
    case Discard(x) => s.(open := s.open - {x})
    case ListAll(p) => s.(passes := s.passes[p := Pass(ListUpTo(s.live, |s.rows|), 0, {}, false)])
    case Skip(p) => s.(passes := s.passes[p := s.passes[p].(next := s.passes[p].next + 1)])
    case Defer(p) => Block(s, p)
    case Refuse(p) => Block(s, p)
    case Deliver(p) => Delivered(s, p)
    case Delete(p) => Deleted(s, p)
    case EndPass(p) => s.(passes := s.passes - {p})
    case OpenBarrier(b, producer, candidate) =>
      var listing := ListUpTo(OfProducer(s, producer), |s.rows|);
      s.(barriers := s.barriers[b := Barrier(producer, candidate, listing, 0, {})])
    case PassOver(b) => s.(barriers := s.barriers[b := s.barriers[b].(next := s.barriers[b].next + 1)])
    case Flush(b) =>
      var barrier := s.barriers[b];
      s.(log := s.log + [BarrierRow(s, b)],
         barriers := s.barriers[b := barrier.(next := barrier.next + 1,
                                              deleted := barrier.deleted + {BarrierRow(s, b)})])
    case Commit(b) => s.(live := s.live - s.barriers[b].deleted, barriers := s.barriers - {b})
    case RollBack(b) => s.(barriers := s.barriers - {b})
  }

  /** The transaction draws the next number. */
  function Reserved(s: State, x: nat, row: Row): State {
    var drawn := if x in s.open then s.open[x] else {};
    s.(rows := s.rows + [row], open := s.open[x := drawn + {|s.rows|}])
  }

  function Published(s: State, x: nat): (s': State)
    requires x in s.open
    ensures s'.stamp.Keys == s.stamp.Keys + s.open[x]
  {
    s.(open := s.open - {x}, commits := s.commits + 1, live := s.live + s.open[x],
       stamp := map i | i in s.stamp.Keys + s.open[x] :: if i in s.open[x] then s.commits else s.stamp[i])
  }

  function Delivered(s: State, p: nat): State
    requires AtRow(s, p)
  {
    s.(log := s.log + [Current(s, p)], passes := s.passes[p := s.passes[p].(delivered := true)])
  }

  function Deleted(s: State, p: nat): State
    requires AtRow(s, p)
  {
    s.(live := s.live - {Current(s, p)},
       passes := s.passes[p := s.passes[p].(next := s.passes[p].next + 1, delivered := false)])
  }

  function Block(s: State, p: nat): State
    requires AtRow(s, p)
  {
    var pass := s.passes[p];
    s.(passes := s.passes[p := pass.(next := pass.next + 1, blocked := pass.blocked + {CurrentKey(s, p)})])
  }

  const Empty: State := State([], map[], 0, map[], {}, [], map[], map[])

  /** A step that is not enabled does nothing. */
  function Next(s: State, step: Step, conflict: (Scope, Scope) -> bool): State {
    if Enabled(s, step, conflict) then Apply(s, step, conflict) else s
  }

  function RunFrom(s: State, steps: seq<Step>, conflict: (Scope, Scope) -> bool): State
    decreases |steps|
  {
    if steps == [] then s else RunFrom(Next(s, steps[0], conflict), steps[1..], conflict)
  }

  function Run(steps: seq<Step>, conflict: (Scope, Scope) -> bool): State {
    RunFrom(Empty, steps, conflict)
  }

  // ---------------------------------------------------------------- the laws

  ghost predicate SameKey(s: State, i: nat, j: nat) {
    i < |s.rows| && j < |s.rows| && KeyOf(s.rows[i]) == KeyOf(s.rows[j])
  }

  /** Of two published rows of a key, the one with the smaller number was not
      published later. */
  ghost predicate InOrder(s: State) {
    forall i, j | i in s.stamp && j in s.stamp && i < j && SameKey(s, i, j) :: s.stamp[i] <= s.stamp[j]
  }

  /** Every delivery comes after one of each published row of the same key with a
      smaller number. */
  ghost predicate Ordered(s: State) {
    forall k, j | 0 <= k < |s.log| && j in s.stamp && j < s.log[k] && SameKey(s, j, s.log[k]) :: j in s.log[..k]
  }

  /** A published row leaves the table only once delivered, and nothing else is
      ever in the table or delivered. */
  ghost predicate NothingLost(s: State) {
    && (forall i | i in s.stamp && i !in s.live :: i in s.log)
    && (forall i | i in s.live :: i in s.stamp) && (forall i | i in s.log :: i in s.stamp)
  }

  /** Every number is drawn by one transaction and published at most once. */
  ghost predicate Numbered(s: State) {
    && (forall i | i in s.stamp :: i < |s.rows| && s.stamp[i] < s.commits)
    && (forall x: nat, i: nat | DrawnBy(s, x, i) :: i < |s.rows| && i !in s.stamp)
    && (forall x: nat, y: nat, i: nat | DrawnBy(s, x, i) && DrawnBy(s, y, i) :: x == y)
  }

  /** The number belongs to a transaction that is still open. */
  ghost predicate DrawnBy(s: State, x: nat, i: nat) {
    x in s.open && i in s.open[x]
  }

  ghost predicate Ascending(listing: seq<nat>) {
    forall m, n | 0 <= m < n < |listing| :: listing[m] < listing[n]
  }

  ghost predicate Listing(s: State, listing: seq<nat>) {
    Ascending(listing) && forall i | i in listing :: i in s.stamp
  }

  /** Published and undelivered rows before a listed row of the same key are
      listed too. */
  ghost predicate Complete(s: State, listing: seq<nat>) {
    forall i, j | i in listing && j in s.stamp && j < i && SameKey(s, j, i) && j !in s.log :: j in listing
  }

  ghost predicate PassOk(s: State, p: Pass) {
    && Listing(s, p.listing) && p.next <= |p.listing|
    && (forall m | 0 <= m < p.next :: Gone(s, p.listing[m]) || Blocked(s, p, p.listing[m]))
    && (p.delivered ==> p.next < |p.listing| && p.listing[p.next] in s.log)
  }

  /** Delivered and deleted. */
  ghost predicate Gone(s: State, i: nat) {
    i in s.log && i !in s.live
  }

  ghost predicate Blocked(s: State, p: Pass, i: nat) {
    i < |s.rows| && BlockKey(s.rows[i]) in p.blocked
  }

  ghost predicate Conflicts(s: State, b: Barrier, i: nat, conflict: (Scope, Scope) -> bool) {
    i < |s.rows| && conflict(b.candidate, s.rows[i].scope)
  }

  /** What a barrier has passed over does not conflict; the rest, and nothing else, it
      has delivered and deleted. */
  ghost predicate BarrierOk(s: State, b: Barrier, conflict: (Scope, Scope) -> bool) {
    && Listing(s, b.listing) && b.next <= |b.listing|
    && (forall i | i in b.deleted :: i in s.log && i in b.listing && Conflicts(s, b, i, conflict))
    && (forall m | 0 <= m < b.next && Conflicts(s, b, b.listing[m], conflict) ::
          b.listing[m] in s.log && b.listing[m] in b.deleted)
  }

  /** What holds however transactions commit. */
  ghost predicate Sound(s: State, conflict: (Scope, Scope) -> bool) {
    && Numbered(s) && NothingLost(s)
    && (forall p | p in s.passes :: PassOk(s, s.passes[p]))
    && (forall b | b in s.barriers :: BarrierOk(s, s.barriers[b], conflict))
  }

  /** What holds if they publish in order. */
  ghost predicate Timely(s: State) {
    && Ordered(s)
    && (forall p | p in s.passes :: Complete(s, s.passes[p].listing))
    && (forall b | b in s.barriers :: Complete(s, s.barriers[b].listing))
  }

  ghost predicate Inv(s: State, conflict: (Scope, Scope) -> bool) {
    Sound(s, conflict) && (InOrder(s) ==> Timely(s))
  }

  // ---------------------------------------------------------------- listings

  lemma {:induction false} Listed(live: set<nat>, n: nat)
    ensures Ascending(ListUpTo(live, n))
    ensures forall i: nat :: i in ListUpTo(live, n) <==> i in live && i < n
  {
    if n == 0 {
    } else {
      Listed(live, n - 1);
      var l := ListUpTo(live, n - 1);
      forall m | 0 <= m < |l| ensures l[m] < n - 1 { assert l[m] in l; }
    }
  }

  lemma FreshListing(s: State, live: set<nat>)
    requires Numbered(s) && NothingLost(s) && live <= s.live
    requires forall i, j | SameKey(s, i, j) && i in s.live && j in live :: i in live
    ensures Listing(s, ListUpTo(live, |s.rows|)) && Complete(s, ListUpTo(live, |s.rows|))
  {
    Listed(live, |s.rows|);
  }

  /** The row a pass or barrier is about to deliver has nothing undelivered of its
      key before it. */
  lemma TurnHasCome(s: State, listing: seq<nat>, next: nat)
    requires Listing(s, listing) && Complete(s, listing) && next < |listing|
    requires forall m | 0 <= m < next && SameKey(s, listing[m], listing[next]) :: listing[m] in s.log
    ensures forall j | j in s.stamp && j < listing[next] && SameKey(s, j, listing[next]) :: j in s.log
  {
    assert listing[next] in listing;
  }

  // ---------------------------------------------------------------- one step

  /** What any step leaves of the rows, the numbers and the log. */
  ghost predicate Extends(s: State, s': State) {
    && s.rows <= s'.rows && s.commits <= s'.commits && s.log <= s'.log
    && (forall i | i in s.stamp :: i in s'.stamp && s'.stamp[i] == s.stamp[i])
    && (forall i | i in s'.stamp && i !in s.stamp :: s.commits <= s'.stamp[i])
    && (forall i | i in s.stamp && i in s'.live :: i in s.live)
  }

  lemma StepExtends(s: State, step: Step, conflict: (Scope, Scope) -> bool)
    requires Numbered(s)
    ensures Numbered(Next(s, step, conflict)) && Extends(s, Next(s, step, conflict))
  {
    if !Enabled(s, step, conflict) {
    } else if step.Reserve? {
      ReserveNumbers(s, step.tx, step.row);
    } else if step.Publish? {
      PublishNumbers(s, step.tx);
    } else {
      SameOrFewer(s, Apply(s, step, conflict));
    }
  }

  lemma ReserveNumbers(s: State, x: nat, row: Row)
    requires Numbered(s)
    ensures Numbered(Reserved(s, x, row)) && Extends(s, Reserved(s, x, row))
  {
    var s' := Reserved(s, x, row);
    forall y: nat, i: nat | DrawnBy(s', y, i) ensures (i == |s.rows| && y == x) || DrawnBy(s, y, i) { }
  }

  lemma PublishNumbers(s: State, x: nat)
    requires Numbered(s) && x in s.open
    ensures Numbered(Published(s, x)) && Extends(s, Published(s, x))
  {
    var s' := Published(s, x);
    forall i | i in s.open[x] ensures i < |s.rows| && i !in s.stamp { assert DrawnBy(s, x, i); }
    forall y: nat, i: nat | DrawnBy(s', y, i) ensures DrawnBy(s, y, i) && i !in s'.stamp {
      assert y != x && DrawnBy(s, y, i) && !DrawnBy(s, x, i) && i !in s.stamp;
    }
  }

  lemma SameOrFewer(s: State, s': State)
    requires Numbered(s) && s'.rows == s.rows && s'.stamp == s.stamp && s'.commits == s.commits
    requires s.log <= s'.log && s'.live <= s.live && forall x | x in s'.open :: x in s.open && s'.open[x] == s.open[x]
    ensures Numbered(s') && Extends(s, s')
  {
    forall y: nat, i: nat | DrawnBy(s', y, i) ensures DrawnBy(s, y, i) { }
  }

  /** What was in order at the end was in order before. */
  lemma OrderBefore(s: State, s': State)
    requires Numbered(s) && Extends(s, s') && InOrder(s')
    ensures InOrder(s)
  {
    forall i, j | i in s.stamp && j in s.stamp && i < j && SameKey(s, i, j) ensures s.stamp[i] <= s.stamp[j] {
      assert SameKey(s', i, j);
    }
  }

  /** A listing misses nothing that is published later: that has a larger number. */
  lemma CompleteLasts(s: State, s': State, listing: seq<nat>)
    requires Numbered(s) && Extends(s, s') && InOrder(s') && Listing(s, listing) && Complete(s, listing)
    ensures Complete(s', listing)
  {
    forall i, j | i in listing && j in s'.stamp && j < i && SameKey(s', j, i) && j !in s'.log ensures j in listing {
      assert i in s.stamp && s'.stamp[j] <= s'.stamp[i];
      assert j in s.stamp && SameKey(s, j, i);
    }
  }

  lemma PassLasts(s: State, s': State, p: Pass)
    requires Extends(s, s') && PassOk(s, p)
    ensures PassOk(s', p)
  {
    forall m | 0 <= m < p.next ensures Gone(s', p.listing[m]) || Blocked(s', p, p.listing[m]) {
      assert p.listing[m] in p.listing;
      assert Gone(s, p.listing[m]) || Blocked(s, p, p.listing[m]);
    }
  }

  lemma BarrierLasts(s: State, s': State, b: Barrier, conflict: (Scope, Scope) -> bool)
    requires Numbered(s) && Extends(s, s') && BarrierOk(s, b, conflict)
    ensures BarrierOk(s', b, conflict)
  {
    forall m | 0 <= m < b.next && Conflicts(s', b, b.listing[m], conflict)
      ensures b.listing[m] in s'.log && b.listing[m] in b.deleted
    {
      assert b.listing[m] in b.listing && Conflicts(s, b, b.listing[m], conflict);
    }
  }

  /** Publishing in order spoils no delivery that was made. */
  lemma OrderedLasts(s: State, s': State)
    requires Numbered(s) && NothingLost(s) && Extends(s, s') && s'.log == s.log && InOrder(s') && Ordered(s)
    ensures Ordered(s')
  {
    forall k, j | 0 <= k < |s'.log| && j in s'.stamp && j < s'.log[k] && SameKey(s', j, s'.log[k])
      ensures j in s'.log[..k]
    {
      assert s.log[k] in s.log && s'.stamp[j] <= s'.stamp[s.log[k]];
      assert j in s.stamp && SameKey(s, j, s.log[k]);
    }
  }

  lemma LogGrows(s: State, s': State, i: nat)
    requires Ordered(s) && s'.rows == s.rows && s'.stamp == s.stamp && s'.log == s.log + [i]
    requires forall j | j in s.stamp && j < i && SameKey(s, j, i) :: j in s.log
    ensures Ordered(s')
  {
    forall k, j | 0 <= k < |s'.log| && j in s'.stamp && j < s'.log[k] && SameKey(s', j, s'.log[k])
      ensures j in s'.log[..k]
    {
      if k < |s.log| {
        assert s'.log[k] == s.log[k] && s'.log[..k] == s.log[..k] && SameKey(s, j, s.log[k]);
      } else {
        assert s'.log[..k] == s.log && SameKey(s, j, i);
      }
    }
  }

  ghost predicate PassKept(s: State, s': State, p: nat) {
    p in s.passes && p in s'.passes && s'.passes[p] == s.passes[p]
  }

  ghost predicate BarrierKept(s: State, s': State, b: nat) {
    b in s.barriers && b in s'.barriers && s'.barriers[b] == s.barriers[b]
  }

  ghost predicate Punctual(s: State, s': State, listing: seq<nat>) {
    InOrder(s') && Timely(s) ==> Complete(s', listing)
  }

  /** Passes and barriers that a step leaves alone stay as they should be. */
  lemma OthersLast(s: State, s': State, conflict: (Scope, Scope) -> bool)
    requires Inv(s, conflict) && Extends(s, s') && Numbered(s') && NothingLost(s')
    requires forall p | p in s'.passes ::
      PassKept(s, s', p) || (PassOk(s', s'.passes[p]) && Punctual(s, s', s'.passes[p].listing))
    requires forall b | b in s'.barriers ::
      BarrierKept(s, s', b) || (BarrierOk(s', s'.barriers[b], conflict) && Punctual(s, s', s'.barriers[b].listing))
    requires InOrder(s') && Ordered(s) ==> Ordered(s')
    ensures Inv(s', conflict)
  {
    forall p | p in s'.passes ensures PassOk(s', s'.passes[p]) && Punctual(s, s', s'.passes[p].listing) {
      if PassKept(s, s', p) { PassLasts(s, s', s.passes[p]); ListingLasts(s, s', s.passes[p].listing); }
    }
    forall b | b in s'.barriers
      ensures BarrierOk(s', s'.barriers[b], conflict) && Punctual(s, s', s'.barriers[b].listing)
    {
      if BarrierKept(s, s', b) {
        BarrierLasts(s, s', s.barriers[b], conflict);
        ListingLasts(s, s', s.barriers[b].listing);
      }
    }
    if InOrder(s') { OrderBefore(s, s'); }
  }

  lemma ListingLasts(s: State, s': State, listing: seq<nat>)
    requires Numbered(s) && Extends(s, s') && Listing(s, listing)
    requires Timely(s) ==> Complete(s, listing)
    ensures Punctual(s, s', listing)
  {
    if InOrder(s') && Timely(s) { CompleteLasts(s, s', listing); }
  }

  lemma MoveStep(s: State, step: Step, conflict: (Scope, Scope) -> bool)
    requires Inv(s, conflict) && Enabled(s, step, conflict) && IsMove(step)
    ensures Inv(Apply(s, step, conflict), conflict)
  {
    var s' := Apply(s, step, conflict);
    StepExtends(s, step, conflict);
    if InOrder(s') && Ordered(s) { OrderedLasts(s, s'); }
    OthersLast(s, s', conflict);
  }

  lemma PassStep(s: State, step: Step, conflict: (Scope, Scope) -> bool)
    requires Inv(s, conflict) && Enabled(s, step, conflict)
    requires step.Skip? || step.Defer? || step.Refuse? || step.Delete?
    ensures Inv(Apply(s, step, conflict), conflict)
  {
    var s' := Apply(s, step, conflict);
    var p := step.pass;
    StepExtends(s, step, conflict);
    PassMovesOn(s, step, conflict);
    ListingLasts(s, s', s.passes[p].listing);
    if InOrder(s') && Ordered(s) { OrderedLasts(s, s'); }
    OthersLast(s, s', conflict);
  }

  lemma PassMovesOn(s: State, step: Step, conflict: (Scope, Scope) -> bool)
    requires Inv(s, conflict) && Enabled(s, step, conflict)
    requires step.Skip? || step.Defer? || step.Refuse? || step.Delete?
    ensures var s' := Apply(s, step, conflict); NothingLost(s') && PassOk(s', s'.passes[step.pass])
  {
    assert PassOk(s, s.passes[step.pass]);
  }

  lemma DeliverStep(s: State, p: nat, conflict: (Scope, Scope) -> bool)
    requires Inv(s, conflict) && Enabled(s, Deliver(p), conflict)
    ensures Inv(Apply(s, Deliver(p), conflict), conflict)
  {
    var s' := Apply(s, Deliver(p), conflict);
    var l, n := s.passes[p].listing, s.passes[p].next;
    assert PassOk(s, s.passes[p]) && l[n] in l;
    assert l[n] in s'.log by { assert s'.log[|s.log|] == l[n]; }
    StepExtends(s, Deliver(p), conflict);
    ListingLasts(s, s', l);
    if InOrder(s') {
      OrderBefore(s, s');
      TurnHasCome(s, l, n);
      LogGrows(s, s', l[n]);
    }
    OthersLast(s, s', conflict);
  }

  lemma PassOverStep(s: State, b: nat, conflict: (Scope, Scope) -> bool)
    requires Inv(s, conflict) && Enabled(s, PassOver(b), conflict)
    ensures Inv(Apply(s, PassOver(b), conflict), conflict)
  {
    var s' := Apply(s, PassOver(b), conflict);
    StepExtends(s, PassOver(b), conflict);
    BarrierMovesOn(s, b, conflict);
    ListingLasts(s, s', s.barriers[b].listing);
    if InOrder(s') && Ordered(s) { OrderedLasts(s, s'); }
    OthersLast(s, s', conflict);
  }

  lemma CommitStep(s: State, b: nat, conflict: (Scope, Scope) -> bool)
    requires Inv(s, conflict) && Enabled(s, Commit(b), conflict)
    ensures Inv(Apply(s, Commit(b), conflict), conflict)
  {
    var s' := Apply(s, Commit(b), conflict);
    StepExtends(s, Commit(b), conflict);
    assert BarrierOk(s, s.barriers[b], conflict);
    if InOrder(s') && Ordered(s) { OrderedLasts(s, s'); }
    OthersLast(s, s', conflict);
  }

  lemma BarrierMovesOn(s: State, b: nat, conflict: (Scope, Scope) -> bool)
    requires Inv(s, conflict) && Enabled(s, PassOver(b), conflict)
    ensures var s' := Apply(s, PassOver(b), conflict); BarrierOk(s', s'.barriers[b], conflict)
  {
    var s' := Apply(s, PassOver(b), conflict);
    var bar, bar' := s.barriers[b], s'.barriers[b];
    assert BarrierOk(s, bar, conflict);
    forall i: nat ensures Conflicts(s', bar', i, conflict) <==> Conflicts(s, bar, i, conflict) { }
  }

  lemma FlushStep(s: State, b: nat, conflict: (Scope, Scope) -> bool)
    requires Inv(s, conflict) && Enabled(s, Flush(b), conflict)
    ensures Inv(Apply(s, Flush(b), conflict), conflict)
  {
    var s' := Apply(s, Flush(b), conflict);
    var l := s.barriers[b].listing;
    StepExtends(s, Flush(b), conflict);
    BarrierDelivers(s, b, conflict);
    ListingLasts(s, s', l);
    if InOrder(s') { FlushedInTurn(s, b, conflict); }
    OthersLast(s, s', conflict);
  }

  lemma BarrierDelivers(s: State, b: nat, conflict: (Scope, Scope) -> bool)
    requires Inv(s, conflict) && Enabled(s, Flush(b), conflict)
    ensures var s' := Apply(s, Flush(b), conflict); NothingLost(s') && BarrierOk(s', s'.barriers[b], conflict)
  {
    var s' := Apply(s, Flush(b), conflict);
    var l, n := s.barriers[b].listing, s.barriers[b].next;
    assert BarrierOk(s, s.barriers[b], conflict) && l[n] in l;
    assert l[n] in s'.log by { assert s'.log[|s.log|] == l[n]; }
    assert forall i | i in s.log :: i in s'.log;
    forall m | 0 <= m < n && Conflicts(s', s'.barriers[b], l[m], conflict)
      ensures l[m] in s'.log && l[m] in s'.barriers[b].deleted
    {
      assert Conflicts(s, s.barriers[b], l[m], conflict);
    }
  }

  lemma FlushedInTurn(s: State, b: nat, conflict: (Scope, Scope) -> bool)
    requires Inv(s, conflict) && Enabled(s, Flush(b), conflict)
    requires Extends(s, Apply(s, Flush(b), conflict)) && InOrder(Apply(s, Flush(b), conflict))
    ensures Ordered(Apply(s, Flush(b), conflict))
  {
    var s' := Apply(s, Flush(b), conflict);
    var l, n := s.barriers[b].listing, s.barriers[b].next;
    OrderBefore(s, s');
    forall m | 0 <= m < n && SameKey(s, l[m], l[n]) ensures l[m] in s.log {
      assert BarrierOk(s, s.barriers[b], conflict) && Conflicts(s, s.barriers[b], l[m], conflict);
    }
    TurnHasCome(s, l, n);
    LogGrows(s, s', l[n]);
  }

  lemma ListStep(s: State, p: nat, conflict: (Scope, Scope) -> bool)
    requires Inv(s, conflict) && Enabled(s, ListAll(p), conflict)
    ensures Inv(Apply(s, ListAll(p), conflict), conflict)
  {
    var s' := Apply(s, ListAll(p), conflict);
    FreshListing(s, s.live);
    StepExtends(s, ListAll(p), conflict);
    SameListing(s, s', ListUpTo(s.live, |s.rows|));
    if InOrder(s') && Ordered(s) { OrderedLasts(s, s'); }
    OthersLast(s, s', conflict);
  }

  lemma OpenStep(s: State, b: nat, producer: string, candidate: Scope, conflict: (Scope, Scope) -> bool)
    requires Inv(s, conflict) && Enabled(s, OpenBarrier(b, producer, candidate), conflict)
    ensures Inv(Apply(s, OpenBarrier(b, producer, candidate), conflict), conflict)
  {
    var s' := Apply(s, OpenBarrier(b, producer, candidate), conflict);
    FreshListing(s, OfProducer(s, producer));
    StepExtends(s, OpenBarrier(b, producer, candidate), conflict);
    SameListing(s, s', ListUpTo(OfProducer(s, producer), |s.rows|));
    if InOrder(s') && Ordered(s) { OrderedLasts(s, s'); }
    OthersLast(s, s', conflict);
  }

  lemma SameListing(s: State, s': State, listing: seq<nat>)
    requires SameNumbers(s, s') && s'.log == s.log && Listing(s, listing) && Complete(s, listing)
    ensures Listing(s', listing) && Complete(s', listing)
  {
    forall i, j | i in listing && j in s'.stamp && j < i && SameKey(s', j, i) && j !in s'.log ensures j in listing {
      assert SameKey(s, j, i);
    }
  }

  lemma EndStep(s: State, step: Step, conflict: (Scope, Scope) -> bool)
    requires Inv(s, conflict) && Enabled(s, step, conflict) && (step.EndPass? || step.RollBack?)
    ensures Inv(Apply(s, step, conflict), conflict)
  {
    var s' := Apply(s, step, conflict);
    StepExtends(s, step, conflict);
    if InOrder(s') && Ordered(s) { OrderedLasts(s, s'); }
    OthersLast(s, s', conflict);
  }

  lemma PassKeepsInv(s: State, step: Step, conflict: (Scope, Scope) -> bool)
    requires Inv(s, conflict) && Enabled(s, step, conflict) && !IsMove(step) && !IsBarrierStep(step)
    ensures Inv(Apply(s, step, conflict), conflict)
  {
    if step.Deliver? { DeliverStep(s, step.pass, conflict); }
    else if step.ListAll? { ListStep(s, step.pass, conflict); }
    else if step.EndPass? { EndStep(s, step, conflict); }
    else { PassStep(s, step, conflict); }
  }

  predicate IsBarrierStep(step: Step) {
    step.OpenBarrier? || step.PassOver? || step.Flush? || step.Commit? || step.RollBack?
  }

  lemma BarrierKeepsInv(s: State, step: Step, conflict: (Scope, Scope) -> bool)
    requires Inv(s, conflict) && Enabled(s, step, conflict) && IsBarrierStep(step)
    ensures Inv(Apply(s, step, conflict), conflict)
  {
    if step.Flush? { FlushStep(s, step.barrier, conflict); }
    else if step.OpenBarrier? { OpenStep(s, step.barrier, step.producer, step.candidate, conflict); }
    else if step.RollBack? { EndStep(s, step, conflict); }
    else if step.PassOver? { PassOverStep(s, step.barrier, conflict); }
    else { CommitStep(s, step.barrier, conflict); }
  }

  lemma StepKeepsInv(s: State, step: Step, conflict: (Scope, Scope) -> bool)
    requires Inv(s, conflict)
    ensures Inv(Next(s, step, conflict), conflict)
  {
    if !Enabled(s, step, conflict) { }
    else if IsMove(step) { MoveStep(s, step, conflict); }
    else if IsBarrierStep(step) { BarrierKeepsInv(s, step, conflict); }
    else { PassKeepsInv(s, step, conflict); }
  }

  // ---------------------------------------------------------------- whole runs

  lemma {:induction false} RunKeepsInv(s: State, steps: seq<Step>, conflict: (Scope, Scope) -> bool)
    requires Inv(s, conflict)
    ensures Inv(RunFrom(s, steps, conflict), conflict)
    decreases |steps|
  {
    if steps == [] {
    } else {
      StepKeepsInv(s, steps[0], conflict);
      RunKeepsInv(Next(s, steps[0], conflict), steps[1..], conflict);
    }
  }

  /** Over every interleaving, in whatever order transactions commit: no published
      verb is removed undelivered, no other is ever delivered, and a barrier that
      has got through its listing has delivered and deleted all of it that
      conflicts with its scope. */
  lemma OutboxSound(steps: seq<Step>, conflict: (Scope, Scope) -> bool)
    ensures var s := Run(steps, conflict);
            && NothingLost(s)
            && (forall b | b in s.barriers && s.barriers[b].next == |s.barriers[b].listing| ::
                  forall i | i in s.barriers[b].listing && Conflicts(s, s.barriers[b], i, conflict) ::
                    i in s.log && i in s.barriers[b].deleted)
  {
    RunKeepsInv(Empty, steps, conflict);
    var s := Run(steps, conflict);
    forall b, i | b in s.barriers && s.barriers[b].next == |s.barriers[b].listing|
                  && i in s.barriers[b].listing && Conflicts(s, s.barriers[b], i, conflict)
      ensures i in s.log && i in s.barriers[b].deleted
    {
      assert BarrierOk(s, s.barriers[b], conflict);
    }
  }

  // ------------------------------------------- what passes and barriers get done

  /** A run up to a step, that step, and what comes after it. */
  lemma Stretch(before: seq<Step>, step: Step, since: seq<Step>, conflict: (Scope, Scope) -> bool)
    ensures var s, s' := Run(before, conflict), Run(before + [step] + since, conflict);
            && s' == RunFrom(Next(s, step, conflict), since, conflict)
            && Sound(s, conflict) && Sound(s', conflict) && s.rows <= s'.rows
  {
    var s := Run(before, conflict);
    RunTogether(Empty, before, [step], conflict);
    RunTogether(Empty, before + [step], since, conflict);
    assert RunFrom(s, [step], conflict) == Next(s, step, conflict);
    RunKeepsInv(Empty, before, conflict);
    RunKeepsInv(s, [step] + since, conflict);
    RunTogether(s, [step], since, conflict);
    RunExtends(s, [step] + since, conflict);
  }

  /** The published rows of a producer whose scope conflicts with a candidate. */
  ghost function InTheWay(s: State, producer: string, candidate: Scope, conflict: (Scope, Scope) -> bool): set<nat> {
    set i | i in s.live && i < |s.rows| && s.rows[i].producer == producer && conflict(candidate, s.rows[i].scope)
  }

  ghost predicate Spares(steps: seq<Step>, barrier: nat) {
    forall step | step in steps :: step != Commit(barrier) && step != RollBack(barrier)
  }

  /** A barrier keeps its listing until it commits or rolls back. */
  lemma {:induction false} BarrierStays(s: State, steps: seq<Step>, b: nat, conflict: (Scope, Scope) -> bool)
    requires b in s.barriers && Spares(steps, b)
    ensures var s' := RunFrom(s, steps, conflict);
            && b in s'.barriers && s'.barriers[b].listing == s.barriers[b].listing
            && s'.barriers[b].candidate == s.barriers[b].candidate
    decreases |steps|
  {
    if steps == [] {
    } else {
      assert steps[0] in steps && forall step | step in steps[1..] :: step in steps;
      BarrierStays(Next(s, steps[0], conflict), steps[1..], b, conflict);
    }
  }

  /** A barrier that is ready to commit, whatever went on since it opened, has
      delivered and is about to delete exactly the rows that were in its way when it
      opened: after its commit none of them is in the table. */
  lemma BarrierClears(before: seq<Step>, b: nat, producer: string, candidate: Scope, since: seq<Step>,
                      conflict: (Scope, Scope) -> bool)
    requires b !in Run(before, conflict).barriers && Spares(since, b)
    ensures var s := Run(before, conflict);
            var s' := Run(before + [OpenBarrier(b, producer, candidate)] + since, conflict);
            Enabled(s', Commit(b), conflict) ==>
              && s'.barriers[b].deleted == InTheWay(s, producer, candidate, conflict)
              && forall i | i in InTheWay(s, producer, candidate, conflict) ::
                   i in s'.log && i !in Next(s', Commit(b), conflict).live
  {
    var s := Run(before, conflict);
    var step := OpenBarrier(b, producer, candidate);
    var begun := Next(s, step, conflict);
    Stretch(before, step, since, conflict);
    OpenLists(s, b, producer, candidate, conflict);
    BarrierStays(begun, since, b, conflict);
    var s' := RunFrom(begun, since, conflict);
    if Enabled(s', Commit(b), conflict) { BarrierDone(s, s', b, producer, candidate, conflict); }
  }

  lemma OpenLists(s: State, b: nat, producer: string, candidate: Scope, conflict: (Scope, Scope) -> bool)
    requires b !in s.barriers
    ensures var s' := Next(s, OpenBarrier(b, producer, candidate), conflict);
            && b in s'.barriers && s'.barriers[b].candidate == candidate
            && forall i: nat ::
                 i in s'.barriers[b].listing <==> i in s.live && i < |s.rows| && s.rows[i].producer == producer
  {
    Listed(OfProducer(s, producer), |s.rows|);
  }

  lemma BarrierDone(s: State, s': State, b: nat, producer: string, candidate: Scope, conflict: (Scope, Scope) -> bool)
    requires b in s'.barriers && BarrierOk(s', s'.barriers[b], conflict) && s.rows <= s'.rows
    requires s'.barriers[b].next == |s'.barriers[b].listing| && s'.barriers[b].candidate == candidate
    requires forall i: nat ::
      i in s'.barriers[b].listing <==> i in s.live && i < |s.rows| && s.rows[i].producer == producer
    ensures s'.barriers[b].deleted == InTheWay(s, producer, candidate, conflict)
    ensures forall i | i in InTheWay(s, producer, candidate, conflict) ::
              i in s'.log && i !in Next(s', Commit(b), conflict).live
  {
    var bar := s'.barriers[b];
    forall i: nat ensures i in bar.deleted <==> i in InTheWay(s, producer, candidate, conflict) {
      if i in bar.listing && conflict(candidate, s.rows[i].scope) {
        var m :| 0 <= m < |bar.listing| && bar.listing[m] == i;
        assert Conflicts(s', bar, bar.listing[m], conflict);
      }
    }
  }

  ghost predicate Continues(steps: seq<Step>, pass: nat) {
    forall step | step in steps :: step != EndPass(pass)
  }

  /** No delivery of the pass is refused and no row put off. */
  ghost predicate Smooth(steps: seq<Step>, pass: nat) {
    forall step | step in steps :: step != Refuse(pass) && step != Defer(pass)
  }

  lemma {:induction false} PassStays(s: State, steps: seq<Step>, p: nat, conflict: (Scope, Scope) -> bool)
    requires p in s.passes && Continues(steps, p)
    ensures var s' := RunFrom(s, steps, conflict);
            && p in s'.passes && s'.passes[p].listing == s.passes[p].listing
            && (Smooth(steps, p) ==> s'.passes[p].blocked == s.passes[p].blocked)
    decreases |steps|
  {
    if steps == [] {
    } else {
      assert steps[0] in steps && forall step | step in steps[1..] :: step in steps;
      PassStays(Next(s, steps[0], conflict), steps[1..], p, conflict);
    }
  }

  /** A pass that has come to the end of its work, whatever went on meanwhile, has
      delivered and deleted every row that was in the table when it began, but for
      rows whose key it gave up on; and it gives up on a key only if a delivery is
      refused or a row is put off. */
  lemma PassDelivers(before: seq<Step>, p: nat, since: seq<Step>, conflict: (Scope, Scope) -> bool)
    requires p !in Run(before, conflict).passes && Continues(since, p)
    ensures var s, s' := Run(before, conflict), Run(before + [ListAll(p)] + since, conflict);
            p in s'.passes && !AtRow(s', p) ==>
              && (forall i | i in s.live ::
                    i < |s.rows| && (Gone(s', i) || BlockKey(s.rows[i]) in s'.passes[p].blocked))
              && (Smooth(since, p) ==> s'.passes[p].blocked == {})
  {
    var s := Run(before, conflict);
    var listed := Next(s, ListAll(p), conflict);
    Stretch(before, ListAll(p), since, conflict);
    PassStays(listed, since, p, conflict);
    Listed(s.live, |s.rows|);
    var s' := RunFrom(listed, since, conflict);
    if !AtRow(s', p) { PassDone(s, s', p); }
  }

  lemma PassDone(s: State, s': State, p: nat)
    requires Numbered(s) && NothingLost(s) && Numbered(s') && s.rows <= s'.rows
    requires p in s'.passes && PassOk(s', s'.passes[p]) && !AtRow(s', p)
    requires forall i: nat :: i in s'.passes[p].listing <==> i in s.live && i < |s.rows|
    ensures forall i | i in s.live :: i < |s.rows| && (Gone(s', i) || BlockKey(s.rows[i]) in s'.passes[p].blocked)
  {
    var l, n := s'.passes[p].listing, s'.passes[p].next;
    forall m | 0 <= m < |l| ensures l[m] < |s'.rows| { assert l[m] in l; }
    assert n == |l|;
    forall i | i in s.live ensures i < |s.rows| && (Gone(s', i) || BlockKey(s.rows[i]) in s'.passes[p].blocked) {
      assert i in s.stamp && i in l;
      var m :| 0 <= m < |l| && l[m] == i;
      assert Gone(s', l[m]) || Blocked(s', s'.passes[p], l[m]);
    }
  }

  /** The steps of the settling transactions among all steps. */
  function Moves(steps: seq<Step>): seq<Step> {
    if steps == [] then [] else (if IsMove(steps[0]) then [steps[0]] else []) + Moves(steps[1..])
  }

  ghost predicate SameNumbers(s: State, t: State) {
    s.rows == t.rows && s.open == t.open && s.commits == t.commits && s.stamp == t.stamp
  }

  lemma SameMove(s: State, t: State, step: Step, conflict: (Scope, Scope) -> bool)
    requires SameNumbers(s, t)
    ensures SameNumbers(Next(s, step, conflict), if IsMove(step) then Next(t, step, conflict) else t)
  {
  }

  /** Passes and barriers have no say in what is published when. */
  lemma {:induction false} MovesDecide(s: State, t: State, steps: seq<Step>, conflict: (Scope, Scope) -> bool)
    requires SameNumbers(s, t)
    ensures SameNumbers(RunFrom(s, steps, conflict), RunFrom(t, Moves(steps), conflict))
    decreases |steps|
  {
    if steps == [] {
    } else {
      var s' := Next(s, steps[0], conflict);
      SameMove(s, t, steps[0], conflict);
      if IsMove(steps[0]) {
        assert Moves(steps)[0] == steps[0] && Moves(steps)[1..] == Moves(steps[1..]);
        MovesDecide(s', Next(t, steps[0], conflict), steps[1..], conflict);
      } else {
        assert Moves(steps) == Moves(steps[1..]);
        MovesDecide(s', t, steps[1..], conflict);
      }
    }
  }

  /** Verbs of one producer and scope are first delivered in the order of their
      numbers, whatever passes and barriers do, exactly if the settling
      transactions publish them in that order. */
  lemma OutboxOrder(moves: seq<Step>, conflict: (Scope, Scope) -> bool)
    requires forall m | m in moves :: IsMove(m)
    ensures InOrder(Run(moves, conflict)) <==>
            forall steps | Moves(steps) == moves :: Ordered(Run(steps, conflict))
  {
    if InOrder(Run(moves, conflict)) {
      forall steps | Moves(steps) == moves ensures Ordered(Run(steps, conflict)) {
        MovesDecide(Empty, Empty, steps, conflict);
        RunKeepsInv(Empty, steps, conflict);
        SameOrder(Run(steps, conflict), Run(moves, conflict));
      }
    } else {
      var s := Run(moves, conflict);
      var i, j :| i in s.stamp && j in s.stamp && i < j && SameKey(s, i, j) && s.stamp[i] > s.stamp[j];
      var n := Gap(Empty, moves, conflict, i, j);
      var steps := Overtake(moves, conflict, n, i, j);
    }
  }

  lemma SameOrder(s: State, t: State)
    requires SameNumbers(s, t) && InOrder(t)
    ensures InOrder(s)
  {
    forall i, j | i in s.stamp && j in s.stamp && i < j && SameKey(s, i, j) ensures s.stamp[i] <= s.stamp[j] {
      assert SameKey(t, i, j);
    }
  }

  lemma {:induction false} RunExtends(s: State, steps: seq<Step>, conflict: (Scope, Scope) -> bool)
    requires Numbered(s)
    ensures Numbered(RunFrom(s, steps, conflict)) && Extends(s, RunFrom(s, steps, conflict))
    decreases |steps|
  {
    if steps == [] {
    } else {
      StepExtends(s, steps[0], conflict);
      RunExtends(Next(s, steps[0], conflict), steps[1..], conflict);
      ExtendsTrans(s, Next(s, steps[0], conflict), RunFrom(s, steps, conflict));
    }
  }

  lemma ExtendsTrans(s: State, t: State, u: State)
    requires Extends(s, t) && Extends(t, u)
    ensures Extends(s, u)
  {
  }

  /** Between the commits that publish `j` and `i` only `j` is to be seen. */
  lemma {:induction false} Gap(s: State, moves: seq<Step>, conflict: (Scope, Scope) -> bool, i: nat, j: nat)
    returns (n: nat)
    requires Numbered(s) && i !in s.stamp && j !in s.stamp
    requires var e := RunFrom(s, moves, conflict); i in e.stamp && j in e.stamp && e.stamp[i] > e.stamp[j]
    ensures n <= |moves|
    ensures var m := RunFrom(s, moves[..n], conflict); i !in m.stamp && j in m.stamp
    decreases |moves|
  {
    var s' := Next(s, moves[0], conflict);
    StepExtends(s, moves[0], conflict);
    RunExtends(s', moves[1..], conflict);
    FirstSeen(s, s', RunFrom(s, moves, conflict), moves[0], i, j, conflict);
    if j in s'.stamp {
      n := 1;
      OneStep(s, moves[0], conflict);
      assert moves[..1] == [moves[0]];
    } else {
      var k := Gap(s', moves[1..], conflict, i, j);
      n := k + 1;
      assert moves[..n][0] == moves[0] && moves[..n][1..] == moves[1..][..k];
    }
  }

  lemma FirstSeen(s: State, s': State, e: State, step: Step, i: nat, j: nat, conflict: (Scope, Scope) -> bool)
    requires Numbered(s) && s' == Next(s, step, conflict) && Extends(s', e) && Numbered(s')
    requires i !in s.stamp && j !in s.stamp && i in e.stamp && j in e.stamp && e.stamp[i] > e.stamp[j]
    ensures i !in s'.stamp
  {
  }

  lemma {:induction false} RunTogether(s: State, a: seq<Step>, b: seq<Step>, conflict: (Scope, Scope) -> bool)
    ensures RunFrom(s, a + b, conflict) == RunFrom(RunFrom(s, a, conflict), b, conflict)
    decreases |a|
  {
    if a == [] {
      assert a + b == b;
    } else {
      assert (a + b)[0] == a[0] && (a + b)[1..] == a[1..] + b;
      RunTogether(Next(s, a[0], conflict), a[1..], b, conflict);
    }
  }

  lemma {:induction false} MovesTogether(a: seq<Step>, b: seq<Step>)
    ensures Moves(a + b) == Moves(a) + Moves(b)
  {
    if a == [] {
      assert a + b == b;
    } else {
      assert (a + b)[0] == a[0] && (a + b)[1..] == a[1..] + b;
      MovesTogether(a[1..], b);
      Regroup(if IsMove(a[0]) then [a[0]] else [], Moves(a[1..]), Moves(b));
    }
  }

  lemma Regroup(a: seq<Step>, b: seq<Step>, c: seq<Step>)
    ensures a + (b + c) == a + b + c
  {
  }

  lemma {:induction false} AllMoves(moves: seq<Step>)
    requires forall m | m in moves :: IsMove(m)
    ensures Moves(moves) == moves
  {
    if moves == [] {
    } else {
      assert moves[0] in moves;
      AllMoves(moves[1..]);
    }
  }

  /** Moves alone touch neither the log nor passes, and delete nothing. */
  lemma {:induction false} MovesOnly(s: State, moves: seq<Step>, conflict: (Scope, Scope) -> bool)
    requires forall m | m in moves :: IsMove(m)
    ensures var e := RunFrom(s, moves, conflict);
            e.log == s.log && e.passes == s.passes && (s.live == s.stamp.Keys ==> e.live == e.stamp.Keys)
    decreases |moves|
  {
    if moves == [] {
    } else {
      assert moves[0] in moves;
      MovesOnly(Next(s, moves[0], conflict), moves[1..], conflict);
    }
  }

  /** A pass of its own that delivers everything up to its `k`th row. */
  function Drive(k: nat): seq<Step> {
    if k == 0 then [ListAll(0)] else Drive(k - 1) + [Deliver(0), Delete(0)]
  }

  lemma {:induction false} DriveMoves(k: nat)
    ensures Moves(Drive(k)) == []
  {
    if k == 0 {
    } else {
      DriveMoves(k - 1);
      MovesTogether(Drive(k - 1), [Deliver(0), Delete(0)]);
      assert [Deliver(0), Delete(0)][1..] == [Delete(0)];
    }
  }

  lemma {:induction false} Driven(s: State, k: nat, conflict: (Scope, Scope) -> bool)
    requires Numbered(s) && s.log == [] && s.passes == map[] && s.live == s.stamp.Keys
    requires k <= |ListUpTo(s.live, |s.rows|)|
    ensures DrivenTo(s, RunFrom(s, Drive(k), conflict), k)
  {
    if k > 0 {
      Driven(s, k - 1, conflict);
      var e := RunFrom(s, Drive(k - 1), conflict);
      RunTogether(s, Drive(k - 1), [Deliver(0), Delete(0)], conflict);
      TwoSteps(e, Deliver(0), Delete(0), conflict);
      DriveOn(s, e, k - 1, conflict);
    } else {
      OneStep(s, ListAll(0), conflict);
    }
  }

  /** The pass has delivered and deleted the first `k` rows it listed in `s`. */
  ghost predicate DrivenTo(s: State, e: State, k: nat) {
    var l := ListUpTo(s.live, |s.rows|);
    k <= |l| && SameNumbers(s, e) && e.log == l[..k] && e.passes == map[0 := Pass(l, k, {}, false)]
  }

  lemma DriveOn(s: State, e: State, k: nat, conflict: (Scope, Scope) -> bool)
    requires Numbered(s) && s.live == s.stamp.Keys && DrivenTo(s, e, k) && k < |ListUpTo(s.live, |s.rows|)|
    ensures Undecided(e, 0) && AtRow(Delivered(e, 0), 0) && Delivered(e, 0).passes[0].delivered
    ensures SameNumbers(s, Delivered(e, 0)) && Delivered(e, 0).log == ListUpTo(s.live, |s.rows|)[..k + 1]
    ensures DrivenTo(s, Deleted(Delivered(e, 0), 0), k + 1)
  {
    var l := ListUpTo(s.live, |s.rows|);
    Listed(s.live, |s.rows|);
    assert l[k] in l;
    OneRowDriven(e, l, k);
  }

  lemma OneRowDriven(e: State, l: seq<nat>, k: nat)
    requires k < |l| && l[k] < |e.rows| && e.log == l[..k] && e.passes == map[0 := Pass(l, k, {}, false)]
    ensures Undecided(e, 0) && AtRow(Delivered(e, 0), 0) && Delivered(e, 0).passes[0].delivered
    ensures Delivered(e, 0).log == l[..k + 1]
    ensures Deleted(Delivered(e, 0), 0).passes == map[0 := Pass(l, k + 1, {}, false)]
  {
    assert AtRow(e, 0) && Current(e, 0) == l[k];
    var d := Delivered(e, 0);
    assert d.passes == map[0 := Pass(l, k, {}, true)] && AtRow(d, 0);
  }

  lemma OneStep(s: State, a: Step, conflict: (Scope, Scope) -> bool)
    ensures RunFrom(s, [a], conflict) == Next(s, a, conflict)
  {
  }

  lemma TwoSteps(s: State, a: Step, b: Step, conflict: (Scope, Scope) -> bool)
    ensures RunFrom(s, [a, b], conflict) == Next(Next(s, a, conflict), b, conflict)
  {
    assert [a, b][1..] == [b];
    OneStep(Next(s, a, conflict), b, conflict);
  }

  /** A pass that falls into the gap delivers `j` before `i`. */
  lemma Overtake(moves: seq<Step>, conflict: (Scope, Scope) -> bool, n: nat, i: nat, j: nat)
    returns (steps: seq<Step>)
    requires (forall m | m in moves :: IsMove(m)) && n <= |moves|
    requires var m := Run(moves[..n], conflict); i !in m.stamp && j in m.stamp
    requires var e := Run(moves, conflict); i in e.stamp && i < j && SameKey(e, i, j)
    ensures Moves(steps) == moves && !Ordered(Run(steps, conflict))
  {
    var before, after := moves[..n], moves[n..];
    assert moves == before + after;
    var s := Run(before, conflict);
    RunExtends(Empty, before, conflict);
    MovesOnly(Empty, before, conflict);
    var k := DeliversEarly(s, i, j, conflict);
    var pass := Drive(k) + [Deliver(0)];
    steps := before + pass + after;
    PassMoves(before, pass, after, k);
    var e := RunFrom(s, pass, conflict);
    RunTogether(Empty, before, pass, conflict);
    RunTogether(Empty, before + pass, after, conflict);
    MovesOnly(e, after, conflict);
    MovesDecide(Empty, Empty, steps, conflict);
    OvertakenIs(Run(moves, conflict), Run(steps, conflict), k, i, j);
  }

  lemma DeliversEarly(s: State, i: nat, j: nat, conflict: (Scope, Scope) -> bool) returns (k: nat)
    requires Numbered(s) && s.log == [] && s.passes == map[] && s.live == s.stamp.Keys
    requires i !in s.stamp && j in s.stamp
    ensures var e := RunFrom(s, Drive(k) + [Deliver(0)], conflict);
            |e.log| == k + 1 && e.log[k] == j && i !in e.log
  {
    Listed(s.live, |s.rows|);
    var l := ListUpTo(s.live, |s.rows|);
    assert j in l && i !in l;
    k :| 0 <= k < |l| && l[k] == j;
    DeliversAt(s, k, conflict);
  }

  lemma DeliversAt(s: State, k: nat, conflict: (Scope, Scope) -> bool)
    requires Numbered(s) && s.log == [] && s.passes == map[] && s.live == s.stamp.Keys
    requires k < |ListUpTo(s.live, |s.rows|)|
    ensures RunFrom(s, Drive(k) + [Deliver(0)], conflict).log == ListUpTo(s.live, |s.rows|)[..k + 1]
  {
    Driven(s, k, conflict);
    var d := RunFrom(s, Drive(k), conflict);
    RunTogether(s, Drive(k), [Deliver(0)], conflict);
    DriveOn(s, d, k, conflict);
    assert Next(d, Deliver(0), conflict) == Delivered(d, 0);
    OneStep(d, Deliver(0), conflict);
  }

  lemma OvertakenIs(e: State, f: State, k: nat, i: nat, j: nat)
    requires SameNumbers(f, e) && i in e.stamp && i < j && SameKey(e, i, j)
    requires |f.log| == k + 1 && f.log[k] == j && i !in f.log
    ensures !Ordered(f)
  {
    assert SameKey(f, i, f.log[k]) && i !in f.log[..k];
  }

  lemma PassMoves(before: seq<Step>, pass: seq<Step>, after: seq<Step>, k: nat)
    requires forall m | m in before + after :: IsMove(m)
    requires pass == Drive(k) + [Deliver(0)]
    ensures Moves(before + pass + after) == before + after
  {
    DriveMoves(k);
    MovesTogether(Drive(k), [Deliver(0)]);
    MovesTogether(before, pass);
    MovesTogether(before + pass, after);
    assert forall m | m in before :: m in before + after;
    assert forall m | m in after :: m in before + after;
    AllMoves(before);
    AllMoves(after);
  }

  /** Two claims on one scope, settled by two supervisors: the second draws its
      number later, commits first, and its verb overtakes. */
  lemma LaterVerbOvertakes(r: Row, conflict: (Scope, Scope) -> bool)
    ensures var s := Run([Reserve(0, r), Reserve(1, r), Publish(1)] + [ListAll(0), Deliver(0), Publish(0)], conflict);
            s.log == [1] && 0 in s.stamp && 0 in s.live && SameKey(s, 0, 1) && !Ordered(s)
  {
    var early, late := [Reserve(0, r), Reserve(1, r), Publish(1)], [ListAll(0), Deliver(0), Publish(0)];
    RunTogether(Empty, early, late, conflict);
    DrawnAndOneOut(r, conflict);
    OutAndDelivered(Run(early, conflict), r, conflict);
  }

  ghost predicate SecondIsOut(m: State, r: Row) {
    && m.rows == [r, r] && m.open == map[0 := {0}] && m.live == {1}
    && m.stamp == map[1 := 0] && m.log == [] && m.passes == map[]
  }

  lemma DrawnAndOneOut(r: Row, conflict: (Scope, Scope) -> bool)
    ensures SecondIsOut(Run([Reserve(0, r), Reserve(1, r), Publish(1)], conflict), r)
  {
    ThreeSteps(Empty, [Reserve(0, r), Reserve(1, r), Publish(1)], conflict);
    var a := Next(Empty, Reserve(0, r), conflict);
    assert a.rows == [r] && a.open[0] == {0} && a.open == map[0 := {0}];
    var b := Next(a, Reserve(1, r), conflict);
    assert b.rows == [r, r] && b.open[1] == {1} && b.open == map[0 := {0}, 1 := {1}];
  }

  lemma OutAndDelivered(m: State, r: Row, conflict: (Scope, Scope) -> bool)
    requires SecondIsOut(m, r)
    ensures var s := RunFrom(m, [ListAll(0), Deliver(0), Publish(0)], conflict);
            s.log == [1] && 0 in s.stamp && 0 in s.live && SameKey(s, 0, 1) && !Ordered(s)
  {
    ThreeSteps(m, [ListAll(0), Deliver(0), Publish(0)], conflict);
    assert ListUpTo(m.live, 2) == [1] by { assert ListUpTo(m.live, 0) == [] && ListUpTo(m.live, 1) == []; }
    var a := Next(m, ListAll(0), conflict);
    assert a.passes == map[0 := Pass([1], 0, {}, false)];
    OneRowDriven(a, [1], 0);
    var s := Published(Delivered(a, 0), 0);
    assert RunFrom(m, [ListAll(0), Deliver(0), Publish(0)], conflict) == s;
    assert s.log == [1] && SameKey(s, 0, 1) && s.log[..0] == [];
  }

  lemma ThreeSteps(s: State, l: seq<Step>, conflict: (Scope, Scope) -> bool)
    requires |l| == 3
    ensures RunFrom(s, l, conflict) == Next(Next(Next(s, l[0], conflict), l[1], conflict), l[2], conflict)
  {
    assert l[1..] == [l[1], l[2]];
    TwoSteps(Next(s, l[0], conflict), l[1], l[2], conflict);
  }

  // ------------------------------------------------------- waiting to publish

  /** No transaction is still open with a smaller number of a key it publishes. */
  ghost predicate MayPublish(s: State, x: nat) {
    x in s.open && forall y: nat, i: nat, j: nat | DrawnBy(s, y, i) && y != x && DrawnBy(s, x, j)
        && SameKey(s, i, j) :: j < i
  }

  ghost predicate Waiting(s: State, moves: seq<Step>, conflict: (Scope, Scope) -> bool)
    decreases |moves|
  {
    moves == [] ||
    (&& (moves[0].Publish? && moves[0].tx in s.open ==> MayPublish(s, moves[0].tx))
     && Waiting(Next(s, moves[0], conflict), moves[1..], conflict))
  }

  /** Open numbers are above the published ones of their key. */
  ghost predicate Ahead(s: State) {
    forall x: nat, i: nat, j: nat | DrawnBy(s, x, j) && i in s.stamp && SameKey(s, i, j) :: i < j
  }

  /** Transactions that wait for smaller open numbers publish in order. */
  lemma {:induction false} WaitersPublishInOrder(s: State, moves: seq<Step>, conflict: (Scope, Scope) -> bool)
    requires (forall m | m in moves :: IsMove(m)) && Waiting(s, moves, conflict)
    requires Numbered(s) && InOrder(s) && Ahead(s)
    ensures InOrder(RunFrom(s, moves, conflict))
    decreases |moves|
  {
    if moves == [] {
    } else {
      var s' := Next(s, moves[0], conflict);
      assert moves[0] in moves;
      StepExtends(s, moves[0], conflict);
      WaiterStep(s, moves[0], conflict);
      WaitersPublishInOrder(s', moves[1..], conflict);
    }
  }

  lemma WaiterStep(s: State, move: Step, conflict: (Scope, Scope) -> bool)
    requires IsMove(move) && Numbered(s) && InOrder(s) && Ahead(s)
    requires move.Publish? && move.tx in s.open ==> MayPublish(s, move.tx)
    ensures InOrder(Next(s, move, conflict)) && Ahead(Next(s, move, conflict))
  {
    if !Enabled(s, move, conflict) {
    } else if move.Reserve? {
      DrawsAhead(s, move.tx, move.row);
    } else if move.Publish? {
      PublishesInOrder(s, move.tx);
    } else {
      var s' := Apply(s, move, conflict);
      SameOrder(s', s.(open := s'.open));
      forall y: nat, i: nat, j: nat | DrawnBy(s', y, j) && i in s'.stamp && SameKey(s', i, j) ensures i < j {
        assert DrawnBy(s, y, j) && SameKey(s, i, j);
      }
    }
  }

  lemma DrawsAhead(s: State, x: nat, row: Row)
    requires Numbered(s) && InOrder(s) && Ahead(s)
    ensures InOrder(Reserved(s, x, row)) && Ahead(Reserved(s, x, row))
  {
    var s' := Reserved(s, x, row);
    forall i, j | i in s'.stamp && j in s'.stamp && i < j && SameKey(s', i, j) ensures s'.stamp[i] <= s'.stamp[j] {
      assert SameKey(s, i, j);
    }
    forall y: nat, i: nat, j: nat | DrawnBy(s', y, j) && i in s'.stamp && SameKey(s', i, j) ensures i < j {
      if j < |s.rows| { assert DrawnBy(s, y, j) && SameKey(s, i, j); }
    }
  }

  lemma PublishesInOrder(s: State, x: nat)
    requires Numbered(s) && InOrder(s) && Ahead(s) && MayPublish(s, x)
    ensures InOrder(Published(s, x)) && Ahead(Published(s, x))
  {
    var s' := Published(s, x);
    assert forall i | i in s.open[x] :: DrawnBy(s, x, i);
    forall i, j | i in s'.stamp && j in s'.stamp && i < j && SameKey(s', i, j) ensures s'.stamp[i] <= s'.stamp[j] {
      assert SameKey(s, i, j) && SameKey(s, j, i);
    }
    forall y: nat, i: nat, j: nat | DrawnBy(s', y, j) && i in s'.stamp && SameKey(s', i, j) ensures i < j {
      assert DrawnBy(s, y, j) && SameKey(s, i, j) && SameKey(s, j, i);
    }
  }

  /** And nobody can do with less: one that does not wait is overtaken if the
      other transaction commits next. */
  lemma MustWait(s: State, x: nat, conflict: (Scope, Scope) -> bool)
    requires Numbered(s) && x in s.open && !MayPublish(s, x)
    ensures exists y :: y in s.open && !InOrder(RunFrom(s, [Publish(x), Publish(y)], conflict))
  {
    var y: nat, i: nat, j: nat :| DrawnBy(s, y, i) && y != x && DrawnBy(s, x, j) && SameKey(s, i, j) && j >= i;
    var e := RunFrom(s, [Publish(x), Publish(y)], conflict);
    TwoSteps(s, Publish(x), Publish(y), conflict);
    assert e == Published(Published(s, x), y);
    assert !DrawnBy(s, y, j);
    assert SameKey(e, i, j) && e.stamp[j] < e.stamp[i] && i < j;
  }

  // ---------------------------------------------------------------- backoff

  function Pow2(n: nat): nat { if n == 0 then 1 else 2 * Pow2(n - 1) }

  function Min(a: int, b: int): int { if a < b then a else b }

  lemma ScaledGrows(base: int, m: nat, n: nat)
    requires base > 0 && m <= n
    ensures base <= base * Pow2(m) <= base * Pow2(n)
  {
  }

  // Nanoseconds.
  const DEFAULT_BASE := 1_000_000_000
  const DEFAULT_MAX := 60_000_000_000

  function Effective(given: int, fallback: int): int { if given <= 0 then fallback else given }

  /** The wait before the next attempt doubles with every attempt, up to a cap. */
  method Backoff(attempts: int, baseGiven: int, maxGiven: int) returns (wait: int)
    ensures wait == Min(Effective(maxGiven, DEFAULT_MAX),
                        Effective(baseGiven, DEFAULT_BASE) * Pow2(if attempts <= 1 then 0 else attempts - 1))
  {
    var base, max := Effective(baseGiven, DEFAULT_BASE), Effective(maxGiven, DEFAULT_MAX);
    wait := base;
    var i := 1;
    while i < attempts
      invariant 1 <= i && (attempts >= 1 ==> i <= attempts) && (attempts < 1 ==> i == 1) && wait == base * Pow2(i - 1)
    {
      wait := wait * 2;
      assert wait == base * Pow2(i);
      if wait >= max {
        ScaledGrows(base, i, attempts - 1);
        return max;
      }
      i := i + 1;
    }
    if wait > max { return max; }
  }
}
