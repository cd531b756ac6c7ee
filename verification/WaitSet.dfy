/** Cascade rounds: which pending run of a receiver an emission lands in, when a
    pending run may leave, and which sender run a receiver is pinned to. Runs are
    numbered in order of creation. */
module WaitSet {
  import opened Claims

  type NodeId = nat
  type ScopeId = nat
  type FrameId = nat

  /** `Pending` is a run created by a cascade whose gate has not opened; `Working`
      stands for stale, running and parked. */
  datatype Stage = Pending | Working | Holding | Settled

  datatype RunRow = RunRow(node: NodeId, scope: ScopeId, frame: FrameId, stage: Stage)

  /** A transaction that emits from one sender run, whose row it keeps locked: the
      receivers it has locked, the receivers it has resolved already, the runs it
      has added a wait row to, and the runs it has created. Nobody else sees those
      rows and runs before it commits. */
  datatype Turn = Turn(sender: nat, locked: set<NodeId>, visited: set<NodeId>, added: set<nat>, created: set<nat>)

  /** How a turn ends for its sender. `Drain` is a delegation that has come back:
      the caller's wait rows are drained and the caller goes on. */
  datatype Fate = Stay | Drain | Hold | Settle

  /** How a pending run leaves: its gate clears, its attributes fail to resolve at
      the gate, or the cascade mode drops it. */
  datatype Way = Clear | Fail | Drop

  /** The subscription edges, the holding subgraphs, the nodes whose runs have child
      runs, and those that delegate. */
  datatype Rules = Rules(edges: set<(NodeId, NodeId)>, subgraphs: set<set<NodeId>>,
                         aggregates: NodeId -> bool, delegates: NodeId -> bool)

  ghost predicate CoMembers(rules: Rules, a: NodeId, b: NodeId) {
    exists g :: g in rules.subgraphs && a in g && b in g
  }

  /** A run that leaves Held tells nobody in its own subgraph, unless it leaves it
      because its child runs have settled. */
  ghost predicate MayEmit(rules: Rules, sender: NodeId, stage: Stage, receiver: NodeId) {
    && (sender, receiver) in rules.edges
    && (stage.Working? || (stage.Holding? && (rules.aggregates(sender) || !CoMembers(rules, sender, receiver))))
  }

  /** `wait[r]` holds the sender runs of the wait rows of run `r`, and `drained[r]`
      those whose rows are drained. */
  datatype State = State(runs: seq<RunRow>, wait: seq<set<nat>>, drained: seq<set<nat>>,
                         turns: map<nat, Turn>, closed: set<ScopeId>)

  datatype Step =
    | Start(node: NodeId, scope: ScopeId, frame: FrameId)
    | BeginTurn(turn: nat, sender: nat)
    | Emit(turn: nat, receiver: NodeId)
    | EndTurn(turn: nat, fate: Fate)
    | Leave(run: nat, way: Way)
    | Close(scope: ScopeId)

  predicate Matches(r: RunRow, node: NodeId, scope: ScopeId, frame: FrameId) {
    r.stage.Pending? && r.node == node && r.scope == scope && r.frame == frame
  }

  /** The latest pending run of a receiver. */
  function Latest(runs: seq<RunRow>, node: NodeId, scope: ScopeId, frame: FrameId): (r: Option<nat>)
    ensures r.Some? ==> r.value < |runs| && Matches(runs[r.value], node, scope, frame)
    ensures forall i | 0 <= i < |runs| && Matches(runs[i], node, scope, frame) :: r.Some? && i <= r.value
  {
    if runs == [] then None
    else if Matches(runs[|runs| - 1], node, scope, frame) then Some(|runs| - 1)
    else Latest(runs[..|runs| - 1], node, scope, frame)
  }

  ghost predicate Shaped(s: State) {
    && |s.wait| == |s.runs| && |s.drained| == |s.runs|
    && (forall r, a | 0 <= r < |s.wait| && a in s.wait[r] :: a < |s.runs|)
    && (forall t | t in s.turns :: s.turns[t].sender < |s.runs|)
  }

  // ---------------------------------------------------------------- the gate

  ghost predicate Unseen(s: State, u: nat, r: nat) {
    u in s.turns && r in s.turns[u].created
  }

  ghost predicate Seen(s: State, r: nat) {
    forall u: nat :: !Unseen(s, u, r)
  }

  /** The wait row of `a` at `r` is one that an open turn has just added. */
  ghost predicate AddedBy(s: State, u: nat, a: nat, r: nat) {
    u in s.turns && s.turns[u].sender == a && r in s.turns[u].added
  }

  /** A committed wait row of `r` that is not drained. */
  ghost predicate Undrained(s: State, r: nat, a: nat)
    requires Shaped(s) && r < |s.runs|
  {
    a in s.wait[r] && a !in s.drained[r] && forall u: nat :: !AddedBy(s, u, a, r)
  }

  /** A run of another node that `r` subscribes to, in flight in the same round; one
      that rests in Held does not count for a co-member. */
  ghost predicate InFlightFor(s: State, rules: Rules, r: nat, b: nat)
    requires Shaped(s) && r < |s.runs|
  {
    && b < |s.runs| && Seen(s, b) && s.runs[b].node != s.runs[r].node
    && (s.runs[b].node, s.runs[r].node) in rules.edges
    && s.runs[b].scope == s.runs[r].scope && s.runs[b].frame == s.runs[r].frame
    && !s.runs[b].stage.Settled?
    && (s.runs[b].stage.Holding? ==> !CoMembers(rules, s.runs[b].node, s.runs[r].node))
  }

  ghost predicate AdvancedSibling(s: State, r: nat, b: nat)
    requires Shaped(s) && r < |s.runs|
  {
    && b < |s.runs| && b != r && Seen(s, b) && s.runs[b].node == s.runs[r].node
    && s.runs[b].scope == s.runs[r].scope && (s.runs[b].stage.Working? || s.runs[b].stage.Holding?)
  }

  /** What another transaction must find to let `r` leave. An advanced sibling is
      looked for last: a run whose attributes fail and one that is dropped leave
      before that. A row that an open turn has just added keeps `r` from being
      deleted. */
  ghost predicate GateOpen(s: State, rules: Rules, r: nat, way: Way)
    requires Shaped(s)
  {
    && r < |s.runs| && s.runs[r].stage.Pending? && Seen(s, r)
    && (forall a :: !Undrained(s, r, a)) && (forall b :: !InFlightFor(s, rules, r, b))
    && (way.Clear? ==> forall b :: !AdvancedSibling(s, r, b))
    && (way.Drop? ==> forall u | u in s.turns :: r !in s.turns[u].added)
  }

  // ---------------------------------------------------------------- the steps

  /** Receiver `node` is locked by turn `u`, which runs in the given round. */
  ghost predicate LockedBy(s: State, u: nat, node: NodeId, scope: ScopeId, frame: FrameId)
    requires Shaped(s)
  {
    u in s.turns && node in s.turns[u].locked
    && s.runs[s.turns[u].sender].scope == scope && s.runs[s.turns[u].sender].frame == frame
  }

  /** Held runs end their one turn by settling; only delegation drains and goes on,
      and only members of a holding subgraph go Held. */
  ghost predicate MayEnd(rules: Rules, sender: RunRow, fate: Fate) {
    match fate
    case Stay => sender.stage.Working?
    case Drain => sender.stage.Working? && rules.delegates(sender.node)
    case Hold => sender.stage.Working? && CoMembers(rules, sender.node, sender.node)
    case Settle => true
  }

  ghost predicate Enabled(s: State, rules: Rules, step: Step)
    requires Shaped(s)
  {
    match step
    case Start(_, _, _) => true
    case BeginTurn(t, a) =>
      && t !in s.turns && a < |s.runs| && (s.runs[a].stage.Working? || s.runs[a].stage.Holding?)
      && forall u | u in s.turns :: s.turns[u].sender != a
    case Emit(t, node) =>
      t in s.turns && var snd := s.runs[s.turns[t].sender];
      && MayEmit(rules, snd.node, snd.stage, node)
      && forall u: nat | u != t :: !LockedBy(s, u, node, snd.scope, snd.frame)
    case EndTurn(t, fate) => t in s.turns && MayEnd(rules, s.runs[s.turns[t].sender], fate)
    case Leave(r, way) => GateOpen(s, rules, r, way)
    case Close(_) => true
  }

  ghost predicate HoldsSenderNode(s: State, r: nat, node: NodeId)
    requires Shaped(s) && r < |s.wait|
  {
    exists a :: a in s.wait[r] && s.runs[a].node == node
  }

  /** The latest pending run will do if the sender run is in it already or no run
      of the sender's node is; otherwise a new round begins. */
  ghost predicate LatestWillDo(s: State, t: nat, node: NodeId)
    requires Shaped(s) && t in s.turns
  {
    var a := s.turns[t].sender;
    var l := Latest(s.runs, node, s.runs[a].scope, s.runs[a].frame);
    l.Some? && (node in s.turns[t].visited || a in s.wait[l.value] || !HoldsSenderNode(s, l.value, s.runs[a].node))
  }

  ghost function Emitted(s: State, t: nat, node: NodeId): State
    requires Shaped(s) && t in s.turns
  {
    var a := s.turns[t].sender;
    if LatestWillDo(s, t, node) then Joined(s, t, node, Latest(s.runs, node, s.runs[a].scope, s.runs[a].frame).value)
    else if node in s.turns[t].visited || s.runs[a].scope in s.closed then
      s.(turns := s.turns[t := s.turns[t].(locked := s.turns[t].locked + {node})])
    else Begun(s, t, node)
  }

  /** The sender's row goes to run `l`; one that is there already is left alone. */
  function Joined(s: State, t: nat, node: NodeId, l: nat): State
    requires t in s.turns && l < |s.wait|
  {
    var turn := s.turns[t];
    var added := if turn.sender in s.wait[l] then turn.added else turn.added + {l};
    s.(wait := s.wait[l := s.wait[l] + {turn.sender}],
       turns := s.turns[t := turn.(locked := turn.locked + {node}, visited := turn.visited + {node}, added := added)])
  }

  /** A new round. */
  function Begun(s: State, t: nat, node: NodeId): State
    requires t in s.turns && s.turns[t].sender < |s.runs|
  {
    var turn, r := s.turns[t], |s.runs|;
    s.(runs := s.runs + [RunRow(node, s.runs[turn.sender].scope, s.runs[turn.sender].frame, Pending)],
       wait := s.wait + [{turn.sender}], drained := s.drained + [{}],
       turns := s.turns[t := turn.(locked := turn.locked + {node}, visited := turn.visited + {node},
                                   added := turn.added + {r}, created := turn.created + {r})])
  }

  function StageAfter(stage: Stage, fate: Fate): Stage {
    match fate
    case Stay => stage
    case Drain => stage
    case Hold => Holding
    case Settle => Settled
  }

  /** All wait rows of a sender that goes Held, settles or comes back from a
      delegation are drained with it. */
  function Ended(s: State, t: nat, fate: Fate): State
    requires t in s.turns && s.turns[t].sender < |s.runs| && |s.wait| == |s.drained|
  {
    var a := s.turns[t].sender;
    s.(runs := s.runs[a := s.runs[a].(stage := StageAfter(s.runs[a].stage, fate))],
       drained := if fate.Stay? then s.drained else DrainedOf(s.wait, s.drained, a),
       turns := s.turns - {t})
  }

  function DrainedOf(wait: seq<set<nat>>, drained: seq<set<nat>>, a: nat): (d: seq<set<nat>>)
    requires |wait| == |drained|
    ensures |d| == |wait|
    ensures forall r | 0 <= r < |wait| :: d[r] == if a in wait[r] then drained[r] + {a} else drained[r]
  {
    seq(|wait|, r requires 0 <= r < |wait| => if a in wait[r] then drained[r] + {a} else drained[r])
  }

  /** A dropped run is deleted together with its wait rows. */
  function Left(s: State, r: nat, way: Way): State
    requires r < |s.runs| && r < |s.wait| && r < |s.drained|
  {
    if way.Drop? then
      s.(runs := s.runs[r := s.runs[r].(stage := Settled)], wait := s.wait[r := {}], drained := s.drained[r := {}])
    else s.(runs := s.runs[r := s.runs[r].(stage := Working)])
  }

  ghost function Apply(s: State, rules: Rules, step: Step): State
    requires Shaped(s) && Enabled(s, rules, step)
  {
    match step
    case Start(node, scope, frame) =>
      s.(runs := s.runs + [RunRow(node, scope, frame, Working)], wait := s.wait + [{}], drained := s.drained + [{}])
    case BeginTurn(t, a) => s.(turns := s.turns[t := Turn(a, {}, {}, {}, {})])
    case Emit(t, node) => Emitted(s, t, node)
    case EndTurn(t, fate) => Ended(s, t, fate)
    case Leave(r, way) => Left(s, r, way)
    case Close(scope) => s.(closed := s.closed + {scope})
  }

  // ---------------------------------------------------------------- the laws

  /** No run waits for two runs of one sender node. */
  ghost predicate OnePerSender(s: State)
    requires Shaped(s)
  {
    forall r, a, b | 0 <= r < |s.wait| && a in s.wait[r] && b in s.wait[r] && s.runs[a].node == s.runs[b].node :: a == b
  }

  /** The sender run sits in the latest pending run of the receiver. */
  ghost predicate Landed(s: State, a: nat, node: NodeId)
    requires Shaped(s) && a < |s.runs|
  {
    var l := Latest(s.runs, node, s.runs[a].scope, s.runs[a].frame);
    l.Some? && a in s.wait[l.value]
  }

  ghost predicate TurnOk(s: State, t: nat)
    requires Shaped(s) && t in s.turns
  {
    s.turns[t].visited <= s.turns[t].locked
    && forall node | node in s.turns[t].visited :: Landed(s, s.turns[t].sender, node)
  }

  ghost predicate LocksApart(s: State)
    requires Shaped(s)
  {
    forall t: nat, u: nat, node | t in s.turns && u != t && node in s.turns[t].locked ::
      !LockedBy(s, u, node, s.runs[s.turns[t].sender].scope, s.runs[s.turns[t].sender].frame)
  }

  ghost predicate Inv(s: State) {
    Shaped(s) && OnePerSender(s) && LocksApart(s) && forall t | t in s.turns :: TurnOk(s, t)
  }

  // ------------------------------------------------------ whom a gate overlooks

  /** An emission during which the gate of the receiver may open. A gate counts
      every sender of another node that is in flight, but not a co-member that
      rests in Held; that one emits to it only if it aggregates. Of senders of its
      own node it sees their committed wait rows: these are undrained, unless the
      sender has gone on after a delegation or gone Held; and the sender has one
      before it emits unless another node has begun the round. */
  ghost predicate Overlooked(rules: Rules, sender: NodeId, receiver: NodeId) {
    && (sender, receiver) in rules.edges
    && if sender != receiver then rules.aggregates(sender) && CoMembers(rules, sender, receiver)
       else || rules.delegates(sender) || (rules.aggregates(sender) && CoMembers(rules, sender, sender))
            || exists other :: Rival(rules, other, receiver)
  }

  /** Another node that emits to the receiver. */
  ghost predicate Rival(rules: Rules, other: NodeId, receiver: NodeId) {
    other != receiver && (other, receiver) in rules.edges
  }

  ghost predicate NoneOverlooked(rules: Rules) {
    forall a, n :: !Overlooked(rules, a, n)
  }

  // ------------------------------------------------------------------ proofs

  lemma StepShaped(s: State, rules: Rules, step: Step)
    requires Shaped(s) && Enabled(s, rules, step)
    ensures Shaped(Apply(s, rules, step))
  {
  }

  /** Open turns have live senders, one turn each, and emit as the rules allow; what
      they have created is pending. */
  ghost predicate TurnsLawful(s: State, rules: Rules)
    requires Shaped(s)
  {
    && (forall t | t in s.turns :: TurnLawful(s, rules, t))
    && (forall t, u | t in s.turns && u in s.turns && s.turns[t].sender == s.turns[u].sender :: t == u)
  }

  ghost predicate TurnLawful(s: State, rules: Rules, t: nat)
    requires Shaped(s) && t in s.turns
  {
    var snd := s.runs[s.turns[t].sender];
    && (snd.stage.Working? || snd.stage.Holding?)
    && (forall node | node in s.turns[t].locked :: MayEmit(rules, snd.node, snd.stage, node))
    && (forall r | r in s.turns[t].created :: r < |s.runs| && s.runs[r].stage.Pending?)
  }

  /** Wait rows go along edges, a pending run has some, a working sender has
      drained ones only if it delegates, and members alone rest in Held. */
  ghost predicate RowsLawful(s: State, rules: Rules)
    requires Shaped(s)
  {
    forall r: nat | r < |s.runs| :: RowLawful(s, rules, r)
  }

  ghost predicate RowLawful(s: State, rules: Rules, r: nat)
    requires Shaped(s) && r < |s.runs|
  {
    && (forall a | a in s.wait[r] :: (s.runs[a].node, s.runs[r].node) in rules.edges)
    && (s.runs[r].stage.Pending? ==> s.wait[r] != {})
    && (forall a | a in s.drained[r] :: MayBeDrained(s, rules, a))
    && (s.runs[r].stage.Holding? ==> CoMembers(rules, s.runs[r].node, s.runs[r].node))
  }

  ghost predicate MayBeDrained(s: State, rules: Rules, a: nat) {
    a < |s.runs| && !s.runs[a].stage.Pending? && (s.runs[a].stage.Working? ==> rules.delegates(s.runs[a].node))
  }

  /** A sender of the receiver's own node adds rows only to rounds it begins, unless
      another node emits to the receiver as well. */
  ghost predicate OwnRounds(s: State, rules: Rules)
    requires Shaped(s)
  {
    forall t, r | t in s.turns && r in s.turns[t].added :: OwnRound(s, rules, t, r)
  }

  ghost predicate OwnRound(s: State, rules: Rules, t: nat, r: nat)
    requires Shaped(s) && t in s.turns
  {
    && r < |s.runs|
    && (s.runs[s.turns[t].sender].node == s.runs[r].node && r !in s.turns[t].created ==>
          exists other :: Rival(rules, other, s.runs[r].node))
  }

  ghost predicate Lawful(s: State, rules: Rules) {
    Inv(s) && TurnsLawful(s, rules) && RowsLawful(s, rules) && OwnRounds(s, rules)
  }

  // ----------------------------------------------------------------- emissions

  /** Landed emissions stay landed as long as their receiver's pending runs are
      left alone and wait sets only grow. */
  lemma LandedLasts(s: State, s': State, a: nat, node: NodeId)
    requires Shaped(s) && Shaped(s') && a < |s.runs| && Landed(s, a, node)
    requires |s.runs| <= |s'.runs| && s'.runs[a].scope == s.runs[a].scope && s'.runs[a].frame == s.runs[a].frame
    requires forall i | 0 <= i < |s'.runs| ::
      Matches(s'.runs[i], node, s.runs[a].scope, s.runs[a].frame) <==>
          i < |s.runs| && Matches(s.runs[i], node, s.runs[a].scope, s.runs[a].frame)
    requires forall i | 0 <= i < |s.wait| && s.runs[i].stage.Pending? && s'.runs[i].stage.Pending? ::
      s.wait[i] <= s'.wait[i]
    ensures Landed(s', a, node)
  {
  }

  /** Every emission to an open scope leaves its sender run in the latest pending
      run of the receiver. */
  lemma EmitLands(s: State, rules: Rules, t: nat, node: NodeId)
    requires Inv(s) && Enabled(s, rules, Emit(t, node))
    requires s.runs[s.turns[t].sender].scope !in s.closed || LatestWillDo(s, t, node)
    ensures var s' := Emitted(s, t, node); Shaped(s') && Landed(s', s.turns[t].sender, node)
  {
  }

  /** The pending run of a receiver that was created last. */
  ghost predicate IsLatest(s: State, node: NodeId, scope: ScopeId, frame: FrameId, l: nat) {
    l < |s.runs| && Matches(s.runs[l], node, scope, frame)
    && forall i | l < i < |s.runs| :: !Matches(s.runs[i], node, scope, frame)
  }

  /** It waits for another run of the sender's node, but not for this one. */
  ghost predicate TakenBy(s: State, l: nat, a: nat)
    requires Shaped(s) && a < |s.runs|
  {
    l < |s.wait| && a !in s.wait[l] && exists b :: b in s.wait[l] && s.runs[b].node == s.runs[a].node
  }

  /** When an emission begins a new round: in an open scope, for a receiver that the
      turn has not come to yet, whose latest pending run, if there is one, waits for
      another run of the sender's node. Then one run is added, which waits for the
      sender alone; otherwise none is, and at most the latest run waits for the
      sender as well. */
  lemma RoundBegins(s: State, rules: Rules, t: nat, node: NodeId)
    requires Shaped(s) && Enabled(s, rules, Emit(t, node))
    ensures var a := s.turns[t].sender;
            var scope, frame := s.runs[a].scope, s.runs[a].frame;
            var s' := Emitted(s, t, node);
            var begins := scope !in s.closed && node !in s.turns[t].visited
                          && forall l: nat | IsLatest(s, node, scope, frame, l) :: TakenBy(s, l, a);
            && (begins ==> s'.runs == s.runs + [RunRow(node, scope, frame, Pending)] && s'.wait == s.wait + [{a}])
            && (!begins ==>
                  && s'.runs == s.runs && |s'.wait| == |s.wait|
                  && forall r | 0 <= r < |s.wait| :: s'.wait[r] == s.wait[r]
                       || (IsLatest(s, node, scope, frame, r) && s'.wait[r] == s.wait[r] + {a}))
  {
    var a := s.turns[t].sender;
    var l := Latest(s.runs, node, s.runs[a].scope, s.runs[a].frame);
    if l.Some? { assert IsLatest(s, node, s.runs[a].scope, s.runs[a].frame, l.value); }
    assert forall i: nat | IsLatest(s, node, s.runs[a].scope, s.runs[a].frame, i) :: l == Some(i);
  }

  lemma EmitOnePerSender(s: State, rules: Rules, t: nat, node: NodeId)
    requires Inv(s) && Enabled(s, rules, Emit(t, node))
    ensures var s' := Emitted(s, t, node); Shaped(s') && OnePerSender(s')
  {
  }

  lemma EmitLocksApart(s: State, rules: Rules, t: nat, node: NodeId)
    requires Inv(s) && Enabled(s, rules, Emit(t, node))
    ensures var s' := Emitted(s, t, node); Shaped(s') && LocksApart(s')
  {
    var s' := Emitted(s, t, node);
    forall x: nat, y: nat, n | x in s'.turns && y != x && n in s'.turns[x].locked
      ensures !LockedBy(s', y, n, s'.runs[s'.turns[x].sender].scope, s'.runs[s'.turns[x].sender].frame)
    {
      var key := s.runs[s.turns[x].sender];
      if x != t {
        assert LockedBy(s, x, n, key.scope, key.frame);
        assert !LockedBy(s, y, n, key.scope, key.frame);
      } else if n in s.turns[t].locked {
        assert !LockedBy(s, y, n, key.scope, key.frame);
      } else {
        assert !LockedBy(s, y, node, key.scope, key.frame);
      }
    }
  }

  lemma EmitSpares(s: State, rules: Rules, t: nat, node: NodeId, u: nat, n: NodeId)
    requires Inv(s) && Enabled(s, rules, Emit(t, node)) && u in s.turns && n in s.turns[u].visited
    ensures var s' := Emitted(s, t, node); Shaped(s') && Landed(s', s.turns[u].sender, n)
  {
    var s' := Emitted(s, t, node);
    var a := s.turns[u].sender;
    assert TurnOk(s, u) && LockedBy(s, u, n, s.runs[a].scope, s.runs[a].frame);
    if u == t && n == node {
      assert LatestWillDo(s, t, node);
      EmitLands(s, rules, t, node);
    } else {
      LandedLasts(s, s', a, n);
    }
  }

  lemma EmitTurnsOk(s: State, rules: Rules, t: nat, node: NodeId, u: nat)
    requires Inv(s) && Enabled(s, rules, Emit(t, node)) && u in s.turns
    ensures var s' := Emitted(s, t, node); Shaped(s') && u in s'.turns && TurnOk(s', u)
  {
    var s' := Emitted(s, t, node);
    assert TurnOk(s, u) && Shaped(s') && u in s'.turns;
    forall n | n in s'.turns[u].visited ensures Landed(s', s.turns[u].sender, n) {
      if n in s.turns[u].visited { EmitSpares(s, rules, t, node, u, n); } else { NewVisit(s, rules, t, node, u, n); }
    }
  }

  lemma NewVisit(s: State, rules: Rules, t: nat, node: NodeId, u: nat, n: NodeId)
    requires Inv(s) && Enabled(s, rules, Emit(t, node)) && u in s.turns && n !in s.turns[u].visited
    requires var s' := Emitted(s, t, node); u in s'.turns && n in s'.turns[u].visited
    ensures var s' := Emitted(s, t, node); Shaped(s') && Landed(s', s.turns[u].sender, n)
  {
  }

  lemma EmitKeeps(s: State, rules: Rules, t: nat, node: NodeId)
    requires Inv(s) && Enabled(s, rules, Emit(t, node))
    ensures Inv(Emitted(s, t, node))
  {
    EmitOnePerSender(s, rules, t, node);
    EmitLocksApart(s, rules, t, node);
    forall u | u in s.turns ensures TurnOk(Emitted(s, t, node), u) { EmitTurnsOk(s, rules, t, node, u); }
  }

  lemma EmitLawful(s: State, rules: Rules, t: nat, node: NodeId)
    requires Lawful(s, rules) && Enabled(s, rules, Emit(t, node))
    ensures Lawful(Emitted(s, t, node), rules)
  {
    EmitKeeps(s, rules, t, node);
    EmitTurnsLawful(s, rules, t, node);
    EmitRowsLawful(s, rules, t, node);
    EmitOwnRounds(s, rules, t, node);
  }

  lemma EmitTurnsLawful(s: State, rules: Rules, t: nat, node: NodeId)
    requires Lawful(s, rules) && Enabled(s, rules, Emit(t, node))
    ensures var s' := Emitted(s, t, node); Shaped(s') && TurnsLawful(s', rules)
  {
    var s' := Emitted(s, t, node);
    EmitShape(s, t, node);
    forall u | u in s'.turns ensures TurnLawful(s', rules, u) { LaterTurn(s, s', rules, t, node, u); }
  }

  lemma LaterTurn(s: State, s': State, rules: Rules, t: nat, node: NodeId, u: nat)
    requires Shaped(s) && Shaped(s') && TurnsLawful(s, rules) && Enabled(s, rules, Emit(t, node)) && u in s.turns
    requires Extends(s, s', t) && s'.turns[t].sender == s.turns[t].sender
    requires s'.turns[t].locked == s.turns[t].locked + {node}
    requires forall r | r in s'.turns[t].created :: r in s.turns[t].created || |s.runs| <= r < |s'.runs|
    ensures TurnLawful(s', rules, u)
  {
    assert TurnLawful(s, rules, u);
    SameRows(s, s', u);
  }

  /** What an emission leaves as it was. */
  ghost predicate Extends(s: State, s': State, t: nat) {
    && s.runs <= s'.runs && s'.turns.Keys == s.turns.Keys
    && (forall u | u in s.turns && u != t :: s'.turns[u] == s.turns[u])
    && (forall r | |s.runs| <= r < |s'.runs| :: s'.runs[r].stage.Pending?)
  }

  lemma EmitShape(s: State, t: nat, node: NodeId)
    requires Shaped(s) && t in s.turns
    ensures var s' := Emitted(s, t, node);
            && Shaped(s') && Extends(s, s', t) && s'.turns[t].sender == s.turns[t].sender
            && s'.turns[t].locked == s.turns[t].locked + {node}
            && (s'.turns[t].created == s.turns[t].created
                || (s'.turns[t].created == s.turns[t].created + {|s.runs|} && |s'.runs| == |s.runs| + 1))
  {
  }

  lemma SameRows(s: State, s': State, u: nat)
    requires Shaped(s) && u in s.turns && s.runs <= s'.runs
    ensures s'.runs[s.turns[u].sender] == s.runs[s.turns[u].sender]
  {
  }

  lemma EmitRowsLawful(s: State, rules: Rules, t: nat, node: NodeId)
    requires Lawful(s, rules) && Enabled(s, rules, Emit(t, node))
    ensures var s' := Emitted(s, t, node); Shaped(s') && RowsLawful(s', rules)
  {
    var s' := Emitted(s, t, node);
    EmitShape(s, t, node);
    forall r: nat | r < |s'.runs| ensures RowLawful(s', rules, r) {
      if r < |s.runs| { assert RowLawful(s, rules, r); EmitRow(s, rules, t, node, r); }
    }
  }

  lemma EmitRow(s: State, rules: Rules, t: nat, node: NodeId, r: nat)
    requires Lawful(s, rules) && Enabled(s, rules, Emit(t, node)) && r < |s.runs| && RowLawful(s, rules, r)
    requires Shaped(Emitted(s, t, node)) && Extends(s, Emitted(s, t, node), t)
    ensures RowLawful(Emitted(s, t, node), rules, r)
  {
    var s' := Emitted(s, t, node);
    forall a | a in s'.drained[r] ensures MayBeDrained(s', rules, a) { assert MayBeDrained(s, rules, a); }
  }

  lemma EmitOwnRounds(s: State, rules: Rules, t: nat, node: NodeId)
    requires Lawful(s, rules) && Enabled(s, rules, Emit(t, node))
    ensures var s' := Emitted(s, t, node); Shaped(s') && OwnRounds(s', rules)
  {
    var s' := Emitted(s, t, node);
    EmitShape(s, t, node);
    forall u, r | u in s'.turns && r in s'.turns[u].added ensures OwnRound(s', rules, u, r) {
      SameRows(s, s', u);
      if r in s.turns[u].added { assert OwnRound(s, rules, u, r); } else { NewOwnRound(s, rules, t, node, u, r); }
    }
  }

  lemma NewOwnRound(s: State, rules: Rules, t: nat, node: NodeId, u: nat, r: nat)
    requires Lawful(s, rules) && Enabled(s, rules, Emit(t, node)) && u in s.turns && r !in s.turns[u].added
    requires var s' := Emitted(s, t, node); Shaped(s') && u in s'.turns && r in s'.turns[u].added
    ensures OwnRound(Emitted(s, t, node), rules, u, r)
  {
    var a := s.turns[t].sender;
    if LatestWillDo(s, t, node) {
      var l := Latest(s.runs, node, s.runs[a].scope, s.runs[a].frame).value;
      assert TurnOk(s, t) && r == l && a !in s.wait[l];
      RivalBegan(s, rules, l, a);
    }
  }

  /** A pending run without a row of the sender's node was begun by another node. */
  lemma RivalBegan(s: State, rules: Rules, l: nat, a: nat)
    requires Shaped(s) && RowsLawful(s, rules) && l < |s.runs| && a < |s.runs| && s.runs[l].stage.Pending?
    requires !HoldsSenderNode(s, l, s.runs[a].node)
    ensures s.runs[a].node == s.runs[l].node ==> exists other :: Rival(rules, other, s.runs[l].node)
  {
    assert RowLawful(s, rules, l);
    var b :| b in s.wait[l];
    if s.runs[a].node == s.runs[l].node { assert Rival(rules, s.runs[b].node, s.runs[l].node); }
  }

  // --------------------------------------------------------------- other steps

  lemma QuietLocksApart(s: State, s': State)
    requires Shaped(s) && Shaped(s') && LocksApart(s) && |s.runs| <= |s'.runs|
    requires forall i | 0 <= i < |s.runs| :: s'.runs[i].scope == s.runs[i].scope && s'.runs[i].frame == s.runs[i].frame
    requires forall t | t in s'.turns ::
      if t in s.turns then s'.turns[t] == s.turns[t] else s'.turns[t].locked == {}
    ensures LocksApart(s')
  {
    forall x: nat, y: nat, n | x in s'.turns && y != x && n in s'.turns[x].locked
      ensures !LockedBy(s', y, n, s'.runs[s'.turns[x].sender].scope, s'.runs[s'.turns[x].sender].frame)
    {
      assert !LockedBy(s, y, n, s.runs[s.turns[x].sender].scope, s.runs[s.turns[x].sender].frame);
    }
  }

  /** Steps that leave pending runs and their rows alone. */
  lemma QuietKeeps(s: State, s': State)
    requires Inv(s) && Shaped(s') && |s.runs| <= |s'.runs|
    requires forall i | 0 <= i < |s.runs| ::
      s'.runs[i] == s.runs[i].(stage := s'.runs[i].stage) && (s'.runs[i].stage.Pending? <==> s.runs[i].stage.Pending?)
    requires forall i | |s.runs| <= i < |s'.runs| :: !s'.runs[i].stage.Pending? && s'.wait[i] == {}
    requires forall i | 0 <= i < |s.runs| :: s'.wait[i] == s.wait[i]
    requires forall t | t in s'.turns ::
      if t in s.turns then s'.turns[t] == s.turns[t] else s'.turns[t].locked == {} && s'.turns[t].visited == {}
    ensures Inv(s')
  {
    QuietLocksApart(s, s');
    forall t | t in s'.turns ensures TurnOk(s', t) {
      if t in s.turns {
        assert TurnOk(s, t);
        forall n | n in s.turns[t].visited ensures Landed(s', s.turns[t].sender, n) {
          LandedLasts(s, s', s.turns[t].sender, n);
        }
      }
    }
  }

  lemma StartLawful(s: State, rules: Rules, step: Step)
    requires Lawful(s, rules) && Enabled(s, rules, step) && (step.Start? || step.BeginTurn? || step.Close?)
    ensures Lawful(Apply(s, rules, step), rules)
  {
    StartKeeps(s, rules, step);
    StartTurns(s, rules, step);
    StartRows(s, rules, step);
  }

  lemma StartKeeps(s: State, rules: Rules, step: Step)
    requires Lawful(s, rules) && Enabled(s, rules, step) && (step.Start? || step.BeginTurn? || step.Close?)
    ensures Inv(Apply(s, rules, step))
  {
    QuietKeeps(s, Apply(s, rules, step));
  }

  lemma StartTurns(s: State, rules: Rules, step: Step)
    requires Lawful(s, rules) && Enabled(s, rules, step) && (step.Start? || step.BeginTurn? || step.Close?)
    requires Shaped(Apply(s, rules, step))
    ensures TurnsLawful(Apply(s, rules, step), rules) && OwnRounds(Apply(s, rules, step), rules)
  {
    var s' := Apply(s, rules, step);
    forall t | t in s'.turns ensures TurnLawful(s', rules, t) {
      if t in s.turns { assert TurnLawful(s, rules, t); }
    }
    forall t, r | t in s'.turns && r in s'.turns[t].added ensures OwnRound(s', rules, t, r) {
      assert OwnRound(s, rules, t, r);
    }
  }

  lemma StartRows(s: State, rules: Rules, step: Step)
    requires Lawful(s, rules) && Enabled(s, rules, step) && (step.Start? || step.BeginTurn? || step.Close?)
    requires Shaped(Apply(s, rules, step))
    ensures RowsLawful(Apply(s, rules, step), rules)
  {
    var s' := Apply(s, rules, step);
    forall r: nat | r < |s'.runs| ensures RowLawful(s', rules, r) {
      if r < |s.runs| { LaterRows(s, s', rules, r); }
    }
  }

  lemma LaterRows(s: State, s': State, rules: Rules, r: nat)
    requires Shaped(s) && Shaped(s') && RowsLawful(s, rules) && r < |s.runs| && s.runs <= s'.runs
    requires s'.wait[r] == s.wait[r] && s'.drained[r] == s.drained[r]
    ensures RowLawful(s', rules, r)
  {
    assert RowLawful(s, rules, r);
    forall a | a in s'.drained[r] ensures MayBeDrained(s', rules, a) { assert MayBeDrained(s, rules, a); }
  }

  lemma EndLawful(s: State, rules: Rules, t: nat, fate: Fate)
    requires Lawful(s, rules) && Enabled(s, rules, EndTurn(t, fate))
    ensures Lawful(Ended(s, t, fate), rules)
  {
    var s' := Ended(s, t, fate);
    assert TurnLawful(s, rules, t);
    EndKeeps(s, rules, t, fate);
    forall u | u in s'.turns ensures TurnLawful(s', rules, u) { assert TurnLawful(s, rules, u); }
    forall u, r | u in s'.turns && r in s'.turns[u].added ensures OwnRound(s', rules, u, r) {
      assert OwnRound(s, rules, u, r);
    }
    forall r: nat | r < |s'.runs| ensures RowLawful(s', rules, r) { EndRow(s, rules, t, fate, r); }
  }

  lemma EndKeeps(s: State, rules: Rules, t: nat, fate: Fate)
    requires Lawful(s, rules) && Enabled(s, rules, EndTurn(t, fate))
    ensures Inv(Ended(s, t, fate))
  {
    assert TurnLawful(s, rules, t);
    QuietKeeps(s, Ended(s, t, fate));
  }

  lemma EndRow(s: State, rules: Rules, t: nat, fate: Fate, r: nat)
    requires Lawful(s, rules) && Enabled(s, rules, EndTurn(t, fate)) && r < |s.runs|
    ensures Shaped(Ended(s, t, fate)) && RowLawful(Ended(s, t, fate), rules, r)
  {
    var s' := Ended(s, t, fate);
    assert TurnLawful(s, rules, t) && RowLawful(s, rules, r);
    forall a | a in s'.drained[r] ensures MayBeDrained(s', rules, a) {
      if a != s.turns[t].sender { assert MayBeDrained(s, rules, a); }
      else if a in s.drained[r] { assert MayBeDrained(s, rules, a); }
    }
  }

  // ---------------------------------------------------------------- the gate holds

  /** A counted sender of another node keeps the gates of its receivers shut. */
  lemma OthersCounted(s: State, rules: Rules, u: nat, r: nat, way: Way)
    requires Lawful(s, rules) && NoneOverlooked(rules) && GateOpen(s, rules, r, way)
    requires LockedBy(s, u, s.runs[r].node, s.runs[r].scope, s.runs[r].frame)
    ensures s.runs[s.turns[u].sender].node == s.runs[r].node
  {
    var a := s.turns[u].sender;
    assert TurnLawful(s, rules, u) && MayEmit(rules, s.runs[a].node, s.runs[a].stage, s.runs[r].node);
    assert !Overlooked(rules, s.runs[a].node, s.runs[r].node) && !InFlightFor(s, rules, r, a);
    assert Seen(s, a) by {
      forall v: nat ensures !Unseen(s, v, a) { if v in s.turns { assert TurnLawful(s, rules, v); } }
    }
  }

  /** And one of the receiver's own node, the round it has landed in. */
  lemma OwnRoundStays(s: State, rules: Rules, u: nat, r: nat, way: Way)
    requires Lawful(s, rules) && NoneOverlooked(rules) && GateOpen(s, rules, r, way)
    requires LockedBy(s, u, s.runs[r].node, s.runs[r].scope, s.runs[r].frame)
    ensures s.turns[u].sender !in s.wait[r]
  {
    var a := s.turns[u].sender;
    OthersCounted(s, rules, u, r, way);
    assert TurnLawful(s, rules, u) && MayEmit(rules, s.runs[a].node, s.runs[a].stage, s.runs[r].node);
    assert !Overlooked(rules, s.runs[a].node, s.runs[r].node);
    assert RowLawful(s, rules, a) && RowLawful(s, rules, r) && s.runs[a].stage.Working?;
    assert a !in s.drained[r] by { assert a in s.drained[r] ==> MayBeDrained(s, rules, a); }
    NotJustAdded(s, rules, u, r);
    assert !Undrained(s, r, a);
  }

  lemma NotJustAdded(s: State, rules: Rules, u: nat, r: nat)
    requires Lawful(s, rules) && u in s.turns && r < |s.runs| && Seen(s, r)
    requires s.runs[s.turns[u].sender].node == s.runs[r].node && forall other :: !Rival(rules, other, s.runs[r].node)
    ensures forall v: nat :: !AddedBy(s, v, s.turns[u].sender, r)
  {
    assert !Unseen(s, u, r);
    assert r in s.turns[u].added ==> OwnRound(s, rules, u, r);
  }

  lemma LeaveKeeps(s: State, rules: Rules, r: nat, way: Way)
    requires Lawful(s, rules) && NoneOverlooked(rules) && GateOpen(s, rules, r, way)
    ensures Inv(Left(s, r, way))
  {
    var s' := Left(s, r, way);
    QuietLocksApart(s, s');
    forall t | t in s'.turns ensures TurnOk(s', t) {
      assert TurnOk(s, t);
      forall n | n in s.turns[t].visited ensures Landed(s', s.turns[t].sender, n) {
        LeaveSpares(s, rules, r, way, t, n);
      }
    }
  }

  lemma LeaveSpares(s: State, rules: Rules, r: nat, way: Way, t: nat, n: NodeId)
    requires Lawful(s, rules) && NoneOverlooked(rules) && GateOpen(s, rules, r, way)
    requires t in s.turns && n in s.turns[t].visited
    ensures Landed(Left(s, r, way), s.turns[t].sender, n)
  {
    var a := s.turns[t].sender;
    assert TurnOk(s, t) && Landed(s, a, n);
    if s.runs[r].node == n && s.runs[r].scope == s.runs[a].scope && s.runs[r].frame == s.runs[a].frame {
      assert LockedBy(s, t, n, s.runs[r].scope, s.runs[r].frame);
      OwnRoundStays(s, rules, t, r, way);
    }
    LatestStays(s.runs, Left(s, r, way).runs, r, n, s.runs[a].scope, s.runs[a].frame);
  }

  lemma LatestStays(runs: seq<RunRow>, runs': seq<RunRow>, r: nat, node: NodeId, scope: ScopeId, frame: FrameId)
    requires r < |runs| && |runs'| == |runs| && Latest(runs, node, scope, frame).Some?
    requires !runs'[r].stage.Pending? && forall i | 0 <= i < |runs| && i != r :: runs'[i] == runs[i]
    requires Latest(runs, node, scope, frame) != Some(r)
    ensures Latest(runs', node, scope, frame) == Latest(runs, node, scope, frame)
  {
    var l := Latest(runs, node, scope, frame).value;
    assert Matches(runs'[l], node, scope, frame);
    var m := Latest(runs', node, scope, frame).value;
    assert Matches(runs[m], node, scope, frame);
  }

  lemma LeaveLawful(s: State, rules: Rules, r: nat, way: Way)
    requires Lawful(s, rules) && NoneOverlooked(rules) && GateOpen(s, rules, r, way)
    ensures Lawful(Left(s, r, way), rules)
  {
    var s' := Left(s, r, way);
    LeaveKeeps(s, rules, r, way);
    forall t | t in s'.turns ensures TurnLawful(s', rules, t) {
      assert TurnLawful(s, rules, t) && !Unseen(s, t, r);
    }
    forall t, x | t in s'.turns && x in s'.turns[t].added ensures OwnRound(s', rules, t, x) {
      assert OwnRound(s, rules, t, x);
    }
    LeaveRowsLawful(s, rules, r, way);
  }

  lemma LeaveRowsLawful(s: State, rules: Rules, r: nat, way: Way)
    requires Lawful(s, rules) && GateOpen(s, rules, r, way)
    ensures RowsLawful(Left(s, r, way), rules)
  {
    var s' := Left(s, r, way);
    forall x: nat | x < |s'.runs| ensures RowLawful(s', rules, x) {
      assert RowLawful(s, rules, x);
      forall a | a in s'.drained[x] ensures MayBeDrained(s', rules, a) { assert MayBeDrained(s, rules, a); }
    }
  }

  // ------------------------------------------------------------------ histories

  ghost function Next(s: State, rules: Rules, step: Step): (s': State)
    requires Shaped(s)
    ensures Shaped(s')
  {
    if Enabled(s, rules, step) then StepShaped(s, rules, step); Apply(s, rules, step) else s
  }

  ghost function RunFrom(s: State, rules: Rules, steps: seq<Step>): (s': State)
    requires Shaped(s)
    ensures Shaped(s')
    decreases |steps|
  {
    if steps == [] then s else RunFrom(Next(s, rules, steps[0]), rules, steps[1..])
  }

  const Empty: State := State([], [], [], map[], {})

  ghost function Run(rules: Rules, steps: seq<Step>): (s: State)
    ensures Shaped(s)
  {
    RunFrom(Empty, rules, steps)
  }

  lemma StepKeeps(s: State, rules: Rules, step: Step)
    requires Lawful(s, rules) && NoneOverlooked(rules)
    ensures Lawful(Next(s, rules, step), rules)
  {
    if !Enabled(s, rules, step) {
    } else if step.Emit? {
      EmitLawful(s, rules, step.turn, step.receiver);
    } else if step.EndTurn? {
      EndLawful(s, rules, step.turn, step.fate);
    } else if step.Leave? {
      LeaveLawful(s, rules, step.run, step.way);
    } else {
      StartLawful(s, rules, step);
    }
  }

  lemma {:induction false} RunKeeps(s: State, rules: Rules, steps: seq<Step>)
    requires Lawful(s, rules) && NoneOverlooked(rules)
    ensures Lawful(RunFrom(s, rules, steps), rules)
    decreases |steps|
  {
    if steps == [] {
    } else {
      StepKeeps(s, rules, steps[0]);
      RunKeeps(Next(s, rules, steps[0]), rules, steps[1..]);
    }
  }

  /** If no sender is overlooked, one more emission to an open scope lands in the
      latest round. */
  lemma NextEmitLands(rules: Rules, steps: seq<Step>, t: nat, node: NodeId)
    requires NoneOverlooked(rules)
    ensures var s := Run(rules, steps);
            Enabled(s, rules, Emit(t, node)) && s.runs[s.turns[t].sender].scope !in s.closed ==>
              var s' := Emitted(s, t, node); Shaped(s') && Landed(s', s.turns[t].sender, node)
  {
    var s := Run(rules, steps);
    RunKeeps(Empty, rules, steps);
    if Enabled(s, rules, Emit(t, node)) && s.runs[s.turns[t].sender].scope !in s.closed {
      EmitLands(s, rules, t, node);
    }
  }

  /** Rounds stay apart, so that after no history a run waits for two runs of one
      sender node, exactly if no gate overlooks a sender. */
  lemma RoundsSeparate(rules: Rules)
    ensures NoneOverlooked(rules) <==> forall steps :: OnePerSender(Run(rules, steps))
  {
    if NoneOverlooked(rules) {
      forall steps ensures OnePerSender(Run(rules, steps)) { RunKeeps(Empty, rules, steps); }
    } else {
      var a, n :| Overlooked(rules, a, n);
      if rules.aggregates(a) && CoMembers(rules, a, n) {
        RoundsMix(rules, a, n, Hold);
      } else if rules.delegates(a) {
        RoundsMix(rules, a, n, Drain);
      } else {
        var other :| Rival(rules, other, n);
        RivalRoundsMix(rules, n, other);
      }
    }
  }

  // ------------------------------------------------------- an overlooked sender

  lemma {:induction false} RunTogether(s: State, rules: Rules, a: seq<Step>, b: seq<Step>)
    requires Shaped(s)
    ensures RunFrom(s, rules, a + b) == RunFrom(RunFrom(s, rules, a), rules, b)
    decreases |a|
  {
    if a == [] {
      assert a + b == b;
    } else {
      assert (a + b)[0] == a[0] && (a + b)[1..] == a[1..] + b;
      RunTogether(Next(s, rules, a[0]), rules, a[1..], b);
    }
  }

  lemma OneStep(s: State, rules: Rules, step: Step)
    requires Shaped(s)
    ensures RunFrom(s, rules, [step]) == Next(s, rules, step)
  {
  }

  lemma TwoSteps(s: State, rules: Rules, x: Step, y: Step)
    requires Shaped(s)
    ensures RunFrom(s, rules, [x, y]) == Next(Next(s, rules, x), rules, y)
  {
    assert [x, y][1..] == [y];
    OneStep(Next(s, rules, x), rules, y);
  }

  lemma ThreeSteps(s: State, rules: Rules, x: Step, y: Step, z: Step)
    requires Shaped(s)
    ensures RunFrom(s, rules, [x, y, z]) == Next(Next(Next(s, rules, x), rules, y), rules, z)
  {
    assert [x, y, z][1..] == [y, z];
    TwoSteps(Next(s, rules, x), rules, y, z);
  }

  /** A history can be told stretch by stretch. */
  ghost predicate Leads(rules: Rules, s: State, s': State) {
    Shaped(s) && Shaped(s') && exists steps :: RunFrom(s, rules, steps) == s'
  }

  lemma LeadsOn(rules: Rules, s: State, s': State, steps: seq<Step>)
    requires Leads(rules, Empty, s) && RunFrom(s, rules, steps) == s'
    ensures Leads(rules, Empty, s')
  {
    var before :| RunFrom(Empty, rules, before) == s;
    RunTogether(Empty, rules, before, steps);
  }

  function At(node: NodeId, stage: Stage): RunRow { RunRow(node, 0, 0, stage) }

  function Plus(s: State, node: NodeId): State {
    s.(runs := s.runs + [At(node, Working)], wait := s.wait + [{}], drained := s.drained + [{}])
  }

  lemma Starts(rules: Rules, s: State, node: NodeId)
    requires Leads(rules, Empty, s)
    ensures Leads(rules, Empty, Plus(s, node))
  {
    OneStep(s, rules, Start(node, 0, 0));
    LeadsOn(rules, s, Next(s, rules, Start(node, 0, 0)), [Start(node, 0, 0)]);
  }

  lemma ThreeStarts(rules: Rules, x: NodeId, y: NodeId, z: NodeId)
    ensures Leads(rules, Empty, Plus(Plus(Plus(Empty, x), y), z))
    ensures Plus(Plus(Plus(Empty, x), y), z)
            == State([At(x, Working), At(y, Working), At(z, Working)], [{}, {}, {}], [{}, {}, {}], map[], {})
  {
    assert RunFrom(Empty, rules, []) == Empty;
    Starts(rules, Empty, x);
    Starts(rules, Plus(Empty, x), y);
    Starts(rules, Plus(Plus(Empty, x), y), z);
  }

  /** A turn of one emission, with nobody else about. */
  ghost function AfterTurn(s: State, a: nat, node: NodeId, fate: Fate): State
    requires Shaped(s) && a < |s.runs|
  {
    Ended(Emitted(s.(turns := map[0 := Turn(a, {}, {}, {}, {})]), 0, node), 0, fate)
  }

  lemma OneTurn(rules: Rules, s: State, a: nat, node: NodeId, fate: Fate)
    requires Leads(rules, Empty, s) && s.turns == map[] && a < |s.runs|
    requires s.runs[a].stage.Working? && (s.runs[a].node, node) in rules.edges && MayEnd(rules, s.runs[a], fate)
    ensures Leads(rules, Empty, AfterTurn(s, a, node, fate))
  {
    var b := Next(s, rules, BeginTurn(0, a));
    assert b == s.(turns := map[0 := Turn(a, {}, {}, {}, {})]);
    EmitShape(b, 0, node);
    assert Enabled(b, rules, Emit(0, node));
    ThreeSteps(s, rules, BeginTurn(0, a), Emit(0, node), EndTurn(0, fate));
    LeadsOn(rules, s, AfterTurn(s, a, node, fate), [BeginTurn(0, a), Emit(0, node), EndTurn(0, fate)]);
  }

  /** A turn that begins a round. */
  lemma TurnBegins(s: State, a: nat, node: NodeId, fate: Fate)
    requires Shaped(s) && s.turns == map[] && s.closed == {} && a < |s.runs|
    requires var l := Latest(s.runs, node, s.runs[a].scope, s.runs[a].frame);
             l.None? || (a !in s.wait[l.value] && HoldsSenderNode(s, l.value, s.runs[a].node))
    requires forall r | 0 <= r < |s.runs| :: a !in s.wait[r]
    ensures AfterTurn(s, a, node, fate) == State(
              s.runs[a := s.runs[a].(stage := StageAfter(s.runs[a].stage, fate))]
                + [RunRow(node, s.runs[a].scope, s.runs[a].frame, Pending)],
              s.wait + [{a}], s.drained + [if fate.Stay? then {} else {a}], map[], {})
  {
    var b := s.(turns := map[0 := Turn(a, {}, {}, {}, {})]);
    var c := Emitted(b, 0, node);
    assert c == Begun(b, 0, node);
    var d := Ended(c, 0, fate);
    assert d.turns == map[];
    assert d.drained[|s.runs|] == if fate.Stay? then {} else {a};
    assert d.drained == s.drained + [if fate.Stay? then {} else {a}];
  }

  /** A turn that joins round `l`. */
  lemma TurnJoins(s: State, a: nat, node: NodeId, fate: Fate, l: nat)
    requires Shaped(s) && s.turns == map[] && s.closed == {} && a < |s.runs| && l < |s.runs| && !fate.Stay?
    requires Latest(s.runs, node, s.runs[a].scope, s.runs[a].frame) == Some(l)
    requires !HoldsSenderNode(s, l, s.runs[a].node) && forall r | 0 <= r < |s.runs| :: a !in s.wait[r]
    ensures AfterTurn(s, a, node, fate) == State(
              s.runs[a := s.runs[a].(stage := StageAfter(s.runs[a].stage, fate))],
              s.wait[l := s.wait[l] + {a}], s.drained[l := s.drained[l] + {a}], map[], {})
  {
    var b := s.(turns := map[0 := Turn(a, {}, {}, {}, {})]);
    assert !HoldsSenderNode(b, l, s.runs[a].node);
    var c := Emitted(b, 0, node);
    assert c == Joined(b, 0, node, l);
    var d := Ended(c, 0, fate);
    assert d.turns == map[];
    assert d.drained == s.drained[l := s.drained[l] + {a}];
  }

  // Runs 0, 1 and 3 are of the sender's node, run 2 of the receiver's; runs 4 and
  // 5 are rounds. Run 2 is still working and keeps both rounds from clearing, and
  // run 3, as long as it works, keeps their gates shut. When run 3 settles, the
  // gates are looked at: a cascade mode that keeps earlier rounds leaves run 4
  // pending, and run 5 leaves if its attributes fail to resolve.

  function SenderRows(a: NodeId, n: NodeId, first: Stage, second: Stage, third: Stage): seq<RunRow> {
    [At(a, first), At(a, second), At(n, Working), At(a, third)]
  }

  function TwoRounds(a: NodeId, n: NodeId, second: Stage, third: Stage, round: Stage, turns: map<nat, Turn>): State {
    State(SenderRows(a, n, Settled, second, third) + [At(n, Pending), At(n, round)],
          [{}, {}, {}, {}, {0}, {1}], [{}, {}, {}, {}, {0}, {1}], turns, {})
  }

  /** The sender goes Held in a holding subgraph with the receiver and emits again
      when its child runs settle, or emits to its own node and goes on after a
      delegation. */
  ghost predicate DrainsEarly(rules: Rules, a: NodeId, n: NodeId, fate: Fate) {
    && (a, n) in rules.edges
    && ((fate.Hold? && rules.aggregates(a) && CoMembers(rules, a, n)) || (fate.Drain? && a == n && rules.delegates(a)))
  }

  /** Two runs of the sender begin a round each. The second is drained and emits
      again; the later round leaves under its hands, and what it emits next joins
      the earlier round. */
  lemma RoundsMix(rules: Rules, a: NodeId, n: NodeId, fate: Fate)
    requires DrainsEarly(rules, a, n, fate)
    ensures exists steps :: !OnePerSender(Run(rules, steps))
  {
    var stage := StageAfter(Working, fate);
    BothRounds(rules, a, n, fate);
    var s := TwoRounds(a, n, stage, Working, Pending, map[]);
    var turn := Turn(1, {n}, {n}, {}, {});
    EmitsAgain(rules, a, n, fate);
    ThirdSettles(rules, a, n, stage, turn);
    LaterRoundLeaves(rules, a, n, fate, turn);
    JoinsEarlier(rules, a, n, fate, turn);
  }

  lemma FirstRound(rules: Rules, a: NodeId, n: NodeId)
    requires (a, n) in rules.edges
    ensures Leads(rules, Empty, State(SenderRows(a, n, Settled, Working, Working) + [At(n, Pending)],
                                      [{}, {}, {}, {}, {0}], [{}, {}, {}, {}, {0}], map[], {}))
  {
    FourStarts(rules, a, n);
    var s := State(SenderRows(a, n, Working, Working, Working), [{}, {}, {}, {}], [{}, {}, {}, {}], map[], {});
    assert Latest(s.runs, n, 0, 0) == None;
    OneTurn(rules, s, 0, n, Settle);
    TurnBegins(s, 0, n, Settle);
    assert AfterTurn(s, 0, n, Settle).runs == SenderRows(a, n, Settled, Working, Working) + [At(n, Pending)];
  }

  lemma BothRounds(rules: Rules, a: NodeId, n: NodeId, fate: Fate)
    requires DrainsEarly(rules, a, n, fate)
    ensures Leads(rules, Empty, TwoRounds(a, n, StageAfter(Working, fate), Working, Pending, map[]))
  {
    FirstRound(rules, a, n);
    var t := State(SenderRows(a, n, Settled, Working, Working) + [At(n, Pending)],
                   [{}, {}, {}, {}, {0}], [{}, {}, {}, {}, {0}], map[], {});
    assert Latest(t.runs, n, 0, 0) == Some(4) && HoldsSenderNode(t, 4, a) by { assert 0 in t.wait[4]; }
    assert MayEnd(rules, t.runs[1], fate);
    OneTurn(rules, t, 1, n, fate);
    TurnBegins(t, 1, n, fate);
    assert AfterTurn(t, 1, n, fate).runs == TwoRounds(a, n, StageAfter(Working, fate), Working, Pending, map[]).runs;
  }

  lemma FourStarts(rules: Rules, a: NodeId, n: NodeId)
    ensures Leads(rules, Empty, State(SenderRows(a, n, Working, Working, Working), [{}, {}, {}, {}], [{}, {}, {}, {}],
                                      map[], {}))
  {
    ThreeStarts(rules, a, a, n);
    var three := State([At(a, Working), At(a, Working), At(n, Working)], [{}, {}, {}], [{}, {}, {}], map[], {});
    Starts(rules, three, a);
    assert Plus(three, a).runs == SenderRows(a, n, Working, Working, Working);
  }

  lemma EmitsAgain(rules: Rules, a: NodeId, n: NodeId, fate: Fate)
    requires DrainsEarly(rules, a, n, fate)
    requires Leads(rules, Empty, TwoRounds(a, n, StageAfter(Working, fate), Working, Pending, map[]))
    ensures Leads(rules, Empty, TwoRounds(a, n, StageAfter(Working, fate), Working, Pending,
                                          map[0 := Turn(1, {n}, {n}, {}, {})]))
  {
    var stage := StageAfter(Working, fate);
    var s := TwoRounds(a, n, stage, Working, Pending, map[]);
    var b := Next(s, rules, BeginTurn(0, 1));
    assert b == TwoRounds(a, n, stage, Working, Pending, map[0 := Turn(1, {}, {}, {}, {})]);
    assert Enabled(b, rules, Emit(0, n));
    assert Latest(b.runs, n, 0, 0) == Some(5) && 1 in b.wait[5] && LatestWillDo(b, 0, n);
    var c := Next(b, rules, Emit(0, n));
    assert c.wait == b.wait by { assert c.wait[5] == {1}; }
    assert c.turns == map[0 := Turn(1, {n}, {n}, {}, {})] by { assert c.turns[0] == Turn(1, {n}, {n}, {}, {}); }
    TwoSteps(s, rules, BeginTurn(0, 1), Emit(0, n));
    LeadsOn(rules, s, c, [BeginTurn(0, 1), Emit(0, n)]);
  }

  lemma ThirdSettles(rules: Rules, a: NodeId, n: NodeId, stage: Stage, turn: Turn)
    requires turn.sender == 1 && Leads(rules, Empty, TwoRounds(a, n, stage, Working, Pending, map[0 := turn]))
    ensures Leads(rules, Empty, TwoRounds(a, n, stage, Settled, Pending, map[0 := turn]))
  {
    var s := TwoRounds(a, n, stage, Working, Pending, map[0 := turn]);
    var b := Next(s, rules, BeginTurn(1, 3));
    assert b.turns == map[0 := turn, 1 := Turn(3, {}, {}, {}, {})];
    var c := Next(b, rules, EndTurn(1, Settle));
    assert c.turns == map[0 := turn];
    assert c.drained == s.drained && c.runs == TwoRounds(a, n, stage, Settled, Pending, map[0 := turn]).runs;
    TwoSteps(s, rules, BeginTurn(1, 3), EndTurn(1, Settle));
    LeadsOn(rules, s, c, [BeginTurn(1, 3), EndTurn(1, Settle)]);
  }

  lemma LaterRoundLeaves(rules: Rules, a: NodeId, n: NodeId, fate: Fate, turn: Turn)
    requires DrainsEarly(rules, a, n, fate) && turn == Turn(1, {n}, {n}, {}, {})
    requires Leads(rules, Empty, TwoRounds(a, n, StageAfter(Working, fate), Settled, Pending, map[0 := turn]))
    ensures Leads(rules, Empty, TwoRounds(a, n, StageAfter(Working, fate), Settled, Working, map[0 := turn]))
  {
    var stage := StageAfter(Working, fate);
    var s := TwoRounds(a, n, stage, Settled, Pending, map[0 := turn]);
    assert GateOpen(s, rules, 5, Fail);
    OneStep(s, rules, Leave(5, Fail));
    var t := Next(s, rules, Leave(5, Fail));
    assert t.runs == TwoRounds(a, n, stage, Settled, Working, map[0 := turn]).runs;
    LeadsOn(rules, s, t, [Leave(5, Fail)]);
  }

  lemma JoinsEarlier(rules: Rules, a: NodeId, n: NodeId, fate: Fate, turn: Turn)
    requires DrainsEarly(rules, a, n, fate) && turn == Turn(1, {n}, {n}, {}, {})
    requires Leads(rules, Empty, TwoRounds(a, n, StageAfter(Working, fate), Settled, Working, map[0 := turn]))
    ensures exists steps :: !OnePerSender(Run(rules, steps))
  {
    var s := TwoRounds(a, n, StageAfter(Working, fate), Settled, Working, map[0 := turn]);
    assert Enabled(s, rules, Emit(0, n));
    assert Latest(s.runs, n, 0, 0) == Some(4) && LatestWillDo(s, 0, n);
    OneStep(s, rules, Emit(0, n));
    var t := Next(s, rules, Emit(0, n));
    assert 0 in t.wait[4] && 1 in t.wait[4] && t.runs[0].node == t.runs[1].node;
    LeadsOn(rules, s, t, [Emit(0, n)]);
    var steps :| RunFrom(Empty, rules, steps) == t;
    assert !OnePerSender(Run(rules, steps));
  }

  // Run 0 and later run 5 are of the receiver's own node, runs 1 and 2 of another
  // node that emits to it; runs 3 and 4 are rounds.

  function RivalRows(n: NodeId, m: NodeId, third: Stage, round: Stage): seq<RunRow> {
    [At(n, Settled), At(m, Settled), At(m, third), At(n, Pending), At(n, round)]
  }

  function RivalRounds(n: NodeId, m: NodeId, third: Stage, round: Stage, later: set<nat>, done: set<nat>,
                       turns: map<nat, Turn>): State {
    State(RivalRows(n, m, third, round) + [At(n, Working)],
          [{}, {}, {}, {0, 1}, later, {}], [{}, {}, {}, {0, 1}, done, {}], turns, {})
  }

  /** The other node has begun the later round and the node's own run joins it. As
      long as that is not committed, the gate of the round sees nothing of it: the
      other sender settles, the attributes of the round fail to resolve, it leaves,
      and what the node's own run emits next joins the earlier round. */
  lemma RivalRoundsMix(rules: Rules, n: NodeId, m: NodeId)
    requires (n, n) in rules.edges && Rival(rules, m, n)
    ensures exists steps :: !OnePerSender(Run(rules, steps))
  {
    RivalBegins(rules, n, m);
    OwnRunJoins(rules, n, m);
    RivalSettles(rules, n, m);
    RivalRoundLeaves(rules, n, m);
    OwnRunMixes(rules, n, m);
  }

  lemma OwnRunBegins(rules: Rules, n: NodeId, m: NodeId)
    requires (n, n) in rules.edges
    ensures Leads(rules, Empty, State([At(n, Settled), At(m, Working), At(m, Working), At(n, Pending)],
                                      [{}, {}, {}, {0}], [{}, {}, {}, {0}], map[], {}))
  {
    ThreeStarts(rules, n, m, m);
    var s := State([At(n, Working), At(m, Working), At(m, Working)], [{}, {}, {}], [{}, {}, {}], map[], {});
    assert Latest(s.runs, n, 0, 0) == None;
    OneTurn(rules, s, 0, n, Settle);
    TurnBegins(s, 0, n, Settle);
    assert AfterTurn(s, 0, n, Settle).runs == [At(n, Settled), At(m, Working), At(m, Working), At(n, Pending)];
  }

  lemma EarlierRound(rules: Rules, n: NodeId, m: NodeId)
    requires (n, n) in rules.edges && Rival(rules, m, n)
    ensures Leads(rules, Empty, State([At(n, Settled), At(m, Settled), At(m, Working), At(n, Pending)],
                                      [{}, {}, {}, {0, 1}], [{}, {}, {}, {0, 1}], map[], {}))
  {
    OwnRunBegins(rules, n, m);
    var t := State([At(n, Settled), At(m, Working), At(m, Working), At(n, Pending)],
                   [{}, {}, {}, {0}], [{}, {}, {}, {0}], map[], {});
    assert Latest(t.runs, n, 0, 0) == Some(3) && !HoldsSenderNode(t, 3, m);
    OneTurn(rules, t, 1, n, Settle);
    TurnJoins(t, 1, n, Settle, 3);
    var u := AfterTurn(t, 1, n, Settle);
    assert u.wait[3] == {0, 1} && u.drained[3] == {0, 1};
  }

  lemma RivalBegins(rules: Rules, n: NodeId, m: NodeId)
    requires (n, n) in rules.edges && Rival(rules, m, n)
    ensures Leads(rules, Empty, RivalRounds(n, m, Working, Pending, {2}, {}, map[]))
  {
    EarlierRound(rules, n, m);
    var s := State([At(n, Settled), At(m, Settled), At(m, Working), At(n, Pending)],
                   [{}, {}, {}, {0, 1}], [{}, {}, {}, {0, 1}], map[], {});
    assert Latest(s.runs, n, 0, 0) == Some(3) && HoldsSenderNode(s, 3, m) by { assert 1 in s.wait[3]; }
    OneTurn(rules, s, 2, n, Stay);
    TurnBegins(s, 2, n, Stay);
    var t := AfterTurn(s, 2, n, Stay);
    assert t.runs == RivalRows(n, m, Working, Pending);
    Starts(rules, t, n);
    var u := RivalRounds(n, m, Working, Pending, {2}, {}, map[]);
    assert u == Plus(t, n);
  }

  lemma OwnRunJoins(rules: Rules, n: NodeId, m: NodeId)
    requires (n, n) in rules.edges && Rival(rules, m, n)
    requires Leads(rules, Empty, RivalRounds(n, m, Working, Pending, {2}, {}, map[]))
    ensures Leads(rules, Empty, RivalRounds(n, m, Working, Pending, {2, 5}, {}, map[0 := Turn(5, {n}, {n}, {4}, {})]))
  {
    var s := RivalRounds(n, m, Working, Pending, {2}, {}, map[]);
    var b := RivalRounds(n, m, Working, Pending, {2}, {}, map[0 := Turn(5, {}, {}, {}, {})]);
    assert Next(s, rules, BeginTurn(0, 5)) == b;
    OwnRunJoined(rules, n, m);
    var c := RivalRounds(n, m, Working, Pending, {2, 5}, {}, map[0 := Turn(5, {n}, {n}, {4}, {})]);
    TwoSteps(s, rules, BeginTurn(0, 5), Emit(0, n));
    LeadsOn(rules, s, c, [BeginTurn(0, 5), Emit(0, n)]);
  }

  lemma OwnRunJoined(rules: Rules, n: NodeId, m: NodeId)
    requires (n, n) in rules.edges && Rival(rules, m, n)
    ensures var b := RivalRounds(n, m, Working, Pending, {2}, {}, map[0 := Turn(5, {}, {}, {}, {})]);
            Shaped(b) && Next(b, rules, Emit(0, n))
                         == RivalRounds(n, m, Working, Pending, {2, 5}, {}, map[0 := Turn(5, {n}, {n}, {4}, {})])
  {
    var b := RivalRounds(n, m, Working, Pending, {2}, {}, map[0 := Turn(5, {}, {}, {}, {})]);
    assert Enabled(b, rules, Emit(0, n));
    assert Matches(b.runs[4], n, 0, 0) && !Matches(b.runs[5], n, 0, 0);
    assert Latest(b.runs, n, 0, 0) == Some(4);
    assert !HoldsSenderNode(b, 4, n) by { assert b.wait[4] == {2}; }
    var c := Joined(b, 0, n, 4);
    assert c.wait[4] == {2, 5} && c.turns[0] == Turn(5, {n}, {n}, {4}, {});
    assert c.turns == map[0 := Turn(5, {n}, {n}, {4}, {})];
  }

  lemma RivalSettles(rules: Rules, n: NodeId, m: NodeId)
    requires Leads(rules, Empty, RivalRounds(n, m, Working, Pending, {2, 5}, {}, map[0 := Turn(5, {n}, {n}, {4}, {})]))
    ensures Leads(rules, Empty, RivalRounds(n, m, Settled, Pending, {2, 5}, {2}, map[0 := Turn(5, {n}, {n}, {4}, {})]))
  {
    var turn := Turn(5, {n}, {n}, {4}, {});
    var s := RivalRounds(n, m, Working, Pending, {2, 5}, {}, map[0 := turn]);
    var b := Next(s, rules, BeginTurn(1, 2));
    assert b.turns == map[0 := turn, 1 := Turn(2, {}, {}, {}, {})];
    var c := Next(b, rules, EndTurn(1, Settle));
    var e := RivalRounds(n, m, Settled, Pending, {2, 5}, {2}, map[0 := turn]);
    assert c.turns == map[0 := turn] && c.runs == e.runs;
    assert c.drained == e.drained by { assert c.drained[4] == {2}; }
    TwoSteps(s, rules, BeginTurn(1, 2), EndTurn(1, Settle));
    LeadsOn(rules, s, c, [BeginTurn(1, 2), EndTurn(1, Settle)]);
  }

  lemma RivalRoundLeaves(rules: Rules, n: NodeId, m: NodeId)
    requires Rival(rules, m, n)
    requires Leads(rules, Empty, RivalRounds(n, m, Settled, Pending, {2, 5}, {2}, map[0 := Turn(5, {n}, {n}, {4}, {})]))
    ensures Leads(rules, Empty, RivalRounds(n, m, Settled, Working, {2, 5}, {2}, map[0 := Turn(5, {n}, {n}, {4}, {})]))
  {
    var turns := map[0 := Turn(5, {n}, {n}, {4}, {})];
    var s := RivalRounds(n, m, Settled, Pending, {2, 5}, {2}, turns);
    assert AddedBy(s, 0, 5, 4);
    assert GateOpen(s, rules, 4, Fail);
    OneStep(s, rules, Leave(4, Fail));
    var t := Next(s, rules, Leave(4, Fail));
    assert t.runs == RivalRounds(n, m, Settled, Working, {2, 5}, {2}, turns).runs;
    LeadsOn(rules, s, t, [Leave(4, Fail)]);
  }

  lemma OwnRunMixes(rules: Rules, n: NodeId, m: NodeId)
    requires (n, n) in rules.edges
    requires Leads(rules, Empty, RivalRounds(n, m, Settled, Working, {2, 5}, {2}, map[0 := Turn(5, {n}, {n}, {4}, {})]))
    ensures exists steps :: !OnePerSender(Run(rules, steps))
  {
    var s := RivalRounds(n, m, Settled, Working, {2, 5}, {2}, map[0 := Turn(5, {n}, {n}, {4}, {})]);
    assert Enabled(s, rules, Emit(0, n));
    assert Matches(s.runs[3], n, 0, 0) && !Matches(s.runs[4], n, 0, 0) && !Matches(s.runs[5], n, 0, 0);
    assert Latest(s.runs, n, 0, 0) == Some(3) && LatestWillDo(s, 0, n);
    OneStep(s, rules, Emit(0, n));
    var t := Next(s, rules, Emit(0, n));
    assert 0 in t.wait[3] && 5 in t.wait[3] && t.runs[0].node == t.runs[5].node;
    LeadsOn(rules, s, t, [Emit(0, n)]);
    var steps :| RunFrom(Empty, rules, steps) == t;
    assert !OnePerSender(Run(rules, steps));
  }

  // ----------------------------------------------------------------- pinning

  // --------------------------------------------------------- no gate stays shut

  /** A wait row belongs to a run that is past its own gate, and is drained once that
      run has settled. */
  ghost predicate RowKept(s: State, r: nat, a: nat)
    requires Shaped(s) && r < |s.runs|
  {
    a < |s.runs| && !s.runs[a].stage.Pending? && (s.runs[a].stage.Settled? ==> a in s.drained[r])
  }

  ghost predicate RowsKept(s: State)
    requires Shaped(s)
  {
    forall r, a | 0 <= r < |s.wait| && a in s.wait[r] :: RowKept(s, r, a)
  }

  ghost predicate SendersLive(s: State)
    requires Shaped(s)
  {
    && (forall t | t in s.turns :: s.runs[s.turns[t].sender].stage.Working? || s.runs[s.turns[t].sender].stage.Holding?)
    && (forall t, u | t in s.turns && u in s.turns && t != u :: s.turns[t].sender != s.turns[u].sender)
  }

  lemma EmitKeepsRows(s: State, rules: Rules, t: nat, node: NodeId)
    requires Shaped(s) && Enabled(s, rules, Emit(t, node)) && RowsKept(s) && SendersLive(s)
    ensures var s' := Emitted(s, t, node); Shaped(s') && RowsKept(s') && SendersLive(s')
  {
    var s' := Emitted(s, t, node);
    forall r, a | 0 <= r < |s'.wait| && a in s'.wait[r] ensures RowKept(s', r, a) {
      if r < |s.wait| && a in s.wait[r] { assert RowKept(s, r, a); }
    }
  }

  lemma EndKeepsRows(s: State, rules: Rules, t: nat, fate: Fate)
    requires Shaped(s) && Enabled(s, rules, EndTurn(t, fate)) && RowsKept(s) && SendersLive(s)
    ensures var s' := Ended(s, t, fate); Shaped(s') && RowsKept(s') && SendersLive(s')
  {
    var s' := Ended(s, t, fate);
    forall r, a | 0 <= r < |s'.wait| && a in s'.wait[r] ensures RowKept(s', r, a) { assert RowKept(s, r, a); }
  }

  lemma LeaveKeepsRows(s: State, rules: Rules, x: nat, way: Way)
    requires Shaped(s) && Enabled(s, rules, Leave(x, way)) && RowsKept(s) && SendersLive(s)
    ensures var s' := Left(s, x, way); Shaped(s') && RowsKept(s') && SendersLive(s')
  {
    var s' := Left(s, x, way);
    forall r, a | 0 <= r < |s'.wait| && a in s'.wait[r] ensures RowKept(s', r, a) { assert RowKept(s, r, a); }
  }

  lemma StepKeepsRows(s: State, rules: Rules, step: Step)
    requires Shaped(s) && Enabled(s, rules, step) && RowsKept(s) && SendersLive(s)
    ensures var s' := Apply(s, rules, step); Shaped(s') && RowsKept(s') && SendersLive(s')
  {
    match step {
      case Emit(t, node) => EmitKeepsRows(s, rules, t, node);
      case EndTurn(t, fate) => EndKeepsRows(s, rules, t, fate);
      case Leave(r, way) => LeaveKeepsRows(s, rules, r, way);
      case _ =>
        var s' := Apply(s, rules, step);
        forall r, a | 0 <= r < |s'.wait| && a in s'.wait[r] ensures RowKept(s', r, a) { assert RowKept(s, r, a); }
    }
  }

  lemma {:induction false} RunKeepsRows(s: State, rules: Rules, steps: seq<Step>)
    requires Shaped(s) && RowsKept(s) && SendersLive(s)
    ensures var s' := RunFrom(s, rules, steps); Shaped(s') && RowsKept(s') && SendersLive(s')
    decreases |steps|
  {
    if steps == [] {
    } else {
      if Enabled(s, rules, steps[0]) { StepKeepsRows(s, rules, steps[0]); }
      RunKeepsRows(Next(s, rules, steps[0]), rules, steps[1..]);
    }
  }

  /** Nothing of the round is at work any more for `r`: the runs it waits for and the
      runs of nodes it subscribes to have settled, and no other run of its own node is
      at work in the scope. */
  ghost predicate RoundOver(s: State, rules: Rules, r: nat)
    requires Shaped(s) && r < |s.runs|
  {
    && (forall a | a in s.wait[r] :: s.runs[a].stage.Settled?)
    && (forall b: nat | b < |s.runs| && (s.runs[b].node, s.runs[r].node) in rules.edges
          && s.runs[b].scope == s.runs[r].scope && s.runs[b].frame == s.runs[r].frame
          && s.runs[b].node != s.runs[r].node :: s.runs[b].stage.Settled?)
    && (forall b: nat | b < |s.runs| && b != r && s.runs[b].node == s.runs[r].node
          && s.runs[b].scope == s.runs[r].scope :: s.runs[b].stage.Settled? || s.runs[b].stage.Pending?)
  }

  /** No gate stays shut for good: after any history, whatever the rules, a pending run
      whose round is over may leave in any way once no turn is open. */
  lemma GateOpensAgain(rules: Rules, steps: seq<Step>, r: nat, way: Way)
    ensures var s := Run(rules, steps);
            r < |s.runs| && s.runs[r].stage.Pending? && s.turns == map[] && RoundOver(s, rules, r) ==>
              Enabled(s, rules, Leave(r, way))
  {
    RunKeepsRows(Empty, rules, steps);
    var s := Run(rules, steps);
    if r < |s.runs| && RoundOver(s, rules, r) {
      forall a ensures !(a in s.wait[r] && a !in s.drained[r]) { if a in s.wait[r] { assert RowKept(s, r, a); } }
    }
  }

  /** For each sender node, the latest of its runs among the wait-set rows. Rows
      may repeat a run, once per topic kind. */
  method PinnedSenderRuns(runs: seq<RunRow>, rows: seq<nat>) returns (pinned: map<NodeId, nat>)
    requires forall a | a in rows :: a < |runs|
    ensures forall n :: n in pinned <==> exists a :: a in rows && runs[a].node == n
    ensures forall n | n in pinned :: pinned[n] in rows && runs[pinned[n]].node == n
                                      && forall a | a in rows && runs[a].node == n :: a <= pinned[n]
  {
    pinned := map[];
    var seen: set<nat> := {};
    for i := 0 to |rows|
      invariant forall a | a in rows[..i] :: a < |runs|
      invariant forall a :: a in seen <==> a in rows[..i]
      invariant forall n :: n in pinned <==> exists a :: a in rows[..i] && runs[a].node == n
      invariant forall n | n in pinned :: pinned[n] in rows[..i] && runs[pinned[n]].node == n
                                          && forall a | a in rows[..i] && runs[a].node == n :: a <= pinned[n]
    {
      var a := rows[i];
      assert a in rows && rows[..i + 1] == rows[..i] + [a];
      if a in seen { continue; }
      seen := seen + {a};
      var n := runs[a].node;
      if n !in pinned || a > pinned[n] { pinned := pinned[n := a]; }
    }
    assert rows[..|rows|] == rows;
  }

  /** In every reachable state the pinned run is the only one there is. */
  method PinnedIsUnique(ghost rules: Rules, ghost steps: seq<Step>, ghost r: nat, runs: seq<RunRow>, rows: seq<nat>)
    returns (pinned: map<NodeId, nat>)
    requires NoneOverlooked(rules) && runs == Run(rules, steps).runs && r < |runs|
    requires forall a :: a in rows <==> a in Run(rules, steps).wait[r]
    ensures forall a | a in rows :: runs[a].node in pinned && pinned[runs[a].node] == a
    ensures forall n | n in pinned :: pinned[n] in rows && runs[pinned[n]].node == n
  {
    RunKeeps(Empty, rules, steps);
    pinned := PinnedSenderRuns(runs, rows);
  }
}
