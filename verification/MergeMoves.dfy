/**
 * Carrying the plan out on paper: every selected block gets the least loaded
 * rack of its local group that has a free node, and the final layout is validated.
 */
module MergeMoves {
  import opened MergePlan
  import opened Wrappers

  // ---- Candidates ----

  datatype Candidate = Candidate(load: nat, rackCol: nat, nodeCol: nat, cluster: nat, node: nat)

  /** The other data blocks planned for a rack. */
  ghost function Others(loc: map<nat, Place>, blk: nat, c: nat): set<nat> {
    set p | p in loc && p != blk && loc[p].cluster == c
  }

  /** The node of a rack that a node column stands for, if there is one. */
  ghost function NodeAt(m: Merge, c: nat, col: int): Option<nat>
    requires c in m.clusterNodes
  {
    if 1 <= col <= |m.oaRow| && 1 <= m.oaRow[col - 1] <= |m.clusterNodes[c]|
    then Some(m.clusterNodes[c][m.oaRow[col - 1] - 1]) else None
  }

  ghost predicate Free(m: Merge, c: nat, col: int, used: set<nat>)
    requires c in m.clusterNodes
  {
    NodeAt(m, c, col).Some? && NodeAt(m, c, col).value !in used
  }

  ghost function UsedNodes(loc: map<nat, Place>, blk: nat, c: nat): set<nat> {
    set p | p in Others(loc, blk, c) :: loc[p].node
  }

  /** The rack has room, and the node column is its first free one. */
  ghost predicate Fits(m: Merge, loc: map<nat, Place>, blk: nat, cand: Candidate)
    requires blk in loc
  {
    cand.cluster in m.clusterNodes && cand.cluster != loc[blk].cluster &&
    cand.load == |Others(loc, blk, cand.cluster)| < m.cap &&
    1 <= cand.nodeCol <= m.cap && Free(m, cand.cluster, cand.nodeCol, UsedNodes(loc, blk, cand.cluster)) &&
    NodeAt(m, cand.cluster, cand.nodeCol) == Some(cand.node) &&
    forall col :: 1 <= col < cand.nodeCol ==> !Free(m, cand.cluster, col, UsedNodes(loc, blk, cand.cluster))
  }

  /** The rack already holds data of the group, under that rack column. */
  ghost predicate HoldsGroup(m: Merge, loc: map<nat, Place>, g: nat, rackCol: nat, c: nat)
    requires forall p :: p in loc ==> p in m.group
  {
    exists p :: p in loc && m.group[p] == g && loc[p].rackCol == rackCol && loc[p].cluster == c
  }

  ghost predicate IsCandidate(m: Merge, loc: map<nat, Place>, g: nat, blk: nat, cand: Candidate)
    requires Shape(m, loc) && blk in loc
  {
    HoldsGroup(m, loc, g, cand.rackCol, cand.cluster) && Fits(m, loc, blk, cand)
  }

  /** Within a group a rack column stands for one rack. */
  ghost predicate ColumnsMeanRacks(m: Merge, loc: map<nat, Place>)
    requires forall p :: p in loc ==> p in m.group
  {
    forall p, q :: (p in loc && q in loc && m.group[p] == m.group[q] && loc[p].rackCol == loc[q].rackCol) ==>
      loc[p].cluster == loc[q].cluster
  }

  /** Least load first, then least rack column, then least node column. */
  ghost predicate Better(x: Candidate, y: Candidate) {
    x.load < y.load || (x.load == y.load && (x.rackCol < y.rackCol || (x.rackCol == y.rackCol && x.nodeCol < y.nodeCol)))
  }

  /** How full a rack is, and which of its nodes are in use. */
  method Survey(loc: map<nat, Place>, blk: nat, c: nat) returns (load: nat, used: set<nat>)
    ensures load == |Others(loc, blk, c)| && used == UsedNodes(loc, blk, c)
  {
    load, used := 0, {};
    var rest := loc.Keys;
    ghost var seen: set<nat> := {};
    while rest != {}
      invariant rest <= loc.Keys
      invariant seen == set p | p in loc && p !in rest && p != blk && loc[p].cluster == c
      invariant load == |seen| && used == set p | p in seen :: loc[p].node
      decreases rest
    {
      var p :| p in rest;
      rest := rest - {p};
      if p != blk && loc[p].cluster == c {
        load := load + 1;
        used := used + {loc[p].node};
        seen := seen + {p};
      }
    }
    assert seen == Others(loc, blk, c);
  }

  /** The candidate that one rack offers. */
  method Examine(m: Merge, loc: map<nat, Place>, blk: nat, rackCol: nat, c: nat) returns (cand: Option<Candidate>)
    requires Shape(m, loc) && blk in loc && c in m.clusterNodes
    ensures cand.Some? ==> Fits(m, loc, blk, cand.value) && cand.value.rackCol == rackCol && cand.value.cluster == c
    ensures forall x: Candidate :: Fits(m, loc, blk, x) && x.rackCol == rackCol && x.cluster == c ==> cand == Some(x)
  {
    hide Shape;
    if c == loc[blk].cluster {
      return None;
    }
    var load, used := Survey(loc, blk, c);
    if load >= m.cap {
      return None;
    }
    var col: nat := 1;
    while col <= m.cap && col <= |m.oaRow|
      invariant col >= 1 && forall x :: 1 <= x < col ==> !Free(m, c, x, used)
    {
      var index := m.oaRow[col - 1] - 1;
      var nodes := m.clusterNodes[c];
      if 0 <= index < |nodes| && nodes[index] !in used {
        return Some(Candidate(load, rackCol, col, c, nodes[index]));
      }
      col := col + 1;
    }
    return None;
  }

  /** The racks of the group by rack column. */
  method RackColumns(m: Merge, loc: map<nat, Place>, g: nat) returns (cols: map<nat, nat>)
    requires Shape(m, loc)
    ensures forall col :: col in cols ==> HoldsGroup(m, loc, g, col, cols[col])
    ensures forall p :: p in loc && m.group[p] == g ==> loc[p].rackCol in cols
  {
    cols := map[];
    var rest := loc.Keys;
    while rest != {}
      invariant rest <= loc.Keys
      invariant forall col :: col in cols ==> HoldsGroup(m, loc, g, col, cols[col])
      invariant forall p :: p in loc && p !in rest && m.group[p] == g ==> loc[p].rackCol in cols
      decreases rest
    {
      var p :| p in rest;
      rest := rest - {p};
      if m.group[p] == g {
        cols := cols[loc[p].rackCol := loc[p].cluster];
      }
    }
  }

  /** The best candidate, if there is any. */
  method ChooseTarget(m: Merge, loc: map<nat, Place>, g: nat, blk: nat) returns (best: Option<Candidate>)
    requires Shape(m, loc) && blk in loc
    ensures best.Some? ==> IsCandidate(m, loc, g, blk, best.value)
    ensures ColumnsMeanRacks(m, loc) ==>
      forall x: Candidate :: IsCandidate(m, loc, g, blk, x) ==> best.Some? && !Better(x, best.value)
  {
    hide Fits;
    var cols := RackColumns(m, loc, g);
    best := None;
    var rest := cols.Keys;
    while rest != {}
      invariant rest <= cols.Keys
      invariant best.Some? ==> IsCandidate(m, loc, g, blk, best.value)
      invariant forall x: Candidate ::
        Fits(m, loc, blk, x) && x.rackCol in cols && cols[x.rackCol] == x.cluster && x.rackCol !in rest ==>
          best.Some? && !Better(x, best.value)
      decreases rest
    {
      var col :| col in rest;
      rest := rest - {col};
      var cand := Examine(m, loc, blk, col, cols[col]);
      if cand.Some? {
        var x := cand.value;
        if best.None? || x.load < best.value.load ||
           (x.load == best.value.load && (x.rackCol < best.value.rackCol ||
            (x.rackCol == best.value.rackCol && x.nodeCol < best.value.nodeCol))) {
          best := cand;
        }
      }
    }
  }

  // ---- Moving the selected blocks ----

  ghost function TargetOf(cand: Candidate): Place {
    Place(cand.cluster, cand.node, cand.rackCol, cand.nodeCol)
  }

  /**
   * The moves so far: each takes one right block from its original place to its planned place; nothing else
   * changed.
   */
  ghost predicate Moved(m: Merge, loc0: map<nat, Place>, loc: map<nat, Place>, moves: seq<Migration>) {
    loc.Keys == loc0.Keys &&
    (forall i :: 0 <= i < |moves| ==> MovedOne(m, loc0, loc, moves[i])) &&
    (forall i, j :: 0 <= i < j < |moves| ==> moves[i].block != moves[j].block) &&
    (forall p :: p in loc && !Moves(moves, p) ==> loc[p] == loc0[p])
  }

  ghost predicate MovedOne(m: Merge, loc0: map<nat, Place>, loc: map<nat, Place>, mv: Migration)
    requires loc.Keys == loc0.Keys
  {
    mv.block in m.right && mv.block in loc && mv.source == loc0[mv.block] && mv.target == loc[mv.block] &&
    mv.target.cluster != mv.source.cluster &&
    mv.target.cluster in m.clusterNodes && mv.target.node in m.clusterNodes[mv.target.cluster]
  }

  ghost predicate Moves(moves: seq<Migration>, p: nat) {
    exists i :: 0 <= i < |moves| && moves[i].block == p
  }

  /** Every block moved so far is of an earlier group, or of group g and not waiting. */
  ghost predicate MovedInTurn(m: Merge, moves: seq<Migration>, g: nat, waiting: seq<nat>) {
    forall p :: Moves(moves, p) ==> p in m.group && (m.group[p] < g || (m.group[p] == g && p !in waiting))
  }

  /** The move takes its block to a candidate that none precedes. */
  ghost predicate BestMove(m: Merge, loc: map<nat, Place>, mv: Migration) {
    Shape(m, loc) && mv.block in loc && mv.source == loc[mv.block] &&
    exists cand :: TargetOf(cand) == mv.target && BestCandidate(m, loc, mv.block, cand)
  }

  ghost predicate BestCandidate(m: Merge, loc: map<nat, Place>, blk: nat, cand: Candidate)
    requires Shape(m, loc) && blk in loc
  {
    IsCandidate(m, loc, m.group[blk], blk, cand) &&
    forall x: Candidate :: IsCandidate(m, loc, m.group[blk], blk, x) ==> !Better(x, cand)
  }

  /** The places after the first moves. */
  ghost function Placed(loc0: map<nat, Place>, moves: seq<Migration>): map<nat, Place> {
    if moves == [] then loc0
    else Placed(loc0, moves[..|moves| - 1])[moves[|moves| - 1].block := moves[|moves| - 1].target]
  }

  /** Every move is the best one at its turn, and the moves lead to these places. */
  ghost predicate BestMoves(m: Merge, loc0: map<nat, Place>, loc: map<nat, Place>, moves: seq<Migration>) {
    loc == Placed(loc0, moves) && forall i :: 0 <= i < |moves| ==> BestMove(m, Placed(loc0, moves[..i]), moves[i])
  }

  lemma BestKept(m: Merge, loc0: map<nat, Place>, loc: map<nat, Place>, moves: seq<Migration>, blk: nat,
                 cand: Candidate, columns: bool)
    requires Shape(m, loc) && blk in loc
    requires columns ==> BestMoves(m, loc0, loc, moves) && BestCandidate(m, loc, blk, cand)
    ensures columns ==>
      BestMoves(m, loc0, loc[blk := TargetOf(cand)], moves + [Migration(blk, loc[blk], TargetOf(cand))])
  {
    hide Shape, BestCandidate;
    var mv := Migration(blk, loc[blk], TargetOf(cand));
    var moves' := moves + [mv];
    assert moves'[..|moves|] == moves;
    if columns {
      assert BestMove(m, loc, mv);
      forall i | 0 <= i < |moves'|
        ensures BestMove(m, Placed(loc0, moves'[..i]), moves'[i])
      {
        if i < |moves| {
          assert moves'[..i] == moves[..i];
        }
      }
    }
  }

  /** One more move. */
  lemma MovedStep(m: Merge, loc0: map<nat, Place>, loc: map<nat, Place>, moves: seq<Migration>, blk: nat,
                  cand: Candidate)
    requires Moved(m, loc0, loc, moves) && blk in loc && blk in m.right && !Moves(moves, blk)
    requires cand.cluster != loc[blk].cluster
    requires cand.cluster in m.clusterNodes && cand.node in m.clusterNodes[cand.cluster]
    ensures Moved(m, loc0, loc[blk := TargetOf(cand)], moves + [Migration(blk, loc[blk], TargetOf(cand))])
  {
    var loc', moves' := loc[blk := TargetOf(cand)], moves + [Migration(blk, loc[blk], TargetOf(cand))];
    assert loc[blk] == loc0[blk];
    forall p | p in loc' && !Moves(moves', p)
      ensures loc'[p] == loc0[p]
    {
      assert moves'[|moves|].block == blk;
      assert forall i :: 0 <= i < |moves| ==> moves'[i] == moves[i];
    }
  }

  /** A move keeps racks pure and off the parity rack ... */
  lemma MoveHoused(m: Merge, loc: map<nat, Place>, g: nat, blk: nat, cand: Candidate)
    requires Shape(m, loc) && Housed(m, loc) && blk in loc && m.group[blk] == g && IsCandidate(m, loc, g, blk, cand)
    ensures Shape(m, loc[blk := TargetOf(cand)]) && Housed(m, loc[blk := TargetOf(cand)])
  {
    hide Free;
    assert loc[blk := TargetOf(cand)].Keys == loc.Keys;
  }

  /** ... and settles the moved block: its node is free and its rack has room. */
  lemma MoveSound(m: Merge, loc: map<nat, Place>, g: nat, blk: nat, cand: Candidate, settled: set<nat>)
    requires Shape(m, loc) && Housed(m, loc) && NodesSeparate(m) && settled <= loc.Keys && Sound(loc, settled, m.cap)
    requires blk in loc && blk !in settled && m.group[blk] == g && IsCandidate(m, loc, g, blk, cand)
    ensures Sound(loc[blk := TargetOf(cand)], settled + {blk}, m.cap)
  {
    var loc' := loc[blk := TargetOf(cand)];
    forall p | p in settled
      ensures loc'[p].node != cand.node
    {
      NewNodeFree(m, loc, blk, cand, p);
    }
    forall c
      ensures |On(loc', settled + {blk}, c)| <= m.cap
    {
      RoomFor(m, loc, blk, cand, settled, c);
    }
  }

  lemma NewNodeFree(m: Merge, loc: map<nat, Place>, blk: nat, cand: Candidate, p: nat)
    requires Shape(m, loc) && Housed(m, loc) && NodesSeparate(m) && blk in loc && Fits(m, loc, blk, cand)
    requires p in loc && p != blk
    ensures loc[p].node != cand.node
  {
    hide Shape;
    if loc[p].cluster == cand.cluster {
      assert p in Others(loc, blk, cand.cluster);
      assert loc[p].node in UsedNodes(loc, blk, cand.cluster);
    }
  }

  lemma RoomFor(m: Merge, loc: map<nat, Place>, blk: nat, cand: Candidate, settled: set<nat>, c: nat)
    requires blk in loc && blk !in settled && settled <= loc.Keys && Fits(m, loc, blk, cand)
    requires |On(loc, settled, c)| <= m.cap
    ensures |On(loc[blk := TargetOf(cand)], settled + {blk}, c)| <= m.cap
  {
    hide Free;
    var loc' := loc[blk := TargetOf(cand)];
    if c == cand.cluster {
      assert On(loc', settled + {blk}, c) <= Others(loc, blk, c) + {blk};
      SubsetSize(On(loc', settled + {blk}, c), Others(loc, blk, c) + {blk});
    } else {
      assert On(loc', settled + {blk}, c) == On(loc, settled, c);
    }
  }

  /** The move settles the first waiting block. */
  lemma MoveSettles(m: Merge, loc: map<nat, Place>, g: nat, waiting: seq<nat>, cand: Candidate)
    requires Settling(m, loc, g, waiting) && NoDup(waiting) && waiting != []
    requires waiting[0] in loc && m.group[waiting[0]] == g && IsCandidate(m, loc, g, waiting[0], cand)
    ensures Settling(m, loc[waiting[0] := TargetOf(cand)], g, waiting[1..])
  {
    hide IsCandidate, Housed, NodesSeparate, Sound;
    var blk := waiting[0];
    var settled := Settled(m, loc, g, waiting);
    MoveHoused(m, loc, g, blk, cand);
    MoveSound(m, loc, g, blk, cand, settled);
    assert forall p :: p in waiting <==> p == blk || p in waiting[1..];
    assert Settled(m, loc[blk := TargetOf(cand)], g, waiting[1..]) == settled + {blk};
  }

  lemma TurnStep(m: Merge, moves: seq<Migration>, g: nat, waiting: seq<nat>, mv: Migration)
    requires MovedInTurn(m, moves, g, waiting) && waiting != [] && NoDup(waiting)
    requires mv.block == waiting[0] && mv.block in m.group && m.group[mv.block] == g
    ensures MovedInTurn(m, moves + [mv], g, waiting[1..])
  {
    forall p | Moves(moves + [mv], p)
      ensures p in m.group && (m.group[p] < g || (m.group[p] == g && p !in waiting[1..]))
    {
      if p != mv.block {
        var i :| 0 <= i < |moves + [mv]| && (moves + [mv])[i].block == p;
        assert moves[i].block == p;
      }
    }
  }

  /** A block that has to move while no rack of its group can take it. */
  ghost predicate Stuck(m: Merge, loc0: map<nat, Place>) {
    exists loc, moves, blk :: Moved(m, loc0, loc, moves) && Shape(m, loc) && blk in m.right && blk in loc && Lost(m, loc, blk)
  }

  ghost predicate Lost(m: Merge, loc: map<nat, Place>, blk: nat)
    requires Shape(m, loc) && blk in loc
  {
    forall cand :: !IsCandidate(m, loc, m.group[blk], blk, cand)
  }

  /** Moves keep rack columns and racks in correspondence. */
  lemma ColumnsStay(m: Merge, loc: map<nat, Place>, g: nat, blk: nat, cand: Candidate)
    requires Shape(m, loc) && blk in loc && m.group[blk] == g && IsCandidate(m, loc, g, blk, cand)
    requires ColumnsMeanRacks(m, loc)
    ensures Shape(m, loc[blk := TargetOf(cand)])
    ensures ColumnsMeanRacks(m, loc[blk := TargetOf(cand)])
  {
    hide Fits;
    MoveShape(m, loc, blk, cand);
  }

  lemma MoveShape(m: Merge, loc: map<nat, Place>, blk: nat, cand: Candidate)
    requires Shape(m, loc) && blk in loc && Fits(m, loc, blk, cand)
    ensures Shape(m, loc[blk := TargetOf(cand)])
  {
    assert loc[blk := TargetOf(cand)].Keys == loc.Keys;
  }

  /** Moves the selected blocks of one group, one after the other. */
  method MoveSelected(m: Merge, ghost loc0: map<nat, Place>, loc: map<nat, Place>, moves: seq<Migration>, g: nat,
                      selected: seq<nat>, ghost proper: bool, ghost columns: bool)
      returns (ok: bool, planned: map<nat, Place>, done: seq<Migration>)
    requires Shape(m, loc) && Moved(m, loc0, loc, moves) && SelectedIn(m, loc, g, selected)
    requires MovedInTurn(m, moves, g, selected)
    requires proper ==> Settling(m, loc, g, selected)
    requires columns ==> ColumnsMeanRacks(m, loc) && BestMoves(m, loc0, loc, moves)
    ensures columns ==> BestMoves(m, loc0, planned, done)
    ensures ok ==> Shape(m, planned) && Moved(m, loc0, planned, done) && MovedInTurn(m, done, g, [])
    ensures ok && proper ==> Settling(m, planned, g, [])
    ensures ok && columns ==> ColumnsMeanRacks(m, planned)
    ensures !ok && columns ==> Stuck(m, loc0)
    ensures selected == [] ==> ok && planned == loc && done == moves
  {
    hide Settling, ColumnsMeanRacks, Moved, MovedInTurn, IsCandidate, Selection, RackOf, BestMoves, Better;
    planned, done := loc, moves;
    for i := 0 to |selected|
      invariant Shape(m, planned) && Moved(m, loc0, planned, done) && MovedInTurn(m, done, g, selected[i..])
      invariant proper ==> Settling(m, planned, g, selected[i..])
      invariant columns ==> ColumnsMeanRacks(m, planned) && BestMoves(m, loc0, planned, done)
      invariant i == 0 ==> planned == loc && done == moves
    {
      var blk := selected[i];
      assert blk in m.right && m.group[blk] == g;
      var best := ChooseTarget(m, planned, g, blk);
      if best.None? {
        if columns {
          Exhausted(m, loc0, planned, done, blk);
        }
        return false, planned, done;
      }
      ghost var waiting := selected[i..];
      assert waiting[1..] == selected[i + 1..] && NoDup(waiting);
      MoveOne(m, loc0, planned, done, g, waiting, best.value, proper, columns);
      BestKept(m, loc0, planned, done, blk, best.value, columns);
      var target := Place(best.value.cluster, best.value.node, best.value.rackCol, best.value.nodeCol);
      done := done + [Migration(blk, planned[blk], target)];
      planned := planned[blk := target];
    }
    assert selected[|selected|..] == [];
    return true, planned, done;
  }

  lemma Exhausted(m: Merge, loc0: map<nat, Place>, loc: map<nat, Place>, moves: seq<Migration>, blk: nat)
    requires Shape(m, loc) && Moved(m, loc0, loc, moves) && blk in m.right && blk in loc
    requires forall cand :: !IsCandidate(m, loc, m.group[blk], blk, cand)
    ensures Stuck(m, loc0)
  {
    hide Shape, Moved, IsCandidate;
    assert Lost(m, loc, blk);
  }

  /** Everything that one move keeps. */
  lemma MoveOne(m: Merge, loc0: map<nat, Place>, loc: map<nat, Place>, moves: seq<Migration>, g: nat,
                waiting: seq<nat>, cand: Candidate, proper: bool, columns: bool)
    requires Shape(m, loc) && Moved(m, loc0, loc, moves) && MovedInTurn(m, moves, g, waiting)
    requires waiting != [] && NoDup(waiting) && waiting[0] in m.right && waiting[0] in loc && m.group[waiting[0]] == g
    requires IsCandidate(m, loc, g, waiting[0], cand)
    requires proper ==> Settling(m, loc, g, waiting)
    requires columns ==> ColumnsMeanRacks(m, loc)
    ensures var planned := loc[waiting[0] := TargetOf(cand)];
      Shape(m, planned) &&
      Moved(m, loc0, planned, moves + [Migration(waiting[0], loc[waiting[0]], TargetOf(cand))]) &&
      MovedInTurn(m, moves + [Migration(waiting[0], loc[waiting[0]], TargetOf(cand))], g, waiting[1..]) &&
      (proper ==> Settling(m, planned, g, waiting[1..])) &&
      (columns ==> ColumnsMeanRacks(m, planned))
  {
    hide Settling, ColumnsMeanRacks, Moved;
    MoveShape(m, loc, waiting[0], cand);
    MovedStep(m, loc0, loc, moves, waiting[0], cand);
    TurnStep(m, moves, g, waiting, Migration(waiting[0], loc[waiting[0]], TargetOf(cand)));
    if proper {
      MoveSettles(m, loc, g, waiting, cand);
    }
    if columns {
      ColumnsStay(m, loc, g, waiting[0], cand);
    }
  }

  // ---- All groups ----

  /** Nothing has to move: all blocks are on different nodes and no rack is too full. */
  ghost predicate Undisturbed(m: Merge, loc: map<nat, Place>) {
    Sound(loc, loc.Keys, m.cap)
  }

  lemma UndisturbedSelectsNone(m: Merge, loc: map<nat, Place>, g: nat, selected: seq<nat>)
    requires Shape(m, loc) && Undisturbed(m, loc) && SelectedIn(m, loc, g, selected)
    ensures selected == []
  {
    if selected != [] {
      var p := selected[0];
      var c := loc[p].cluster;
      var rack, chosen := RackOf(m, loc, g, c), ChosenIn(loc, selected, c);
      assert Selection(m, loc, rack, chosen);
      assert p in chosen && |chosen| > 0;
      NoDupSize(rack);
      assert Elements(rack) <= On(loc, loc.Keys, c);
      SubsetSize(Elements(rack), On(loc, loc.Keys, c));
    }
  }

  /** Plans every local group in turn. */
  method PlanGroups(m: Merge, loc0: map<nat, Place>) returns (ok: bool, loc: map<nat, Place>, moves: seq<Migration>)
    requires Shape(m, loc0)
    ensures ok ==> Shape(m, loc) && Moved(m, loc0, loc, moves)
    ensures ok && WellFormed(m, loc0) ==> Housed(m, loc) && Sound(loc, Earlier(m, loc, m.z), m.cap)
    ensures !ok && ColumnsMeanRacks(m, loc0) ==> Stuck(m, loc0)
    ensures ok && ColumnsMeanRacks(m, loc0) ==> BestMoves(m, loc0, loc, moves)
    ensures Undisturbed(m, loc0) ==> ok && loc == loc0 && moves == []
  {
    hide WellFormed, Settling, ColumnsMeanRacks, Moved, MovedInTurn, SelectedIn, Undisturbed, Stuck, Housed, Sound,
         BestMoves;
    ghost var proper, columns := WellFormed(m, loc0), ColumnsMeanRacks(m, loc0);
    ok, loc, moves := true, loc0, [];
    PlanStart(m, loc0);
    for g := 0 to m.z
      invariant Shape(m, loc) && Moved(m, loc0, loc, moves) && MovedBefore(m, moves, g)
      invariant proper ==> Housed(m, loc) && Sound(loc, Earlier(m, loc, g), m.cap)
      invariant columns ==> ColumnsMeanRacks(m, loc) && BestMoves(m, loc0, loc, moves)
      invariant Undisturbed(m, loc0) ==> loc == loc0 && moves == []
    {
      var selected := Select(m, loc, g);
      BeginGroup(m, loc0, loc, moves, g, selected);
      if Undisturbed(m, loc0) {
        UndisturbedSelectsNone(m, loc0, g, selected);
      }
      ok, loc, moves := MoveSelected(m, loc0, loc, moves, g, selected, proper, columns);
      if !ok {
        return;
      }
      EndGroup(m, loc, moves, g, proper);
    }
  }

  /** Only blocks of the groups before g have moved. */
  ghost predicate MovedBefore(m: Merge, moves: seq<Migration>, g: nat) {
    forall p :: Moves(moves, p) ==> p in m.group && m.group[p] < g
  }

  lemma PlanStart(m: Merge, loc: map<nat, Place>)
    requires Shape(m, loc)
    ensures Moved(m, loc, loc, []) && MovedBefore(m, [], 0) && Earlier(m, loc, 0) == {} && BestMoves(m, loc, loc, [])
    ensures WellFormed(m, loc) ==> Housed(m, loc) && Sound(loc, Earlier(m, loc, 0), m.cap)
  {
    assert forall c :: On(loc, {}, c) == {};
  }

  lemma BeginGroup(m: Merge, loc0: map<nat, Place>, loc: map<nat, Place>, moves: seq<Migration>, g: nat,
                   selected: seq<nat>)
    requires Shape(m, loc0) && Shape(m, loc) && Moved(m, loc0, loc, moves) && MovedBefore(m, moves, g)
    requires SelectedIn(m, loc, g, selected)
    ensures MovedInTurn(m, moves, g, selected)
    ensures WellFormed(m, loc0) && Housed(m, loc) && Sound(loc, Earlier(m, loc, g), m.cap) ==>
      Settling(m, loc, g, selected)
  {
    hide SelectedIn, WellFormed, Housed, Sound, Settling;
    assert forall p :: Moves(moves, p) ==> m.group[p] < g;
    if WellFormed(m, loc0) && Housed(m, loc) && Sound(loc, Earlier(m, loc, g), m.cap) {
      assert Untouched(m, loc0, loc, g);
      SelectionSettles(m, loc0, loc, g, selected);
    }
  }

  lemma EndGroup(m: Merge, loc: map<nat, Place>, moves: seq<Migration>, g: nat, proper: bool)
    requires Shape(m, loc) && MovedInTurn(m, moves, g, []) && (proper ==> Settling(m, loc, g, []))
    ensures MovedBefore(m, moves, g + 1)
    ensures proper ==> Housed(m, loc) && Sound(loc, Earlier(m, loc, g + 1), m.cap)
  {
    hide Housed, Sound;
    if proper {
      assert Settled(m, loc, g, []) == Earlier(m, loc, g + 1);
    }
  }

  // ---- Validating the planned layout ----

  ghost function RackFault(m: Merge, loc: map<nat, Place>, c: nat): Option<Fault> {
    if c == m.parityCluster then Some(OntoParityRack)
    else if |On(loc, loc.Keys, c)| > m.cap then Some(CapacityExceeded)
    else if !Apart(loc, On(loc, loc.Keys, c)) then Some(NodeConflict)
    else None
  }

  function Clusters(loc: map<nat, Place>): set<nat> {
    set p | p in loc :: loc[p].cluster
  }

  ghost predicate FirstFault(m: Merge, loc: map<nat, Place>, c: nat) {
    c in Clusters(loc) && RackFault(m, loc, c).Some? &&
    forall d :: d in Clusters(loc) && d < c ==> RackFault(m, loc, d).None?
  }

  /** Moves lead to places of which the first rack with a fault has this one. */
  ghost predicate Flawed(m: Merge, loc0: map<nat, Place>, fault: Fault) {
    exists loc, moves, c :: Moved(m, loc0, loc, moves) && FirstFault(m, loc, c) && RackFault(m, loc, c) == Some(fault)
  }

  /** The fault of the first rack that has one. */
  method Validate(m: Merge, loc: map<nat, Place>) returns (fault: Option<Fault>)
    ensures fault.None? ==> forall c :: c in Clusters(loc) ==> RackFault(m, loc, c).None?
    ensures fault.Some? ==> exists c :: FirstFault(m, loc, c) && RackFault(m, loc, c) == fault
  {
    hide RackFault;
    var rest := Clusters(loc);
    while rest != {}
      invariant rest <= Clusters(loc)
      invariant forall c, d :: c in rest && d in Clusters(loc) && d !in rest ==> d < c
      invariant forall d :: d in Clusters(loc) && d !in rest ==> RackFault(m, loc, d).None?
      decreases rest
    {
      ghost var least := LeastExists(rest);
      var c :| c in rest && forall d :: d in rest ==> c <= d;
      fault := ValidateRack(m, loc, c);
      if fault.Some? {
        return;
      }
      rest := rest - {c};
    }
    return None;
  }

  method ValidateRack(m: Merge, loc: map<nat, Place>, c: nat) returns (fault: Option<Fault>)
    ensures fault == RackFault(m, loc, c)
  {
    if c == m.parityCluster {
      return Some(OntoParityRack);
    }
    var blocks := On(loc, loc.Keys, c);
    if |blocks| > m.cap {
      return Some(CapacityExceeded);
    }
    var rest, nodes: set<nat> := blocks, {};
    while rest != {}
      invariant rest <= blocks && nodes == set p | p in blocks - rest :: loc[p].node
      invariant Apart(loc, blocks - rest)
      decreases rest
    {
      var p :| p in rest;
      if loc[p].node in nodes {
        assert !Apart(loc, blocks);
        return Some(NodeConflict);
      }
      rest := rest - {p};
      nodes := nodes + {loc[p].node};
    }
    assert blocks - rest == blocks;
    return None;
  }

  // ---- The planner ----

  /** All data of the merged stripe properly placed, off the parity rack. */
  ghost predicate GoodLayout(m: Merge, loc: map<nat, Place>) {
    forall c :: c in Clusters(loc) ==> c != m.parityCluster && |On(loc, loc.Keys, c)| <= m.cap && Apart(loc, On(loc, loc.Keys, c))
  }

  /**
   * The planning part of the merge.  A successful plan moves right blocks only,
   * each at most once and to the best candidate of its turn, and ends in a good
   * layout; a rejected one has the fault it is rejected for.  On properly laid out stripes
   * the validation cannot fail, and nothing moves if and only if no two blocks
   * are on one node and no rack is overfull.
   */
  method Plan(m: Merge, loc0: map<nat, Place>) returns (result: PlanResult)
    requires Shape(m, loc0)
    ensures result.Planned? ==> Moved(m, loc0, result.locations, result.moves) && GoodLayout(m, result.locations)
    ensures WellFormed(m, loc0) ==> !result.FailedPrecondition?
    ensures WellFormed(m, loc0) && result.Planned? ==> WellFormed(m, result.locations)
    ensures result.Planned? && ColumnsMeanRacks(m, loc0) ==> BestMoves(m, loc0, result.locations, result.moves)
    ensures result.FailedPrecondition? ==> Flawed(m, loc0, result.fault)
    ensures result.ResourceExhausted? && ColumnsMeanRacks(m, loc0) ==> Stuck(m, loc0)
    ensures WellFormed(m, loc0) && Undisturbed(m, loc0) ==> result == Planned(loc0, [])
    ensures WellFormed(m, loc0) && result.Planned? && result.moves == [] ==> Undisturbed(m, loc0)
  {
    hide WellFormed, Moved, Undisturbed, Stuck, Housed, Sound, Shape, RackFault, ColumnsMeanRacks,
         BestMoves;
    var ok, loc, moves := PlanGroups(m, loc0);
    if !ok {
      return ResourceExhausted;
    }
    var fault := Validate(m, loc);
    if WellFormed(m, loc0) {
      ProperPlan(m, loc0, loc, moves);
    }
    if fault.Some? {
      assert Flawed(m, loc0, fault.value);
      return FailedPrecondition(fault.value);
    }
    NoFaults(m, loc);
    return Planned(loc, moves);
  }

  lemma NoFaults(m: Merge, loc: map<nat, Place>)
    requires forall c :: c in Clusters(loc) ==> RackFault(m, loc, c).None?
    ensures GoodLayout(m, loc)
  {
  }

  /** A plan made from two proper stripes has no fault. */
  lemma ProperPlan(m: Merge, loc0: map<nat, Place>, loc: map<nat, Place>, moves: seq<Migration>)
    requires WellFormed(m, loc0) && Shape(m, loc) && Moved(m, loc0, loc, moves)
    requires Housed(m, loc) && Sound(loc, Earlier(m, loc, m.z), m.cap)
    ensures forall c :: c in Clusters(loc) ==> RackFault(m, loc, c).None?
    ensures WellFormed(m, loc) && Undisturbed(m, loc)
    ensures moves == [] ==> loc == loc0
  {
    hide Housed;
    assert Earlier(m, loc, m.z) == loc.Keys;
    forall c | c in Clusters(loc)
      ensures RackFault(m, loc, c).None?
    {
      OffParity(m, loc, c);
    }
    SoundPart(loc, loc.Keys, Elements(m.left), m.cap) by { Sides(m, loc); }
    SoundPart(loc, loc.Keys, Elements(m.right), m.cap) by { Sides(m, loc); }
  }

  lemma OffParity(m: Merge, loc: map<nat, Place>, c: nat)
    requires Shape(m, loc) && Housed(m, loc) && c in Clusters(loc)
    ensures c != m.parityCluster
  {
  }

  lemma Sides(m: Merge, loc: map<nat, Place>)
    requires Shape(m, loc)
    ensures Elements(m.left) <= loc.Keys && Elements(m.right) <= loc.Keys
  {
  }

  lemma SoundPart(loc: map<nat, Place>, s: set<nat>, t: set<nat>, cap: nat)
    requires t <= s <= loc.Keys && Sound(loc, s, cap)
    ensures Sound(loc, t, cap)
  {
    forall c
      ensures |On(loc, t, c)| <= cap
    {
      SubsetSize(On(loc, t, c), On(loc, s, c));
    }
  }
}
