/**
 * Planning a merge of two stripes: which data blocks have to move because two
 * blocks would share a node or a rack would hold more than r+1 blocks, where
 * they go, and the validation of the planned layout before any I/O.
 */
module MergePlan {
  /** A planned location of a data block. */
  datatype Place = Place(cluster: nat, node: nat, rackCol: nat, nodeCol: nat)

  datatype Migration = Migration(block: nat, source: Place, target: Place)

  /** The three ways the planned layout can fail validation. */
  datatype Fault = OntoParityRack | CapacityExceeded | NodeConflict

  datatype PlanResult =
    | Planned(locations: map<nat, Place>, moves: seq<Migration>)
    | ResourceExhausted
    | FailedPrecondition(fault: Fault)

  /**
   * What the planner reads: the data blocks of both stripes (numbers stand for
   * block pointers), their local groups, r+1, the parity rack of the left stripe,
   * its row of node columns and the nodes of every cluster.
   */
  datatype Merge = Merge(left: seq<nat>, right: seq<nat>, group: map<nat, nat>, z: nat, cap: nat,
                         parityCluster: nat, oaRow: seq<int>, clusterNodes: map<nat, seq<nat>>)

  predicate NoDup(s: seq<nat>) {
    forall i, j :: 0 <= i < j < |s| ==> s[i] != s[j]
  }

  /** Both stripes have k data blocks, all different, and every block has a place in a known cluster. */
  ghost predicate Shape(m: Merge, loc: map<nat, Place>) {
    |m.left| == |m.right| && NoDup(m.left) && NoDup(m.right) &&
    (forall p :: p in m.left ==> p !in m.right) &&
    (forall p :: p in loc <==> p in m.left || p in m.right) &&
    (forall p :: p in loc ==> p in m.group) &&
    (forall p :: p in loc ==> loc[p].cluster in m.clusterNodes)
  }

  /** The data blocks of a set that lie in a rack. */
  function On(loc: map<nat, Place>, s: set<nat>, c: nat): set<nat>
    requires s <= loc.Keys
  {
    set p | p in s && loc[p].cluster == c
  }

  /** No two blocks of the set share a node, and no rack holds more than `cap` of them. */
  ghost predicate Sound(loc: map<nat, Place>, s: set<nat>, cap: nat)
    requires s <= loc.Keys
  {
    Apart(loc, s) && forall c :: |On(loc, s, c)| <= cap
  }

  predicate Apart(loc: map<nat, Place>, s: set<nat>)
    requires s <= loc.Keys
  {
    forall p, q :: p in s && q in s && p != q ==> loc[p].node != loc[q].node
  }

  function Elements(s: seq<nat>): set<nat> {
    set p | p in s
  }

  /** Racks hold data of one local group only, never on the parity rack, and nodes belong to one rack. */
  ghost predicate Housed(m: Merge, loc: map<nat, Place>)
    requires forall p :: p in loc ==> p in m.group
  {
    (forall p, q :: p in loc && q in loc && loc[p].cluster == loc[q].cluster ==> m.group[p] == m.group[q]) &&
    (forall p :: p in loc ==> loc[p].cluster != m.parityCluster) &&
    (forall p :: p in loc ==> loc[p].cluster in m.clusterNodes && loc[p].node in m.clusterNodes[loc[p].cluster])
  }

  ghost predicate NodesSeparate(m: Merge) {
    forall c, d, n ::
      (c in m.clusterNodes && d in m.clusterNodes && n in m.clusterNodes[c] && n in m.clusterNodes[d]) ==> c == d
  }

  /** Two stripes that are each laid out properly. */
  ghost predicate WellFormed(m: Merge, loc: map<nat, Place>) {
    Shape(m, loc) && Housed(m, loc) && NodesSeparate(m) &&
    Sound(loc, Elements(m.left), m.cap) && Sound(loc, Elements(m.right), m.cap) &&
    (forall p :: p in loc ==> m.group[p] < m.z)
  }

  // ---- Sequences without duplicates ----

  lemma {:induction false} NoDupSize(s: seq<nat>)
    requires NoDup(s)
    ensures |Elements(s)| == |s|
  {
    if |s| > 0 {
      var init := s[..|s| - 1];
      NoDupSize(init);
      assert Elements(s) == Elements(init) + {s[|s| - 1]};
      assert s[|s| - 1] !in Elements(init);
    } else {
      assert Elements(s) == {};
    }
  }

  /** What is known of a list without duplicates and its last element. */
  lemma Init(s: seq<nat>, n: nat)
    requires |s| == n + 1 && NoDup(s)
    ensures NoDup(s[..n]) && s[n] !in s[..n] && s[n] in s && forall p :: p in s[..n] ==> p in s
  {
  }

  lemma NoDupSnoc(s: seq<nat>, x: nat)
    requires NoDup(s) && x !in s
    ensures NoDup(s + [x])
  {
  }

  lemma NoDupAppend(s: seq<nat>, t: seq<nat>)
    requires NoDup(s) && NoDup(t) && forall x :: x in s ==> x !in t
    ensures NoDup(s + t)
  {
    forall i, j | 0 <= i < j < |s + t|
      ensures (s + t)[i] != (s + t)[j]
    {
      assert i < |s| ==> s[i] in s;
      assert j >= |s| ==> t[j - |s|] in t;
    }
  }

  lemma {:induction false} SubsetSize<T>(a: set<T>, b: set<T>)
    requires a <= b
    ensures |a| <= |b|
  {
    if a != {} {
      var x :| x in a;
      SubsetSize(a - {x}, b - {x});
    }
  }

  // ---- Racks of one local group ----

  /** The blocks of group g in rack c, in the order of the list. */
  function InRack(order: seq<nat>, m: Merge, loc: map<nat, Place>, g: nat, c: nat): seq<nat>
    requires forall p :: p in order ==> p in loc && p in m.group
  {
    if order == [] then []
    else
      var last := order[|order| - 1];
      InRack(order[..|order| - 1], m, loc, g, c)
      + if m.group[last] == g && loc[last].cluster == c then [last] else []
  }

  lemma {:induction false} InRackIs(order: seq<nat>, m: Merge, loc: map<nat, Place>, g: nat, c: nat)
    requires (forall p :: p in order ==> p in loc && p in m.group) && NoDup(order)
    ensures forall p :: p in InRack(order, m, loc, g, c) <==> p in order && m.group[p] == g && loc[p].cluster == c
    ensures NoDup(InRack(order, m, loc, g, c))
  {
    if order != [] {
      InRackIs(order[..|order| - 1], m, loc, g, c);
    }
  }

  /** The order in which the planner visits the blocks: left and right alternating. */
  function Order(left: seq<nat>, right: seq<nat>): seq<nat>
    requires |left| == |right|
  {
    if left == [] then []
    else Order(left[..|left| - 1], right[..|left| - 1]) + [left[|left| - 1]] + [right[|left| - 1]]
  }

  lemma {:induction false} OrderIs(left: seq<nat>, right: seq<nat>)
    requires |left| == |right|
    ensures forall p :: p in Order(left, right) <==> p in left || p in right
  {
    if left != [] {
      var n := |left| - 1;
      OrderIs(left[..n], right[..n]);
      assert left == left[..n] + [left[n]] && right == right[..n] + [right[n]];
    }
  }

  lemma {:induction false} OrderNoDup(left: seq<nat>, right: seq<nat>)
    requires |left| == |right| && NoDup(left) && NoDup(right) && forall p :: p in left ==> p !in right
    ensures NoDup(Order(left, right))
  {
    if left != [] {
      var n := |left| - 1;
      Init(left, n);
      Init(right, n);
      OrderNoDup(left[..n], right[..n]);
      OrderIs(left[..n], right[..n]);
      NoDupSnoc(Order(left[..n], right[..n]), left[n]);
      NoDupSnoc(Order(left[..n], right[..n]) + [left[n]], right[n]);
    }
  }

  /** Appending to the list of a rack, which starts empty. */
  function Push(byRack: map<nat, seq<nat>>, c: nat, p: nat): map<nat, seq<nat>> {
    byRack[c := (if c in byRack then byRack[c] else []) + [p]]
  }

  /** The racks of the group and their blocks. */
  ghost predicate Racked(byRack: map<nat, seq<nat>>, order: seq<nat>, m: Merge, loc: map<nat, Place>, g: nat)
    requires forall p :: p in order ==> p in loc && p in m.group
  {
    forall c :: (if c in byRack then byRack[c] else []) == InRack(order, m, loc, g, c) &&
                (c in byRack ==> byRack[c] != [])
  }

  lemma RackedStep(byRack: map<nat, seq<nat>>, order: seq<nat>, m: Merge, loc: map<nat, Place>, g: nat, p: nat)
    requires (forall q :: q in order ==> q in loc && q in m.group) && p in loc && p in m.group
    requires Racked(byRack, order, m, loc, g)
    ensures Racked(if m.group[p] == g then Push(byRack, loc[p].cluster, p) else byRack, order + [p], m, loc, g)
  {
    assert (order + [p])[..|order|] == order;
  }

  /** The data blocks of the group in a rack. */
  ghost function RackOf(m: Merge, loc: map<nat, Place>, g: nat, c: nat): (rack: seq<nat>)
    requires Shape(m, loc)
    ensures NoDup(rack) && forall p :: p in rack <==> p in loc && m.group[p] == g && loc[p].cluster == c
  {
    OrderIs(m.left, m.right);
    OrderNoDup(m.left, m.right);
    InRackIs(Order(m.left, m.right), m, loc, g, c);
    InRack(Order(m.left, m.right), m, loc, g, c)
  }

  method ByRack(m: Merge, loc: map<nat, Place>, g: nat) returns (byRack: map<nat, seq<nat>>)
    requires Shape(m, loc)
    ensures forall c :: (if c in byRack then byRack[c] else []) == RackOf(m, loc, g, c)
  {
    hide Racked, InRack, NoDup;
    byRack := map[];
    OrderIs(m.left, m.right);
    assert Racked(byRack, [], m, loc, g) by { RackedEmpty(m, loc, g); }
    for i := 0 to |m.left|
      invariant forall p :: p in Order(m.left[..i], m.right[..i]) ==> p in loc && p in m.group
      invariant Racked(byRack, Order(m.left[..i], m.right[..i]), m, loc, g)
    {
      ghost var order := Order(m.left[..i], m.right[..i]);
      assert m.left[..i + 1][..i] == m.left[..i] && m.right[..i + 1][..i] == m.right[..i];
      RackedStep(byRack, order, m, loc, g, m.left[i]);
      if m.group[m.left[i]] == g {
        byRack := Push(byRack, loc[m.left[i]].cluster, m.left[i]);
      }
      RackedStep(byRack, order + [m.left[i]], m, loc, g, m.right[i]);
      if m.group[m.right[i]] == g {
        byRack := Push(byRack, loc[m.right[i]].cluster, m.right[i]);
      }
    }
    assert m.left[..|m.left|] == m.left && m.right[..|m.left|] == m.right;
    RackedAll(byRack, m, loc, g);
  }

  lemma RackedAll(byRack: map<nat, seq<nat>>, m: Merge, loc: map<nat, Place>, g: nat)
    requires Shape(m, loc) && forall p :: p in Order(m.left, m.right) ==> p in loc && p in m.group
    requires Racked(byRack, Order(m.left, m.right), m, loc, g)
    ensures forall c :: (if c in byRack then byRack[c] else []) == RackOf(m, loc, g, c)
  {
  }

  lemma RackedEmpty(m: Merge, loc: map<nat, Place>, g: nat)
    ensures Racked(map[], [], m, loc, g)
  {
  }

  // ---- Selecting the blocks that have to move ----

  /** A right block on the node of a left block of its rack. */
  predicate Conflicting(m: Merge, loc: map<nat, Place>, rack: seq<nat>, p: nat)
    requires p in loc && forall q :: q in rack ==> q in loc
  {
    p in m.right && exists q :: q in rack && q in m.left && loc[q].node == loc[p].node
  }

  /** Enough of a rack's right blocks to resolve its conflicts and its overflow, and no more. */
  ghost predicate Selection(m: Merge, loc: map<nat, Place>, rack: seq<nat>, chosen: set<nat>)
    requires forall q :: q in rack ==> q in loc
  {
    (forall p :: p in chosen ==> p in rack && p in m.right) &&
    (forall p :: p in rack && Conflicting(m, loc, rack, p) ==> p in chosen) &&
    (|rack| <= |chosen| + m.cap || forall p :: p in rack && p in m.right ==> p in chosen) &&
    (|rack| < |chosen| + m.cap ==> forall p :: p in chosen ==> Conflicting(m, loc, rack, p))
  }

  method SelectFrom(m: Merge, loc: map<nat, Place>, rack: seq<nat>) returns (chosen: seq<nat>)
    requires (forall q :: q in rack ==> q in loc) && NoDup(rack)
    ensures NoDup(chosen) && Selection(m, loc, rack, Elements(chosen))
  {
    var leftNodes: set<nat> := {};
    for i := 0 to |rack|
      invariant forall n :: n in leftNodes <==> exists j :: 0 <= j < i && rack[j] in m.left && loc[rack[j]].node == n
    {
      if rack[i] in m.left {
        leftNodes := leftNodes + {loc[rack[i]].node};
      }
    }
    chosen := [];
    for i := 0 to |rack|
      invariant NoDup(chosen)
      invariant forall p :: p in chosen <==> p in rack[..i] && Conflicting(m, loc, rack, p)
    {
      assert rack[..i + 1] == rack[..i] + [rack[i]];
      if rack[i] in m.right && loc[rack[i]].node in leftNodes {
        assert rack[i] !in rack[..i];
        chosen := chosen + [rack[i]];
      }
    }
    assert rack[..|rack|] == rack;
    chosen := SelectOverflow(m, loc, rack, chosen);
  }

  /** Further right blocks, in order, until the rack's overflow is covered. */
  method SelectOverflow(m: Merge, loc: map<nat, Place>, rack: seq<nat>, conflicts: seq<nat>) returns (chosen: seq<nat>)
    requires (forall q :: q in rack ==> q in loc) && NoDup(rack) && NoDup(conflicts)
    requires forall p :: p in conflicts <==> p in rack && Conflicting(m, loc, rack, p)
    requires forall p :: p in conflicts ==> p in m.right
    ensures NoDup(chosen) && Selection(m, loc, rack, Elements(chosen))
  {
    hide Conflicting;
    chosen := conflicts;
    var required := if |rack| > m.cap then |rack| - m.cap else 0;
    var i := 0;
    while i < |rack| && |chosen| < required
      invariant 0 <= i <= |rack| && NoDup(chosen)
      invariant forall p :: p in chosen ==> p in rack && p in m.right
      invariant forall p :: p in conflicts ==> p in chosen
      invariant forall p :: p in rack[..i] && p in m.right ==> p in chosen
      invariant chosen == conflicts || |chosen| <= required
    {
      assert rack[..i + 1] == rack[..i] + [rack[i]];
      if rack[i] in m.right && rack[i] !in chosen {
        chosen := chosen + [rack[i]];
      }
      i := i + 1;
    }
    assert rack[..|rack|] == rack;
    NoDupSize(chosen);
  }

  lemma {:induction false} LeastExists(s: set<nat>) returns (least: nat)
    requires s != {}
    ensures least in s && forall x :: x in s ==> least <= x
  {
    least :| least in s;
    if s != {least} {
      assert forall x :: x in s ==> x == least || x in s - {least};
      var other := LeastExists(s - {least});
      if other < least {
        least := other;
      }
    }
  }

  /** The chosen blocks of one rack. */
  function ChosenIn(loc: map<nat, Place>, s: seq<nat>, c: nat): set<nat>
    requires forall p :: p in s ==> p in loc
  {
    set p | p in s && loc[p].cluster == c
  }

  /** In every rack of the group, just enough right blocks are selected. */
  ghost predicate SelectedIn(m: Merge, loc: map<nat, Place>, g: nat, selected: seq<nat>)
    requires Shape(m, loc)
  {
    NoDup(selected) && (forall p :: p in selected ==> p in m.right && m.group[p] == g) &&
    forall c :: Selection(m, loc, RackOf(m, loc, g, c), ChosenIn(loc, selected, c))
  }

  method Select(m: Merge, loc: map<nat, Place>, g: nat) returns (selected: seq<nat>)
    requires Shape(m, loc)
    ensures SelectedIn(m, loc, g, selected)
  {
    hide Selection, RackOf;
    var byRack := ByRack(m, loc, g);
    selected := [];
    var rest := byRack.Keys;
    forall c | c !in rest
      ensures Selection(m, loc, RackOf(m, loc, g, c), ChosenIn(loc, selected, c))
    {
      NothingSelected(m, loc);
      assert ChosenIn(loc, [], c) == ChosenIn(loc, [], 0);
    }
    while rest != {}
      invariant rest <= byRack.Keys && NoDup(selected)
      invariant forall p :: p in selected ==> p in loc && p in m.right && m.group[p] == g && loc[p].cluster !in rest
      invariant forall c :: c !in rest ==> Selection(m, loc, RackOf(m, loc, g, c), ChosenIn(loc, selected, c))
      decreases rest
    {
      ghost var least := LeastExists(rest);
      var c :| c in rest && forall d :: d in rest ==> c <= d;
      var chosen := SelectFrom(m, loc, byRack[c]);
      ghost var before := selected;
      NoDupAppend(selected, chosen);
      selected := selected + chosen;
      rest := rest - {c};
      assert ChosenIn(loc, selected, c) == Elements(chosen);
      assert forall d :: d !in rest && d != c ==> ChosenIn(loc, selected, d) == ChosenIn(loc, before, d);
    }
  }

  lemma NothingSelected(m: Merge, loc: map<nat, Place>)
    ensures Selection(m, loc, [], ChosenIn(loc, [], 0))
  {
  }

  // ---- The blocks that stay ----

  function GroupBlocks(m: Merge, loc: map<nat, Place>, g: nat): set<nat>
    requires forall p :: p in loc ==> p in m.group
  {
    set p | p in loc && m.group[p] == g
  }

  /** In a properly housed layout blocks on the same node are in the same rack. */
  lemma SameRack(m: Merge, loc: map<nat, Place>, p: nat, q: nat)
    requires Shape(m, loc) && Housed(m, loc) && NodesSeparate(m) && p in loc && q in loc
    requires loc[p].node == loc[q].node
    ensures loc[p].cluster == loc[q].cluster && m.group[p] == m.group[q]
  {
  }

  /** A right block on the node of a left block is selected to move ... */
  lemma ConflictSelected(m: Merge, loc: map<nat, Place>, g: nat, selected: seq<nat>, p: nat, q: nat)
    requires Shape(m, loc) && Housed(m, loc) && NodesSeparate(m) && SelectedIn(m, loc, g, selected)
    requires p in GroupBlocks(m, loc, g) && q in GroupBlocks(m, loc, g) && p in m.left && q in m.right
    requires loc[p].node == loc[q].node
    ensures q in selected
  {
    SameRack(m, loc, p, q);
    var c := loc[p].cluster;
    var rack := RackOf(m, loc, g, c);
    assert p in rack && q in rack;
    assert Conflicting(m, loc, rack, q);
    assert Selection(m, loc, rack, ChosenIn(loc, selected, c));
    assert q in ChosenIn(loc, selected, c);
  }

  /** ... and few enough blocks remain in every rack. */
  lemma KeptFits(m: Merge, loc: map<nat, Place>, g: nat, selected: seq<nat>, c: nat)
    requires Shape(m, loc) && SelectedIn(m, loc, g, selected)
    requires |On(loc, GroupBlocks(m, loc, g) * Elements(m.left), c)| <= m.cap
    ensures |On(loc, GroupBlocks(m, loc, g) - Elements(selected), c)| <= m.cap
  {
    hide Conflicting;
    var rack, chosen := RackOf(m, loc, g, c), ChosenIn(loc, selected, c);
    var kept := On(loc, GroupBlocks(m, loc, g) - Elements(selected), c);
    assert Selection(m, loc, rack, chosen);
    NoDupSize(rack);
    assert Elements(rack) == kept + chosen by { KeptAndChosen(m, loc, g, selected, c); }
    assert kept !! chosen;
    if |rack| > |chosen| + m.cap {
      assert kept <= On(loc, GroupBlocks(m, loc, g) * Elements(m.left), c) by { KeptAreLeft(m, loc, g, selected, c); }
      SubsetSize(kept, On(loc, GroupBlocks(m, loc, g) * Elements(m.left), c));
    }
  }

  lemma KeptAndChosen(m: Merge, loc: map<nat, Place>, g: nat, selected: seq<nat>, c: nat)
    requires Shape(m, loc) && SelectedIn(m, loc, g, selected)
    ensures Elements(RackOf(m, loc, g, c))
         == On(loc, GroupBlocks(m, loc, g) - Elements(selected), c) + ChosenIn(loc, selected, c)
  {
    hide Selection;
  }

  lemma KeptAreLeft(m: Merge, loc: map<nat, Place>, g: nat, selected: seq<nat>, c: nat)
    requires Shape(m, loc) && SelectedIn(m, loc, g, selected)
    requires |RackOf(m, loc, g, c)| > |ChosenIn(loc, selected, c)| + m.cap
    ensures On(loc, GroupBlocks(m, loc, g) - Elements(selected), c)
         <= On(loc, GroupBlocks(m, loc, g) * Elements(m.left), c)
  {
    hide Conflicting;
    assert Selection(m, loc, RackOf(m, loc, g, c), ChosenIn(loc, selected, c));
  }

  /** The groups before g are settled; so are the blocks of group g that are not, or no longer, waiting to move. */
  function Settled(m: Merge, loc: map<nat, Place>, g: nat, waiting: seq<nat>): set<nat>
    requires forall p :: p in loc ==> p in m.group
  {
    set p | p in loc && (m.group[p] < g || (m.group[p] == g && p !in waiting))
  }

  /** The blocks of the groups before g. */
  function Earlier(m: Merge, loc: map<nat, Place>, g: nat): set<nat>
    requires forall p :: p in loc ==> p in m.group
  {
    set p | p in loc && m.group[p] < g
  }

  /** A planned layout in which the settled blocks are properly placed. */
  ghost predicate Settling(m: Merge, loc: map<nat, Place>, g: nat, waiting: seq<nat>) {
    Shape(m, loc) && Housed(m, loc) && NodesSeparate(m) && Sound(loc, Settled(m, loc, g, waiting), m.cap)
  }

  /** Group g is still where its two stripes put it. */
  ghost predicate Untouched(m: Merge, loc0: map<nat, Place>, loc: map<nat, Place>, g: nat)
    requires Shape(m, loc0) && Shape(m, loc)
  {
    forall p :: p in loc && m.group[p] >= g ==> loc[p] == loc0[p]
  }

  /** Selecting the blocks to move settles the rest of the group. */
  lemma SelectionSettles(m: Merge, loc0: map<nat, Place>, loc: map<nat, Place>, g: nat, selected: seq<nat>)
    requires WellFormed(m, loc0) && Shape(m, loc) && Housed(m, loc)
    requires Sound(loc, Earlier(m, loc, g), m.cap) && Untouched(m, loc0, loc, g)
    requires SelectedIn(m, loc, g, selected)
    ensures Settling(m, loc, g, selected)
  {
    hide SelectedIn, Housed;
    var settled := Settled(m, loc, g, selected);
    forall p, q | p in settled && q in settled && loc[p].node == loc[q].node
      ensures p == q
    {
      SettledApart(m, loc0, loc, g, selected, p, q);
    }
    forall c
      ensures |On(loc, settled, c)| <= m.cap
    {
      SettledFits(m, loc0, loc, g, selected, c);
    }
  }

  lemma SettledApart(m: Merge, loc0: map<nat, Place>, loc: map<nat, Place>, g: nat, selected: seq<nat>, p: nat, q: nat)
    requires WellFormed(m, loc0) && Shape(m, loc) && Housed(m, loc)
    requires Apart(loc, Earlier(m, loc, g)) && Untouched(m, loc0, loc, g)
    requires SelectedIn(m, loc, g, selected)
    requires p in Settled(m, loc, g, selected) && q in Settled(m, loc, g, selected)
    requires loc[p].node == loc[q].node
    ensures p == q
  {
    hide SelectedIn, Housed;
    SameRack(m, loc, p, q);
    if m.group[p] == g {
      if p in m.left && q in m.right {
        ConflictSelected(m, loc, g, selected, p, q);
      } else if p in m.right && q in m.left {
        ConflictSelected(m, loc, g, selected, q, p);
      } else if p in m.left {
        assert p in Elements(m.left) && q in Elements(m.left);
      } else {
        assert p in Elements(m.right) && q in Elements(m.right);
      }
    } else {
      assert p in Earlier(m, loc, g) && q in Earlier(m, loc, g);
    }
  }

  lemma SettledFits(m: Merge, loc0: map<nat, Place>, loc: map<nat, Place>, g: nat, selected: seq<nat>, c: nat)
    requires WellFormed(m, loc0) && Shape(m, loc) && Housed(m, loc)
    requires |On(loc, Earlier(m, loc, g), c)| <= m.cap && Untouched(m, loc0, loc, g)
    requires SelectedIn(m, loc, g, selected)
    ensures |On(loc, Settled(m, loc, g, selected), c)| <= m.cap
  {
    hide SelectedIn, WellFormed;
    var kept := On(loc, GroupBlocks(m, loc, g) - Elements(selected), c);
    LeftFits(m, loc0, loc, g, c);
    KeptFits(m, loc, g, selected, c);
    if kept == {} {
      assert On(loc, Settled(m, loc, g, selected), c) == On(loc, Earlier(m, loc, g), c);
    } else {
      var p :| p in kept;
      assert On(loc, Settled(m, loc, g, selected), c) == kept;
    }
  }

  lemma LeftFits(m: Merge, loc0: map<nat, Place>, loc: map<nat, Place>, g: nat, c: nat)
    requires WellFormed(m, loc0) && Shape(m, loc) && Untouched(m, loc0, loc, g)
    ensures |On(loc, GroupBlocks(m, loc, g) * Elements(m.left), c)| <= m.cap
  {
    var lefts := On(loc, GroupBlocks(m, loc, g) * Elements(m.left), c);
    assert lefts <= On(loc0, Elements(m.left), c);
    SubsetSize(lefts, On(loc0, Elements(m.left), c));
  }
}
