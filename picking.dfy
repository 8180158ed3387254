/** The tetrahedron_picking_up_link script: a tetrahedron of six links
    topples onto a seventh, stationary link and then topples back lifting
    it, driven from the keyboard by the manual controller of
    manual_controller2 with two gait keys: 't' topples the tetrahedron,
    'b' topples it onto the last link.  The 'c' key calls a `crawl` that
    takes no `self`, which raises and is ignored like any unreadable key;
    the model's scan does not react to it. */
module PickingUp {
  import opened Common
  import opened Manual

  // ---------------------------------------------------------------------
  // The commands of a topple.

  /** `contract`: both servos of each link of the tetrahedron to the
      minimum, in link order. */
  function ContractSends(own: seq<int>, minPos: int): (r: seq<Command>)
    ensures |r| == |own|
    decreases |own|
  {
    if |own| == 0 then []
    else ContractSends(own[..|own| - 1], minPos) + [PositionOnly(own[|own| - 1], minPos, minPos)]
  }

  /** The commands `topple` sends with the six roles (ul, ur, ub, bl, br,
      bf): the two upper side links stretch their servo 1, bf goes to
      `bfPos`, ub pushes over (servo 1 to 90 when flipped, else servo 0),
      the tail link if any lifts its servo 0, then the tetrahedron's own
      links `own` contract.  bl and br receive nothing of their own. */
  function ToppleSends(roles: seq<int>, bfPos: int, flip: bool, tail: Option<int>,
                       own: seq<int>, minPos: int, maxPos: int): seq<Command>
    requires |roles| == 6
  {
    PushSends(roles, bfPos, flip, minPos, maxPos) + TailSends(tail, minPos, maxPos) + ContractSends(own, minPos)
  }

  /** The commands before the pause: ul, ur, bf, then ub. */
  function PushSends(roles: seq<int>, bfPos: int, flip: bool, minPos: int, maxPos: int): seq<Command>
    requires |roles| == 6
  {
    [PositionOnly(roles[0], minPos, maxPos), PositionOnly(roles[1], minPos, maxPos),
     PositionOnly(roles[5], bfPos, bfPos),
     if flip then PositionOnly(roles[2], maxPos, 90) else PositionOnly(roles[2], 90, maxPos)]
  }

  /** The command to the tail link, if any. */
  function TailSends(tail: Option<int>, minPos: int, maxPos: int): seq<Command> {
    if tail.Some? then [PositionOnly(tail.value, maxPos, minPos)] else []
  }

  /** The pair of the last command that `sends` gives link `id`, if any. */
  function LastPair(sends: seq<Command>, id: int): (r: Option<(int, int)>)
    decreases |sends|
  {
    if |sends| == 0 then None
    else if sends[|sends| - 1].link == id then Some((sends[|sends| - 1].srv0Pos, sends[|sends| - 1].srv1Pos))
    else LastPair(sends[..|sends| - 1], id)
  }

  /** The last command to a link comes from the later batch when it has
      one. */
  lemma {:induction false} LastPairAppend(a: seq<Command>, b: seq<Command>, id: int)
    ensures LastPair(a + b, id) == if LastPair(b, id).Some? then LastPair(b, id) else LastPair(a, id)
    decreases |b|
  {
    if |b| == 0 {
      assert a + b == a;
    } else {
      assert (a + b)[..|a + b| - 1] == a + b[..|b| - 1];
      LastPairAppend(a, b[..|b| - 1], id);
    }
  }

  /** After `contract` each link of the tetrahedron was last told to go to
      the minimum on both servos. */
  lemma {:induction false} ContractLeavesMin(own: seq<int>, minPos: int, id: int)
    ensures id in own ==> LastPair(ContractSends(own, minPos), id) == Some((minPos, minPos))
    ensures id !in own ==> LastPair(ContractSends(own, minPos), id).None?
    decreases |own|
  {
    if |own| > 0 {
      var init := own[..|own| - 1];
      var sends := ContractSends(own, minPos);
      assert sends[..|sends| - 1] == ContractSends(init, minPos);
      ContractLeavesMin(init, minPos, id);
      assert own == init + [own[|own| - 1]];
    }
  }

  /** Where a topple leaves every link: the tetrahedron's own links
      contracted, the tail lifted (servo 0 at the maximum, servo 1 at the
      minimum) unless it is one of them, and a link not involved never
      commanded. */
  lemma ToppleLeaves(roles: seq<int>, bfPos: int, flip: bool, tail: Option<int>,
                     own: seq<int>, minPos: int, maxPos: int, id: int)
    requires |roles| == 6
    ensures var last := LastPair(ToppleSends(roles, bfPos, flip, tail, own, minPos, maxPos), id);
      && (id in own ==> last == Some((minPos, minPos)))
      && (id !in own && tail == Some(id) ==> last == Some((maxPos, minPos)))
      && (id !in own && tail != Some(id) && id !in roles ==> last.None?)
  {
    var head := PushSends(roles, bfPos, flip, minPos, maxPos);
    var mid := TailSends(tail, minPos, maxPos);
    ContractLeavesMin(own, minPos, id);
    LastPairAppend(head + mid, ContractSends(own, minPos), id);
    LastPairAppend(head, mid, id);
    if id !in roles {
      assert roles[0] in roles && roles[1] in roles && roles[2] in roles && roles[5] in roles;
      NotSentNone(head, id);
    }
    if tail != Some(id) {
      NotSentNone(mid, id);
    } else {
      assert mid[..0] == [];
    }
  }

  /** A link no command addresses has no last pair. */
  lemma {:induction false} NotSentNone(sends: seq<Command>, id: int)
    requires forall k | 0 <= k < |sends| :: sends[k].link != id
    ensures LastPair(sends, id).None?
    decreases |sends|
  {
    if |sends| > 0 {
      NotSentNone(sends[..|sends| - 1], id);
    }
  }

  /** Flipping changes only the pushing command to ub, whose two servo
      targets trade places. */
  lemma FlipSwapsUb(roles: seq<int>, bfPos: int, tail: Option<int>, own: seq<int>, minPos: int, maxPos: int)
    requires |roles| == 6
    ensures var f, g := ToppleSends(roles, bfPos, true, tail, own, minPos, maxPos),
                        ToppleSends(roles, bfPos, false, tail, own, minPos, maxPos);
      && |f| == |g|
      && (forall k | 0 <= k < |f| && k != 3 :: f[k] == g[k])
      && f[3].link == g[3].link == roles[2]
      && f[3].srv0Pos == g[3].srv1Pos && f[3].srv1Pos == g[3].srv0Pos
  {
  }

  /** The order in which 'b' hands the first six links to `topple`: the
      first five reversed, the sixth last. */
  function PickUpOrder(ls: seq<int>): (r: seq<int>)
    requires |ls| == 6
    ensures |r| == 6 && forall x :: x in r <==> x in ls
  {
    assert ls == [ls[0], ls[1], ls[2], ls[3], ls[4], ls[5]];
    [ls[4], ls[3], ls[2], ls[1], ls[0], ls[5]]
  }

  /** Applying that order twice gives the links back, so it hands over
      each of the six links exactly once. */
  lemma PickUpOrderTwice(ls: seq<int>)
    requires |ls| == 6
    ensures PickUpOrder(PickUpOrder(ls)) == ls
  {
  }

  // ---------------------------------------------------------------------
  // The tetrahedron.

  class Tetrahedron {
    const minPos: int
    const maxPos: int
    /** `link_ids`; the links are addressed by id. */
    const linkIds: seq<int>
    const wire: Wire

    constructor (linkIds: seq<int>, minPos: int, maxPos: int, wire: Wire)
      ensures this.linkIds == linkIds && this.minPos == minPos && this.maxPos == maxPos && this.wire == wire
    {
      this.linkIds := linkIds;
      this.minPos := minPos;
      this.maxPos := maxPos;
      this.wire := wire;
    }

    /** `contract`. */
    method Contract()
      modifies wire
      ensures wire.sent == old(wire.sent) + ContractSends(linkIds, minPos)
    {
      var i := 0;
      while i < |linkIds|
        invariant 0 <= i <= |linkIds|
        invariant wire.sent == old(wire.sent) + ContractSends(linkIds[..i], minPos)
      {
        assert linkIds[..i + 1][..i] == linkIds[..i];
        wire.Send(linkIds[i], minPos, minPos);
        i := i + 1;
      }
      assert linkIds[..i] == linkIds;
    }

    /** `topple(links, bf_pos, flip, tail)`: `done` is false when the roles
        (the given links, or the tetrahedron's own) are not six, which
        raises before anything is sent; it is true otherwise. */
    method Topple(links: Option<seq<int>>, bfPos: int, flip: bool, tail: Option<int>) returns (done: bool)
      modifies wire
      ensures var roles := if links.Some? then links.value else linkIds;
        && (done <==> |roles| == 6)
        && wire.sent == old(wire.sent)
                        + (if done then ToppleSends(roles, bfPos, flip, tail, linkIds, minPos, maxPos) else [])
    {
      var roles := if links.Some? then links.value else linkIds;
      if |roles| != 6 {
        assert old(wire.sent) + [] == old(wire.sent);
        return false;
      }
      ghost var s0 := wire.sent;
      var push := if flip then PositionOnly(roles[2], maxPos, 90) else PositionOnly(roles[2], 90, maxPos);
      wire.Send(roles[0], minPos, maxPos);
      wire.Send(roles[1], minPos, maxPos);
      wire.Send(roles[5], bfPos, bfPos);
      wire.Send(push.link, push.srv0Pos, push.srv1Pos);
      assert wire.sent == s0 + PushSends(roles, bfPos, flip, minPos, maxPos);
      ghost var s1 := wire.sent;
      if tail.Some? {
        wire.Send(tail.value, maxPos, minPos);
      } else {
        assert s1 + [] == s1;
      }
      assert wire.sent == s1 + TailSends(tail, minPos, maxPos);
      ghost var s2 := wire.sent;
      Contract();
      assert wire.sent == s2 + ContractSends(linkIds, minPos);
      return true;
    }
  }

  /** The tetrahedron constructor: without ids it takes every registered
      link in id order; given ids must be six (an assertion) and each
      registered (a `KeyError` otherwise). */
  method NewTetrahedron(registered: set<int>, ids: Option<seq<int>>, wire: Wire) returns (r: Option<Tetrahedron>)
    ensures ids.None? ==> r.Some?
    ensures ids.Some? ==> (r.Some? <==> |ids.value| == 6 && forall id | id in ids.value :: id in registered)
    ensures r.Some? ==> fresh(r.value) && r.value.wire == wire
                        && r.value.minPos == MinPos && r.value.maxPos == MaxPos
    ensures r.Some? && ids.Some? ==> r.value.linkIds == ids.value
    ensures r.Some? && ids.None? ==>
              StrictlyIncreasing(r.value.linkIds) && forall id :: id in r.value.linkIds <==> id in registered
  {
    var chosen: seq<int>;
    if ids.None? {
      chosen := SortedKeys(registered);
    } else {
      if |ids.value| != 6 {
        return None;
      }
      chosen := ids.value;
      var i := 0;
      while i < |chosen|
        invariant 0 <= i <= |chosen|
        invariant ids.Some? && chosen == ids.value
        invariant forall k | 0 <= k < i :: chosen[k] in registered
      {
        if chosen[i] !in registered {
          assert chosen[i] in ids.value;
          if forall id | id in ids.value :: id in registered {
            assert false;
          }
          return None;
        }
        i := i + 1;
      }
      forall id | id in chosen
        ensures id in registered
      {
        var k :| 0 <= k < |chosen| && chosen[k] == id;
      }
    }
    var t := new Tetrahedron(chosen, MinPos, MaxPos, wire);
    return Some(t);
  }

  // ---------------------------------------------------------------------
  // The controller.

  /** The commands of the gaits started during the key scan, in order:
      't' topples the tetrahedron in its own order with bf at 81; 'b'
      topples it in the pick-up order with bf at 83, flipped, onto the
      last link as tail. */
  function GaitSends(gaits: seq<Gait>, ids: seq<int>): seq<Command>
    requires |ids| >= 6
    decreases |gaits|
  {
    if |gaits| == 0 then [] else GaitSend(gaits[0], ids) + GaitSends(gaits[1..], ids)
  }

  /** The commands of one gait. */
  function GaitSend(g: Gait, ids: seq<int>): seq<Command>
    requires |ids| >= 6
  {
    match g
    case ToppleAll => ToppleSends(ids[..6], 81, false, None, ids[..6], MinPos, MaxPos)
    case ToppleOntoLink => ToppleSends(PickUpOrder(ids[..6]), 83, true, Some(ids[|ids| - 1]), ids[..6], MinPos, MaxPos)
  }

  /** Picking up: the 'b' gait leaves the tetrahedron contracted and, when
      there is a seventh link, the last link lifted with servo 0 at 100 and
      servo 1 at 22. */
  lemma PickUpLeaves(ids: seq<int>)
    requires |ids| >= 7 && ids[|ids| - 1] !in ids[..6]
    ensures var sends := GaitSend(ToppleOntoLink, ids);
      && LastPair(sends, ids[|ids| - 1]) == Some((MaxPos, MinPos))
      && forall k | 0 <= k < 6 :: LastPair(sends, ids[k]) == Some((MinPos, MinPos))
  {
    var own := ids[..6];
    var roles := PickUpOrder(own);
    var tail := Some(ids[|ids| - 1]);
    ToppleLeaves(roles, 83, true, tail, own, MinPos, MaxPos, ids[|ids| - 1]);
    forall k | 0 <= k < 6
      ensures LastPair(ToppleSends(roles, 83, true, tail, own, MinPos, MaxPos), ids[k]) == Some((MinPos, MinPos))
    {
      assert own[k] == ids[k] && ids[k] in own;
      ToppleLeaves(roles, 83, true, tail, own, MinPos, MaxPos, ids[k]);
    }
  }

  class ManualController {
    const isSticky: bool
    const table: LinkTable
    const tetrahedron: Tetrahedron
    /** Set false while a gait runs and back to its result; `run` stops
        when it stays false. */
    var finished: bool

    /** The tetrahedron is the first six links, on the controller's wire. */
    predicate Valid() {
      && |table.linkIds| >= 6
      && tetrahedron.linkIds == table.linkIds[..6]
      && tetrahedron.wire == table.wire
      && tetrahedron.minPos == MinPos && tetrahedron.maxPos == MaxPos
    }

    /** Over the registered links in id order; `link_ids[:6]` must be six
        links, which the caller (`NewController`) checks. */
    constructor (ids: seq<int>, sticky: bool, wire: Wire)
      requires |ids| >= 6
      ensures Valid() && table.linkIds == ids && table.wire == wire && isSticky == sticky && finished
      ensures fresh(table) && fresh(tetrahedron)
      ensures table.linkStates == [] && table.pretty == map[]
    {
      isSticky := sticky;
      table := new LinkTable(ids, wire);
      tetrahedron := new Tetrahedron(ids[..6], MinPos, MaxPos, wire);
      finished := true;
    }

    /** One gait key: `finished` goes false, then takes the result of the
        topple, which is true with six roles. */
    method RunGait(g: Gait)
      requires Valid()
      modifies this`finished, table.wire
      ensures finished && table.wire.sent == old(table.wire.sent) + GaitSend(g, table.linkIds)
    {
      var ids := table.linkIds;
      finished := false;
      if g == ToppleAll {
        finished := tetrahedron.Topple(None, 81, false, None);
      } else {
        var order := PickUpOrder(ids[..6]);
        finished := tetrahedron.Topple(Some(order), 83, true, Some(ids[|ids| - 1]));
      }
    }

    /** The gait keys met during the key scan, in order. */
    method RunGaits(gaits: seq<Gait>)
      requires Valid()
      modifies this`finished, table.wire
      ensures table.wire.sent == old(table.wire.sent) + GaitSends(gaits, table.linkIds)
      ensures finished == (|gaits| > 0 || old(finished))
    {
      var i := 0;
      while i < |gaits|
        invariant 0 <= i <= |gaits|
        invariant table.wire.sent == old(table.wire.sent) + GaitSends(gaits[..i], table.linkIds)
        invariant finished == (i > 0 || old(finished))
      {
        GaitSendsSplit(gaits[..i], gaits[i], table.linkIds);
        assert gaits[..i + 1] == gaits[..i] + [gaits[i]];
        RunGait(gaits[i]);
        i := i + 1;
      }
      assert gaits[..i] == gaits;
    }

    /** `_command_parse(keys)`: the gaits fire while the keys are walked,
        then the scan is dispatched like manual_controller2's. */
    method CommandParse(keys: seq<Key>) returns (ok: bool)
      requires Valid()
      modifies this`finished, table`linkStates, table`pretty, table.wire
      ensures var s := ScanFrom(Picking, |table.linkIds|, keys, Start);
        table.linkStates == if Acts(s) && isSticky then StoreAll(old(table.linkStates), Sorted(s.selected), Finish(s))
                            else old(table.linkStates)
      ensures var s := ScanFrom(Picking, |table.linkIds|, keys, Start);
        table.pretty == Dispatch(table.linkIds, old(table.linkStates), old(table.pretty), s, isSticky).0
      ensures var s := ScanFrom(Picking, |table.linkIds|, keys, Start);
        table.wire.sent == old(table.wire.sent) + GaitSends(s.gaits, table.linkIds)
                           + Dispatch(table.linkIds, old(table.linkStates), old(table.pretty), s, isSticky).1
      ensures var s := ScanFrom(Picking, |table.linkIds|, keys, Start);
        ok == Dispatch(table.linkIds, old(table.linkStates), old(table.pretty), s, isSticky).2
      ensures finished == (|ScanFrom(Picking, |table.linkIds|, keys, Start).gaits| > 0 || old(finished))
    {
      var s := ScanKeys(Picking, |table.linkIds|, keys);
      RunGaits(s.gaits);
      ok := table.Apply(s, isSticky);
    }
  }

  /** The gait commands of a longer scan extend those of a shorter one. */
  lemma {:induction false} GaitSendsSplit(gaits: seq<Gait>, g: Gait, ids: seq<int>)
    requires |ids| >= 6
    ensures GaitSends(gaits + [g], ids) == GaitSends(gaits, ids) + GaitSend(g, ids)
    decreases |gaits|
  {
    if |gaits| == 0 {
      assert gaits + [g] == [g] && [g][1..] == [];
      assert GaitSends([g], ids) == GaitSend(g, ids) + [];
    } else {
      assert (gaits + [g])[1..] == gaits[1..] + [g];
      GaitSendsSplit(gaits[1..], g, ids);
    }
  }

  /** The controller constructor: fewer than six links fail the
      tetrahedron's assertion. */
  method NewController(registered: set<int>, sticky: bool, wire: Wire) returns (r: Option<ManualController>)
    ensures r.None? <==> |registered| < 6
    ensures r.Some? ==> fresh(r.value) && r.value.Valid() && r.value.finished && r.value.isSticky == sticky
                        && r.value.table.wire == wire && r.value.table.linkStates == [] && r.value.table.pretty == map[]
                        && StrictlyIncreasing(r.value.table.linkIds)
                        && forall id :: id in r.value.table.linkIds <==> id in registered
  {
    var ids := SortedKeys(registered);
    if |ids| < 6 {
      return None;
    }
    var c := new ManualController(ids, sticky, wire);
    return Some(c);
  }
}
