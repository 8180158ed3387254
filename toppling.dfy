/** The toppling_tetrahedron script: six links form a tetrahedron whose
    edges are named by their two vertices ("01", "02", "03", "12", "23",
    "31").  Each edge slot holds a link and an orientation flag, which says
    whether the link's servos face the other way round.  A tip hands the
    six links to `tip` in the roles of a topple, then rewrites the slots by
    a fixed permutation, negating some flags.

    The flags start as the integer 0 and are then only negated with `not`,
    so only their truth value matters; the model holds them as `bool`. */
module Toppling {
  import opened Common
  import opened Manual

  const Min: int := 16
  const Max: int := 100

  /** The six edges of the tetrahedron. */
  datatype Slot = S01 | S02 | S03 | S12 | S23 | S31

  /** A link id with its orientation flag. */
  datatype Entry = Entry(link: int, flag: bool)

  /** The same link, oriented the other way. */
  function Neg(e: Entry): (r: Entry)
    ensures r.link == e.link && r.flag != e.flag
  {
    Entry(e.link, !e.flag)
  }

  /** The `self.tetra` dictionary: one entry per edge. */
  type Tetra = map<Slot, Entry>

  const AllSlots: set<Slot> := {S01, S02, S03, S12, S23, S31}

  /** A dictionary with exactly the six edges as keys. */
  predicate Full(t: Tetra) {
    t.Keys == AllSlots
  }

  /** Every slot is one of the six edges. */
  lemma SlotIsEdge(s: Slot)
    ensures s in AllSlots
  {
    match s
    case S01 => case S02 => case S03 => case S12 => case S23 => case S31 =>
  }

  /** The dictionary the constructor builds: each link in its slot, with
      flag 0. */
  function Built(l01: int, l02: int, l03: int, l12: int, l23: int, l31: int): (t: Tetra)
    ensures Full(t)
  {
    map[S01 := Entry(l01, false), S02 := Entry(l02, false), S03 := Entry(l03, false),
        S12 := Entry(l12, false), S23 := Entry(l23, false), S31 := Entry(l31, false)]
  }

  /** The roles `one_tip` hands to `tip`: back left, back right, base
      front, top back centre, top front left, top front right. */
  function OneTipRoles(t: Tetra): (r: seq<Entry>)
    requires Full(t)
    ensures |r| == 6
  {
    [Neg(t[S31]), t[S12], Neg(t[S23]), t[S01], t[S03], t[S02]]
  }

  /** The dictionary after `one_tip`. */
  function OneTipped(t: Tetra): (r: Tetra)
    requires Full(t)
    ensures Full(r)
  {
    map[S01 := Neg(t[S01]), S02 := Neg(t[S31]), S03 := t[S12],
        S12 := t[S03], S23 := Neg(t[S23]), S31 := Neg(t[S02])]
  }

  /** The roles `two_tip` hands to `tip`. */
  function TwoTipRoles(t: Tetra): (r: seq<Entry>)
    requires Full(t)
    ensures |r| == 6
  {
    [Neg(t[S12]), t[S23], t[S31], t[S02], t[S01], t[S03]]
  }

  /** The dictionary after `two_tip`. */
  function TwoTipped(t: Tetra): (r: Tetra)
    requires Full(t)
    ensures Full(r)
  {
    map[S01 := t[S23], S02 := Neg(t[S02]), S03 := t[S12],
        S12 := Neg(t[S03]), S23 := t[S01], S31 := Neg(t[S31])]
  }

  // ---------------------------------------------------------------------
  // The slot permutations, as tables.

  /** The slot whose link `one_tip` moves into slot `s`. */
  function OneTipSource(s: Slot): Slot {
    match s
    case S01 => S01
    case S02 => S31
    case S03 => S12
    case S12 => S03
    case S23 => S23
    case S31 => S02
  }

  /** The slots whose flag `one_tip` negates. */
  predicate OneTipNegates(s: Slot) {
    s == S01 || s == S02 || s == S23 || s == S31
  }

  /** `one_tip` moves the link of `OneTipSource(s)` into each slot `s`,
      negating the flag exactly in slots 01, 02, 23 and 31; the source
      table swaps 02 with 31 and 03 with 12, so every link lands in
      exactly one slot. */
  lemma OneTipBySlot(t: Tetra, s: Slot)
    requires Full(t)
    ensures s in AllSlots && OneTipSource(s) in AllSlots
    ensures OneTipped(t)[s] == if OneTipNegates(s) then Neg(t[OneTipSource(s)]) else t[OneTipSource(s)]
    ensures OneTipSource(OneTipSource(s)) == s
  {
    SlotIsEdge(s);
    SlotIsEdge(OneTipSource(s));
  }

  /** The slot whose link `two_tip` moves into slot `s`. */
  function TwoTipSource(s: Slot): Slot {
    match s
    case S01 => S23
    case S02 => S02
    case S03 => S12
    case S12 => S03
    case S23 => S01
    case S31 => S31
  }

  /** The slots whose flag `two_tip` negates. */
  predicate TwoTipNegates(s: Slot) {
    s == S02 || s == S12 || s == S31
  }

  /** `two_tip` moves the link of `TwoTipSource(s)` into each slot `s`,
      negating the flag exactly in slots 02, 12 and 31; its source table
      swaps 01 with 23 and 03 with 12. */
  lemma TwoTipBySlot(t: Tetra, s: Slot)
    requires Full(t)
    ensures s in AllSlots && TwoTipSource(s) in AllSlots
    ensures TwoTipped(t)[s] == if TwoTipNegates(s) then Neg(t[TwoTipSource(s)]) else t[TwoTipSource(s)]
    ensures TwoTipSource(TwoTipSource(s)) == s
  {
    SlotIsEdge(s);
    SlotIsEdge(TwoTipSource(s));
  }

  // ---------------------------------------------------------------------
  // The roles of a tip, as tables.

  /** The slot whose link `one_tip` hands to `tip` as role k. */
  function OneTipRoleSlot(k: nat): Slot
    requires k < 6
  {
    [S31, S12, S23, S01, S03, S02][k]
  }

  /** The slot whose link `two_tip` hands to `tip` as role k. */
  function TwoTipRoleSlot(k: nat): Slot
    requires k < 6
  {
    [S12, S23, S31, S02, S01, S03][k]
  }

  /** The role `one_tip` gives the link of slot `s`. */
  function OneTipRoleOf(s: Slot): nat {
    match s
    case S31 => 0
    case S12 => 1
    case S23 => 2
    case S01 => 3
    case S03 => 4
    case S02 => 5
  }

  /** The role `two_tip` gives the link of slot `s`. */
  function TwoTipRoleOf(s: Slot): nat {
    match s
    case S12 => 0
    case S23 => 1
    case S31 => 2
    case S02 => 3
    case S01 => 4
    case S03 => 5
  }

  /** `one_tip` hands every slot's link to `tip` exactly once: role k is
      the link of slot `OneTipRoleSlot(k)`, flag negated for the back
      left and base front roles, and the role table is a bijection
      between the six roles and the six slots. */
  lemma OneTipRolesAreSlots(t: Tetra, k: nat, s: Slot)
    requires Full(t) && k < 6
    ensures OneTipRoleSlot(k) in AllSlots
    ensures OneTipRoles(t)[k]
            == if k == 0 || k == 2 then Neg(t[OneTipRoleSlot(k)]) else t[OneTipRoleSlot(k)]
    ensures OneTipRoleOf(OneTipRoleSlot(k)) == k
    ensures OneTipRoleOf(s) < 6 && OneTipRoleSlot(OneTipRoleOf(s)) == s
  {
    SlotIsEdge(OneTipRoleSlot(k));
  }

  /** `two_tip` hands every slot's link to `tip` exactly once; only the
      back left role is negated. */
  lemma TwoTipRolesAreSlots(t: Tetra, k: nat, s: Slot)
    requires Full(t) && k < 6
    ensures TwoTipRoleSlot(k) in AllSlots
    ensures TwoTipRoles(t)[k]
            == if k == 0 then Neg(t[TwoTipRoleSlot(k)]) else t[TwoTipRoleSlot(k)]
    ensures TwoTipRoleOf(TwoTipRoleSlot(k)) == k
    ensures TwoTipRoleOf(s) < 6 && TwoTipRoleSlot(TwoTipRoleOf(s)) == s
  {
    SlotIsEdge(TwoTipRoleSlot(k));
  }

  /** After a tip the dictionary holds the same six links: the link
      `one_tip` moves into a slot comes from a slot the same move sends
      back, so no link is lost and none is doubled. */
  lemma OneTipKeepsLinks(t: Tetra, s: Slot)
    requires Full(t)
    ensures s in AllSlots && OneTipSource(s) in AllSlots
    ensures OneTipped(t)[OneTipSource(s)].link == t[s].link
    ensures OneTipped(t)[s].link == t[OneTipSource(s)].link
  {
    OneTipBySlot(t, s);
    OneTipBySlot(t, OneTipSource(s));
  }

  /** The same for `two_tip`. */
  lemma TwoTipKeepsLinks(t: Tetra, s: Slot)
    requires Full(t)
    ensures s in AllSlots && TwoTipSource(s) in AllSlots
    ensures TwoTipped(t)[TwoTipSource(s)].link == t[s].link
    ensures TwoTipped(t)[s].link == t[TwoTipSource(s)].link
  {
    TwoTipBySlot(t, s);
    TwoTipBySlot(t, TwoTipSource(s));
  }

  /** Tipping with `one_tip` twice gives back the dictionary it started
      from, flags included: the script's two `one_tip` calls leave the
      tetrahedron as it was built. */
  lemma OneTipTwice(t: Tetra)
    requires Full(t)
    ensures OneTipped(OneTipped(t)) == t
  {
    var r := OneTipped(OneTipped(t));
    forall s: Slot | s in AllSlots ensures r[s] == t[s] {
      OneTipBySlot(t, s);
      OneTipBySlot(OneTipped(t), s);
    }
    assert r.Keys == t.Keys;
  }

  /** Tipping with `two_tip` twice puts every link back in its slot, with
      the flags of slots 03 and 12 negated; four times gives back the
      dictionary it started from. */
  lemma TwoTipTwice(t: Tetra)
    requires Full(t)
    ensures TwoTipped(TwoTipped(t)) == t[S03 := Neg(t[S03])][S12 := Neg(t[S12])]
    ensures TwoTipped(TwoTipped(TwoTipped(TwoTipped(t)))) == t
  {
    var u := t[S03 := Neg(t[S03])][S12 := Neg(t[S12])];
    var r := TwoTipped(TwoTipped(t));
    forall s: Slot | s in AllSlots ensures r[s] == u[s] {
      TwoTipBySlot(t, s);
      TwoTipBySlot(TwoTipped(t), s);
    }
    assert r.Keys == u.Keys;
    var v := u[S03 := Neg(u[S03])][S12 := Neg(u[S12])];
    assert TwoTipped(TwoTipped(u)) == v by {
      var w := TwoTipped(TwoTipped(u));
      forall s: Slot | s in AllSlots ensures w[s] == v[s] {
        TwoTipBySlot(u, s);
        TwoTipBySlot(TwoTipped(u), s);
      }
      assert w.Keys == v.Keys;
    }
    assert v == t by {
      forall s: Slot | s in AllSlots ensures v[s] == t[s] {
      }
      assert v.Keys == t.Keys;
    }
  }

  // ---------------------------------------------------------------------
  // The commands of `tip`.

  /** A pair with its two servo targets traded. */
  function Swap(p: (int, int)): (int, int) {
    (p.1, p.0)
  }

  function Send(e: Entry, p: (int, int)): Command {
    PositionOnly(e.link, p.0, p.1)
  }

  /** The commands `tip` sends with roles `roles`, in order: expand the
      base, topple over the top back centre link, stand the base back
      links up, make the top symmetric, contract all six. */
  function TipSends(roles: seq<Entry>): (r: seq<Command>)
    requires |roles| == 6
  {
    OrientedSends(roles) + ContractAll(roles)
  }

  /** The seven commands of `tip` before the final contraction. */
  function OrientedSends(roles: seq<Entry>): (r: seq<Command>)
    requires |roles| == 6
  {
    var backLeft, backRight, front := roles[0], roles[1], roles[2];
    var backCentre, frontLeft, frontRight := roles[3], roles[4], roles[5];
    [Send(front, (70, 70)),
     Send(frontLeft, if frontLeft.flag then (Max, Min) else (Min, Max)),
     Send(frontRight, if frontRight.flag then (Max, Min) else (Min, Max)),
     Send(backCentre, if backCentre.flag then (Max, 90) else (90, Max)),
     Send(backRight, if backRight.flag then (Min, Max) else (Max, Min)),
     Send(backLeft, if backLeft.flag then (Min, Max) else (Max, Min)),
     Send(backCentre, if backCentre.flag then (Max, Min) else (Min, Max))]
  }

  /** The first three entries of `OrientedSends`. */
  function FrontSends(roles: seq<Entry>): seq<Command>
    requires |roles| == 6
  {
    OrientedSends(roles)[..3]
  }

  /** The last four entries of `OrientedSends`. */
  function BackSends(roles: seq<Entry>): seq<Command>
    requires |roles| == 6
  {
    OrientedSends(roles)[3..]
  }

  /** `for l in tetra_links: l[0].send_position_only(MIN, MIN)`. */
  function ContractAll(roles: seq<Entry>): (r: seq<Command>)
    ensures |r| == |roles|
    decreases |roles|
  {
    if |roles| == 0 then [] else ContractAll(roles[..|roles| - 1]) + [Send(roles[|roles| - 1], (Min, Min))]
  }

  /** The final loop sends (MIN, MIN) to every role, in role order. */
  lemma {:induction false} ContractAllMeaning(roles: seq<Entry>)
    ensures forall i | 0 <= i < |roles| :: ContractAll(roles)[i] == PositionOnly(roles[i].link, Min, Min)
    decreases |roles|
  {
    if |roles| > 0 {
      var init := roles[..|roles| - 1];
      ContractAllMeaning(init);
      assert forall i | 0 <= i < |init| :: init[i] == roles[i];
    }
  }

  /** The role each command of `tip` addresses. */
  function TipRole(k: nat): (i: nat)
    requires k < 13
    ensures i < 6
  {
    if k < 7 then [2, 4, 5, 3, 1, 0, 3][k] else k - 7
  }

  /** The pair each command of `tip` sends when its role's flag is false. */
  function TipBase(k: nat): (int, int)
    requires k < 13
  {
    if k < 7 then [(70, 70), (Min, Max), (Min, Max), (90, Max), (Max, Min), (Max, Min), (Min, Max)][k]
    else (Min, Min)
  }

  /** `tip` sends thirteen commands, command k to role `TipRole(k)`; the
      pair of each of the six oriented commands is the unflagged pair
      swapped exactly when its role's flag is set, while the base front
      command and the final contraction ignore the flags. */
  lemma TipPlan(roles: seq<Entry>)
    requires |roles| == 6
    ensures |TipSends(roles)| == 13
    ensures forall k | 0 <= k < 13 ::
              TipSends(roles)[k]
              == Send(roles[TipRole(k)],
                      if 1 <= k < 7 && roles[TipRole(k)].flag then Swap(TipBase(k)) else TipBase(k))
  {
    ContractAllMeaning(roles);
    var r := TipSends(roles);
    forall k | 0 <= k < 13
      ensures r[k] == Send(roles[TipRole(k)], if 1 <= k < 7 && roles[TipRole(k)].flag then Swap(TipBase(k)) else TipBase(k))
    {
      if k >= 7 {
        assert r[k] == ContractAll(roles)[k - 7];
      } else {
        assert r[k] == OrientedSends(roles)[k];
      }
    }
  }

  /** Negating the flag of one role other than the base front changes
      exactly that role's oriented commands, each into its mirror image. */
  lemma FlagSwapsOwnCommands(roles: seq<Entry>, i: nat)
    requires |roles| == 6 && i < 6 && i != 2
    ensures var flipped := roles[i := Neg(roles[i])];
      forall k | 0 <= k < 13 ::
        TipSends(flipped)[k]
        == if 1 <= k < 7 && TipRole(k) == i
           then PositionOnly(TipSends(roles)[k].link, TipSends(roles)[k].srv1Pos, TipSends(roles)[k].srv0Pos)
           else TipSends(roles)[k]
  {
    var flipped := roles[i := Neg(roles[i])];
    TipPlan(roles);
    TipPlan(flipped);
  }

  // ---------------------------------------------------------------------
  // The tetrahedron.

  class Tetrahedron {
    var tetra: Tetra
    const wire: Wire

    constructor (l01: int, l02: int, l03: int, l12: int, l23: int, l31: int, wire: Wire)
      ensures tetra == Built(l01, l02, l03, l12, l23, l31) && this.wire == wire
    {
      tetra := map[S01 := Entry(l01, false), S02 := Entry(l02, false), S03 := Entry(l03, false),
                   S12 := Entry(l12, false), S23 := Entry(l23, false), S31 := Entry(l31, false)];
      this.wire := wire;
    }

    /** `tip(tetra_links)`. */
    method Tip(roles: seq<Entry>)
      requires |roles| == 6
      modifies wire
      ensures wire.sent == old(wire.sent) + TipSends(roles)
    {
      Orient(roles);
      ContractRoles(roles);
    }

    /** The seven sends of `tip` that swing the front and back links over. */
    method Orient(roles: seq<Entry>)
      requires |roles| == 6
      modifies wire
      ensures wire.sent == old(wire.sent) + OrientedSends(roles)
    {
      SwingFront(roles);
      SwingBack(roles);
      assert OrientedSends(roles) == FrontSends(roles) + BackSends(roles);
    }

    /** The "expand base" step of `tip`: the base front link and the two top front links. */
    method SwingFront(roles: seq<Entry>)
      requires |roles| == 6
      modifies wire
      ensures wire.sent == old(wire.sent) + FrontSends(roles)
    {
      var front, frontLeft, frontRight := roles[2], roles[4], roles[5];
      var p1 := if frontLeft.flag then (Max, Min) else (Min, Max);
      var p2 := if frontRight.flag then (Max, Min) else (Min, Max);
      wire.Send(front.link, 70, 70);
      wire.Send(frontLeft.link, p1.0, p1.1);
      wire.Send(frontRight.link, p2.0, p2.1);
      assert wire.sent == old(wire.sent) + [Send(front, (70, 70)), Send(frontLeft, p1), Send(frontRight, p2)];
    }

    /** The topple, upright and symmetry steps of `tip`: the top back link, the two base back links, the top back link again. */
    method SwingBack(roles: seq<Entry>)
      requires |roles| == 6
      modifies wire
      ensures wire.sent == old(wire.sent) + BackSends(roles)
    {
      var backLeft, backRight, backCentre := roles[0], roles[1], roles[3];
      var p3 := if backCentre.flag then (Max, 90) else (90, Max);
      var p4 := if backRight.flag then (Min, Max) else (Max, Min);
      var p5 := if backLeft.flag then (Min, Max) else (Max, Min);
      var p6 := if backCentre.flag then (Max, Min) else (Min, Max);
      wire.Send(backCentre.link, p3.0, p3.1);
      wire.Send(backRight.link, p4.0, p4.1);
      wire.Send(backLeft.link, p5.0, p5.1);
      wire.Send(backCentre.link, p6.0, p6.1);
      assert wire.sent == old(wire.sent)
        + [Send(backCentre, p3), Send(backRight, p4), Send(backLeft, p5), Send(backCentre, p6)];
    }

    /** The final loop of `tip`: every role is contracted, in role order. */
    method ContractRoles(roles: seq<Entry>)
      modifies wire
      ensures wire.sent == old(wire.sent) + ContractAll(roles)
    {
      var i := 0;
      while i < |roles|
        invariant 0 <= i <= |roles|
        invariant wire.sent == old(wire.sent) + ContractAll(roles[..i])
      {
        assert roles[..i + 1][..i] == roles[..i];
        wire.Send(roles[i].link, Min, Min);
        i := i + 1;
      }
      assert roles[..i] == roles;
    }

    /** `one_tip`. */
    method OneTip()
      requires Full(tetra)
      modifies this`tetra, wire
      ensures tetra == OneTipped(old(tetra))
      ensures wire.sent == old(wire.sent) + TipSends(OneTipRoles(old(tetra)))
    {
      var t := tetra;
      var roles := [Entry(t[S31].link, !t[S31].flag), Entry(t[S12].link, t[S12].flag),
                    Entry(t[S23].link, !t[S23].flag), Entry(t[S01].link, t[S01].flag),
                    Entry(t[S03].link, t[S03].flag), Entry(t[S02].link, t[S02].flag)];
      Tip(roles);
      tetra := map[S01 := Entry(t[S01].link, !t[S01].flag), S02 := Entry(t[S31].link, !t[S31].flag),
                   S03 := Entry(t[S12].link, t[S12].flag), S12 := Entry(t[S03].link, t[S03].flag),
                   S23 := Entry(t[S23].link, !t[S23].flag), S31 := Entry(t[S02].link, !t[S02].flag)];
    }

    /** `two_tip`. */
    method TwoTip()
      requires Full(tetra)
      modifies this`tetra, wire
      ensures tetra == TwoTipped(old(tetra))
      ensures wire.sent == old(wire.sent) + TipSends(TwoTipRoles(old(tetra)))
    {
      var t := tetra;
      var roles := [Entry(t[S12].link, !t[S12].flag), Entry(t[S23].link, t[S23].flag),
                    Entry(t[S31].link, t[S31].flag), Entry(t[S02].link, t[S02].flag),
                    Entry(t[S01].link, t[S01].flag), Entry(t[S03].link, t[S03].flag)];
      Tip(roles);
      tetra := map[S01 := Entry(t[S23].link, t[S23].flag), S02 := Entry(t[S02].link, !t[S02].flag),
                   S03 := Entry(t[S12].link, t[S12].flag), S12 := Entry(t[S03].link, !t[S03].flag),
                   S23 := Entry(t[S01].link, t[S01].flag), S31 := Entry(t[S31].link, !t[S31].flag)];
    }
  }
}
