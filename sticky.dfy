/** The sticky_controller script: a keyboard controller that remembers the
    last valid command and repeats it on every tick until another valid
    command is held.

    Its key scan reads each key code as an integer (the text between the
    first and last character of `str(k)`), so a digit k selects index k
    itself and '+' and '-' mean nothing.  Its targets default to 0, and
    contracting drives a chosen servo to 0 as well.  After the `links`
    list is built the constructor replaces `link_ids` by the fixed list
    [0, 11, 21]; the log line after each send looks an index up in that
    list, so an index it does not have raises right after its command has
    gone out. */
module Sticky {
  import opened Common
  import opened Manual

  /** `MIN_POS` of this script. */
  const StickyMin: int := 0

  /** The `link_ids` list the log line reads. */
  const ShownIds: seq<int> := [0, 11, 21]

  /** The `last_command` the controller starts with: no link, contract
      both servos. */
  const Initial: (seq<int>, Request) := ([], Request(1, 0, 2))

  /** The pair `_set_link_pos` sends: expanding drives the chosen servos
      to 100; every other servo, and every servo when contracting or for
      any other mode, goes to 0. */
  function Targets(r: Request): (p: (int, int))
    ensures p.0 == (if r.mode == 1 && (r.param == 0 || r.param == 2) then MaxPos else StickyMin)
    ensures p.1 == (if r.mode == 1 && (r.param == 1 || r.param == 2) then MaxPos else StickyMin)
  {
    var srv0, srv1 := 0, 0;
    if r.mode == 1 then
      if r.param == 0 then (MaxPos, srv1)
      else if r.param == 1 then (srv0, MaxPos)
      else if r.param == 2 then (MaxPos, MaxPos)
      else (srv0, srv1)
    else if r.mode == 0 then
      if r.param == 0 then (StickyMin, srv1)
      else if r.param == 1 then (srv0, StickyMin)
      else if r.param == 2 then (StickyMin, StickyMin)
      else (srv0, srv1)
    else (srv0, srv1)
  }

  /** The pair is the shared `state_to_pos_command` table with minimum 0,
      completed with 0 where it leaves a servo unset. */
  lemma TargetsAreTableWithZero(r: Request, id: int)
    ensures Targets(r) == Fill(map[], id, StateToPos(r, StickyMin, StickyMin), StickyMin)
  {
  }

  /** An index both the link list and the logged id list have. */
  predicate Usable(links: seq<int>, shown: seq<int>, i: int) {
    PyIndex(i, |links|).Some? && PyIndex(i, |shown|).Some?
  }

  /** The send loop of `_set_link_pos` with pair `p`: each index sends
      `p` to its link and then logs it; the result is the commands sent
      and whether no index raised. */
  function SendLoop(links: seq<int>, shown: seq<int>, idx: seq<int>, p: (int, int)): (r: (seq<Command>, bool))
    decreases |idx|
  {
    if |idx| == 0 then ([], true)
    else match PyIndex(idx[0], |links|)
      case None => ([], false)
      case Some(j) =>
        var here := [PositionOnly(links[j], p.0, p.1)];
        if PyIndex(idx[0], |shown|).None? then (here, false)
        else
          var rest := SendLoop(links, shown, idx[1..], p);
          (here + rest.0, rest.1)
  }

  /** The loop sends `p` to the link of each index in turn and finishes
      exactly when every index is usable; an index raises either before its
      send (not a link) or right after it (not in the logged list), so every
      index before the last one sent was usable. */
  lemma {:induction false} SendLoopMeaning(links: seq<int>, shown: seq<int>, idx: seq<int>, p: (int, int))
    ensures var r := SendLoop(links, shown, idx, p);
      && |r.0| <= |idx|
      && (r.1 <==> forall k | 0 <= k < |idx| :: Usable(links, shown, idx[k]))
      && (r.1 ==> |r.0| == |idx|)
      && (forall k | 0 <= k < |r.0| ::
            PyIndex(idx[k], |links|).Some?
            && r.0[k] == PositionOnly(links[PyIndex(idx[k], |links|).value], p.0, p.1))
      && (forall k | 0 <= k < |r.0| - 1 :: Usable(links, shown, idx[k]))
    decreases |idx|
  {
    if |idx| > 0 && PyIndex(idx[0], |links|).Some? && PyIndex(idx[0], |shown|).Some? {
      SendLoopMeaning(links, shown, idx[1..], p);
      assert forall k | 1 <= k < |idx| :: idx[k] == idx[1..][k - 1];
    }
  }

  /** A command on one usable index sends `p` to that link alone. */
  lemma SendOneIndex(links: seq<int>, shown: seq<int>, i: int, p: (int, int))
    requires Usable(links, shown, i)
    ensures SendLoop(links, shown, [i], p) == ([PositionOnly(links[PyIndex(i, |links|).value], p.0, p.1)], true)
  {
    assert [i][0] == i && [i][1..] == [];
    var cmd := PositionOnly(links[PyIndex(i, |links|).value], p.0, p.1);
    assert [cmd] + [] == [cmd];
  }

  /** The `last_command` after a tick with scan `s`: an invalid command
      keeps the last one; a valid one becomes it, with its selection
      sorted. */
  function Next(last: (seq<int>, Request), s: Scan): (r: (seq<int>, Request))
    ensures !Acts(s) ==> r == last
    ensures Acts(s) ==> NonDecreasing(r.0) && multiset(r.0) == multiset(s.selected) && r.1 == Finish(s)
  {
    if !Acts(s) then last else (Sorted(s.selected), Finish(s))
  }

  /** One call of `_command_parse`: the new `last_command`, the commands
      sent for it, and whether no index raised. */
  function Tick(links: seq<int>, shown: seq<int>, last: (seq<int>, Request), s: Scan)
    : (r: ((seq<int>, Request), seq<Command>, bool))
  {
    var next := Next(last, s);
    var sent := SendLoop(links, shown, next.0, Targets(next.1));
    (next, sent.0, sent.1)
  }

  /** Every tick commands one pair, to each link of the command in force,
      in the order of its selection. */
  lemma TickSendsOnePair(links: seq<int>, shown: seq<int>, last: (seq<int>, Request), s: Scan)
    ensures var t := Tick(links, shown, last, s);
      && AllSend(t.1, Targets(t.0.1).0, Targets(t.0.1).1)
      && |t.1| <= |t.0.0|
      && (t.2 ==> |t.1| == |t.0.0|)
  {
    var next := Next(last, s);
    SendLoopMeaning(links, shown, next.0, Targets(next.1));
  }

  /** An invalid command replays the last one unchanged: the same command
      stays in force and exactly the same commands go out again. */
  lemma InvalidTickRepeats(links: seq<int>, shown: seq<int>, last: (seq<int>, Request), s1: Scan, s2: Scan)
    requires !Acts(s2)
    ensures Tick(links, shown, Tick(links, shown, last, s1).0, s2) == Tick(links, shown, last, s1)
  {
  }

  /** The ticks of `run`, one per scan, until one raises. */
  function Session(links: seq<int>, shown: seq<int>, last: (seq<int>, Request), scans: seq<Scan>)
    : (r: ((seq<int>, Request), seq<Command>, bool))
    decreases |scans|
  {
    if |scans| == 0 then (last, [], true)
    else
      var t := Tick(links, shown, last, scans[0]);
      if !t.2 then t
      else
        var rest := Session(links, shown, t.0, scans[1..]);
        (rest.0, t.1 + rest.1, rest.2)
  }

  /** From the initial `last_command` no link is commanded until a valid
      command arrives: idle ticks keep the initial command and send
      nothing. */
  lemma {:induction false} IdleUntilValid(links: seq<int>, shown: seq<int>, scans: seq<Scan>)
    requires forall k | 0 <= k < |scans| :: !Acts(scans[k])
    ensures Session(links, shown, Initial, scans) == (Initial, [], true)
    decreases |scans|
  {
    if |scans| > 0 {
      assert SendLoop(links, shown, [], Targets(Initial.1)) == ([], true);
      assert Tick(links, shown, Initial, scans[0]) == (Initial, [], true);
      assert forall k | 0 <= k < |scans[1..]| :: !Acts(scans[1..][k]) by {
        forall k | 0 <= k < |scans[1..]| ensures !Acts(scans[1..][k]) {
          assert scans[1..][k] == scans[k + 1];
        }
      }
      IdleUntilValid(links, shown, scans[1..]);
      var none: seq<Command> := [];
      assert none + none == none;
    }
  }

  /** Once a valid command has been given, every later tick without one
      sends that command's commands again, as long as none raises. */
  lemma {:induction false} HeldAfterValid(links: seq<int>, shown: seq<int>, last: (seq<int>, Request), scans: seq<Scan>)
    requires forall k | 0 <= k < |scans| :: !Acts(scans[k])
    ensures Session(links, shown, last, scans).0 == last
    ensures forall k | 0 <= k < |scans| :: Tick(links, shown, last, scans[k]).1
                                           == SendLoop(links, shown, last.0, Targets(last.1)).0
    decreases |scans|
  {
    if |scans| > 0 {
      assert forall k | 0 <= k < |scans[1..]| :: !Acts(scans[1..][k]) by {
        forall k | 0 <= k < |scans[1..]| ensures !Acts(scans[1..][k]) {
          assert scans[1..][k] == scans[k + 1];
        }
      }
      HeldAfterValid(links, shown, last, scans[1..]);
    }
  }

  class StickyController {
    /** The registered link ids in increasing order (`self.links`). */
    const links: seq<int>
    /** `self.link_ids` after the constructor overwrote it. */
    const shown: seq<int>
    const wire: Wire
    /** The module-level `current_keys`. */
    const held: HeldKeys
    var srv0Pos: int
    var srv1Pos: int
    var lastCommand: (seq<int>, Request)

    constructor (registered: set<int>, wire: Wire, held: HeldKeys)
      ensures StrictlyIncreasing(links) && forall id :: id in links <==> id in registered
      ensures shown == ShownIds && this.wire == wire && this.held == held
      ensures srv0Pos == 0 && srv1Pos == 0 && lastCommand == Initial
    {
      var ids := SortedKeys(registered);
      links := ids;
      shown := ShownIds;
      this.wire := wire;
      this.held := held;
      srv0Pos, srv1Pos := 0, 0;
      lastCommand := Initial;
    }

    /** `_set_link_pos(link_idx, request)`: the pair is stored before the
        loop sends it. */
    method SetLinkPos(idx: seq<int>, r: Request) returns (ok: bool)
      modifies this`srv0Pos, this`srv1Pos, wire
      ensures (srv0Pos, srv1Pos) == Targets(r)
      ensures wire.sent == old(wire.sent) + SendLoop(links, shown, idx, Targets(r)).0
      ensures ok == SendLoop(links, shown, idx, Targets(r)).1
    {
      var p := Targets(r);
      srv0Pos, srv1Pos := p.0, p.1;
      var i := 0;
      while i < |idx|
        invariant 0 <= i <= |idx|
        invariant srv0Pos == p.0 && srv1Pos == p.1
        invariant wire.sent + SendLoop(links, shown, idx[i..], p).0 == old(wire.sent) + SendLoop(links, shown, idx, p).0
        invariant SendLoop(links, shown, idx[i..], p).1 == SendLoop(links, shown, idx, p).1
      {
        assert idx[i..][0] == idx[i] && idx[i..][1..] == idx[i + 1..];
        var j := PyIndex(idx[i], |links|);
        if j.None? {
          return false;
        }
        ghost var before := wire.sent;
        wire.Send(links[j.value], p.0, p.1);
        if PyIndex(idx[i], |shown|).None? {
          assert SendLoop(links, shown, idx[i..], p).0 == [PositionOnly(links[j.value], p.0, p.1)];
          return false;
        }
        ghost var rest := SendLoop(links, shown, idx[i + 1..], p);
        assert SendLoop(links, shown, idx[i..], p) == ([PositionOnly(links[j.value], p.0, p.1)] + rest.0, rest.1);
        assert before + ([PositionOnly(links[j.value], p.0, p.1)] + rest.0) == wire.sent + rest.0;
        i := i + 1;
      }
      return true;
    }

    /** `_command_parse()`, walking the held keys in the order `order`
        (the set's iteration order). */
    method CommandParse(order: seq<Key>) returns (ok: bool)
      requires forall k :: k in order <==> k in held.keys
      modifies this`srv0Pos, this`srv1Pos, this`lastCommand, wire
      ensures var t := Tick(links, shown, old(lastCommand), ScanFrom(BareNumber, |links|, order, Start));
        && lastCommand == t.0
        && wire.sent == old(wire.sent) + t.1
        && ok == t.2
        && (srv0Pos, srv1Pos) == Targets(lastCommand.1)
    {
      var s := ScanKeys(BareNumber, |links|, order);
      if Acts(s) {
        lastCommand := (Sorted(s.selected), Finish(s));
      }
      ok := SetLinkPos(lastCommand.0, lastCommand.1);
    }
  }

  /** Without an arrow key pressed up or down the command is invalid, so a
      tick holding only digits and side arrows replays the last command. */
  lemma NoModeKeyReplays(links: seq<int>, shown: seq<int>, last: (seq<int>, Request), order: seq<Key>)
    requires forall k | k in order :: k != Up && k != Down
    ensures Tick(links, shown, last, ScanFrom(BareNumber, |links|, order, Start)).0 == last
  {
    ModeNeedsModeKey(BareNumber, |links|, order, Start);
  }

  /** The scan of digit 1, arrow up and arrow left. */
  lemma ScanOneUpLeft(n: nat)
    ensures ScanFrom(BareNumber, n, [Char('1'), Up, Left], Start) == Scan([1], 1, 1, -1, true, false, [])
  {
    var keys := [Char('1'), Up, Left];
    var s0 := ScanKey(BareNumber, n, Start, Char('1'));
    assert s0 == Scan([1], 0, -1, -1, false, false, []);
    var s1 := ScanKey(BareNumber, n, s0, Up);
    var s2 := ScanKey(BareNumber, n, s1, Left);
    assert keys[1..] == [Up, Left] && keys[1..][1..] == [Left] && [Left][1..] == [];
    calc {
      ScanFrom(BareNumber, n, keys, Start);
      ScanFrom(BareNumber, n, [Up, Left], s0);
      ScanFrom(BareNumber, n, [Left], s1);
      ScanFrom(BareNumber, n, [], s2);
    }
  }

  /** Holding digit 1, arrow up and arrow left expands servo 0 of the link
      at index 1 (the second in id order), leaving servo 1 at 0, and makes
      that the command replayed from then on. */
  lemma OneUpLeft(links: seq<int>, last: (seq<int>, Request))
    requires |links| >= 2
    ensures Tick(links, ShownIds, last, ScanFrom(BareNumber, |links|, [Char('1'), Up, Left], Start))
            == (([1], Request(1, 1, 0)), [PositionOnly(links[1], MaxPos, 0)], true)
  {
    ScanOneUpLeft(|links|);
    assert Sorted([1]) == [1];
    SendOneIndex(links, ShownIds, 1, (MaxPos, 0));
  }
}
