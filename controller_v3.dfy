/** The v3 manual controller: it keeps the held keys in a set of its own,
    turns them into a request on every tick, and either remembers the
    request per link (sticky mode) or executes it once.

    `is_numlock_on` of this version always answers false, so the numlock
    branches of the key loop and after it never run; the model leaves them
    out.  The gait keys ('t', 'y', 'u', 'c', 'v', 'b', 'd', 'f', 'g', 'r',
    'o', 'p') change none of the scanned variables; the gaits they start are
    not part of this model. */
module ControllerV3 {
  import opened Common
  import opened Manual

  /** The scan `_command_parse` makes of the held keys, walked in the
      order `keys`. */
  function Parsed(n: nat, keys: seq<Key>): Scan {
    ScanFrom(CharText, n, keys, Start)
  }

  class ManualController {
    const isSticky: bool
    const table: LinkTable
    var currentKeys: set<Key>

    /** The controller over the links registered with the server, in
        increasing id order, sending on `wire`. */
    constructor (registered: set<int>, sticky: bool, wire: Wire)
      ensures isSticky == sticky && fresh(table) && table.wire == wire
      ensures StrictlyIncreasing(table.linkIds) && forall id :: id in table.linkIds <==> id in registered
      ensures table.linkStates == [] && table.pretty == map[] && currentKeys == {}
    {
      isSticky := sticky;
      var ids := SortedKeys(registered);
      table := new LinkTable(ids, wire);
      currentKeys := {};
    }

    /** `reset`: no request stored, no pair remembered, no key held. */
    method Reset()
      modifies this`currentKeys, table`linkStates, table`pretty
      ensures currentKeys == {} && table.linkStates == [] && table.pretty == map[]
    {
      table.Clear();
      currentKeys := {};
    }

    /** `on_press`: a new key is added; a new 's' resets the controller
        (which also forgets the 's'). */
    method OnPress(k: Key)
      modifies this`currentKeys, table`linkStates, table`pretty
      ensures k in old(currentKeys) ==> currentKeys == old(currentKeys)
      ensures k !in old(currentKeys) && k != Char('s') ==> currentKeys == Pressed(old(currentKeys), k)
      ensures k !in old(currentKeys) && k == Char('s') ==>
                currentKeys == {} && table.linkStates == [] && table.pretty == map[]
      ensures !(k !in old(currentKeys) && k == Char('s')) ==>
                table.linkStates == old(table.linkStates) && table.pretty == old(table.pretty)
    {
      if k in currentKeys {
        return;
      }
      currentKeys := currentKeys + {k};
      if k == Char('s') {
        Reset();
      }
    }

    /** `on_release`. */
    method OnRelease(k: Key)
      modifies this`currentKeys
      ensures currentKeys == Released(old(currentKeys), k)
    {
      if k !in currentKeys {
        currentKeys := {};
      } else {
        currentKeys := currentKeys - {k};
      }
    }

    /** `_command_parse(keys)`: `ok` is false when a selected index lies
        outside the link list, which raises and ends the controller. */
    method CommandParse(keys: seq<Key>) returns (ok: bool)
      modifies table`linkStates, table`pretty, table.wire
      ensures var s := Parsed(|table.linkIds|, keys);
        table.linkStates == if Acts(s) && isSticky then StoreAll(old(table.linkStates), Sorted(s.selected), Finish(s))
                            else old(table.linkStates)
      ensures table.pretty
              == Dispatch(table.linkIds, old(table.linkStates), old(table.pretty), Parsed(|table.linkIds|, keys), isSticky).0
      ensures table.wire.sent == old(table.wire.sent)
              + Dispatch(table.linkIds, old(table.linkStates), old(table.pretty), Parsed(|table.linkIds|, keys), isSticky).1
      ensures ok == Dispatch(table.linkIds, old(table.linkStates), old(table.pretty), Parsed(|table.linkIds|, keys), isSticky).2
    {
      var s := ScanKeys(CharText, |table.linkIds|, keys);
      ok := table.Apply(s, isSticky);
    }
  }

  /** Digit '0' selects index -1, which Python reads as the last link:
      holding '0', arrow up and both side arrows expands both servos of the
      last link and of no other. */
  lemma ZeroSelectsLastLink(ids: seq<int>)
    requires |ids| > 0
    ensures var s := Parsed(|ids|, [Char('0'), Up, Left, Right]);
      && Acts(s) && s.selected == [-1] && Finish(s) == Request(1, 1, 2)
      && Dispatch(ids, [], map[], s, false).1 == [PositionOnly(ids[|ids| - 1], MaxPos, MaxPos)]
  {
    var keys := [Char('0'), Up, Left, Right];
    var s := Parsed(|ids|, keys);
    assert keys[1..] == [Up, Left, Right] && keys[1..][1..] == [Left, Right] && keys[1..][1..][1..] == [Right];
    assert [Right][1..] == [];
    assert s.selected == [-1];
    assert Sorted([-1]) == [-1];
    SetPosOne(ids, map[], -1, StateToPos(Request(1, 1, 2), MinPos, MinPos));
  }

  /** A digit beyond the number of links selects an index outside the
      list: the command raises before any link is commanded. */
  lemma DigitBeyondLinksRaises(ids: seq<int>)
    requires |ids| < 9
    ensures var s := Parsed(|ids|, [Char('9'), Down]);
      && Acts(s) && s.selected == [8]
      && Dispatch(ids, [], map[], s, false) == (map[], [], false)
  {
    var keys := [Char('9'), Down];
    assert keys[1..] == [Down] && keys[1..][1..] == [];
    assert Sorted([8]) == [8];
  }
}
