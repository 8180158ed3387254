/** The manual_controller2 script: the key-to-request loop of the v3
    controller without gaits, reading each key code through the text of
    `str(k)`, over a module-level set of held keys that the listener
    callbacks update and `_command_parse` walks directly. */
module Controller2 {
  import opened Common
  import opened Manual

  /** Away from key codes without a character the two ways of reading a
      key agree: manual_controller2 scans held keys exactly as the v3
      controller does. */
  lemma {:induction false} AgreesWithV3OnCharacters(n: nat, keys: seq<Key>, s: Scan)
    requires forall k | k in keys :: !k.Vk?
    ensures ScanFrom(ReprText, n, keys, s) == ScanFrom(CharText, n, keys, s)
    decreases |keys|
  {
    if |keys| > 0 {
      assert keys[0] in keys && forall k | k in keys[1..] :: k in keys;
      assert ScanKey(ReprText, n, s, keys[0]) == ScanKey(CharText, n, s, keys[0]);
      AgreesWithV3OnCharacters(n, keys[1..], ScanKey(CharText, n, s, keys[0]));
    }
  }

  /** A key code with only a virtual key number reads as that number, so
      it selects index number - 1 (the v3 controller ignores it). */
  lemma VirtualKeySelects(n: nat, code: nat)
    ensures ScanFrom(ReprText, n, [Vk(code)], Start).selected == [code - 1]
    ensures ScanFrom(CharText, n, [Vk(code)], Start).selected == []
  {
    assert [Vk(code)][1..] == [];
  }

  class ManualController {
    const isSticky: bool
    const table: LinkTable
    /** The module-level `current_keys`. */
    const held: HeldKeys

    /** The controller over the registered links, in increasing id order;
        the two dictionaries start empty. */
    constructor (registered: set<int>, sticky: bool, wire: Wire, held: HeldKeys)
      ensures isSticky == sticky && fresh(table) && table.wire == wire && this.held == held
      ensures StrictlyIncreasing(table.linkIds) && forall id :: id in table.linkIds <==> id in registered
      ensures table.linkStates == [] && table.pretty == map[]
    {
      isSticky := sticky;
      var ids := SortedKeys(registered);
      table := new LinkTable(ids, wire);
      this.held := held;
    }

    /** `_command_parse()`, walking the held keys in the order `order`
        (the set's iteration order). */
    method CommandParse(order: seq<Key>) returns (ok: bool)
      requires forall k :: k in order <==> k in held.keys
      modifies table`linkStates, table`pretty, table.wire
      ensures var s := ScanFrom(ReprText, |table.linkIds|, order, Start);
        table.linkStates == if Acts(s) && isSticky then StoreAll(old(table.linkStates), Sorted(s.selected), Finish(s))
                            else old(table.linkStates)
      ensures var s := ScanFrom(ReprText, |table.linkIds|, order, Start);
        table.pretty == Dispatch(table.linkIds, old(table.linkStates), old(table.pretty), s, isSticky).0
      ensures var s := ScanFrom(ReprText, |table.linkIds|, order, Start);
        table.wire.sent == old(table.wire.sent) + Dispatch(table.linkIds, old(table.linkStates), old(table.pretty), s, isSticky).1
      ensures var s := ScanFrom(ReprText, |table.linkIds|, order, Start);
        ok == Dispatch(table.linkIds, old(table.linkStates), old(table.pretty), s, isSticky).2
    {
      var s := ScanKeys(ReprText, |table.linkIds|, order);
      ok := table.Apply(s, isSticky);
    }
  }
}
