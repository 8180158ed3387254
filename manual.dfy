/** What the keyboard controllers of the robot share: the keys the listener
    reports, the scan that turns the held keys into a request, the table
    that turns a request into servo targets, the sticky table of per-link
    requests with the remembered target pairs, and the set of held keys.

    A request is the triple `(state, mode, param)` of the controllers:
    state 1 asks for motion, mode 1 expands and mode 0 contracts, and param
    picks servo 0, servo 1 or both (2).  Every `send_position_only` call is
    appended to the log of a `Wire`. */
module Manual {
  import opened Common

  const MaxPos: int := 100
  const MinPos: int := 22

  /** The log of position commands sent to the links, in order. */
  class Wire {
    var sent: seq<Command>

    constructor ()
      ensures sent == []
    {
      sent := [];
    }

    /** `link.send_position_only(srv0, srv1)`. */
    method Send(link: int, srv0: int, srv1: int)
      modifies this
      ensures sent == old(sent) + [PositionOnly(link, srv0, srv1)]
    {
      sent := sent + [PositionOnly(link, srv0, srv1)];
    }
  }

  /** A key as the keyboard listener reports it: a key code with a
      character, a key code that has only a virtual key number, one of the
      four arrow keys, or any other named key. */
  datatype Key = Char(c: char) | Vk(code: nat) | Up | Down | Left | Right | Named(name: nat)

  /** How a controller reads a key code.  The v3 and v4 controllers read
      `k.char`; manual_controller2 and the picking-up script read the text
      between the first and last character of `str(k)`, which for a key
      code without a character is its virtual key number; the picking-up
      script also acts on 't' and 'b'; sticky_controller reads that text as
      an integer and nothing else. */
  datatype Dialect = CharText | ReprText | Picking | BareNumber

  /** The gaits the picking-up script starts from the key scan. */
  datatype Gait = ToppleAll | ToppleOntoLink

  /** A request `(state, mode, param)`. */
  datatype Request = Request(state: int, mode: int, param: int)

  /** The variables `_command_parse` updates while it walks the keys. */
  datatype Scan = Scan(selected: seq<int>, state: int, mode: int, param: int,
                       left: bool, right: bool, gaits: seq<Gait>)

  /** The values those variables start from. */
  const Start: Scan := Scan([], 0, -1, -1, false, false, [])

  /** The value of an ASCII decimal digit. */
  function DigitOf(c: char): (r: Option<nat>)
    ensures r.Some? <==> '0' <= c <= '9'
    ensures r.Some? ==> r.value < 10 && r.value == (c as int) - ('0' as int)
  {
    if '0' <= c <= '9' then Some((c as int) - ('0' as int)) else None
  }

  /** The link index a key code adds to the selection, if any: a digit k
      selects index k - 1, except in sticky_controller, which takes the
      number itself. */
  function SelectedBy(d: Dialect, k: Key): (r: Option<int>)
    ensures r.Some? ==> k.Char? || (k.Vk? && d != CharText)
    ensures k.Char? ==> (r.Some? <==> DigitOf(k.c).Some?)
    ensures k.Char? && r.Some? ==> r.value == DigitOf(k.c).value - (if d == BareNumber then 0 else 1)
    ensures k.Vk? && d != CharText ==> r == Some(k.code - (if d == BareNumber then 0 else 1))
  {
    match k
    case Char(c) =>
      (match DigitOf(c)
       case None => None
       case Some(v) => Some(if d == BareNumber then v else v - 1))
    case Vk(code) => if d == CharText then None else Some(if d == BareNumber then code else code - 1)
    case _ => None
  }

  /** The indices `0 .. n-1`, which '+' and '-' select. */
  function AllIndices(n: nat): (r: seq<int>)
    ensures |r| == n && forall i | 0 <= i < n :: r[i] == i
    ensures forall i | 0 <= i < n :: i in r
  {
    var r := seq(n, i => i);
    assert forall i | 0 <= i < n :: r[i] == i;
    forall i | 0 <= i < n ensures i in r { assert r[i] == i; }
    r
  }

  /** One turn of the key loop of `_command_parse`. */
  function ScanKey(d: Dialect, n: nat, s: Scan, k: Key): Scan {
    var s1 := match SelectedBy(d, k)
              case Some(v) => s.(selected := s.selected + [v])
              case None => s;
    match k
    case Char(c) =>
      if d != BareNumber && c == '-' then s1.(selected := AllIndices(n), state := 1, mode := 0, param := 2)
      else if d != BareNumber && c == '+' then s1.(selected := AllIndices(n), state := 1, mode := 1, param := 2)
      else if d == Picking && c == 't' then s1.(state := 0, gaits := s1.gaits + [ToppleAll])
      else if d == Picking && c == 'b' then s1.(gaits := s1.gaits + [ToppleOntoLink])
      else s1
    case Vk(_) => s1
    case Up => s.(state := 1, mode := 1)
    case Down => s.(state := 1, mode := 0)
    case Left => s.(left := true)
    case Right => s.(right := true)
    case Named(_) => s
  }

  /** The key loop from scan state `s` over `keys`, in iteration order. */
  function ScanFrom(d: Dialect, n: nat, keys: seq<Key>, s: Scan): Scan
    decreases |keys|
  {
    if |keys| == 0 then s else ScanFrom(d, n, keys[1..], ScanKey(d, n, s, keys[0]))
  }

  /** The key loop of `_command_parse` (the held keys are walked in the
      order the set yields them; that order is the sequence `keys`). */
  method ScanKeys(d: Dialect, n: nat, keys: seq<Key>) returns (s: Scan)
    ensures s == ScanFrom(d, n, keys, Start)
  {
    s := Start;
    var i := 0;
    while i < |keys|
      invariant 0 <= i <= |keys|
      invariant ScanFrom(d, n, keys[i..], s) == ScanFrom(d, n, keys, Start)
    {
      assert keys[i..][1..] == keys[i + 1..];
      s := ScanKey(d, n, s, keys[i]);
      i := i + 1;
    }
  }

  /** The arrow flags record whether each arrow key is among the keys,
      wherever it comes in the order. */
  lemma {:induction false} ScanArrows(d: Dialect, n: nat, keys: seq<Key>, s: Scan)
    ensures ScanFrom(d, n, keys, s).left <==> s.left || Left in keys
    ensures ScanFrom(d, n, keys, s).right <==> s.right || Right in keys
    decreases |keys|
  {
    if |keys| > 0 {
      ScanArrows(d, n, keys[1..], ScanKey(d, n, s, keys[0]));
      assert forall k :: k in keys <==> k == keys[0] || k in keys[1..];
    }
  }

  /** Keys with no arrow up or down and no '+' or '-' (which
      sticky_controller ignores) leave the mode as it was: from the start it stays -1, so the command is invalid. */
  lemma {:induction false} ModeNeedsModeKey(d: Dialect, n: nat, keys: seq<Key>, s: Scan)
    requires forall k | k in keys :: k != Up && k != Down && (d == BareNumber || (k != Char('+') && k != Char('-')))
    ensures ScanFrom(d, n, keys, s).mode == s.mode
    decreases |keys|
  {
    if |keys| > 0 {
      assert keys[0] in keys && forall k | k in keys[1..] :: k in keys;
      ModeNeedsModeKey(d, n, keys[1..], ScanKey(d, n, s, keys[0]));
    }
  }

  /** The index a single key code selects, as a list of at most one. */
  function Picked(d: Dialect, k: Key): (r: seq<int>)
    ensures |r| <= 1
  {
    match SelectedBy(d, k) case Some(v) => [v] case None => []
  }

  /** The indices the key codes among `keys` select, in key order. */
  function Digits(d: Dialect, keys: seq<Key>): (r: seq<int>)
    ensures |r| <= |keys|
    decreases |keys|
  {
    if |keys| == 0 then [] else Picked(d, keys[0]) + Digits(d, keys[1..])
  }

  /** One key other than '+' and '-' only appends what it picks. */
  lemma ScanKeySelection(d: Dialect, n: nat, s: Scan, k: Key)
    requires d == BareNumber || (k != Char('+') && k != Char('-'))
    ensures ScanKey(d, n, s, k).selected == s.selected + Picked(d, k)
  {
    assert s.selected + [] == s.selected;
  }

  /** Without '+' or '-' (or in sticky_controller, which ignores them) the
      selection is the indices of the digit keys, in key order. */
  lemma {:induction false} SelectionIsDigits(d: Dialect, n: nat, keys: seq<Key>, s: Scan)
    requires d == BareNumber || forall k | k in keys :: k != Char('+') && k != Char('-')
    ensures ScanFrom(d, n, keys, s).selected == s.selected + Digits(d, keys)
    decreases |keys|
  {
    if |keys| > 0 {
      assert keys[0] in keys && forall k | k in keys[1..] :: k in keys;
      ScanKeySelection(d, n, s, keys[0]);
      SelectionIsDigits(d, n, keys[1..], ScanKey(d, n, s, keys[0]));
      var v := Picked(d, keys[0]);
      assert s.selected + v + Digits(d, keys[1..]) == s.selected + (v + Digits(d, keys[1..]));
    }
  }

  /** A key that can take back an expand-all ('+') or contract-all ('-')
      request: the opposite arrow or sign, or 't' in the picking-up script,
      which clears the state. */
  predicate Undoes(d: Dialect, expand: bool, k: Key) {
    || (expand && (k == Down || k == Char('-')))
    || (!expand && (k == Up || k == Char('+')))
    || (d == Picking && k == Char('t'))
  }

  /** An expand-all or contract-all request in force: state 1, the mode,
      both servos, and every index selected. */
  predicate AllRequested(n: nat, s: Scan, expand: bool) {
    && s.state == 1 && s.mode == (if expand then 1 else 0) && s.param == 2
    && forall i | 0 <= i < n :: i in s.selected
  }

  lemma ScanKeyKeepsAll(d: Dialect, n: nat, s: Scan, k: Key, expand: bool)
    requires d != BareNumber && AllRequested(n, s, expand) && !Undoes(d, expand, k)
    ensures AllRequested(n, ScanKey(d, n, s, k), expand)
  {
    var s1 := match SelectedBy(d, k)
              case Some(v) => s.(selected := s.selected + [v])
              case None => s;
    assert forall x | x in s.selected :: x in s1.selected;
    var s' := ScanKey(d, n, s, k);
    assert s'.selected == s1.selected || s'.selected == s.selected || s'.selected == AllIndices(n);
  }

  lemma {:induction false} AllRequestedKept(d: Dialect, n: nat, keys: seq<Key>, s: Scan, expand: bool)
    requires d != BareNumber && AllRequested(n, s, expand)
    requires forall k | k in keys :: !Undoes(d, expand, k)
    ensures AllRequested(n, ScanFrom(d, n, keys, s), expand)
    decreases |keys|
  {
    if |keys| > 0 {
      ScanKeyKeepsAll(d, n, s, keys[0], expand);
      AllRequestedKept(d, n, keys[1..], ScanKey(d, n, s, keys[0]), expand);
    }
  }

  lemma {:induction false} SignKeyRequestsAll(d: Dialect, n: nat, keys: seq<Key>, s: Scan, expand: bool)
    requires d != BareNumber
    requires Char(if expand then '+' else '-') in keys
    requires forall k | k in keys :: !Undoes(d, expand, k)
    ensures AllRequested(n, ScanFrom(d, n, keys, s), expand)
    decreases |keys|
  {
    var s' := ScanKey(d, n, s, keys[0]);
    if keys[0] == Char(if expand then '+' else '-') {
      assert AllRequested(n, s', expand);
      AllRequestedKept(d, n, keys[1..], s', expand);
    } else {
      SignKeyRequestsAll(d, n, keys[1..], s', expand);
    }
  }

  /** Holding '+' (or '-') selects every link with mode expand (contract),
      whatever order the held keys come in, unless the opposite arrow or
      sign is held too: the command is valid when there are links, and its
      servo choice is both servos unless an arrow key narrows it. */
  lemma SignKeySelectsAll(d: Dialect, n: nat, keys: seq<Key>, expand: bool)
    requires d != BareNumber
    requires Char(if expand then '+' else '-') in keys
    requires forall k | k in keys :: !Undoes(d, expand, k)
    ensures var s := ScanFrom(d, n, keys, Start);
      && (forall i | 0 <= i < n :: i in s.selected)
      && (n > 0 ==> Acts(s))
      && Finish(s) == Request(1, if expand then 1 else 0, ParamOf(Left in keys, Right in keys, 2))
  {
    SignKeyRequestsAll(d, n, keys, Start, expand);
    ScanArrows(d, n, keys, Start);
    var s := ScanFrom(d, n, keys, Start);
    if n > 0 {
      assert 0 in s.selected;
    }
  }

  /** The servo choice after the key loop: both arrows pick both servos,
      left alone servo 0, right alone servo 1; with neither the value from
      the loop stays. */
  function ParamOf(left: bool, right: bool, param: int): (r: int)
    ensures !left && !right ==> r == param
    ensures left || right ==>
              && (r == 0 || r == 1 || r == 2)
              && (r == 0 || r == 2 <==> left)
              && (r == 1 || r == 2 <==> right)
  {
    if left && right then 2 else if left then 0 else if right then 1 else param
  }

  /** The request a scan ends with. */
  function Finish(s: Scan): Request {
    Request(s.state, s.mode, ParamOf(s.left, s.right, s.param))
  }

  /** A scan asks for motion: state set, some link selected, a mode given.
      Anything else is the "invalid command" of the controllers. */
  predicate Acts(s: Scan) {
    s.state != 0 && |s.selected| > 0 && s.mode != -1
  }

  /** `state_to_pos_command`: the targets a request sets, `None` leaving a
      servo where it is.  Expanding drives a chosen servo to 100;
      contracting drives servo 0 to `srv0Min` and servo 1 to `srv1Min`; any
      other mode or servo choice sets nothing. */
  function StateToPos(r: Request, srv0Min: int, srv1Min: int): (t: (Option<int>, Option<int>))
    ensures t.0.Some? <==> (r.mode == 0 || r.mode == 1) && (r.param == 0 || r.param == 2)
    ensures t.1.Some? <==> (r.mode == 0 || r.mode == 1) && (r.param == 1 || r.param == 2)
    ensures t.0.Some? ==> t.0.value == if r.mode == 1 then MaxPos else srv0Min
    ensures t.1.Some? ==> t.1.value == if r.mode == 1 then MaxPos else srv1Min
  {
    if r.mode == 1 then
      if r.param == 0 then (Some(MaxPos), None)
      else if r.param == 1 then (None, Some(MaxPos))
      else if r.param == 2 then (Some(MaxPos), Some(MaxPos))
      else (None, None)
    else if r.mode == 0 then
      if r.param == 0 then (Some(srv0Min), None)
      else if r.param == 1 then (None, Some(srv1Min))
      else if r.param == 2 then (Some(srv0Min), Some(srv1Min))
      else (None, None)
    else (None, None)
  }

  /** Targets completed from the pair remembered for link `id`, or from
      `dflt` for a link with nothing remembered. */
  function Fill(pretty: map<int, (int, int)>, id: int, t: (Option<int>, Option<int>), dflt: int): (p: (int, int))
  {
    var cur := if id in pretty then pretty[id] else (dflt, dflt);
    (if t.0.Some? then t.0.value else cur.0, if t.1.Some? then t.1.value else cur.1)
  }

  /** What `_set_link_pos(idx, srv0, srv1)` does, from remembered pairs
      `pretty`: the remembered pairs afterwards, the commands sent, and
      whether every index was valid (an index outside the link list raises
      before anything is done for it).  With `carry` the filled pair
      replaces the targets for the following indices, as in the v3,
      manual_controller2 and picking-up controllers; without it every index
      starts from the same targets, as in v4. */
  function SetPos(ids: seq<int>, pretty: map<int, (int, int)>, idx: seq<int>,
                  t: (Option<int>, Option<int>), carry: bool): (r: (map<int, (int, int)>, seq<Command>, bool))
    ensures |r.1| <= |idx|
    ensures r.2 <==> |r.1| == |idx|
    decreases |idx|
  {
    if |idx| == 0 then (pretty, [], true)
    else match PyIndex(idx[0], |ids|)
      case None => (pretty, [], false)
      case Some(j) =>
        var p := Fill(pretty, ids[j], t, MinPos);
        var rest := SetPos(ids, pretty[ids[j] := p], idx[1..], if carry then (Some(p.0), Some(p.1)) else t, carry);
        (rest.0, [PositionOnly(ids[j], p.0, p.1)] + rest.1, rest.2)
  }

  /** The remembered pairs after sending `sends`: each link remembers the
      last pair sent to it. */
  function Remember(pretty: map<int, (int, int)>, sends: seq<Command>): map<int, (int, int)>
    decreases |sends|
  {
    if |sends| == 0 then pretty
    else Remember(pretty[sends[0].link := (sends[0].srv0Pos, sends[0].srv1Pos)], sends[1..])
  }

  /** The links addressed by a list of commands. */
  function LinksOf(sends: seq<Command>): (r: set<int>)
    ensures forall c | c in sends :: c.link in r
    ensures forall l | l in r :: exists c | c in sends :: c.link == l
  {
    set c | c in sends :: c.link
  }

  /** `sends` addresses the links at the indices `idx`, in order, and when
      it is shorter than `idx` the index after the last one sent is outside
      the link list. */
  predicate Addresses(ids: seq<int>, idx: seq<int>, sends: seq<Command>, ok: bool) {
    && |sends| <= |idx|
    && (forall k | 0 <= k < |sends| :: PyIndex(idx[k], |ids|).Some?
                                      && sends[k].link == ids[PyIndex(idx[k], |ids|).value])
    && (!ok ==> |sends| < |idx| && PyIndex(idx[|sends|], |ids|).None?)
  }

  /** `_set_link_pos` addresses the links at the given indices, in order,
      up to the first index outside the list, where it stops. */
  lemma {:induction false} SetPosAddresses(ids: seq<int>, pretty: map<int, (int, int)>, idx: seq<int>,
                                           t: (Option<int>, Option<int>), carry: bool)
    ensures Addresses(ids, idx, SetPos(ids, pretty, idx, t, carry).1, SetPos(ids, pretty, idx, t, carry).2)
    decreases |idx|
  {
    if |idx| > 0 {
      match PyIndex(idx[0], |ids|)
      case None =>
      case Some(j) =>
        var p := Fill(pretty, ids[j], t, MinPos);
        var t' := if carry then (Some(p.0), Some(p.1)) else t;
        SetPosAddresses(ids, pretty[ids[j] := p], idx[1..], t', carry);
        var rest := SetPos(ids, pretty[ids[j] := p], idx[1..], t', carry);
        var r := SetPos(ids, pretty, idx, t, carry);
        assert r.1 == [PositionOnly(ids[j], p.0, p.1)] + rest.1;
        forall k | 0 <= k < |r.1|
          ensures PyIndex(idx[k], |ids|).Some? && r.1[k].link == ids[PyIndex(idx[k], |ids|).value]
        {
          if k > 0 {
            assert r.1[k] == rest.1[k - 1] && idx[k] == idx[1..][k - 1];
          }
        }
        if !r.2 {
          assert idx[|r.1|] == idx[1..][|rest.1|];
        }
    }
  }

  /** The remembered pairs afterwards are the old ones updated with every
      pair sent: an entry changes exactly for the links commanded. */
  lemma {:induction false} SetPosRemembers(ids: seq<int>, pretty: map<int, (int, int)>, idx: seq<int>,
                                           t: (Option<int>, Option<int>), carry: bool)
    ensures SetPos(ids, pretty, idx, t, carry).0 == Remember(pretty, SetPos(ids, pretty, idx, t, carry).1)
    decreases |idx|
  {
    if |idx| > 0 {
      match PyIndex(idx[0], |ids|)
      case None =>
      case Some(j) =>
        var p := Fill(pretty, ids[j], t, MinPos);
        var t' := if carry then (Some(p.0), Some(p.1)) else t;
        SetPosRemembers(ids, pretty[ids[j] := p], idx[1..], t', carry);
        var rest := SetPos(ids, pretty[ids[j] := p], idx[1..], t', carry);
        var sends := [PositionOnly(ids[j], p.0, p.1)] + rest.1;
        assert sends[1..] == rest.1;
    }
  }

  /** Remembering leaves the entry of a link that was not commanded as it
      was, and gives a commanded link an entry. */
  lemma {:induction false} RememberOnlyTouchesSent(pretty: map<int, (int, int)>, sends: seq<Command>, id: int)
    ensures id !in LinksOf(sends) ==> (id in Remember(pretty, sends) <==> id in pretty)
    ensures id !in LinksOf(sends) && id in pretty ==> Remember(pretty, sends)[id] == pretty[id]
    ensures id in LinksOf(sends) ==> id in Remember(pretty, sends)
    decreases |sends|
  {
    if |sends| > 0 {
      var p' := pretty[sends[0].link := (sends[0].srv0Pos, sends[0].srv1Pos)];
      RememberOnlyTouchesSent(p', sends[1..], id);
      assert LinksOf(sends) == {sends[0].link} + LinksOf(sends[1..]) by {
        assert forall c | c in sends :: c == sends[0] || c in sends[1..];
      }
    }
  }

  /** Every command in `sends` carries the pair `(a, b)`. */
  predicate AllSend(sends: seq<Command>, a: int, b: int) {
    forall k | 0 <= k < |sends| :: sends[k].srv0Pos == a && sends[k].srv1Pos == b
  }

  /** With both targets set, every command sent carries that pair. */
  lemma {:induction false} CarriedPairEverywhere(ids: seq<int>, pretty: map<int, (int, int)>, idx: seq<int>, a: int, b: int)
    ensures AllSend(SetPos(ids, pretty, idx, (Some(a), Some(b)), true).1, a, b)
    decreases |idx|
  {
    if |idx| > 0 {
      match PyIndex(idx[0], |ids|)
      case None =>
      case Some(j) =>
        assert Fill(pretty, ids[j], (Some(a), Some(b)), MinPos) == (a, b);
        CarriedPairEverywhere(ids, pretty[ids[j] := (a, b)], idx[1..], a, b);
    }
  }

  /** In the v3, manual_controller2 and picking-up controllers the first
      link's completed pair is sent to every later link as well: its `None`
      targets are filled from the first link's remembered pair (22 when
      none), and that pair replaces the targets for the rest. */
  lemma FirstPairReused(ids: seq<int>, pretty: map<int, (int, int)>, idx: seq<int>, t: (Option<int>, Option<int>))
    requires |idx| > 0 && PyIndex(idx[0], |ids|).Some?
    ensures |SetPos(ids, pretty, idx, t, true).1| > 0
    ensures AllSend(SetPos(ids, pretty, idx, t, true).1,
                    Fill(pretty, ids[PyIndex(idx[0], |ids|).value], t, MinPos).0,
                    Fill(pretty, ids[PyIndex(idx[0], |ids|).value], t, MinPos).1)
  {
    var j := PyIndex(idx[0], |ids|).value;
    var p := Fill(pretty, ids[j], t, MinPos);
    CarriedPairEverywhere(ids, pretty[ids[j] := p], idx[1..], p.0, p.1);
  }

  /** Filling from a pair that was itself filled with the same targets
      changes nothing. */
  lemma FillAgain(pretty: map<int, (int, int)>, id: int, t: (Option<int>, Option<int>), dflt: int, other: int)
    ensures Fill(pretty[id := Fill(pretty, id, t, dflt)], other, t, dflt) == Fill(pretty, other, t, dflt)
  {
  }

  /** Every command in `sends` carries the targets `t` completed from the
      pair `pretty` remembers for its own link. */
  predicate OwnPairs(sends: seq<Command>, pretty: map<int, (int, int)>, t: (Option<int>, Option<int>)) {
    forall k | 0 <= k < |sends| :: (sends[k].srv0Pos, sends[k].srv1Pos) == Fill(pretty, sends[k].link, t, MinPos)
  }

  /** In the v4 controller links do not influence each other: every link
      receives the targets with its own remembered pair (22, 22 when none)
      filling the servos left `None`, even when it is listed twice. */
  lemma {:induction false} OwnPairPerLink(ids: seq<int>, pretty: map<int, (int, int)>, idx: seq<int>, t: (Option<int>, Option<int>))
    ensures OwnPairs(SetPos(ids, pretty, idx, t, false).1, pretty, t)
    decreases |idx|
  {
    if |idx| > 0 {
      match PyIndex(idx[0], |ids|)
      case None =>
      case Some(j) =>
        var p := Fill(pretty, ids[j], t, MinPos);
        OwnPairPerLink(ids, pretty[ids[j] := p], idx[1..], t);
        forall other: int {
          FillAgain(pretty, ids[j], t, MinPos, other);
        }
    }
  }

  // ---------------------------------------------------------------------
  // The sticky table: `link_states`, a dictionary from selected index to
  // request, kept in insertion order as a list of pairs.

  type States = seq<(int, Request)>

  /** The keys of the table, in insertion order. */
  function Keys(st: States): (r: seq<int>)
    ensures |r| == |st| && forall i | 0 <= i < |st| :: r[i] == st[i].0
  {
    if |st| == 0 then [] else [st[0].0] + Keys(st[1..])
  }

  /** The request stored for index `l`. */
  function Lookup(st: States, l: int): (r: Option<Request>)
    ensures r.Some? <==> l in Keys(st)
  {
    if |st| == 0 then None else if st[0].0 == l then Some(st[0].1) else Lookup(st[1..], l)
  }

  predicate DistinctKeys(st: States) {
    forall i, j | 0 <= i < j < |st| :: st[i].0 != st[j].0
  }

  /** `link_states[l] = r`: an existing key keeps its place, a new key goes
      last. */
  function Store(st: States, l: int, r: Request): States
    decreases |st|
  {
    if |st| == 0 then [(l, r)]
    else if st[0].0 == l then [(l, r)] + st[1..]
    else [st[0]] + Store(st[1..], l, r)
  }

  /** After storing, `l` finds the new request and every other key what it
      found before; the keys keep their order, a new key added last. */
  lemma {:induction false} StoreMeaning(st: States, l: int, r: Request, m: int)
    ensures Lookup(Store(st, l, r), m) == if m == l then Some(r) else Lookup(st, m)
    ensures Keys(Store(st, l, r)) == if l in Keys(st) then Keys(st) else Keys(st) + [l]
    decreases |st|
  {
    if |st| > 0 && st[0].0 != l {
      StoreMeaning(st[1..], l, r, m);
      assert Keys(st) == [st[0].0] + Keys(st[1..]);
    }
  }

  lemma StoreKeepsDistinct(st: States, l: int, r: Request)
    requires DistinctKeys(st)
    ensures DistinctKeys(Store(st, l, r))
  {
    StoreMeaning(st, l, r, l);
    var st' := Store(st, l, r);
    assert Keys(st') == if l in Keys(st) then Keys(st) else Keys(st) + [l];
    forall i, j | 0 <= i < j < |st'| ensures st'[i].0 != st'[j].0 {
      assert Keys(st')[i] == st'[i].0 && Keys(st')[j] == st'[j].0;
    }
  }

  /** The loop that stores the request for every selected index. */
  function StoreAll(st: States, ls: seq<int>, r: Request): States
    decreases |ls|
  {
    if |ls| == 0 then st else StoreAll(Store(st, ls[0], r), ls[1..], r)
  }

  /** After the store loop the selected indices find the request and every
      other index what it found before. */
  lemma {:induction false} StoreAllMeaning(st: States, ls: seq<int>, r: Request, m: int)
    ensures Lookup(StoreAll(st, ls, r), m) == if m in ls then Some(r) else Lookup(st, m)
    decreases |ls|
  {
    if |ls| > 0 {
      StoreAllMeaning(Store(st, ls[0], r), ls[1..], r, m);
      StoreMeaning(st, ls[0], r, m);
      assert m in ls <==> m == ls[0] || m in ls[1..];
    }
  }

  lemma {:induction false} StoreAllKeepsDistinct(st: States, ls: seq<int>, r: Request)
    requires DistinctKeys(st)
    ensures DistinctKeys(StoreAll(st, ls, r))
    decreases |ls|
  {
    if |ls| > 0 {
      StoreKeepsDistinct(st, ls[0], r);
      StoreAllKeepsDistinct(Store(st, ls[0], r), ls[1..], r);
    }
  }

  /** `_execute_sticky_states` of the v3, manual_controller2 and picking-up
      controllers: every stored request is executed for its index alone,
      in insertion order, until an index raises. */
  function Replay(ids: seq<int>, pretty: map<int, (int, int)>, st: States): (r: (map<int, (int, int)>, seq<Command>, bool))
    decreases |st|
  {
    if |st| == 0 then (pretty, [], true)
    else
      var one := SetPos(ids, pretty, [st[0].0], StateToPos(st[0].1, MinPos, MinPos), true);
      if !one.2 then one
      else
        var rest := Replay(ids, one.0, st[1..]);
        (rest.0, one.1 + rest.1, rest.2)
  }

  /** The link an index addresses. */
  function LinkAt(ids: seq<int>, l: int): int
    requires PyIndex(l, |ids|).Some?
  {
    ids[PyIndex(l, |ids|).value]
  }

  /** `_set_link_pos` on a single valid index: that link gets the targets
      completed from its own remembered pair. */
  lemma SetPosOne(ids: seq<int>, pretty: map<int, (int, int)>, l: int, t: (Option<int>, Option<int>))
    requires PyIndex(l, |ids|).Some?
    ensures SetPos(ids, pretty, [l], t, true)
            == (pretty[LinkAt(ids, l) := Fill(pretty, LinkAt(ids, l), t, MinPos)],
                [PositionOnly(LinkAt(ids, l), Fill(pretty, LinkAt(ids, l), t, MinPos).0,
                              Fill(pretty, LinkAt(ids, l), t, MinPos).1)],
                true)
  {
    var id := LinkAt(ids, l);
    var p := Fill(pretty, id, t, MinPos);
    assert [l][0] == l && [l][1..] == [];
    var rest := SetPos(ids, pretty[id := p], [], (Some(p.0), Some(p.1)), true);
    assert rest == (pretty[id := p], [], true);
    assert [PositionOnly(id, p.0, p.1)] + rest.1 == [PositionOnly(id, p.0, p.1)];
  }

  /** Every stored index is valid and no two address the same link. */
  predicate DistinctLinks(ids: seq<int>, st: States) {
    && (forall k | 0 <= k < |st| :: PyIndex(st[k].0, |ids|).Some?)
    && (forall i, j | 0 <= i < j < |st| :: LinkAt(ids, st[i].0) != LinkAt(ids, st[j].0))
  }

  /** A replay leaves the remembered pair of a link no stored index
      addresses as it was. */
  lemma {:induction false} ReplayKeepsOthers(ids: seq<int>, pretty: map<int, (int, int)>, st: States, id: int)
    requires forall k | 0 <= k < |st| :: PyIndex(st[k].0, |ids|).Some? && LinkAt(ids, st[k].0) != id
    ensures id in Replay(ids, pretty, st).0 <==> id in pretty
    ensures id in pretty ==> Replay(ids, pretty, st).0[id] == pretty[id]
    decreases |st|
  {
    if |st| > 0 {
      var t := StateToPos(st[0].1, MinPos, MinPos);
      var here := LinkAt(ids, st[0].0);
      SetPosOne(ids, pretty, st[0].0, t);
      ReplayKeepsOthers(ids, pretty[here := Fill(pretty, here, t, MinPos)], st[1..], id);
    }
  }

  /** In sticky mode a tick with no valid command replays the table; when
      the stored indices address different links, replaying a second time
      remembers the same pairs and sends the same commands as the first
      time: the links are held at what was last asked for. */
  lemma {:induction false} ReplayAgain(ids: seq<int>, pretty: map<int, (int, int)>, st: States)
    requires DistinctLinks(ids, st)
    ensures Replay(ids, Replay(ids, pretty, st).0, st) == Replay(ids, pretty, st)
    decreases |st|
  {
    if |st| > 0 {
      var l := st[0].0;
      var id := LinkAt(ids, l);
      var t := StateToPos(st[0].1, MinPos, MinPos);
      var p := Fill(pretty, id, t, MinPos);
      SetPosOne(ids, pretty, l, t);
      var rest := st[1..];
      assert DistinctLinks(ids, rest) by {
        forall i, j | 0 <= i < j < |rest| ensures LinkAt(ids, rest[i].0) != LinkAt(ids, rest[j].0) {
          assert rest[i] == st[i + 1] && rest[j] == st[j + 1];
        }
      }
      var w := Replay(ids, pretty[id := p], rest);
      ReplayAgain(ids, pretty[id := p], rest);
      assert forall k | 0 <= k < |rest| :: PyIndex(rest[k].0, |ids|).Some? && LinkAt(ids, rest[k].0) != id by {
        forall k | 0 <= k < |rest| ensures PyIndex(rest[k].0, |ids|).Some? && LinkAt(ids, rest[k].0) != id {
          assert rest[k] == st[k + 1];
        }
      }
      ReplayKeepsOthers(ids, pretty[id := p], rest, id);
      SetPosOne(ids, w.0, l, t);
      FillAgain(pretty, id, t, MinPos, id);
      assert w.0[id := p] == w.0;
    }
  }

  /** A valid sticky command stores its request for each selected index
      (the selection after sorting holds the same indices) and leaves the
      request of every other index as it was. */
  lemma StickyCommandStores(st: States, s: Scan, m: int)
    ensures Lookup(StoreAll(st, Sorted(s.selected), Finish(s)), m)
            == if m in s.selected then Some(Finish(s)) else Lookup(st, m)
  {
    StoreAllMeaning(st, Sorted(s.selected), Finish(s), m);
    assert m in Sorted(s.selected) <==> m in multiset(Sorted(s.selected));
    assert m in s.selected <==> m in multiset(s.selected);
  }

  /** What the end of `_command_parse` in the v3, manual_controller2 and
      picking-up controllers does with a finished scan: an invalid command
      replays the sticky table in sticky mode and does nothing otherwise;
      a valid one sorts the selection and either stores the request for it
      and replays the table, or executes it on the selection at once. */
  function Dispatch(ids: seq<int>, st: States, pretty: map<int, (int, int)>, s: Scan, sticky: bool)
    : (r: (map<int, (int, int)>, seq<Command>, bool))
  {
    if !Acts(s) then (if sticky then Replay(ids, pretty, st) else (pretty, [], true))
    else if sticky then Replay(ids, pretty, StoreAll(st, Sorted(s.selected), Finish(s)))
    else SetPos(ids, pretty, Sorted(s.selected), StateToPos(Finish(s), MinPos, MinPos), true)
  }

  /** The sticky table (`link_states`), the remembered pairs
      (`link_states_pretty`) and the links of a v3, v4, manual_controller2
      or picking-up controller. */
  class LinkTable {
    const linkIds: seq<int>
    const wire: Wire
    var linkStates: States
    var pretty: map<int, (int, int)>

    constructor (linkIds: seq<int>, wire: Wire)
      ensures this.linkIds == linkIds && this.wire == wire
      ensures linkStates == [] && pretty == map[]
    {
      this.linkIds := linkIds;
      this.wire := wire;
      linkStates := [];
      pretty := map[];
    }

    /** The two dictionaries emptied, as `reset` does. */
    method Clear()
      modifies this`linkStates, this`pretty
      ensures linkStates == [] && pretty == map[]
    {
      linkStates := [];
      pretty := map[];
    }

    /** `_set_link_pos(idx, srv0, srv1)`. */
    method SetLinkPos(idx: seq<int>, t: (Option<int>, Option<int>), carry: bool) returns (ok: bool)
      modifies this`pretty, wire
      ensures pretty == SetPos(linkIds, old(pretty), idx, t, carry).0
      ensures wire.sent == old(wire.sent) + SetPos(linkIds, old(pretty), idx, t, carry).1
      ensures ok == SetPos(linkIds, old(pretty), idx, t, carry).2
    {
      ghost var whole := SetPos(linkIds, pretty, idx, t, carry);
      var cur := t;
      var i := 0;
      while i < |idx|
        invariant 0 <= i <= |idx|
        invariant SetPos(linkIds, pretty, idx[i..], cur, carry).0 == whole.0
        invariant wire.sent + SetPos(linkIds, pretty, idx[i..], cur, carry).1 == old(wire.sent) + whole.1
        invariant SetPos(linkIds, pretty, idx[i..], cur, carry).2 == whole.2
      {
        assert idx[i..][0] == idx[i] && idx[i..][1..] == idx[i + 1..];
        var j := PyIndex(idx[i], |linkIds|);
        if j.None? {
          return false;
        }
        var id := linkIds[j.value];
        var p := Fill(pretty, id, cur, MinPos);
        ghost var rest := SetPos(linkIds, pretty[id := p], idx[i + 1..],
                                 if carry then (Some(p.0), Some(p.1)) else cur, carry);
        assert wire.sent + SetPos(linkIds, pretty, idx[i..], cur, carry).1
               == wire.sent + [PositionOnly(id, p.0, p.1)] + rest.1;
        pretty := pretty[id := p];
        wire.Send(id, p.0, p.1);
        if carry {
          cur := (Some(p.0), Some(p.1));
        }
        i := i + 1;
      }
      return true;
    }

    /** `_execute_state(idx, request)` of the v3, manual_controller2 and
        picking-up controllers. */
    method ExecuteState(idx: seq<int>, r: Request) returns (ok: bool)
      modifies this`pretty, wire
      ensures pretty == SetPos(linkIds, old(pretty), idx, StateToPos(r, MinPos, MinPos), true).0
      ensures wire.sent == old(wire.sent) + SetPos(linkIds, old(pretty), idx, StateToPos(r, MinPos, MinPos), true).1
      ensures ok == SetPos(linkIds, old(pretty), idx, StateToPos(r, MinPos, MinPos), true).2
    {
      ok := SetLinkPos(idx, StateToPos(r, MinPos, MinPos), true);
    }

    /** `_execute_sticky_states`. */
    method ExecuteStickyStates() returns (ok: bool)
      modifies this`pretty, wire
      ensures pretty == Replay(linkIds, old(pretty), linkStates).0
      ensures wire.sent == old(wire.sent) + Replay(linkIds, old(pretty), linkStates).1
      ensures ok == Replay(linkIds, old(pretty), linkStates).2
    {
      ghost var whole := Replay(linkIds, pretty, linkStates);
      var i := 0;
      while i < |linkStates|
        invariant 0 <= i <= |linkStates|
        invariant Replay(linkIds, pretty, linkStates[i..]).0 == whole.0
        invariant wire.sent + Replay(linkIds, pretty, linkStates[i..]).1 == old(wire.sent) + whole.1
        invariant Replay(linkIds, pretty, linkStates[i..]).2 == whole.2
      {
        assert linkStates[i..][0] == linkStates[i] && linkStates[i..][1..] == linkStates[i + 1..];
        ghost var sentBefore := wire.sent;
        ghost var one := SetPos(linkIds, pretty, [linkStates[i].0], StateToPos(linkStates[i].1, MinPos, MinPos), true);
        ok := ExecuteState([linkStates[i].0], linkStates[i].1);
        if !ok {
          return;
        }
        assert wire.sent + Replay(linkIds, pretty, linkStates[i + 1..]).1
               == sentBefore + (one.1 + Replay(linkIds, pretty, linkStates[i + 1..]).1);
        i := i + 1;
      }
      return true;
    }

    /** The end of `_command_parse`: what a finished scan does to the table
        and the links. */
    method Apply(s: Scan, sticky: bool) returns (ok: bool)
      modifies this`linkStates, this`pretty, wire
      ensures linkStates == if Acts(s) && sticky then StoreAll(old(linkStates), Sorted(s.selected), Finish(s))
                            else old(linkStates)
      ensures pretty == Dispatch(linkIds, old(linkStates), old(pretty), s, sticky).0
      ensures wire.sent == old(wire.sent) + Dispatch(linkIds, old(linkStates), old(pretty), s, sticky).1
      ensures ok == Dispatch(linkIds, old(linkStates), old(pretty), s, sticky).2
    {
      if !Acts(s) {
        if sticky {
          ok := ExecuteStickyStates();
        } else {
          assert old(wire.sent) + [] == old(wire.sent);
          ok := true;
        }
        return;
      }
      var selected := Sorted(s.selected);
      var r := Finish(s);
      if sticky {
        var i := 0;
        while i < |selected|
          invariant 0 <= i <= |selected|
          invariant StoreAll(linkStates, selected[i..], r) == StoreAll(old(linkStates), selected, r)
          invariant pretty == old(pretty) && wire.sent == old(wire.sent)
        {
          assert selected[i..][1..] == selected[i + 1..];
          linkStates := Store(linkStates, selected[i], r);
          i := i + 1;
        }
        assert selected[i..] == [];
        ok := ExecuteStickyStates();
      } else {
        ok := ExecuteState(selected, r);
      }
    }
  }

  // ---------------------------------------------------------------------
  // `list.sort()` on the selection.

  predicate NonDecreasing(s: seq<int>) {
    forall i, j | 0 <= i < j < |s| :: s[i] <= s[j]
  }

  function Insert(x: int, s: seq<int>): (r: seq<int>)
    requires NonDecreasing(s)
    ensures NonDecreasing(r) && multiset(r) == multiset(s) + multiset{x}
    ensures forall y | y in r :: y == x || y in s
    decreases |s|
  {
    if |s| == 0 then [x]
    else
      assert s == [s[0]] + s[1..];
      assert forall y | y in s :: s[0] <= y;
      if x <= s[0] then
        ConsNonDecreasing(x, s);
        [x] + s
      else
        var rest := Insert(x, s[1..]);
        ConsNonDecreasing(s[0], rest);
        [s[0]] + rest
  }

  /** A head no larger than anything in a sorted tail keeps it sorted. */
  lemma ConsNonDecreasing(h: int, t: seq<int>)
    requires NonDecreasing(t) && forall y | y in t :: h <= y
    ensures NonDecreasing([h] + t)
  {
    var r := [h] + t;
    forall i, j | 0 <= i < j < |r|
      ensures r[i] <= r[j]
    {
      if i == 0 {
        assert r[j] == t[j - 1] && t[j - 1] in t;
      } else {
        assert r[i] == t[i - 1] && r[j] == t[j - 1];
      }
    }
  }

  /** The selection sorted in place: non-decreasing, with the same
      elements, duplicates kept. */
  function Sorted(s: seq<int>): (r: seq<int>)
    ensures NonDecreasing(r) && multiset(r) == multiset(s)
    decreases |s|
  {
    if |s| == 0 then []
    else
      assert s == [s[0]] + s[1..];
      Insert(s[0], Sorted(s[1..]))
  }

  // ---------------------------------------------------------------------
  // The held-key set.

  /** `on_press`: a key already held is ignored, any other is added. */
  function Pressed(keys: set<Key>, k: Key): (r: set<Key>)
    ensures k in r && keys <= r && r - keys <= {k}
  {
    keys + {k}
  }

  /** `on_release` of the v3, v4, manual_controller2 and picking-up
      controllers: a held key is removed; releasing a key that is not held
      forgets every key. */
  function Released(keys: set<Key>, k: Key): (r: set<Key>)
    ensures k !in r && r <= keys
    ensures k in keys ==> r == keys - {k}
    ensures k !in keys ==> r == {}
  {
    if k in keys then keys - {k} else {}
  }

  /** Pressing a key that was not held and then releasing it gives back the
      set held before. */
  lemma PressThenRelease(keys: set<Key>, k: Key)
    requires k !in keys
    ensures Released(Pressed(keys, k), k) == keys
  {
  }

  /** The key set the listener callbacks of manual_controller2,
      the picking-up script and sticky_controller update (a module global
      there). */
  class HeldKeys {
    var keys: set<Key>

    constructor ()
      ensures keys == {}
    {
      keys := {};
    }

    method OnPress(k: Key)
      modifies this
      ensures keys == Pressed(old(keys), k)
    {
      if k in keys {
        return;
      }
      keys := keys + {k};
    }

    method OnRelease(k: Key)
      modifies this
      ensures keys == Released(old(keys), k)
    {
      if k !in keys {
        keys := {};
      } else {
        keys := keys - {k};
      }
    }

    /** `current_keys.remove(key)` of sticky_controller's `on_release`:
        fails (a `KeyError`) for a key that is not held, which then stays
        not held. */
    method Remove(k: Key) returns (ok: bool)
      modifies this
      ensures ok <==> k in old(keys)
      ensures keys == old(keys) - {k}
    {
      ok := k in keys;
      if ok {
        keys := keys - {k};
      }
    }
  }
}
