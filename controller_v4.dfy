/** The v4 manual controller: the v3 controller with end effectors (links
    whose servo 0 contracts to 0 instead of 22), a `pos_map` table in
    `state_to_pos_command`, independent links in `_set_link_pos`, and a
    `key_actions` table of gaits.

    As written, `_command_parse` never gets past building its gait table
    (see `CommandParseAsWritten`) and its servo table (see
    `ServoChoiceAsWritten`), and the constructor fills the end-effector
    list wrongly (see `EndEffectorsAsWritten`).  The class below models the
    evidently intended controller: the end effectors as link indices, the
    servo choice of the v3 controller, and gaits left out.  The numlock
    paths (single-link crawling threads) are not part of this model: the
    class models the controller with numlock off. */
module ControllerV4 {
  import opened Common
  import opened Manual

  /** Servo 0 of an end effector contracts to this position. */
  const ZeroPos: int := 0

  // ---------------------------------------------------------------------
  // End effectors.

  /** The constructor's loop as written: `self.end_effectors` is the very
      list passed in (link ids), and each index whose link id is found in
      it is appended to that same list, so later ids are looked up among
      earlier indices too. */
  function EndEffectorsAsWritten(ids: seq<int>, lst: seq<int>, i: nat): (r: seq<int>)
    ensures lst <= r
    decreases |ids| - i
  {
    if i >= |ids| then lst
    else EndEffectorsAsWritten(ids, if ids[i] in lst then lst + [i] else lst, i + 1)
  }

  /** The indices (below `n`) of the links whose id is among `ee`: what the
      constructor evidently means to record. */
  function EndEffectorIndices(ids: seq<int>, ee: seq<int>, n: nat): (r: seq<int>)
    requires n <= |ids|
    ensures forall i :: i in r <==> 0 <= i < n && ids[i] in ee
    ensures StrictlyIncreasing(r)
  {
    if n == 0 then []
    else
      var rest := EndEffectorIndices(ids, ee, n - 1);
      if ids[n - 1] in ee then
        assert forall k | 0 <= k < |rest| :: rest[k] in rest && rest[k] < n - 1;
        rest + [n - 1]
      else rest
  }

  /** Links 1, 2, 3 with link 2 the end effector: as written the list
      becomes [2, 1], so index 2 (link 3) is taken for an end effector and
      contracting it drives its servo 0 to 0; with the indices intended it
      contracts to 22 like every regular link. */
  lemma EndEffectorAliasing()
    ensures EndEffectorsAsWritten([1, 2, 3], [2], 0) == [2, 1]
    ensures EndEffectorIndices([1, 2, 3], [2], 3) == [1]
    ensures ExecuteV4([1, 2, 3], [2, 1], map[], [2], Request(1, 0, 2)).1 == [PositionOnly(3, ZeroPos, MinPos)]
    ensures ExecuteV4([1, 2, 3], [1], map[], [2], Request(1, 0, 2)).1 == [PositionOnly(3, MinPos, MinPos)]
  {
    assert EndEffectorIndices([1, 2, 3], [2], 1) == [];
    assert Regular([2], [2, 1]) == [] && Effectors([2], [2, 1]) == [2];
    assert Regular([2], [1]) == [2] && Effectors([2], [1]) == [];
    SetPosOne([1, 2, 3], map[], 2, (Some(ZeroPos), Some(MinPos)));
    SetPosOne([1, 2, 3], map[], 2, (Some(MinPos), Some(MinPos)));
  }

  /** `[i for i in idx if i not in end_effectors]`. */
  function Regular(idx: seq<int>, ee: seq<int>): seq<int> {
    if |idx| == 0 then []
    else (if idx[0] !in ee then [idx[0]] else []) + Regular(idx[1..], ee)
  }

  /** `[i for i in idx if i in end_effectors]`. */
  function Effectors(idx: seq<int>, ee: seq<int>): seq<int> {
    if |idx| == 0 then []
    else (if idx[0] in ee then [idx[0]] else []) + Effectors(idx[1..], ee)
  }

  /** An index is in the first group exactly when it is selected and is
      not an end effector, in the second exactly when it is selected and
      is one. */
  lemma {:induction false} SplitMembers(idx: seq<int>, ee: seq<int>, x: int)
    ensures x in Regular(idx, ee) <==> x in idx && x !in ee
    ensures x in Effectors(idx, ee) <==> x in idx && x in ee
  {
    if |idx| > 0 {
      SplitMembers(idx[1..], ee, x);
      assert idx == [idx[0]] + idx[1..];
    }
  }

  /** One element of the selection taken off the front of both groups. */
  lemma SplitStep(idx: seq<int>, ee: seq<int>, i: nat)
    requires i < |idx|
    ensures Regular(idx[i..], ee) == (if idx[i] !in ee then [idx[i]] else []) + Regular(idx[i + 1..], ee)
    ensures Effectors(idx[i..], ee) == (if idx[i] in ee then [idx[i]] else []) + Effectors(idx[i + 1..], ee)
  {
    assert idx[i..][0] == idx[i] && idx[i..][1..] == idx[i + 1..];
  }

  /** The two list comprehensions of `_execute_state`. */
  method SplitSelection(idx: seq<int>, ee: seq<int>) returns (regular: seq<int>, effectors: seq<int>)
    ensures regular == Regular(idx, ee) && effectors == Effectors(idx, ee)
  {
    regular, effectors := [], [];
    var i := 0;
    while i < |idx|
      invariant 0 <= i <= |idx|
      invariant regular + Regular(idx[i..], ee) == Regular(idx, ee)
      invariant effectors + Effectors(idx[i..], ee) == Effectors(idx, ee)
    {
      SplitStep(idx, ee, i);
      ghost var restR, restE := Regular(idx[i + 1..], ee), Effectors(idx[i + 1..], ee);
      if idx[i] in ee {
        assert effectors + ([idx[i]] + restE) == (effectors + [idx[i]]) + restE;
        assert regular + ([] + restR) == regular + restR;
        effectors := effectors + [idx[i]];
      } else {
        assert regular + ([idx[i]] + restR) == (regular + [idx[i]]) + restR;
        assert effectors + ([] + restE) == effectors + restE;
        regular := regular + [idx[i]];
      }
      i := i + 1;
    }
    assert idx[i..] == [];
    assert regular + [] == regular && effectors + [] == effectors;
  }

  /** The two groups split the selection: every selected index, with its
      repetitions, lands in exactly one of them. */
  lemma {:induction false} SplitIsPartition(idx: seq<int>, ee: seq<int>)
    ensures multiset(Regular(idx, ee)) + multiset(Effectors(idx, ee)) == multiset(idx)
  {
    if |idx| > 0 {
      SplitIsPartition(idx[1..], ee);
      assert idx == [idx[0]] + idx[1..];
    }
  }

  // ---------------------------------------------------------------------
  // Targets and execution.

  /** `pos_map` of `state_to_pos_command`: (mode, servo choice) to targets;
      servo 1 always contracts to 22. */
  function PosMap(srv0Min: int): map<(int, int), (Option<int>, Option<int>)> {
    map[(1, 0) := (Some(MaxPos), None), (1, 1) := (None, Some(MaxPos)), (1, 2) := (Some(MaxPos), Some(MaxPos)),
        (0, 0) := (Some(srv0Min), None), (0, 1) := (None, Some(MinPos)), (0, 2) := (Some(srv0Min), Some(MinPos))]
  }

  /** `pos_map.get((mode, param), (None, None))`. */
  function PosMapGet(r: Request, srv0Min: int): (Option<int>, Option<int>) {
    var m := PosMap(srv0Min);
    if (r.mode, r.param) in m then m[(r.mode, r.param)] else (None, None)
  }

  /** The table of v4 gives the same targets as the branches of the other
      controllers, with servo 1 contracting to 22. */
  lemma PosMapAgrees(r: Request, srv0Min: int)
    ensures PosMapGet(r, srv0Min) == StateToPos(r, srv0Min, MinPos)
  {
    var m := PosMap(srv0Min);
    if (r.mode, r.param) !in m {
      assert !((r.mode == 0 || r.mode == 1) && 0 <= r.param <= 2);
    }
  }

  /** `_execute_state(idx, request)`: the regular links get the targets
      with servo 0 contracting to 22, then the end effectors the targets
      with servo 0 contracting to 0; each link completes the targets from
      its own remembered pair.  An invalid index raises and stops it. */
  function ExecuteV4(ids: seq<int>, ee: seq<int>, pretty: map<int, (int, int)>, idx: seq<int>, r: Request)
    : (res: (map<int, (int, int)>, seq<Command>, bool))
  {
    var a := SetPos(ids, pretty, Regular(idx, ee), PosMapGet(r, MinPos), false);
    if !a.2 then a
    else
      var b := SetPos(ids, a.0, Effectors(idx, ee), PosMapGet(r, ZeroPos), false);
      (b.0, a.1 + b.1, b.2)
  }

  /** With full targets every command sent carries them. */
  lemma FullTargetsEverywhere(ids: seq<int>, pretty: map<int, (int, int)>, idx: seq<int>, a: int, b: int)
    ensures AllSend(SetPos(ids, pretty, idx, (Some(a), Some(b)), false).1, a, b)
  {
    OwnPairPerLink(ids, pretty, idx, (Some(a), Some(b)));
  }

  /** Contracting both servos: first every regular link gets (22, 22),
      then every end effector (0, 22). */
  lemma ContractSplit(ids: seq<int>, ee: seq<int>, pretty: map<int, (int, int)>, idx: seq<int>, state: int)
    ensures var sends := ExecuteV4(ids, ee, pretty, idx, Request(state, 0, 2)).1;
      var m := |SetPos(ids, pretty, Regular(idx, ee), (Some(MinPos), Some(MinPos)), false).1|;
      && m <= |sends| && m <= |Regular(idx, ee)|
      && AllSend(sends[..m], MinPos, MinPos) && AllSend(sends[m..], ZeroPos, MinPos)
  {
    var r := Request(state, 0, 2);
    PosMapAgrees(r, MinPos);
    PosMapAgrees(r, ZeroPos);
    var a := SetPos(ids, pretty, Regular(idx, ee), (Some(MinPos), Some(MinPos)), false);
    FullTargetsEverywhere(ids, pretty, Regular(idx, ee), MinPos, MinPos);
    var sends := ExecuteV4(ids, ee, pretty, idx, r).1;
    if a.2 {
      var b := SetPos(ids, a.0, Effectors(idx, ee), (Some(ZeroPos), Some(MinPos)), false);
      FullTargetsEverywhere(ids, a.0, Effectors(idx, ee), ZeroPos, MinPos);
      assert sends == a.1 + b.1;
      assert sends[..|a.1|] == a.1 && sends[|a.1|..] == b.1;
    } else {
      assert sends == a.1 && sends[|a.1|..] == [];
    }
  }

  /** `_execute_sticky_states` of v4: each stored request on its single
      index, in insertion order, until an index raises. */
  function ReplayV4(ids: seq<int>, ee: seq<int>, pretty: map<int, (int, int)>, st: States)
    : (r: (map<int, (int, int)>, seq<Command>, bool))
    decreases |st|
  {
    if |st| == 0 then (pretty, [], true)
    else
      var one := ExecuteV4(ids, ee, pretty, [st[0].0], st[0].1);
      if !one.2 then one
      else
        var rest := ReplayV4(ids, ee, one.0, st[1..]);
        (rest.0, one.1 + rest.1, rest.2)
  }

  /** The end of `_command_parse` with a finished scan, as in the v3
      controller but executing with end effectors. */
  function DispatchV4(ids: seq<int>, ee: seq<int>, st: States, pretty: map<int, (int, int)>, s: Scan, sticky: bool)
    : (r: (map<int, (int, int)>, seq<Command>, bool))
  {
    if !Acts(s) then (if sticky then ReplayV4(ids, ee, pretty, st) else (pretty, [], true))
    else if sticky then ReplayV4(ids, ee, pretty, StoreAll(st, Sorted(s.selected), Finish(s)))
    else ExecuteV4(ids, ee, pretty, Sorted(s.selected), Finish(s))
  }

  // ---------------------------------------------------------------------
  // `_command_parse` as written.

  /** Where `_command_parse` raises: `AttributeError` on an attribute of
      None, `IndexError`, `KeyError`, or `TypeError` for an unhashable
      dictionary key. */
  datatype ParseFault =
    | AttributeOfNone(line: nat)
    | IndexOutOfRange(line: nat)
    | KeyMissing(line: nat)
    | Unhashable(line: nat)

  /** The three optional structures the constructor may build. */
  datatype Part = TetrahedronPart | DiamondPart | TrianglePart

  /** What building `key_actions` reads of the controller: the
      `substructure` name and the length of `self.links` (one entry per
      registered link). */
  datatype Setup = Setup(substructure: string, nLinks: nat)

  /** Each structure is built only when `substructure` names it, and is
      None otherwise. */
  predicate Present(s: Setup, p: Part) {
    match p
    case TetrahedronPart => s.substructure == "Tetrahedron"
    case DiamondPart => s.substructure == "DWAT"
    case TrianglePart => s.substructure == "Triangle"
  }

  /** One read performed while the `key_actions` display is evaluated. */
  datatype Read =
    | MethodOf(part: Part, line: nat)          // `self.<structure>.<method>`
    | LastLink(line: nat)                      // `self.links[-1]`
    | Select(names: seq<string>, line: nat)    // `{...}[self.substructure]`

  /** The exception one read raises, if any. */
  function Perform(s: Setup, r: Read): Option<ParseFault> {
    match r
    case MethodOf(p, line) => if Present(s, p) then None else Some(AttributeOfNone(line))
    case LastLink(line) => if s.nLinks > 0 then None else Some(IndexOutOfRange(line))
    case Select(names, line) => if s.substructure in names then None else Some(KeyMissing(line))
  }

  /** Performs `steps` in order; the first read that raises ends the
      evaluation with its exception. */
  function FirstFault(s: Setup, steps: seq<Read>): (r: Option<ParseFault>)
    ensures r.None? <==> forall i | 0 <= i < |steps| :: Perform(s, steps[i]).None?
    ensures r.Some? ==> exists i | 0 <= i < |steps| :: Perform(s, steps[i]) == r
  {
    if |steps| == 0 then None
    else if Perform(s, steps[0]).Some? then Perform(s, steps[0])
    else
      var rest := FirstFault(s, steps[1..]);
      assert forall i | 1 <= i < |steps| :: steps[i] == steps[1..][i - 1];
      rest
  }

  /** When every read before position `i` succeeds, the evaluation raises
      what read `i` raises. */
  lemma {:induction false} FaultAt(s: Setup, steps: seq<Read>, i: nat)
    requires i < |steps| && Perform(s, steps[i]).Some?
    requires forall j | 0 <= j < i :: Perform(s, steps[j]).None?
    ensures FirstFault(s, steps) == Perform(s, steps[i])
    decreases i
  {
    if i > 0 {
      FaultAt(s, steps[1..], i - 1);
    }
  }

  /** Evaluating one list of reads after another. */
  lemma {:induction false} FirstFaultAppend(s: Setup, a: seq<Read>, b: seq<Read>)
    ensures FirstFault(s, a + b) == if FirstFault(s, a).Some? then FirstFault(s, a) else FirstFault(s, b)
    decreases |a|
  {
    if |a| > 0 {
      assert (a + b)[0] == a[0] && (a + b)[1..] == a[1..] + b;
      FirstFaultAppend(s, a[1..], b);
    } else {
      assert a + b == b;
    }
  }

  /** The reads of the `key_actions` display in evaluation order: each
      entry's tuple left to right, and each per-structure display's three
      values before it is subscripted by `self.substructure`. */
  const KeyActionReads: seq<Read> := ToppleReads + CrawlReads

  /** The entries 't', 'y' and 'u'. */
  const ToppleReads: seq<Read> := [
    MethodOf(TetrahedronPart, 99), LastLink(99),
    MethodOf(TetrahedronPart, 100), LastLink(100),
    MethodOf(TetrahedronPart, 101), LastLink(101)
  ]

  /** The entries 'c' to 'p'. */
  const CrawlReads: seq<Read> := [
    MethodOf(TetrahedronPart, 102), MethodOf(DiamondPart, 103), MethodOf(TrianglePart, 104),
    Select(["Tetrahedron", "DWAT", "Triangle"], 104),
    MethodOf(TetrahedronPart, 105), MethodOf(DiamondPart, 106), MethodOf(TrianglePart, 107),
    Select(["Tetrahedron", "DWAT", "Triangle"], 107),
    MethodOf(TetrahedronPart, 108), MethodOf(TrianglePart, 109),
    Select(["Tetrahedron", "Triangle"], 109),
    MethodOf(TetrahedronPart, 110), LastLink(110), MethodOf(DiamondPart, 111),
    Select(["Tetrahedron", "DWAT"], 111),
    MethodOf(TetrahedronPart, 112), LastLink(112),
    MethodOf(TetrahedronPart, 113), LastLink(113),
    MethodOf(TetrahedronPart, 114), LastLink(114),
    MethodOf(TrianglePart, 115),
    MethodOf(TrianglePart, 116)
  ]

  /** Building `key_actions`, as written: the exception raised before any
      key is read, if any. */
  function CommandParseAsWritten(s: Setup): Option<ParseFault> {
    FirstFault(s, KeyActionReads)
  }

  /** Without a tetrahedron, `self.tetrahedron.topple` of line 99 raises. */
  lemma NoTetrahedronRaises(s: Setup)
    requires s.substructure != "Tetrahedron"
    ensures CommandParseAsWritten(s) == Some(AttributeOfNone(99))
  {
    FirstFaultAppend(s, ToppleReads, CrawlReads);
    FaultAt(s, ToppleReads, 0);
  }

  /** With a tetrahedron but no link, `self.links[-1]` of line 99 raises. */
  lemma NoLinkRaises(s: Setup)
    requires s.substructure == "Tetrahedron" && s.nLinks == 0
    ensures CommandParseAsWritten(s) == Some(IndexOutOfRange(99))
  {
    FirstFaultAppend(s, ToppleReads, CrawlReads);
    assert Perform(s, ToppleReads[0]).None?;
    FaultAt(s, ToppleReads, 1);
  }

  /** With a tetrahedron and a link, the three topple entries evaluate,
      and `self.diamond_with_a_tail.crawl` of line 103 raises. */
  lemma TetrahedronRaises(s: Setup)
    requires s.substructure == "Tetrahedron" && s.nLinks > 0
    ensures CommandParseAsWritten(s) == Some(AttributeOfNone(103))
  {
    FirstFaultAppend(s, ToppleReads, CrawlReads);
    assert forall j | 0 <= j < |ToppleReads| :: Perform(s, ToppleReads[j]).None?;
    assert Perform(s, CrawlReads[0]).None?;
    FaultAt(s, CrawlReads, 1);
  }

  /** Which entry of `key_actions` raises, for every setup: without a
      tetrahedron its `topple` at line 99; with one but no link the
      `links[-1]` of line 99; otherwise the `diamond_with_a_tail.crawl`
      of line 103. */
  lemma KeyActionsRaise(s: Setup)
    ensures s.substructure != "Tetrahedron" ==> CommandParseAsWritten(s) == Some(AttributeOfNone(99))
    ensures s.substructure == "Tetrahedron" && s.nLinks == 0 ==>
              CommandParseAsWritten(s) == Some(IndexOutOfRange(99))
    ensures s.substructure == "Tetrahedron" && s.nLinks > 0 ==>
              CommandParseAsWritten(s) == Some(AttributeOfNone(103))
  {
    if s.substructure != "Tetrahedron" {
      NoTetrahedronRaises(s);
    } else if s.nLinks == 0 {
      NoLinkRaises(s);
    } else {
      TetrahedronRaises(s);
    }
  }

  /** A Python dictionary key: an integer, a tuple or a list. */
  datatype PyKey = PyInt(i: int) | PyTuple(t: seq<int>) | PyList(l: seq<int>)

  /** Lists cannot be hashed. */
  predicate Hashable(k: PyKey) {
    !k.PyList?
  }

  /** Evaluating a dictionary display `{k0: v0, k1: v1, ...}`: an
      unhashable key raises `TypeError`; otherwise each entry is stored,
      later keys overriding earlier ones. */
  function DictDisplay(entries: seq<(PyKey, int)>, line: nat): (r: Result<map<PyKey, int>, ParseFault>)
    ensures r.Ok? <==> forall i | 0 <= i < |entries| :: Hashable(entries[i].0)
    ensures r.Err? ==> r == Err(Unhashable(line))
  {
    if |entries| == 0 then Ok(map[])
    else
      var init := entries[..|entries| - 1];
      assert forall i | 0 <= i < |init| :: init[i] == entries[i];
      match DictDisplay(init, line)
      case Err(e) => Err(e)
      case Ok(m) =>
        var last := entries[|entries| - 1];
        if Hashable(last.0) then Ok(m[last.0 := last.1]) else Err(Unhashable(line))
  }

  /** No entry after position `i` has the key of entry `i`. */
  predicate LastWithKey(entries: seq<(PyKey, int)>, i: nat)
    requires i < |entries|
  {
    forall j | i < j < |entries| :: entries[j].0 != entries[i].0
  }

  /** The dictionary a display builds holds exactly the keys written, each
      with the value of its last entry. */
  lemma {:induction false} DictDisplayContents(entries: seq<(PyKey, int)>, line: nat)
    requires DictDisplay(entries, line).Ok?
    ensures var d := DictDisplay(entries, line).value;
      (forall k :: k in d <==> exists i | 0 <= i < |entries| :: entries[i].0 == k)
      && forall i | 0 <= i < |entries| && LastWithKey(entries, i) :: d[entries[i].0] == entries[i].1
  {
    if |entries| > 0 {
      var init := entries[..|entries| - 1];
      assert forall i | 0 <= i < |init| :: init[i] == entries[i];
      DictDisplayContents(init, line);
      var d := DictDisplay(entries, line).value;
      var last := entries[|entries| - 1];
      assert d == DictDisplay(init, line).value[last.0 := last.1];
      forall k
        ensures k in d <==> exists i | 0 <= i < |entries| :: entries[i].0 == k
      {
        if k in d && k != last.0 {
          var i :| 0 <= i < |init| && init[i].0 == k;
          assert entries[i].0 == k;
        }
      }
      forall i | 0 <= i < |entries| && LastWithKey(entries, i)
        ensures d[entries[i].0] == entries[i].1
      {
        if i < |entries| - 1 {
          assert entries[|entries| - 1].0 != entries[i].0;
          assert LastWithKey(init, i);
        }
      }
    }
  }

  /** `d[k]`: an unhashable key raises `TypeError`, a missing one
      `KeyError`. */
  function Subscript(d: map<PyKey, int>, k: PyKey, line: nat): (r: Result<int, ParseFault>)
    ensures r.Ok? <==> Hashable(k) && k in d
    ensures r.Ok? ==> r.value == d[k]
  {
    if !Hashable(k) then Err(Unhashable(line))
    else if k in d then Ok(d[k])
    else Err(KeyMissing(line))
  }

  /** `srv` after the key loop: one flag per arrow key held. */
  function Srv(left: bool, right: bool): seq<int> {
    [if left then 1 else 0, if right then 1 else 0]
  }

  /** Lines 172-173 with the keys written as `wrap` makes them: lists as
      written, tuples as evidently meant. */
  function ServoChoice(wrap: seq<int> -> PyKey, left: bool, right: bool): Result<int, ParseFault> {
    match DictDisplay([(wrap([1, 1]), 2), (wrap([1, 0]), 0), (wrap([0, 1]), 1)], 172)
    case Err(e) => Err(e)
    case Ok(d) => Subscript(d, wrap(Srv(left, right)), 173)
  }

  /** `param_dict[srv]`, as written, with list keys. */
  function ServoChoiceAsWritten(left: bool, right: bool): Result<int, ParseFault> {
    ServoChoice(l => PyList(l), left, right)
  }

  /** As written, building `param_dict` raises whatever arrows are held. */
  lemma ServoChoiceRaises(left: bool, right: bool)
    ensures ServoChoiceAsWritten(left, right) == Err(Unhashable(172))
  {
    var entries := [(PyList([1, 1]), 2), (PyList([1, 0]), 0), (PyList([0, 1]), 1)];
    assert !Hashable(entries[0].0);
  }

  /** With tuple keys the table is the arrow table of the other
      controllers whenever an arrow is held; with no arrow held the lookup
      still raises `KeyError`. */
  lemma ServoChoiceWithTuples(left: bool, right: bool, param: int)
    ensures left || right ==> ServoChoice(l => PyTuple(l), left, right) == Ok(ParamOf(left, right, param))
    ensures !left && !right ==> ServoChoice(l => PyTuple(l), left, right) == Err(KeyMissing(173))
  {
    var entries := [(PyTuple([1, 1]), 2), (PyTuple([1, 0]), 0), (PyTuple([0, 1]), 1)];
    assert LastWithKey(entries, 0) && LastWithKey(entries, 1) && LastWithKey(entries, 2);
    assert forall i | 0 <= i < 3 :: Hashable(entries[i].0);
    DictDisplayContents(entries, 172);
    var d := DictDisplay(entries, 172).value;
    assert entries[0].0 in d && entries[1].0 in d && entries[2].0 in d;
    assert PyTuple([0, 0]) !in d;
  }

  /** Whatever the setup and the keys, `_command_parse` as written never
      reaches a link: building the gait table raises, and so would
      building the servo table. */
  lemma AsWrittenNeverCommands(s: Setup, left: bool, right: bool)
    ensures CommandParseAsWritten(s).Some?
    ensures ServoChoiceAsWritten(left, right).Err?
  {
    KeyActionsRaise(s);
    ServoChoiceRaises(left, right);
  }

  // ---------------------------------------------------------------------
  // The controller.

  class ManualController {
    const isSticky: bool
    const table: LinkTable
    /** Indices (into the sorted link ids) of the end effectors. */
    const endEffectors: seq<int>
    var currentKeys: set<Key>

    /** The controller over the registered links, with the links whose id
        is in `ee` as end effectors. */
    constructor (registered: set<int>, ee: seq<int>, sticky: bool, wire: Wire)
      ensures isSticky == sticky && fresh(table) && table.wire == wire
      ensures StrictlyIncreasing(table.linkIds) && forall id :: id in table.linkIds <==> id in registered
      ensures endEffectors == EndEffectorIndices(table.linkIds, ee, |table.linkIds|)
      ensures table.linkStates == [] && table.pretty == map[] && currentKeys == {}
    {
      isSticky := sticky;
      var ids := SortedKeys(registered);
      var found: seq<int> := [];
      var i := 0;
      while i < |ids|
        invariant 0 <= i <= |ids|
        invariant found == EndEffectorIndices(ids, ee, i)
      {
        if ids[i] in ee {
          found := found + [i];
        }
        i := i + 1;
      }
      endEffectors := found;
      table := new LinkTable(ids, wire);
      currentKeys := {};
    }

    /** `reset`. */
    method Reset()
      modifies this`currentKeys, table`linkStates, table`pretty
      ensures currentKeys == {} && table.linkStates == [] && table.pretty == map[]
    {
      table.Clear();
      currentKeys := {};
    }

    /** `on_press`: as in the v3 controller, a new 's' resets. */
    method OnPress(k: Key)
      modifies this`currentKeys, table`linkStates, table`pretty
      ensures k in old(currentKeys) ==> currentKeys == old(currentKeys)
      ensures k !in old(currentKeys) && k != Char('s') ==> currentKeys == Pressed(old(currentKeys), k)
      ensures k !in old(currentKeys) && k == Char('s') ==>
                currentKeys == {} && table.linkStates == [] && table.pretty == map[]
      ensures !(k !in old(currentKeys) && k == Char('s')) ==>
                table.linkStates == old(table.linkStates) && table.pretty == old(table.pretty)
    {
      if k in currentKeys {
        return;
      }
      currentKeys := currentKeys + {k};
      if k == Char('s') {
        Reset();
      }
    }

    /** `on_release`. */
    method OnRelease(k: Key)
      modifies this`currentKeys
      ensures currentKeys == Released(old(currentKeys), k)
    {
      if k !in currentKeys {
        currentKeys := {};
      } else {
        currentKeys := currentKeys - {k};
      }
    }

    /** `_execute_state(idx, request)`. */
    method ExecuteState(idx: seq<int>, r: Request) returns (ok: bool)
      modifies table`pretty, table.wire
      ensures table.pretty == ExecuteV4(table.linkIds, endEffectors, old(table.pretty), idx, r).0
      ensures table.wire.sent == old(table.wire.sent) + ExecuteV4(table.linkIds, endEffectors, old(table.pretty), idx, r).1
      ensures ok == ExecuteV4(table.linkIds, endEffectors, old(table.pretty), idx, r).2
    {
      var regular, effectors := SplitSelection(idx, endEffectors);
      ok := table.SetLinkPos(regular, PosMapGet(r, MinPos), false);
      if !ok {
        return;
      }
      ok := table.SetLinkPos(effectors, PosMapGet(r, ZeroPos), false);
    }

    /** `_execute_sticky_states`. */
    method ExecuteStickyStates() returns (ok: bool)
      modifies table`pretty, table.wire
      ensures table.pretty == ReplayV4(table.linkIds, endEffectors, old(table.pretty), table.linkStates).0
      ensures table.wire.sent == old(table.wire.sent) + ReplayV4(table.linkIds, endEffectors, old(table.pretty), table.linkStates).1
      ensures ok == ReplayV4(table.linkIds, endEffectors, old(table.pretty), table.linkStates).2
    {
      var st := table.linkStates;
      ghost var whole := ReplayV4(table.linkIds, endEffectors, table.pretty, st);
      var i := 0;
      while i < |st|
        invariant 0 <= i <= |st|
        invariant ReplayV4(table.linkIds, endEffectors, table.pretty, st[i..]).0 == whole.0
        invariant table.wire.sent + ReplayV4(table.linkIds, endEffectors, table.pretty, st[i..]).1
                  == old(table.wire.sent) + whole.1
        invariant ReplayV4(table.linkIds, endEffectors, table.pretty, st[i..]).2 == whole.2
      {
        assert st[i..][0] == st[i] && st[i..][1..] == st[i + 1..];
        ghost var sentBefore := table.wire.sent;
        ghost var one := ExecuteV4(table.linkIds, endEffectors, table.pretty, [st[i].0], st[i].1);
        ok := ExecuteState([st[i].0], st[i].1);
        if !ok {
          return;
        }
        assert table.wire.sent + ReplayV4(table.linkIds, endEffectors, table.pretty, st[i + 1..]).1
               == sentBefore + (one.1 + ReplayV4(table.linkIds, endEffectors, table.pretty, st[i + 1..]).1);
        i := i + 1;
      }
      return true;
    }

    /** `_command_parse(keys)` as evidently intended, numlock off: the key
        loop of the v3 controller, the v3 servo choice, and the request
        executed with end effectors, directly or through the sticky table. */
    method CommandParse(keys: seq<Key>) returns (ok: bool)
      modifies table`linkStates, table`pretty, table.wire
      ensures var s := ScanFrom(CharText, |table.linkIds|, keys, Start);
        table.linkStates == if Acts(s) && isSticky then StoreAll(old(table.linkStates), Sorted(s.selected), Finish(s))
                            else old(table.linkStates)
      ensures var s := ScanFrom(CharText, |table.linkIds|, keys, Start);
        table.pretty == DispatchV4(table.linkIds, endEffectors, old(table.linkStates), old(table.pretty), s, isSticky).0
      ensures var s := ScanFrom(CharText, |table.linkIds|, keys, Start);
        table.wire.sent == old(table.wire.sent)
                           + DispatchV4(table.linkIds, endEffectors, old(table.linkStates), old(table.pretty), s, isSticky).1
      ensures var s := ScanFrom(CharText, |table.linkIds|, keys, Start);
        ok == DispatchV4(table.linkIds, endEffectors, old(table.linkStates), old(table.pretty), s, isSticky).2
    {
      var s := ScanKeys(CharText, |table.linkIds|, keys);
      if !Acts(s) {
        if isSticky {
          ok := ExecuteStickyStates();
        } else {
          assert old(table.wire.sent) + [] == old(table.wire.sent);
          ok := true;
        }
        return;
      }
      var selected := Sorted(s.selected);
      var r := Finish(s);
      if isSticky {
        var i := 0;
        while i < |selected|
          invariant 0 <= i <= |selected|
          invariant StoreAll(table.linkStates, selected[i..], r) == StoreAll(old(table.linkStates), selected, r)
          invariant table.pretty == old(table.pretty) && table.wire.sent == old(table.wire.sent)
        {
          assert selected[i..][1..] == selected[i + 1..];
          table.linkStates := Store(table.linkStates, selected[i], r);
          i := i + 1;
        }
        assert selected[i..] == [];
        ok := ExecuteStickyStates();
      } else {
        ok := ExecuteState(selected, r);
      }
    }
  }
}
