/** The tetrahedron robot held as a graph: four vertices, six links, each
    vertex listing its three links in a fixed turning order.  The pose
    computation names the six links by their role relative to the top vertex
    (upper back, upper left, upper right, bottom left, bottom right, bottom
    front) and says which of them are mounted upside down; toppling moves the
    top vertex along the upper back link.

    Vertices are configured once, while the graph is built, and never
    change afterwards, so they are values here; a vertex is named by its id
    (1 to 4).  Commands to the robot links are recorded in a log instead of
    being sent. */
module Tetra {
  import opened Common

  /** The contraction target of `contract`. */
  const MinPos: int := 22

  /** A link of the graph: the id of the robot link and the ids of the
      vertices at its servo 0 and servo 1 ends. */
  datatype Link = Link(id: int, srv0: nat, srv1: nat)

  datatype Vertex = Vertex(id: nat, links: seq<Link>, cw: bool)

  /** `set_links`: a vertex of a tetrahedron has exactly three links; any
      other number is refused. */
  function SetLinks(v: Vertex, links: seq<Link>, cw: bool): (r: Option<Vertex>)
    ensures r.Some? <==> |links| == 3
    ensures r.Some? ==> r.value.id == v.id && r.value.links == links && r.value.cw == cw
  {
    if |links| != 3 then None else Some(v.(links := links, cw := cw))
  }

  /** The six links `__init__` builds from the first six link ids: they
      join vertices 1-2, 1-3, 1-4, 4-2, 4-3 and 3-2, servo 0 end first. */
  function Edges(ids: seq<int>): (r: seq<Link>)
    requires |ids| >= 6
    ensures |r| == 6
  {
    [Link(ids[0], 1, 2), Link(ids[1], 1, 3), Link(ids[2], 1, 4),
     Link(ids[3], 4, 2), Link(ids[4], 4, 3), Link(ids[5], 3, 2)]
  }

  /** The four vertices `__init__` configures: vertices 1 and 2 list their
      links clockwise, vertices 3 and 4 counter-clockwise. */
  function Built(ids: seq<int>): (r: seq<Vertex>)
    requires |ids| >= 6
    ensures |r| == 4
  {
    var e := Edges(ids);
    [Vertex(1, [e[0], e[1], e[2]], true),
     Vertex(2, [e[0], e[3], e[5]], true),
     Vertex(3, [e[1], e[4], e[5]], false),
     Vertex(4, [e[2], e[3], e[4]], false)]
  }


  lemma BuiltIsWellFormed(ids: seq<int>)
    requires |ids| >= 6
    ensures WellFormed(Built(ids))
  {
  }

  /** After construction every link is listed at exactly its two end
      vertices. */
  lemma EdgesAtTheirEnds(ids: seq<int>)
    requires |ids| >= 6
    ensures forall i, j | 0 <= i < 6 && 0 <= j < 4 ::
              Edges(ids)[i] in Built(ids)[j].links
              <==> (j + 1 == Edges(ids)[i].srv0 || j + 1 == Edges(ids)[i].srv1)
  {
  }

  /** The links listed at vertex `v` (none for an id outside the graph). */
  function LinksAt(g: seq<Vertex>, v: nat): (r: seq<Link>)
    ensures 1 <= v <= |g| ==> r == g[v - 1].links
  {
    if 1 <= v <= |g| then g[v - 1].links else []
  }

  /** A graph the pose search can walk: four vertices with ids 1 to 4, each
      with three links. */
  predicate WellFormed(g: seq<Vertex>) {
    |g| == 4 && forall i | 0 <= i < 4 :: g[i].id == i + 1 && |g[i].links| == 3
  }

  /** The end of `l` that is not vertex `v`. */
  function Far(l: Link, v: nat): (r: nat)
    ensures r == l.srv0 || r == l.srv1
    ensures l.srv0 == v ==> r == l.srv1
  {
    if l.srv0 != v then l.srv0 else l.srv1
  }

  function Ids(ls: seq<Link>): (r: seq<int>)
    ensures |r| == |ls| && forall i | 0 <= i < |ls| :: r[i] == ls[i].id
  {
    if |ls| == 0 then [] else [ls[0].id] + Ids(ls[1..])
  }

  /** The first link of `ls` whose id is among `ids`. */
  function FindShared(ls: seq<Link>, ids: seq<int>): (r: Option<Link>)
    ensures r.Some? ==> r.value in ls && r.value.id in ids
    ensures r.None? ==> forall l | l in ls :: l.id !in ids
  {
    if |ls| == 0 then None
    else if ls[0].id in ids then Some(ls[0])
    else FindShared(ls[1..], ids)
  }

  /** The loop of `calculate_pose` that picks the bottom left and bottom
      right links among the links `ls` at ub's bottom vertex, one turn per
      link; a later match overrides an earlier one. */
  function Classify(g: seq<Vertex>, ls: seq<Link>, ub: Link, bottom: nat, ul: Link, ur: Link,
                    acc: (Option<Link>, Option<Link>)): (r: (Option<Link>, Option<Link>))
    ensures r.0.Some? ==> r.0 == acc.0 || (r.0.value in ls && r.0.value.id != ub.id)
    ensures r.1.Some? ==> r.1 == acc.1 || (r.1.value in ls && r.1.value.id != ub.id)
  {
    if |ls| == 0 then acc
    else Classify(g, ls[1..], ub, bottom, ul, ur, ClassifyStep(g, ls[0], ub, bottom, ul, ur, acc))
  }

  /** One turn of that loop: a link other than ub whose far end lists ul
      becomes bottom left, else one whose far end lists ur becomes bottom
      right. */
  function ClassifyStep(g: seq<Vertex>, l: Link, ub: Link, bottom: nat, ul: Link, ur: Link,
                        acc: (Option<Link>, Option<Link>)): (r: (Option<Link>, Option<Link>))
    ensures r.0.Some? ==> r.0 == acc.0 || (r.0.value == l && l.id != ub.id)
    ensures r.1.Some? ==> r.1 == acc.1 || (r.1.value == l && l.id != ub.id)
  {
    if l.id != ub.id then
      var front := Ids(LinksAt(g, Far(l, bottom)));
      if ul.id in front then (Some(l), acc.1)
      else if ur.id in front then (acc.0, Some(l))
      else acc
    else acc
  }

  datatype PoseError = BadDirection | NoBottomFront | NoBottomLeft | NoBottomRight

  /** The roles `calculate_pose` assigns, as one record. */
  datatype Roles = Roles(ul: Link, ur: Link, ub: Link, bl: Link, br: Link, bf: Link,
                         bottom: nat)

  /** `calculate_pose(dir)` with vertex `top` on top, before the flags are
      computed: ub is the top's link at `dir` (negative `dir` counts from
      the end), ul and ur are the next two in turning order, exchanged at a
      counter-clockwise vertex. */
  function RolesOf(g: seq<Vertex>, top: nat, dir: int): (r: Result<Roles, PoseError>)
    requires WellFormed(g) && 1 <= top <= 4
    ensures r == Err(BadDirection) <==> !(-3 <= dir < 3)
    ensures r.Ok? ==> r.value.ub in g[top - 1].links && r.value.ul in g[top - 1].links
                      && r.value.ur in g[top - 1].links && r.value.bottom == Far(r.value.ub, top)
  {
    var v := g[top - 1];
    match PyIndex(dir, |v.links|)
    case None => Err(BadDirection)
    case Some(i) =>
      var ub := v.links[i];
      var a := v.links[(dir + 1) % 3];
      var b := v.links[(dir + 2) % 3];
      var ul := if v.cw then a else b;
      var ur := if v.cw then b else a;
      match FindShared(LinksAt(g, Far(ur, top)), Ids(LinksAt(g, Far(ul, top))))
      case None => Err(NoBottomFront)
      case Some(bf) =>
        var bottom := Far(ub, top);
        var (bl, br) := Classify(g, LinksAt(g, bottom), ub, bottom, ul, ur, (None, None));
        if bl.None? then Err(NoBottomLeft)
        else if br.None? then Err(NoBottomRight)
        else Ok(Roles(ul, ur, ub, bl.value, br.value, bf, bottom))
  }

  /** The links in the order `calculate_pose` returns them. */
  function RoleLinks(r: Roles): seq<Link> {
    [r.ul, r.ur, r.ub, r.bl, r.br, r.bf]
  }

  /** The flip flags in the order `calculate_pose` returns them: an upper
      link is flipped when its servo 0 end is not the top, a bottom link
      when its servo 0 end is not ub's bottom vertex. */
  function Flips(r: Roles, top: nat): seq<bool> {
    [r.ub.srv0 != top, r.ul.srv0 != top, r.ur.srv0 != top,
     r.bl.srv0 != r.bottom, r.br.srv0 != r.bottom]
  }

  /** What `calculate_pose(dir)` returns. */
  function Pose(g: seq<Vertex>, top: nat, dir: int): Result<(seq<Link>, seq<bool>), PoseError>
    requires WellFormed(g) && 1 <= top <= 4
  {
    match RolesOf(g, top, dir)
    case Err(e) => Err(e)
    case Ok(r) => Ok((RoleLinks(r), Flips(r, top)))
  }

  predicate Distinct(s: seq<int>) {
    forall i, j | 0 <= i < j < |s| :: s[i] != s[j]
  }

  /** Link `l` joins vertices `v` and `w`, in either orientation. */
  predicate Joins(l: Link, v: nat, w: nat) {
    (l.srv0 == v && l.srv1 == w) || (l.srv0 == w && l.srv1 == v)
  }

  /** `a`, `b`, `c` and `d` are the four vertices, in some order. */
  predicate Vertices4(a: nat, b: nat, c: nat, d: nat) {
    && 1 <= a <= 4 && 1 <= b <= 4 && 1 <= c <= 4 && 1 <= d <= 4
    && a != b && a != c && a != d && b != c && b != d && c != d
  }

  /** Where the roles sit on the robot.  With `left` and `right` the lower
      ends of ul and ur: the top, the bottom, left and right are the four
      vertices; ub, ul and ur lead down from the top to the bottom, left
      and right; bl joins the bottom to left, br the bottom to right and bf
      left to right. */
  predicate RolesGeometry(top: nat, r: Roles) {
    var left, right := Far(r.ul, top), Far(r.ur, top);
    && Vertices4(top, r.bottom, left, right)
    && Joins(r.ub, top, r.bottom) && Joins(r.ul, top, left) && Joins(r.ur, top, right)
    && Joins(r.bl, r.bottom, left) && Joins(r.br, r.bottom, right) && Joins(r.bf, left, right)
  }

  /** The roles fit the robot built from `ids`: they sit as above, and the
      six roles are the six links, each once. */
  predicate RolesFit(ids: seq<int>, top: nat, r: Roles)
    requires |ids| >= 6
  {
    RolesGeometry(top, r) && multiset(RoleLinks(r)) == multiset(Edges(ids))
  }

  /** A flag is set exactly when the link has its servo 1 end at the top
      (upper links) or at the bottom vertex (bottom links). */
  predicate FlipsMean(r: Roles, top: nat, flip: seq<bool>) {
    && |flip| == 5
    && (flip[0] <==> r.ub.srv1 == top) && (flip[1] <==> r.ul.srv1 == top)
    && (flip[2] <==> r.ur.srv1 == top)
    && (flip[3] <==> r.bl.srv1 == r.bottom) && (flip[4] <==> r.br.srv1 == r.bottom)
  }

  lemma FlipsOfFittingRoles(top: nat, r: Roles)
    requires RolesGeometry(top, r)
    ensures FlipsMean(r, top, Flips(r, top))
  {
  }

  lemma Ids3(ls: seq<Link>)
    requires |ls| == 3
    ensures Ids(ls) == [ls[0].id, ls[1].id, ls[2].id]
  {
    assert ls[1..][1..] == ls[2..];
  }

  lemma FindShared3(ls: seq<Link>, ids: seq<int>)
    requires |ls| == 3
    ensures FindShared(ls, ids)
            == if ls[0].id in ids then Some(ls[0])
               else if ls[1].id in ids then Some(ls[1])
               else if ls[2].id in ids then Some(ls[2])
               else None
  {
    assert ls[1..][1..] == ls[2..];
    assert ls[2..][1..] == [];
  }

  lemma Classify3(g: seq<Vertex>, ls: seq<Link>, ub: Link, bottom: nat, ul: Link, ur: Link)
    requires |ls| == 3
    ensures Classify(g, ls, ub, bottom, ul, ur, (None, None))
            == ClassifyStep(g, ls[2], ub, bottom, ul, ur,
                 ClassifyStep(g, ls[1], ub, bottom, ul, ur,
                   ClassifyStep(g, ls[0], ub, bottom, ul, ur, (None, None))))
  {
    var s0 := ClassifyStep(g, ls[0], ub, bottom, ul, ur, (None, None));
    var s1 := ClassifyStep(g, ls[1], ub, bottom, ul, ur, s0);
    var s2 := ClassifyStep(g, ls[2], ub, bottom, ul, ur, s1);
    assert ls[1..][0] == ls[1] && ls[1..][1..] == ls[2..];
    assert ls[2..][0] == ls[2] && ls[2..][1..] == [];
    calc {
      Classify(g, ls, ub, bottom, ul, ur, (None, None));
      Classify(g, ls[1..], ub, bottom, ul, ur, s0);
      Classify(g, ls[2..], ub, bottom, ul, ur, s1);
      Classify(g, [], ub, bottom, ul, ur, s2);
    }
  }

  /** The built graph, spelled out: the links at each vertex, their ids,
      and the six ids told apart. */
  lemma BuiltFacts(ids: seq<int>)
    requires |ids| >= 6 && Distinct(ids[..6])
    ensures WellFormed(Built(ids))
    ensures var g, e := Built(ids), Edges(ids);
      && LinksAt(g, 1) == [e[0], e[1], e[2]] && g[0].cw
      && LinksAt(g, 2) == [e[0], e[3], e[5]] && g[1].cw
      && LinksAt(g, 3) == [e[1], e[4], e[5]] && !g[2].cw
      && LinksAt(g, 4) == [e[2], e[3], e[4]] && !g[3].cw
      && Ids(LinksAt(g, 1)) == [ids[0], ids[1], ids[2]]
      && Ids(LinksAt(g, 2)) == [ids[0], ids[3], ids[5]]
      && Ids(LinksAt(g, 3)) == [ids[1], ids[4], ids[5]]
      && Ids(LinksAt(g, 4)) == [ids[2], ids[3], ids[4]]
    ensures ids[0] != ids[1] && ids[0] != ids[2] && ids[0] != ids[3] && ids[0] != ids[4]
      && ids[0] != ids[5] && ids[1] != ids[2] && ids[1] != ids[3] && ids[1] != ids[4]
      && ids[1] != ids[5] && ids[2] != ids[3] && ids[2] != ids[4] && ids[2] != ids[5]
      && ids[3] != ids[4] && ids[3] != ids[5] && ids[4] != ids[5]
  {
    var g := Built(ids);
    Ids3(g[0].links); Ids3(g[1].links); Ids3(g[2].links); Ids3(g[3].links);
    assert forall i | 0 <= i < 6 :: ids[..6][i] == ids[i];
  }

  lemma PoseTop1Dir0(ids: seq<int>)
    requires |ids| >= 6 && Distinct(ids[..6])
    ensures WellFormed(Built(ids))
    ensures var e := Edges(ids);
      RolesOf(Built(ids), 1, 0) == Ok(Roles(e[1], e[2], e[0], e[5], e[3], e[4], 2))
  {
    BuiltFacts(ids);
    var g, e := Built(ids), Edges(ids);
    FindShared3(LinksAt(g, 4), Ids(LinksAt(g, 3)));
    assert FindShared(LinksAt(g, 4), Ids(LinksAt(g, 3))) == Some(e[4]);
    Classify3(g, LinksAt(g, 2), e[0], 2, e[1], e[2]);
    var s0 := ClassifyStep(g, e[0], e[0], 2, e[1], e[2], (None, None));
    assert s0 == (None, None);
    var s1 := ClassifyStep(g, e[3], e[0], 2, e[1], e[2], s0);
    assert s1 == (None, Some(e[3]));
    var s2 := ClassifyStep(g, e[5], e[0], 2, e[1], e[2], s1);
    assert s2 == (Some(e[5]), Some(e[3]));
  }

  lemma FitTop1Dir0(ids: seq<int>)
    requires |ids| >= 6
    ensures var e := Edges(ids); RolesFit(ids, 1, Roles(e[1], e[2], e[0], e[5], e[3], e[4], 2))
  {
    var e := Edges(ids);
    calc {
      multiset(RoleLinks(Roles(e[1], e[2], e[0], e[5], e[3], e[4], 2)));
      multiset{e[1], e[2], e[0], e[5], e[3], e[4]};
      multiset{e[0], e[1], e[2], e[3], e[4], e[5]};
      { assert e == [e[0], e[1], e[2], e[3], e[4], e[5]]; }
      multiset(e);
    }
  }

  lemma PoseTop1Dir1(ids: seq<int>)
    requires |ids| >= 6 && Distinct(ids[..6])
    ensures WellFormed(Built(ids))
    ensures var e := Edges(ids);
      RolesOf(Built(ids), 1, 1) == Ok(Roles(e[2], e[0], e[1], e[4], e[5], e[3], 3))
  {
    BuiltFacts(ids);
    var g, e := Built(ids), Edges(ids);
    FindShared3(LinksAt(g, 2), Ids(LinksAt(g, 4)));
    assert FindShared(LinksAt(g, 2), Ids(LinksAt(g, 4))) == Some(e[3]);
    Classify3(g, LinksAt(g, 3), e[1], 3, e[2], e[0]);
    var s0 := ClassifyStep(g, e[1], e[1], 3, e[2], e[0], (None, None));
    assert s0 == (None, None);
    var s1 := ClassifyStep(g, e[4], e[1], 3, e[2], e[0], s0);
    assert s1 == (Some(e[4]), None);
    var s2 := ClassifyStep(g, e[5], e[1], 3, e[2], e[0], s1);
    assert s2 == (Some(e[4]), Some(e[5]));
  }

  lemma FitTop1Dir1(ids: seq<int>)
    requires |ids| >= 6
    ensures var e := Edges(ids); RolesFit(ids, 1, Roles(e[2], e[0], e[1], e[4], e[5], e[3], 3))
  {
    var e := Edges(ids);
    calc {
      multiset(RoleLinks(Roles(e[2], e[0], e[1], e[4], e[5], e[3], 3)));
      multiset{e[2], e[0], e[1], e[4], e[5], e[3]};
      multiset{e[0], e[1], e[2], e[3], e[4], e[5]};
      { assert e == [e[0], e[1], e[2], e[3], e[4], e[5]]; }
      multiset(e);
    }
  }

  lemma PoseTop1Dir2(ids: seq<int>)
    requires |ids| >= 6 && Distinct(ids[..6])
    ensures WellFormed(Built(ids))
    ensures var e := Edges(ids);
      RolesOf(Built(ids), 1, 2) == Ok(Roles(e[0], e[1], e[2], e[3], e[4], e[5], 4))
  {
    BuiltFacts(ids);
    var g, e := Built(ids), Edges(ids);
    FindShared3(LinksAt(g, 3), Ids(LinksAt(g, 2)));
    assert FindShared(LinksAt(g, 3), Ids(LinksAt(g, 2))) == Some(e[5]);
    Classify3(g, LinksAt(g, 4), e[2], 4, e[0], e[1]);
    var s0 := ClassifyStep(g, e[2], e[2], 4, e[0], e[1], (None, None));
    assert s0 == (None, None);
    var s1 := ClassifyStep(g, e[3], e[2], 4, e[0], e[1], s0);
    assert s1 == (Some(e[3]), None);
    var s2 := ClassifyStep(g, e[4], e[2], 4, e[0], e[1], s1);
    assert s2 == (Some(e[3]), Some(e[4]));
  }

  lemma FitTop1Dir2(ids: seq<int>)
    requires |ids| >= 6
    ensures var e := Edges(ids); RolesFit(ids, 1, Roles(e[0], e[1], e[2], e[3], e[4], e[5], 4))
  {
    var e := Edges(ids);
    calc {
      multiset(RoleLinks(Roles(e[0], e[1], e[2], e[3], e[4], e[5], 4)));
      multiset{e[0], e[1], e[2], e[3], e[4], e[5]};
      multiset{e[0], e[1], e[2], e[3], e[4], e[5]};
      { assert e == [e[0], e[1], e[2], e[3], e[4], e[5]]; }
      multiset(e);
    }
  }

  lemma PoseTop2Dir0(ids: seq<int>)
    requires |ids| >= 6 && Distinct(ids[..6])
    ensures WellFormed(Built(ids))
    ensures var e := Edges(ids);
      RolesOf(Built(ids), 2, 0) == Ok(Roles(e[3], e[5], e[0], e[2], e[1], e[4], 1))
  {
    BuiltFacts(ids);
    var g, e := Built(ids), Edges(ids);
    FindShared3(LinksAt(g, 3), Ids(LinksAt(g, 4)));
    assert FindShared(LinksAt(g, 3), Ids(LinksAt(g, 4))) == Some(e[4]);
    Classify3(g, LinksAt(g, 1), e[0], 1, e[3], e[5]);
    var s0 := ClassifyStep(g, e[0], e[0], 1, e[3], e[5], (None, None));
    assert s0 == (None, None);
    var s1 := ClassifyStep(g, e[1], e[0], 1, e[3], e[5], s0);
    assert s1 == (None, Some(e[1]));
    var s2 := ClassifyStep(g, e[2], e[0], 1, e[3], e[5], s1);
    assert s2 == (Some(e[2]), Some(e[1]));
  }

  lemma FitTop2Dir0(ids: seq<int>)
    requires |ids| >= 6
    ensures var e := Edges(ids); RolesFit(ids, 2, Roles(e[3], e[5], e[0], e[2], e[1], e[4], 1))
  {
    var e := Edges(ids);
    calc {
      multiset(RoleLinks(Roles(e[3], e[5], e[0], e[2], e[1], e[4], 1)));
      multiset{e[3], e[5], e[0], e[2], e[1], e[4]};
      multiset{e[0], e[1], e[2], e[3], e[4], e[5]};
      { assert e == [e[0], e[1], e[2], e[3], e[4], e[5]]; }
      multiset(e);
    }
  }

  lemma PoseTop2Dir1(ids: seq<int>)
    requires |ids| >= 6 && Distinct(ids[..6])
    ensures WellFormed(Built(ids))
    ensures var e := Edges(ids);
      RolesOf(Built(ids), 2, 1) == Ok(Roles(e[5], e[0], e[3], e[4], e[2], e[1], 4))
  {
    BuiltFacts(ids);
    var g, e := Built(ids), Edges(ids);
    FindShared3(LinksAt(g, 1), Ids(LinksAt(g, 3)));
    assert FindShared(LinksAt(g, 1), Ids(LinksAt(g, 3))) == Some(e[1]);
    Classify3(g, LinksAt(g, 4), e[3], 4, e[5], e[0]);
    var s0 := ClassifyStep(g, e[2], e[3], 4, e[5], e[0], (None, None));
    assert s0 == (None, Some(e[2]));
    var s1 := ClassifyStep(g, e[3], e[3], 4, e[5], e[0], s0);
    assert s1 == (None, Some(e[2]));
    var s2 := ClassifyStep(g, e[4], e[3], 4, e[5], e[0], s1);
    assert s2 == (Some(e[4]), Some(e[2]));
  }

  lemma FitTop2Dir1(ids: seq<int>)
    requires |ids| >= 6
    ensures var e := Edges(ids); RolesFit(ids, 2, Roles(e[5], e[0], e[3], e[4], e[2], e[1], 4))
  {
    var e := Edges(ids);
    calc {
      multiset(RoleLinks(Roles(e[5], e[0], e[3], e[4], e[2], e[1], 4)));
      multiset{e[5], e[0], e[3], e[4], e[2], e[1]};
      multiset{e[0], e[1], e[2], e[3], e[4], e[5]};
      { assert e == [e[0], e[1], e[2], e[3], e[4], e[5]]; }
      multiset(e);
    }
  }

  lemma PoseTop2Dir2(ids: seq<int>)
    requires |ids| >= 6 && Distinct(ids[..6])
    ensures WellFormed(Built(ids))
    ensures var e := Edges(ids);
      RolesOf(Built(ids), 2, 2) == Ok(Roles(e[0], e[3], e[5], e[1], e[4], e[2], 3))
  {
    BuiltFacts(ids);
    var g, e := Built(ids), Edges(ids);
    FindShared3(LinksAt(g, 4), Ids(LinksAt(g, 1)));
    assert FindShared(LinksAt(g, 4), Ids(LinksAt(g, 1))) == Some(e[2]);
    Classify3(g, LinksAt(g, 3), e[5], 3, e[0], e[3]);
    var s0 := ClassifyStep(g, e[1], e[5], 3, e[0], e[3], (None, None));
    assert s0 == (Some(e[1]), None);
    var s1 := ClassifyStep(g, e[4], e[5], 3, e[0], e[3], s0);
    assert s1 == (Some(e[1]), Some(e[4]));
    var s2 := ClassifyStep(g, e[5], e[5], 3, e[0], e[3], s1);
    assert s2 == (Some(e[1]), Some(e[4]));
  }

  lemma FitTop2Dir2(ids: seq<int>)
    requires |ids| >= 6
    ensures var e := Edges(ids); RolesFit(ids, 2, Roles(e[0], e[3], e[5], e[1], e[4], e[2], 3))
  {
    var e := Edges(ids);
    calc {
      multiset(RoleLinks(Roles(e[0], e[3], e[5], e[1], e[4], e[2], 3)));
      multiset{e[0], e[3], e[5], e[1], e[4], e[2]};
      multiset{e[0], e[1], e[2], e[3], e[4], e[5]};
      { assert e == [e[0], e[1], e[2], e[3], e[4], e[5]]; }
      multiset(e);
    }
  }

  lemma PoseTop3Dir0(ids: seq<int>)
    requires |ids| >= 6 && Distinct(ids[..6])
    ensures WellFormed(Built(ids))
    ensures var e := Edges(ids);
      RolesOf(Built(ids), 3, 0) == Ok(Roles(e[5], e[4], e[1], e[0], e[2], e[3], 1))
  {
    BuiltFacts(ids);
    var g, e := Built(ids), Edges(ids);
    FindShared3(LinksAt(g, 4), Ids(LinksAt(g, 2)));
    assert FindShared(LinksAt(g, 4), Ids(LinksAt(g, 2))) == Some(e[3]);
    Classify3(g, LinksAt(g, 1), e[1], 1, e[5], e[4]);
    var s0 := ClassifyStep(g, e[0], e[1], 1, e[5], e[4], (None, None));
    assert s0 == (Some(e[0]), None);
    var s1 := ClassifyStep(g, e[1], e[1], 1, e[5], e[4], s0);
    assert s1 == (Some(e[0]), None);
    var s2 := ClassifyStep(g, e[2], e[1], 1, e[5], e[4], s1);
    assert s2 == (Some(e[0]), Some(e[2]));
  }

  lemma FitTop3Dir0(ids: seq<int>)
    requires |ids| >= 6
    ensures var e := Edges(ids); RolesFit(ids, 3, Roles(e[5], e[4], e[1], e[0], e[2], e[3], 1))
  {
    var e := Edges(ids);
    calc {
      multiset(RoleLinks(Roles(e[5], e[4], e[1], e[0], e[2], e[3], 1)));
      multiset{e[5], e[4], e[1], e[0], e[2], e[3]};
      multiset{e[0], e[1], e[2], e[3], e[4], e[5]};
      { assert e == [e[0], e[1], e[2], e[3], e[4], e[5]]; }
      multiset(e);
    }
  }

  lemma PoseTop3Dir1(ids: seq<int>)
    requires |ids| >= 6 && Distinct(ids[..6])
    ensures WellFormed(Built(ids))
    ensures var e := Edges(ids);
      RolesOf(Built(ids), 3, 1) == Ok(Roles(e[1], e[5], e[4], e[2], e[3], e[0], 4))
  {
    BuiltFacts(ids);
    var g, e := Built(ids), Edges(ids);
    FindShared3(LinksAt(g, 2), Ids(LinksAt(g, 1)));
    assert FindShared(LinksAt(g, 2), Ids(LinksAt(g, 1))) == Some(e[0]);
    Classify3(g, LinksAt(g, 4), e[4], 4, e[1], e[5]);
    var s0 := ClassifyStep(g, e[2], e[4], 4, e[1], e[5], (None, None));
    assert s0 == (Some(e[2]), None);
    var s1 := ClassifyStep(g, e[3], e[4], 4, e[1], e[5], s0);
    assert s1 == (Some(e[2]), Some(e[3]));
    var s2 := ClassifyStep(g, e[4], e[4], 4, e[1], e[5], s1);
    assert s2 == (Some(e[2]), Some(e[3]));
  }

  lemma FitTop3Dir1(ids: seq<int>)
    requires |ids| >= 6
    ensures var e := Edges(ids); RolesFit(ids, 3, Roles(e[1], e[5], e[4], e[2], e[3], e[0], 4))
  {
    var e := Edges(ids);
    calc {
      multiset(RoleLinks(Roles(e[1], e[5], e[4], e[2], e[3], e[0], 4)));
      multiset{e[1], e[5], e[4], e[2], e[3], e[0]};
      multiset{e[0], e[1], e[2], e[3], e[4], e[5]};
      { assert e == [e[0], e[1], e[2], e[3], e[4], e[5]]; }
      multiset(e);
    }
  }

  lemma PoseTop3Dir2(ids: seq<int>)
    requires |ids| >= 6 && Distinct(ids[..6])
    ensures WellFormed(Built(ids))
    ensures var e := Edges(ids);
      RolesOf(Built(ids), 3, 2) == Ok(Roles(e[4], e[1], e[5], e[3], e[0], e[2], 2))
  {
    BuiltFacts(ids);
    var g, e := Built(ids), Edges(ids);
    FindShared3(LinksAt(g, 1), Ids(LinksAt(g, 4)));
    assert FindShared(LinksAt(g, 1), Ids(LinksAt(g, 4))) == Some(e[2]);
    Classify3(g, LinksAt(g, 2), e[5], 2, e[4], e[1]);
    var s0 := ClassifyStep(g, e[0], e[5], 2, e[4], e[1], (None, None));
    assert s0 == (None, Some(e[0]));
    var s1 := ClassifyStep(g, e[3], e[5], 2, e[4], e[1], s0);
    assert s1 == (Some(e[3]), Some(e[0]));
    var s2 := ClassifyStep(g, e[5], e[5], 2, e[4], e[1], s1);
    assert s2 == (Some(e[3]), Some(e[0]));
  }

  lemma FitTop3Dir2(ids: seq<int>)
    requires |ids| >= 6
    ensures var e := Edges(ids); RolesFit(ids, 3, Roles(e[4], e[1], e[5], e[3], e[0], e[2], 2))
  {
    var e := Edges(ids);
    calc {
      multiset(RoleLinks(Roles(e[4], e[1], e[5], e[3], e[0], e[2], 2)));
      multiset{e[4], e[1], e[5], e[3], e[0], e[2]};
      multiset{e[0], e[1], e[2], e[3], e[4], e[5]};
      { assert e == [e[0], e[1], e[2], e[3], e[4], e[5]]; }
      multiset(e);
    }
  }

  lemma PoseTop4Dir0(ids: seq<int>)
    requires |ids| >= 6 && Distinct(ids[..6])
    ensures WellFormed(Built(ids))
    ensures var e := Edges(ids);
      RolesOf(Built(ids), 4, 0) == Ok(Roles(e[4], e[3], e[2], e[1], e[0], e[5], 1))
  {
    BuiltFacts(ids);
    var g, e := Built(ids), Edges(ids);
    FindShared3(LinksAt(g, 2), Ids(LinksAt(g, 3)));
    assert FindShared(LinksAt(g, 2), Ids(LinksAt(g, 3))) == Some(e[5]);
    Classify3(g, LinksAt(g, 1), e[2], 1, e[4], e[3]);
    var s0 := ClassifyStep(g, e[0], e[2], 1, e[4], e[3], (None, None));
    assert s0 == (None, Some(e[0]));
    var s1 := ClassifyStep(g, e[1], e[2], 1, e[4], e[3], s0);
    assert s1 == (Some(e[1]), Some(e[0]));
    var s2 := ClassifyStep(g, e[2], e[2], 1, e[4], e[3], s1);
    assert s2 == (Some(e[1]), Some(e[0]));
  }

  lemma FitTop4Dir0(ids: seq<int>)
    requires |ids| >= 6
    ensures var e := Edges(ids); RolesFit(ids, 4, Roles(e[4], e[3], e[2], e[1], e[0], e[5], 1))
  {
    var e := Edges(ids);
    calc {
      multiset(RoleLinks(Roles(e[4], e[3], e[2], e[1], e[0], e[5], 1)));
      multiset{e[4], e[3], e[2], e[1], e[0], e[5]};
      multiset{e[0], e[1], e[2], e[3], e[4], e[5]};
      { assert e == [e[0], e[1], e[2], e[3], e[4], e[5]]; }
      multiset(e);
    }
  }

  lemma PoseTop4Dir1(ids: seq<int>)
    requires |ids| >= 6 && Distinct(ids[..6])
    ensures WellFormed(Built(ids))
    ensures var e := Edges(ids);
      RolesOf(Built(ids), 4, 1) == Ok(Roles(e[2], e[4], e[3], e[0], e[5], e[1], 2))
  {
    BuiltFacts(ids);
    var g, e := Built(ids), Edges(ids);
    FindShared3(LinksAt(g, 3), Ids(LinksAt(g, 1)));
    assert FindShared(LinksAt(g, 3), Ids(LinksAt(g, 1))) == Some(e[1]);
    Classify3(g, LinksAt(g, 2), e[3], 2, e[2], e[4]);
    var s0 := ClassifyStep(g, e[0], e[3], 2, e[2], e[4], (None, None));
    assert s0 == (Some(e[0]), None);
    var s1 := ClassifyStep(g, e[3], e[3], 2, e[2], e[4], s0);
    assert s1 == (Some(e[0]), None);
    var s2 := ClassifyStep(g, e[5], e[3], 2, e[2], e[4], s1);
    assert s2 == (Some(e[0]), Some(e[5]));
  }

  lemma FitTop4Dir1(ids: seq<int>)
    requires |ids| >= 6
    ensures var e := Edges(ids); RolesFit(ids, 4, Roles(e[2], e[4], e[3], e[0], e[5], e[1], 2))
  {
    var e := Edges(ids);
    calc {
      multiset(RoleLinks(Roles(e[2], e[4], e[3], e[0], e[5], e[1], 2)));
      multiset{e[2], e[4], e[3], e[0], e[5], e[1]};
      multiset{e[0], e[1], e[2], e[3], e[4], e[5]};
      { assert e == [e[0], e[1], e[2], e[3], e[4], e[5]]; }
      multiset(e);
    }
  }

  lemma PoseTop4Dir2(ids: seq<int>)
    requires |ids| >= 6 && Distinct(ids[..6])
    ensures WellFormed(Built(ids))
    ensures var e := Edges(ids);
      RolesOf(Built(ids), 4, 2) == Ok(Roles(e[3], e[2], e[4], e[5], e[1], e[0], 3))
  {
    BuiltFacts(ids);
    var g, e := Built(ids), Edges(ids);
    FindShared3(LinksAt(g, 1), Ids(LinksAt(g, 2)));
    assert FindShared(LinksAt(g, 1), Ids(LinksAt(g, 2))) == Some(e[0]);
    Classify3(g, LinksAt(g, 3), e[4], 3, e[3], e[2]);
    var s0 := ClassifyStep(g, e[1], e[4], 3, e[3], e[2], (None, None));
    assert s0 == (None, Some(e[1]));
    var s1 := ClassifyStep(g, e[4], e[4], 3, e[3], e[2], s0);
    assert s1 == (None, Some(e[1]));
    var s2 := ClassifyStep(g, e[5], e[4], 3, e[3], e[2], s1);
    assert s2 == (Some(e[5]), Some(e[1]));
  }

  lemma FitTop4Dir2(ids: seq<int>)
    requires |ids| >= 6
    ensures var e := Edges(ids); RolesFit(ids, 4, Roles(e[3], e[2], e[4], e[5], e[1], e[0], 3))
  {
    var e := Edges(ids);
    calc {
      multiset(RoleLinks(Roles(e[3], e[2], e[4], e[5], e[1], e[0], 3)));
      multiset{e[3], e[2], e[4], e[5], e[1], e[0]};
      multiset{e[0], e[1], e[2], e[3], e[4], e[5]};
      { assert e == [e[0], e[1], e[2], e[3], e[4], e[5]]; }
      multiset(e);
    }
  }

  /** A negative direction counts from the end of the top's link list. */
  lemma NegativeDirection(g: seq<Vertex>, top: nat, dir: int)
    requires WellFormed(g) && 1 <= top <= 4 && -3 <= dir < 0
    ensures RolesOf(g, top, dir) == RolesOf(g, top, dir + 3)
  {
    assert (dir + 1) % 3 == (dir + 4) % 3 && (dir + 2) % 3 == (dir + 5) % 3;
  }

  /** On the graph `__init__` builds from six distinct ids, every top vertex
      and every direction from -3 to 2 yields a pose, and its roles fit the
      geometry. */
  lemma PoseOnBuilt(ids: seq<int>, top: nat, dir: int)
    requires |ids| >= 6 && Distinct(ids[..6])
    requires 1 <= top <= 4 && -3 <= dir < 3
    ensures WellFormed(Built(ids))
    ensures RolesOf(Built(ids), top, dir).Ok?
    ensures RolesFit(ids, top, RolesOf(Built(ids), top, dir).value)
    ensures FlipsMean(RolesOf(Built(ids), top, dir).value, top, Flips(RolesOf(Built(ids), top, dir).value, top))
  {
    BuiltIsWellFormed(ids);
    var d := if dir < 0 then dir + 3 else dir;
    if dir < 0 {
      NegativeDirection(Built(ids), top, dir);
    }
    if top == 1 {
      PoseOnBuiltAt1(ids, d);
    } else if top == 2 {
      PoseOnBuiltAt2(ids, d);
    } else if top == 3 {
      PoseOnBuiltAt3(ids, d);
    } else {
      assert top == 4;
      PoseOnBuiltAt4(ids, d);
    }
    FlipsOfFittingRoles(top, RolesOf(Built(ids), top, dir).value);
  }

  lemma PoseOnBuiltAt1(ids: seq<int>, dir: int)
    requires |ids| >= 6 && Distinct(ids[..6]) && 0 <= dir < 3
    ensures WellFormed(Built(ids))
    ensures RolesOf(Built(ids), 1, dir).Ok?
    ensures RolesFit(ids, 1, RolesOf(Built(ids), 1, dir).value)
  {
    if dir == 0 { PoseTop1Dir0(ids); FitTop1Dir0(ids); }
    else if dir == 1 { PoseTop1Dir1(ids); FitTop1Dir1(ids); }
    else { assert dir == 2; PoseTop1Dir2(ids); FitTop1Dir2(ids); }
  }

  lemma PoseOnBuiltAt2(ids: seq<int>, dir: int)
    requires |ids| >= 6 && Distinct(ids[..6]) && 0 <= dir < 3
    ensures WellFormed(Built(ids))
    ensures RolesOf(Built(ids), 2, dir).Ok?
    ensures RolesFit(ids, 2, RolesOf(Built(ids), 2, dir).value)
  {
    if dir == 0 { PoseTop2Dir0(ids); FitTop2Dir0(ids); }
    else if dir == 1 { PoseTop2Dir1(ids); FitTop2Dir1(ids); }
    else { assert dir == 2; PoseTop2Dir2(ids); FitTop2Dir2(ids); }
  }

  lemma PoseOnBuiltAt3(ids: seq<int>, dir: int)
    requires |ids| >= 6 && Distinct(ids[..6]) && 0 <= dir < 3
    ensures WellFormed(Built(ids))
    ensures RolesOf(Built(ids), 3, dir).Ok?
    ensures RolesFit(ids, 3, RolesOf(Built(ids), 3, dir).value)
  {
    if dir == 0 { PoseTop3Dir0(ids); FitTop3Dir0(ids); }
    else if dir == 1 { PoseTop3Dir1(ids); FitTop3Dir1(ids); }
    else { assert dir == 2; PoseTop3Dir2(ids); FitTop3Dir2(ids); }
  }

  lemma PoseOnBuiltAt4(ids: seq<int>, dir: int)
    requires |ids| >= 6 && Distinct(ids[..6]) && 0 <= dir < 3
    ensures WellFormed(Built(ids))
    ensures RolesOf(Built(ids), 4, dir).Ok?
    ensures RolesFit(ids, 4, RolesOf(Built(ids), 4, dir).value)
  {
    if dir == 0 { PoseTop4Dir0(ids); FitTop4Dir0(ids); }
    else if dir == 1 { PoseTop4Dir1(ids); FitTop4Dir1(ids); }
    else { assert dir == 2; PoseTop4Dir2(ids); FitTop4Dir2(ids); }
  }

  /** `set_all(position, exclude)`: the command each link not excluded
      receives, in the order of `links`. */
  function SetAllCommands(links: seq<int>, position: int, exclude: seq<int>): (r: seq<Command>)
    ensures forall c | c in r :: c.link in links && c.link !in exclude
                                 && c.srv0Pos == position && c.srv1Pos == position
    ensures forall l | l in links && l !in exclude :: PositionOnly(l, position, position) in r
    ensures |r| <= |links|
  {
    if |links| == 0 then []
    else if links[0] in exclude then SetAllCommands(links[1..], position, exclude)
    else [PositionOnly(links[0], position, position)] + SetAllCommands(links[1..], position, exclude)
  }

  /** `contract`: with nothing excluded, every link receives the target, in
      the order of the link list, and nothing else is sent. */
  lemma {:induction false} SetAllNothingExcluded(links: seq<int>, position: int)
    ensures SetAllCommands(links, position, []) == seq(|links|, i requires 0 <= i < |links| => PositionOnly(links[i], position, position))
  {
    if |links| > 0 {
      SetAllNothingExcluded(links[1..], position);
    }
  }

  /** `calculate_pose` succeeds on a graph built from distinct ids, whatever
      the top vertex and for every direction from -3 to 2. */
  lemma DistinctIdsPose(ids: seq<int>, top: nat, dir: int)
    requires |ids| >= 6 && Distinct(ids) && 1 <= top <= 4 && -3 <= dir < 3
    ensures WellFormed(Built(ids)) && Pose(Built(ids), top, dir).Ok?
  {
    assert Distinct(ids[..6]);
    PoseOnBuilt(ids, top, dir);
  }

  /** Every link at a vertex of the built graph has that vertex as one of
      its two different ends. */
  lemma LinksAtTouch(ids: seq<int>, v: nat)
    requires |ids| >= 6 && 1 <= v <= 4
    ensures forall l | l in LinksAt(Built(ids), v) :: (l.srv0 == v || l.srv1 == v) && l.srv0 != l.srv1
  {
  }

  lemma IncreasingIsDistinct(s: seq<int>)
    requires StrictlyIncreasing(s)
    ensures Distinct(s)
  {
  }

  datatype InitError =
    | WrongLinkCount(given: nat)   // an explicit id list whose length is not 6
    | UnknownLink(id: int)         // an id with no registered link
    | TooFewLinks(found: nat)      // fewer than six registered links
    | InitialPose(e: PoseError)    // the pose computed for the first plot failed

  /** A tetrahedron robot: the graph, the vertex on top, and the log of
      commands sent to its links.  `plotDir` is the direction whose pose is
      drawn after construction and after each topple: 2 in
      cl_tetrahedron.py, 0 in tetrahedron.py. */
  class Tetrahedron {
    const linkIds: seq<int>
    const vertices: seq<Vertex>
    const plotDir: int
    var topVertex: nat
    var firstGoal: bool
    var commands: seq<Command>

    predicate Valid()
      reads this`topVertex
    {
      |linkIds| >= 6 && vertices == Built(linkIds) && 1 <= topVertex <= 4
    }

    constructor (linkIds: seq<int>, plotDir: int)
      requires |linkIds| >= 6
      ensures Valid() && this.linkIds == linkIds && this.plotDir == plotDir
      ensures topVertex == 1 && !firstGoal && commands == []
    {
      this.linkIds := linkIds;
      this.vertices := Built(linkIds);
      this.plotDir := plotDir;
      topVertex := 1;
      firstGoal := false;
      commands := [];
    }

    /** `calculate_pose(dir)` for the current top vertex. */
    method CalculatePose(dir: int) returns (r: Result<(seq<Link>, seq<bool>), PoseError>)
      requires Valid()
      ensures r == Pose(vertices, topVertex, dir)
    {
      var top := topVertex;
      var v := vertices[top - 1];
      var index := PyIndex(dir, |v.links|);
      if index.None? {
        return Err(BadDirection);
      }
      var ub := v.links[index.value];
      var ul, ur;
      if v.cw {
        ul, ur := v.links[(dir + 1) % 3], v.links[(dir + 2) % 3];
      } else {
        ur, ul := v.links[(dir + 1) % 3], v.links[(dir + 2) % 3];
      }
      // the bottom front link: the first link at ur's lower end that is
      // also listed at ul's lower end
      var leftIds := Ids(LinksAt(vertices, Far(ul, top)));
      var candidates := LinksAt(vertices, Far(ur, top));
      var bf: Option<Link> := None;
      var i := 0;
      while i < |candidates|
        invariant 0 <= i <= |candidates|
        invariant FindShared(candidates, leftIds) == FindShared(candidates[i..], leftIds)
      {
        if candidates[i].id in leftIds {
          bf := Some(candidates[i]);
          break;
        }
        assert candidates[i..][1..] == candidates[i + 1..];
        i := i + 1;
      }
      if bf.None? {
        return Err(NoBottomFront);
      }
      // the bottom left and bottom right links, among the links at ub's
      // bottom vertex
      var bottom := Far(ub, top);
      var below := LinksAt(vertices, bottom);
      var bl: Option<Link>, br: Option<Link> := None, None;
      var j := 0;
      while j < |below|
        invariant 0 <= j <= |below|
        invariant Classify(vertices, below, ub, bottom, ul, ur, (None, None))
                  == Classify(vertices, below[j..], ub, bottom, ul, ur, (bl, br))
      {
        var l := below[j];
        ghost var before := (bl, br);
        if l.id != ub.id {
          var front := Ids(LinksAt(vertices, Far(l, bottom)));
          if ul.id in front {
            bl := Some(l);
          } else if ur.id in front {
            br := Some(l);
          }
        }
        assert (bl, br) == ClassifyStep(vertices, l, ub, bottom, ul, ur, before);
        assert below[j..][1..] == below[j + 1..];
        j := j + 1;
      }
      if bl.None? {
        return Err(NoBottomLeft);
      }
      if br.None? {
        return Err(NoBottomRight);
      }
      var roles := Roles(ul, ur, ub, bl.value, br.value, bf.value, bottom);
      r := Ok((RoleLinks(roles), Flips(roles, top)));
    }

    /** The top-vertex update of `topple`: the pose for `dir` is computed,
        the vertex at the far end of ub becomes the top, and the pose for
        `plotDir` is computed for the plot.  A failing pose leaves the top
        where it was. */
    method Topple(dir: int) returns (pose: Result<(seq<Link>, seq<bool>), PoseError>,
                                     plot: Option<Result<(seq<Link>, seq<bool>), PoseError>>)
      requires Valid()
      modifies this`topVertex
      ensures Valid()
      ensures pose == Pose(vertices, old(topVertex), dir)
      ensures pose.Err? ==> topVertex == old(topVertex) && plot.None?
      ensures pose.Ok? ==>
                && topVertex == Far(RolesOf(vertices, old(topVertex), dir).value.ub, old(topVertex))
                && topVertex != old(topVertex)
                && plot == Some(Pose(vertices, topVertex, plotDir))
    {
      pose := CalculatePose(dir);
      if pose.Err? {
        return pose, None;
      }
      var top := topVertex;
      var ub := pose.value.0[2];
      LinksAtTouch(linkIds, top);
      assert ub in LinksAt(vertices, top);
      topVertex := Far(ub, top);
      var p := CalculatePose(plotDir);
      plot := Some(p);
    }

    /** `set_all(position, exclude)`: one position command per link of the
        list, skipping the excluded ones. */
    method SetAll(position: int, exclude: seq<int>)
      modifies this`commands
      ensures commands == old(commands) + SetAllCommands(linkIds, position, exclude)
    {
      var i := 0;
      while i < |linkIds|
        invariant 0 <= i <= |linkIds|
        invariant old(commands) + SetAllCommands(linkIds, position, exclude)
                  == commands + SetAllCommands(linkIds[i..], position, exclude)
      {
        assert linkIds[i..][1..] == linkIds[i + 1..];
        ghost var next := SetAllCommands(linkIds[i + 1..], position, exclude);
        if linkIds[i] !in exclude {
          var c := PositionOnly(linkIds[i], position, position);
          assert SetAllCommands(linkIds[i..], position, exclude) == [c] + next;
          assert commands + ([c] + next) == (commands + [c]) + next;
          commands := commands + [c];
        } else {
          assert SetAllCommands(linkIds[i..], position, exclude) == next;
        }
        i := i + 1;
      }
    }

    /** `contract`: every link to the minimum position. */
    method Contract()
      modifies this`commands
      ensures commands == old(commands) + seq(|linkIds|, i requires 0 <= i < |linkIds| => PositionOnly(linkIds[i], MinPos, MinPos))
    {
      SetAllNothingExcluded(linkIds, MinPos);
      SetAll(MinPos, []);
    }

    /** The stateable part of `crawl`: the pose is taken for direction 0
        once the first goal is reached and for `dir` otherwise; after the
        (timed) gait the links are contracted. */
    method Crawl(dir: int) returns (pose: Result<(seq<Link>, seq<bool>), PoseError>)
      requires Valid()
      modifies this`commands
      ensures pose == Pose(vertices, topVertex, if firstGoal then 0 else dir)
      ensures pose.Ok? ==> commands == old(commands) + SetAllCommands(linkIds, MinPos, [])
      ensures pose.Err? ==> commands == old(commands)
    {
      var d := dir;
      if firstGoal {
        d := 0;
      }
      pose := CalculatePose(d);
      if pose.Ok? {
        SetAll(MinPos, []);
      }
    }
  }

  /** The id list of `Tetrahedron.__init__`: with no ids, the ids of all
      registered links in increasing order; otherwise exactly six given
      ids.  Every id must name a registered link (a `KeyError` otherwise)
      and there must be six of them (an `IndexError` otherwise). */
  method ChooseIds(linkIds: Option<seq<int>>, registered: set<int>) returns (r: Result<seq<int>, InitError>)
    ensures linkIds.Some? && |linkIds.value| != 6 ==> r == Err(WrongLinkCount(|linkIds.value|))
    ensures r.Err? && r.error.UnknownLink? ==> r.error.id !in registered
    ensures r.Ok? ==> |r.value| >= 6 && forall id | id in r.value :: id in registered
    ensures r.Ok? && linkIds.Some? ==> r.value == linkIds.value
    ensures linkIds.None? ==>
              && (|registered| >= 6 <==> r.Ok?)
              && (r.Ok? ==> StrictlyIncreasing(r.value) && forall id :: id in r.value <==> id in registered)
    ensures linkIds.Some? && |linkIds.value| == 6 && (forall id | id in linkIds.value :: id in registered)
            ==> r.Ok?
  {
    var ids: seq<int>;
    if linkIds.None? {
      ids := SortedKeys(registered);
    } else {
      if |linkIds.value| != 6 {
        return Err(WrongLinkCount(|linkIds.value|));
      }
      ids := linkIds.value;
    }
    var i := 0;
    while i < |ids|
      invariant 0 <= i <= |ids|
      invariant forall k | 0 <= k < i :: ids[k] in registered
    {
      if ids[i] !in registered {
        return Err(UnknownLink(ids[i]));
      }
      i := i + 1;
    }
    if |ids| < 6 {
      return Err(TooFewLinks(|ids|));
    }
    r := Ok(ids);
  }

  /** `Tetrahedron.__init__`: the ids are chosen, the first six become the
      graph with vertex 1 on top, and the pose for `plotDir` is computed for
      the first plot.  On six distinct ids (always so without an explicit
      list) that pose cannot fail. */
  method NewTetrahedron(linkIds: Option<seq<int>>, registered: set<int>, plotDir: int)
    returns (r: Result<Tetrahedron, InitError>)
    ensures linkIds.Some? && |linkIds.value| != 6 ==> r == Err(WrongLinkCount(|linkIds.value|))
    ensures r.Err? && r.error.UnknownLink? ==> r.error.id !in registered
    ensures r.Ok? ==>
              && fresh(r.value) && r.value.Valid() && r.value.topVertex == 1
              && r.value.plotDir == plotDir && r.value.commands == [] && !r.value.firstGoal
              && (forall id | id in r.value.linkIds :: id in registered)
              && (linkIds.Some? ==> r.value.linkIds == linkIds.value)
              && (linkIds.None? ==> StrictlyIncreasing(r.value.linkIds)
                                    && forall id :: id in r.value.linkIds <==> id in registered)
    ensures linkIds.None? && |registered| >= 6 && -3 <= plotDir < 3 ==> r.Ok?
    ensures linkIds.Some? && |linkIds.value| == 6 && Distinct(linkIds.value)
            && (forall id | id in linkIds.value :: id in registered) && -3 <= plotDir < 3
            ==> r.Ok?
  {
    var chosen := ChooseIds(linkIds, registered);
    if chosen.Err? {
      return Err(chosen.error);
    }
    var ids := chosen.value;
    if linkIds.None? {
      IncreasingIsDistinct(ids);
    }
    var t := new Tetrahedron(ids, plotDir);
    if Distinct(ids) && -3 <= plotDir < 3 {
      DistinctIdsPose(ids, 1, plotDir);
    }
    var p := t.CalculatePose(plotDir);
    if p.Err? {
      return Err(InitialPose(p.error));
    }
    r := Ok(t);
  }
}
