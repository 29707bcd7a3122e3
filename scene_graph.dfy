/** The children of a sprite scene as values: what each node is, how the
    scene finds a child by name, and how children leave the scene. */
module SceneGraph {
  import opened Wrappers

  /** A point or a vector in scene coordinates (CGPoint, CGVector). */
  datatype Point = Point(x: real, y: real)

  const Origin := Point(0.0, 0.0)

  function Abs(v: real): (r: real)
    ensures r >= 0.0 && (r == v || r == -v)
  {
    if v < 0.0 then -v else v
  }

  /** What a node draws: a rectangle sprite, a circle shape, or a text label
      whose extent depends on font metrics. */
  datatype Shape = Sprite(width: real, height: real) | Circle(radius: real) | Label

  /** The names the scene gives its nodes: "player", "bullet", "ball",
      "floor", "overlay", "restartButton" and "menuButton". */
  datatype Name = Player | Bullet | Ball | Floor | Overlay | RestartButton | MenuButton

  /** A child of the scene: its identity, its name (None for an unnamed node),
      its shape, and the position and velocity of its physics body: as the
      game set them, or as the engine's last step left them. */
  datatype Node = Node(id: nat, name: Option<Name>, shape: Shape, pos: Point, vel: Point)

  /** SKNode.contains for a child of the scene: the point lies in the node's
      frame, which is centred on its position and, like CGRect, includes its
      lower edges and excludes its upper ones. Only sprites and circles are
      ever asked; a label's extent is not modelled. */
  predicate Contains(n: Node, p: Point) {
    match n.shape
    case Sprite(w, h) =>
      n.pos.x - w / 2.0 <= p.x < n.pos.x + w / 2.0 && n.pos.y - h / 2.0 <= p.y < n.pos.y + h / 2.0
    case Circle(r) =>
      n.pos.x - r <= p.x < n.pos.x + r && n.pos.y - r <= p.y < n.pos.y + r
    case Label => false
  }

  /** childNode(withName:): the index of the first child carrying the name. */
  function FirstNamed(s: seq<Node>, name: Name): (r: Option<nat>)
    ensures r.Some? ==> r.value < |s| && s[r.value].name == Some(name)
    ensures r.Some? ==> forall j :: 0 <= j < r.value ==> s[j].name != Some(name)
    ensures r.None? ==> forall j :: 0 <= j < |s| ==> s[j].name != Some(name)
  {
    if s == [] then None
    else if s[0].name == Some(name) then Some(0)
    else match FirstNamed(s[1..], name)
      case None => None
      case Some(k) => Some(k + 1)
  }

  /** True when some child whose id the hit test reported carries the name
      (nodes(at:) followed by contains(where:)). */
  predicate HitsNamed(s: seq<Node>, hits: set<nat>, name: Name) {
    exists i :: 0 <= i < |s| && s[i].id in hits && s[i].name == Some(name)
  }

  /** The identity of the i-th child. The quantifiers over children's
      identities are triggered on this term only, so that they stay quiet
      wherever a proof does not mention it. */
  function IdAt(s: seq<Node>, i: nat): nat
    requires i < |s|
  {
    s[i].id
  }

  /** No two children share an identity. */
  predicate UniqueIds(s: seq<Node>) {
    forall i, j {:trigger IdAt(s, i), IdAt(s, j)} :: 0 <= i < j < |s| ==> IdAt(s, i) != IdAt(s, j)
  }

  /** Which children a removal pass takes out: the one with an identity
      (removeFromParent), or every bullet above a height (update's sweep). */
  datatype Drop = WithId(id: nat) | BulletsAbove(top: real)

  predicate Dropped(n: Node, d: Drop) {
    match d
    case WithId(id) => n.id == id
    case BulletsAbove(top) => n.name == Some(Bullet) && n.pos.y > top
  }

  /** The children that remain, in order, once every child the drop
      describes has been removed from its parent. */
  function Removing(s: seq<Node>, d: Drop): seq<Node>
  {
    if s == [] then []
    else
      var rest := Removing(s[..|s| - 1], d);
      if Dropped(s[|s| - 1], d) then rest else rest + [s[|s| - 1]]
  }

  /** What a step of the physics engine may change: the same nodes in the
      same order, with the same identities, names and shapes, at new
      positions and with new velocities. */
  predicate SameBodies(s: seq<Node>, t: seq<Node>) {
    && |t| == |s|
    && forall i :: 0 <= i < |s| ==>
         t[i].id == s[i].id && t[i].name == s[i].name && t[i].shape == s[i].shape
  }

  /** A node the engine reports is the scene's current child with its
      identity, when it still has one. */
  predicate IsCurrent(s: seq<Node>, n: Node) {
    forall i {:trigger IdAt(s, i)} :: 0 <= i < |s| && IdAt(s, i) == n.id ==> s[i] == n
  }

  /** removeFromParent() of the child with this identity. */
  function Without(s: seq<Node>, id: nat): seq<Node> {
    Removing(s, WithId(id))
  }

  /** A child remains exactly when it was a child and is not dropped. */
  lemma {:induction false} RemovingMembers(s: seq<Node>, d: Drop)
    ensures forall n :: n in Removing(s, d) <==> n in s && !Dropped(n, d)
  {
    if s != [] {
      var init := s[..|s| - 1];
      RemovingMembers(init, d);
      assert s == init + [s[|s| - 1]];
    }
  }

  lemma {:induction false} RemovingAppend(a: seq<Node>, b: seq<Node>, d: Drop)
    ensures Removing(a + b, d) == Removing(a, d) + Removing(b, d)
    decreases |b|
  {
    if b == [] {
      assert a + b == a;
    } else {
      var init := b[..|b| - 1];
      assert (a + b)[..|a + b| - 1] == a + init;
      assert (a + b)[|a + b| - 1] == b[|b| - 1];
      RemovingAppend(a, init, d);
    }
  }

  lemma {:induction false} RemovingNothing(s: seq<Node>, d: Drop)
    requires forall n :: n in s ==> !Dropped(n, d)
    ensures Removing(s, d) == s
  {
    if s != [] {
      var init := s[..|s| - 1];
      assert forall n :: n in init ==> n in s;
      RemovingNothing(init, d);
      assert init + [s[|s| - 1]] == s;
    }
  }

  lemma {:induction false} RemovingKeepsUnique(s: seq<Node>, d: Drop)
    requires UniqueIds(s)
    ensures UniqueIds(Removing(s, d))
  {
    if s != [] {
      var init := s[..|s| - 1];
      var last := s[|s| - 1];
      forall i, j | 0 <= i < j < |init| ensures IdAt(init, i) != IdAt(init, j) {
        assert IdAt(s, i) != IdAt(s, j);
      }
      RemovingKeepsUnique(init, d);
      RemovingMembers(init, d);
      var rest := Removing(init, d);
      if !Dropped(last, d) {
        forall n | n in rest ensures n.id != last.id {
          assert n in init;
          var i :| 0 <= i < |init| && init[i] == n;
          assert IdAt(s, i) != IdAt(s, |s| - 1);
        }
        AppendUnique(rest, last);
      }
    }
  }

  lemma AppendUnique(s: seq<Node>, n: Node)
    requires UniqueIds(s)
    requires forall m :: m in s ==> m.id != n.id
    ensures UniqueIds(s + [n])
  {
    var t := s + [n];
    forall i, j | 0 <= i < j < |t| ensures IdAt(t, i) != IdAt(t, j) {
      if j == |s| {
        assert t[i] in s;
      } else {
        assert IdAt(s, i) != IdAt(s, j);
      }
    }
  }
}
