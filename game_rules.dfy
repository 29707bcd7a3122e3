/** The game's fixed rules: its constants, the nodes it creates, how a
    contact is classified by the names of the two nodes, the upward swipe,
    the splitting of a hit ball and the landing fallback. */
module GameRules {
  import opened Wrappers
  import opened SceneGraph

  const InitialLives := 3
  const HitScore := 10
  const JumpImpulse: real := 40.0
  const SwipeMinimum: real := 50.0
  const SplitRadius: real := 20.0
  const SplitOffset: real := 20.0
  const MinBallRadius: real := 15.0
  const MaxBallRadius: real := 25.0
  const MaxBallSpeed: real := 200.0
  const SpawnMargin: real := 50.0
  const BulletRadius: real := 10.0
  const BulletSpeed: real := 600.0
  const MuzzleOffset: real := 40.0
  const PlayerSize: real := 50.0
  const FloorHeight: real := 20.0
  const LandingSpeed: real := 0.1
  const LandingHeight: real := 70.0

  const PlayerName: Name := Player
  const BulletName: Name := Bullet
  const BallName: Name := Ball
  const FloorName: Name := Floor
  const OverlayName: Name := Overlay
  const RestartName: Name := RestartButton
  const MenuName: Name := MenuButton

  // ---- The nodes the scene creates (the scene's frame is (0, 0, width, height)).

  function ScoreLabelNode(id: nat, width: real, height: real): Node {
    Node(id, None, Label, Point(20.0, height - 60.0), Origin)
  }

  function LivesLabelNode(id: nat, width: real, height: real): Node {
    Node(id, None, Label, Point(width - 20.0, height - 60.0), Origin)
  }

  /** addFloor as the scene uses it: a static 20-high strip along the bottom,
      named "floor" (see FloorNodeAsWritten for the node the source builds). */
  function FloorNode(id: nat, width: real): Node {
    Node(id, Some(FloorName), Sprite(width, FloorHeight), Point(width / 2.0, 10.0), Origin)
  }

  /** addFloor exactly as written: the floor is never given a name. */
  function FloorNodeAsWritten(id: nat, width: real): Node {
    Node(id, None, Sprite(width, FloorHeight), Point(width / 2.0, 10.0), Origin)
  }

  function PlayerNode(id: nat, width: real): Node {
    Node(id, Some(PlayerName), Sprite(PlayerSize, PlayerSize), Point(width / 2.0, 60.0), Origin)
  }

  /** spawnBall: a circle of the given radius at `pos`, moving sideways at `vx`. */
  function BallNode(id: nat, radius: real, pos: Point, vx: real): Node {
    Node(id, Some(BallName), Circle(radius), pos, Point(vx, 0.0))
  }

  /** shoot(from:): a radius-10 bullet moving straight up at 600. */
  function BulletNode(id: nat, pos: Point): Node {
    Node(id, Some(BulletName), Circle(BulletRadius), pos, Point(0.0, BulletSpeed))
  }

  /** The overlay, the "Game Over" label and the two buttons gameOver adds. */
  function GameOverNodes(id: nat, width: real, height: real): seq<Node> {
    var mid := Point(width / 2.0, height / 2.0);
    [ Node(id, Some(OverlayName), Sprite(width, height), mid, Origin),
      Node(id + 1, None, Label, mid.(y := mid.y + 60.0), Origin),
      Node(id + 2, Some(RestartName), Label, mid, Origin),
      Node(id + 3, Some(MenuName), Label, mid.(y := mid.y - 60.0), Origin) ]
  }

  /** The random choices spawnBall makes: radius, horizontal position, horizontal speed. */
  datatype BallDraw = BallDraw(radius: real, x: real, vx: real)

  /** The ranges CGFloat.random draws from; the x range is empty (a trap in
      Swift) unless the scene is at least 100 wide. */
  predicate ValidDraw(d: BallDraw, width: real) {
    MinBallRadius <= d.radius <= MaxBallRadius
    && SpawnMargin <= d.x <= width - SpawnMargin
    && -MaxBallSpeed <= d.vx <= MaxBallSpeed
  }

  /** The ball spawnBall() makes from a draw: at the drawn x, 50 below the top. */
  function DrawnBall(id: nat, d: BallDraw, height: real): Node {
    BallNode(id, d.radius, Point(d.x, height - SpawnMargin), d.vx)
  }

  /** What every child of the scene satisfies: balls have a radius between
      half the split threshold and the largest drawn radius, and the player is
      the 50 by 50 sprite. */
  predicate WellFormed(n: Node) {
    && (n.name == Some(BallName) ==> n.shape.Circle? && SplitRadius / 2.0 <= n.shape.radius <= MaxBallRadius)
    && (n.name == Some(PlayerName) ==> n.shape == Sprite(PlayerSize, PlayerSize))
  }

  /** The scene's registry invariant: distinct identities, all below the next
      identity to hand out, and every child well formed. */
  predicate Registered(s: seq<Node>, next: nat) {
    && UniqueIds(s)
    && forall i {:trigger IdAt(s, i)} :: 0 <= i < |s| ==> IdAt(s, i) < next && WellFormed(s[i])
  }

  /** A child of a registered list has an identity below the next one. */
  lemma RegisteredMember(s: seq<Node>, next: nat, n: Node)
    requires Registered(s, next) && n in s
    ensures n.id < next && WellFormed(n)
  {
    var k :| 0 <= k < |s| && s[k] == n;
    assert IdAt(s, k) < next;
  }

  lemma RegisteredAppend(s: seq<Node>, next: nat, n: Node)
    requires Registered(s, next) && n.id == next && WellFormed(n)
    ensures Registered(s + [n], next + 1)
  {
    forall m | m in s ensures m.id != n.id {
      RegisteredMember(s, next, m);
    }
    AppendUnique(s, n);
    var t := s + [n];
    forall i | 0 <= i < |t| ensures IdAt(t, i) < next + 1 && WellFormed(t[i]) {
      if i < |s| {
        assert IdAt(s, i) < next;
      }
    }
  }

  lemma RegisteredRemoving(s: seq<Node>, next: nat, d: Drop)
    requires Registered(s, next)
    ensures Registered(Removing(s, d), next)
  {
    RemovingKeepsUnique(s, d);
    RemovingMembers(s, d);
    var r := Removing(s, d);
    forall i | 0 <= i < |r| ensures IdAt(r, i) < next && WellFormed(r[i]) {
      RegisteredMember(s, next, r[i]);
    }
  }

  /** Moving children around keeps the invariant. */
  lemma RegisteredMoved(s: seq<Node>, next: nat, t: seq<Node>)
    requires Registered(s, next) && SameBodies(s, t)
    ensures Registered(t, next)
  {
    forall k | 0 <= k < |t| ensures IdAt(t, k) == IdAt(s, k) && IdAt(t, k) < next && WellFormed(t[k]) {
      assert IdAt(s, k) < next;
    }
    forall j, k | 0 <= j < k < |t| ensures IdAt(t, j) != IdAt(t, k) {
      assert IdAt(s, j) != IdAt(s, k);
    }
  }

  /** Replacing a child by one with the same identity, name and shape keeps the invariant. */
  lemma RegisteredReplace(s: seq<Node>, next: nat, i: nat, m: Node)
    requires Registered(s, next) && i < |s|
    requires m.id == s[i].id && m.name == s[i].name && m.shape == s[i].shape
    ensures Registered(s[i := m], next)
  {
    RegisteredMoved(s, next, s[i := m]);
  }

  // ---- Contacts, classified by the names of the two nodes as didBegin does.

  /** `[nameA, nameB].contains(name)`. */
  predicate Mentions(a: Option<Name>, b: Option<Name>, name: Name) {
    a == Some(name) || b == Some(name)
  }

  predicate IsBulletBall(a: Option<Name>, b: Option<Name>) {
    Mentions(a, b, BulletName) && Mentions(a, b, BallName)
  }

  predicate IsPlayerFloor(a: Option<Name>, b: Option<Name>) {
    Mentions(a, b, PlayerName) && Mentions(a, b, FloorName)
  }

  predicate IsPlayerBall(a: Option<Name>, b: Option<Name>) {
    Mentions(a, b, PlayerName) && Mentions(a, b, BallName)
  }

  /** The three rules do not depend on body order, and a contact of two
      nodes matches at most one of them. */
  lemma ContactRulesSymmetricAndExclusive(a: Option<Name>, b: Option<Name>)
    ensures IsBulletBall(a, b) == IsBulletBall(b, a)
    ensures IsPlayerFloor(a, b) == IsPlayerFloor(b, a)
    ensures IsPlayerBall(a, b) == IsPlayerBall(b, a)
    ensures IsBulletBall(a, b) ==> !IsPlayerFloor(a, b) && !IsPlayerBall(a, b)
    ensures IsPlayerFloor(a, b) ==> !IsPlayerBall(a, b)
  {
  }

  /** The node didBegin treats as the bullet (resp. the ball) is the one so named. */
  lemma BulletBallRoles(a: Node, b: Node)
    requires IsBulletBall(a.name, b.name)
    ensures (if a.name == Some(BulletName) then a else b).name == Some(BulletName)
    ensures (if a.name == Some(BallName) then a else b).name == Some(BallName)
    ensures (if a.name == Some(BulletName) then a else b) != (if a.name == Some(BallName) then a else b)
  {
  }

  /** Finding: as written, the floor has no name, so no contact involving
      the floor ever matches the player–floor rule. */
  lemma UnnamedFloorNeverLands(id: nat, width: real, other: Node)
    ensures !IsPlayerFloor(FloorNodeAsWritten(id, width).name, other.name)
    ensures !IsPlayerFloor(other.name, FloorNodeAsWritten(id, width).name)
  {
  }

  /** With the floor named, the player touching the floor matches the rule
      in either body order. */
  lemma NamedFloorLands(floorId: nat, playerId: nat, width: real)
    ensures IsPlayerFloor(PlayerNode(playerId, width).name, FloorNode(floorId, width).name)
    ensures IsPlayerFloor(FloorNode(floorId, width).name, PlayerNode(playerId, width).name)
  {
  }

  // ---- Swipes.

  /** touchesEnded's swipe test: the touch moved more than 50 up, and more
      up than sideways. */
  predicate IsJumpSwipe(start: Point, end: Point) {
    var dy := end.y - start.y;
    dy > SwipeMinimum && dy > Abs(end.x - start.x)
  }

  /** The same test without the absolute value: the end point lies more than
      50 above the start, inside the upward quarter-plane bounded by the two
      diagonals through the start. So it depends only on the displacement,
      and a swipe to the left jumps exactly when its mirror image does. */
  lemma JumpSwipeCone(start: Point, end: Point)
    ensures IsJumpSwipe(start, end) <==>
      var dx, dy := end.x - start.x, end.y - start.y;
      dy > SwipeMinimum && -dy < dx < dy
    ensures IsJumpSwipe(start, end) <==> IsJumpSwipe(Point(-start.x, start.y), Point(-end.x, end.y))
  {
  }

  lemma SwipeExamples()
    ensures IsJumpSwipe(Point(100.0, 100.0), Point(100.0, 160.0))
    ensures !IsJumpSwipe(Point(100.0, 100.0), Point(140.0, 130.0))
    ensures !IsJumpSwipe(Point(100.0, 100.0), Point(100.0, 150.0))
    ensures !IsJumpSwipe(Point(100.0, 160.0), Point(100.0, 100.0))
  {
  }

  // ---- Splitting.

  /** A hit ball splits when its radius exceeds 20. */
  predicate Splits(ball: Node) {
    ball.shape.Circle? && ball.shape.radius > SplitRadius
  }

  /** The balls a bullet hit spawns from `ball`: two of half its radius, 20
      to its left and 20 to its right, or none. */
  function SplitChildren(ball: Node, firstId: nat, leftVx: real, rightVx: real): (kids: seq<Node>)
    ensures Splits(ball) ==> |kids| == 2
    ensures !Splits(ball) ==> kids == []
    ensures forall k :: k in kids ==>
      k.name == Some(BallName) && k.shape == Circle(ball.shape.radius / 2.0)
      && k.pos.y == ball.pos.y && firstId <= k.id < firstId + 2
    ensures |kids| == 2 ==>
      kids[0].pos.x == ball.pos.x - SplitOffset && kids[1].pos.x == ball.pos.x + SplitOffset
      && kids[0].id == firstId && kids[1].id == firstId + 1
      && kids[0].vel == Point(leftVx, 0.0) && kids[1].vel == Point(rightVx, 0.0)
  {
    if Splits(ball) then
      var r := ball.shape.radius / 2.0;
      [ BallNode(firstId, r, Point(ball.pos.x - SplitOffset, ball.pos.y), leftVx),
        BallNode(firstId + 1, r, Point(ball.pos.x + SplitOffset, ball.pos.y), rightVx) ]
    else []
  }

  /** Splitting goes one level deep: the children of a well-formed ball are
      well formed and never split again, so one spawned ball takes at most
      three bullet hits (30 points) to clear. */
  lemma SplitIsOneLevel(ball: Node, firstId: nat, leftVx: real, rightVx: real)
    requires WellFormed(ball) && ball.name == Some(BallName)
    ensures forall k :: k in SplitChildren(ball, firstId, leftVx, rightVx) ==> WellFormed(k) && !Splits(k)
  {
  }

  // ---- The frame update.

  /** After update's sweep no bullet is above the top edge, every other
      child is still there, and no child was added. */
  lemma SweepKeepsTheRest(s: seq<Node>, top: real)
    ensures var kept := Removing(s, BulletsAbove(top));
      (forall n :: n in kept ==> n in s && !(n.name == Some(BulletName) && n.pos.y > top))
      && (forall n :: n in s && (n.name != Some(BulletName) || n.pos.y <= top) ==> n in kept)
  {
    RemovingMembers(s, BulletsAbove(top));
  }

  // ---- Landing.

  /** update's landing fallback: the player is nearly still vertically and
      no higher than 70. */
  predicate Landed(player: Node) {
    Abs(player.vel.y) < LandingSpeed && player.pos.y <= LandingHeight
  }

  /** The player at rest where it was put has landed; at the top of a jump
      (still, but 120 high), or still moving at the floor, it has not. */
  lemma LandingExamples(id: nat, width: real)
    ensures Landed(PlayerNode(id, width))
    ensures Landed(PlayerNode(id, width).(vel := Point(0.0, -0.05)))
    ensures !Landed(PlayerNode(id, width).(pos := Point(width / 2.0, 120.0)))
    ensures !Landed(PlayerNode(id, width).(vel := Point(0.0, -5.0)))
    ensures !Landed(PlayerNode(id, width).(vel := Point(0.0, 0.1)))
    ensures Landed(PlayerNode(id, width).(pos := Point(width / 2.0, 70.0)))
  {
  }
}
