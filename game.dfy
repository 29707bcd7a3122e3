/** The game scene: score, lives, the shooting and jumping flags, the two
    timers, the pending touch and the children, updated in place by the
    contact callback, the touch handlers, the timers and the frame update. */
module Game {
  import opened Wrappers
  import opened SceneGraph
  import opened GameRules
  import opened ScoreHistory

  /** What the scene sends out: an impulse applied to the player, or the
      "exitToMenu" notification. */
  datatype Event = Impulse(dy: real) | ExitToMenu

  /** A contact-begin notification: the nodes of its two bodies, None when a
      body no longer has a node. */
  datatype Contact = Contact(a: Option<Node>, b: Option<Node>)

  /** A snapshot of everything the scene holds. `shootingTimer` and
      `ballTimer` say whether a scheduled timer is held; `savedScores` is the
      "scores" entry of the user defaults. */
  datatype SceneState = SceneState(
    score: int, lives: int,
    isPaused: bool, isShooting: bool, isJumping: bool,
    shootingTimer: bool, ballTimer: bool,
    initialTouch: Option<Point>,
    children: seq<Node>, nextId: nat,
    savedScores: seq<int>, events: seq<Event>)

  // ---- The transitions that several handlers share.

  /** stopShooting(). */
  function StopShootingOf(s: SceneState): SceneState {
    s.(isShooting := false, shootingTimer := false)
  }

  /** startShooting(from:): does nothing when already shooting. */
  function StartShootingOf(s: SceneState): SceneState {
    if s.isShooting then s else s.(isShooting := true, shootingTimer := true)
  }

  /** jump(): an impulse of 40 upwards and `isJumping` set, only when there
      is a player sprite and it is not already jumping. */
  function JumpOf(s: SceneState): SceneState {
    match FirstNamed(s.children, PlayerName)
    case None => s
    case Some(i) =>
      if s.children[i].shape.Sprite? && !s.isJumping
      then s.(isJumping := true, events := s.events + [Impulse(JumpImpulse)])
      else s
  }

  /** gameOver(): paused, no pending touch, no timers, the score saved, and
      the overlay with its buttons added. */
  function GameOverOf(s: SceneState, width: real, height: real): SceneState {
    s.(isPaused := true, initialTouch := None,
       isShooting := false, shootingTimer := false, ballTimer := false,
       savedScores := Saved(s.savedScores, s.score),
       children := s.children + GameOverNodes(s.nextId, width, height),
       nextId := s.nextId + 4)
  }

  /** The two labels addHUD(resetScore:) adds. */
  function HudNodes(id: nat, width: real, height: real): seq<Node> {
    [ScoreLabelNode(id, width, height), LivesLabelNode(id + 1, width, height)]
  }

  /** The floor, the player and the first ball of a round. */
  function PlayfieldNodes(id: nat, width: real, height: real, d: BallDraw): seq<Node> {
    [FloorNode(id, width), PlayerNode(id + 1, width), DrawnBall(id + 2, d, height)]
  }

  /** The children of a freshly set up scene: the two HUD labels, the floor,
      the player and one drawn ball. */
  function FreshScene(id: nat, width: real, height: real, d: BallDraw): seq<Node> {
    HudNodes(id, width, height) + PlayfieldNodes(id + 2, width, height, d)
  }

  /** restartGame(): every child replaced by a fresh scene, running, score 0,
      three lives, not shooting, one ball timer and no pending touch.
      `isJumping` is left as it was. */
  function RestartOf(s: SceneState, width: real, height: real, d: BallDraw): SceneState {
    s.(children := FreshScene(s.nextId, width, height, d), nextId := s.nextId + 5,
       isPaused := false, score := 0, lives := InitialLives,
       isShooting := false, shootingTimer := false, ballTimer := true,
       initialTouch := None)
  }

  /** The node of a bullet–ball contact that didBegin treats as the bullet. */
  function BulletOf(a: Node, b: Node): Node {
    if a.name == Some(BulletName) then a else b
  }

  /** The node of a bullet–ball contact that didBegin treats as the ball. */
  function BallOf(a: Node, b: Node): Node {
    if a.name == Some(BallName) then a else b
  }

  /** A bullet hits a ball: 10 points, the bullet and the ball removed, and
      the ball's halves (if it splits) added with the next identities. */
  function HitOf(s: SceneState, bullet: Node, ball: Node, leftVx: real, rightVx: real): SceneState {
    var kids := SplitChildren(ball, s.nextId, leftVx, rightVx);
    s.(score := s.score + HitScore,
       children := Without(Without(s.children, bullet.id), ball.id) + kids,
       nextId := s.nextId + |kids|)
  }

  /** A ball hits the player: one life less, and gameOver when none is left. */
  function LoseLifeOf(s: SceneState, width: real, height: real): SceneState {
    var hit := s.(lives := s.lives - 1);
    if hit.lives <= 0 then GameOverOf(hit, width, height) else hit
  }

  /** didBegin(_:) as a function of the scene: a contact whose body lost its
      node changes nothing; otherwise the rule the two names match applies. */
  function ContactOutcome(s: SceneState, c: Contact, leftVx: real, rightVx: real,
                          width: real, height: real): SceneState
  {
    if c.a.None? || c.b.None? then s
    else
      var a, b := c.a.value, c.b.value;
      if IsBulletBall(a.name, b.name) then HitOf(s, BulletOf(a, b), BallOf(a, b), leftVx, rightVx)
      else if IsPlayerFloor(a.name, b.name) then s.(isJumping := false)
      else if IsPlayerBall(a.name, b.name) then LoseLifeOf(s, width, height)
      else s
  }

  // ---- Properties of the transitions.

  /** The order in which the engine reports the two bodies does not matter. */
  lemma ContactOrderIrrelevant(s: SceneState, a: Node, b: Node, leftVx: real, rightVx: real,
                               width: real, height: real)
    ensures ContactOutcome(s, Contact(Some(a), Some(b)), leftVx, rightVx, width, height)
         == ContactOutcome(s, Contact(Some(b), Some(a)), leftVx, rightVx, width, height)
  {
  }

  /** A contact one of whose bodies has lost its node changes nothing. */
  lemma MissingNodeIgnored(s: SceneState, c: Contact, leftVx: real, rightVx: real,
                           width: real, height: real)
    requires c.a.None? || c.b.None?
    ensures ContactOutcome(s, c, leftVx, rightVx, width, height) == s
  {
  }

  /** A bullet–ball contact scores exactly 10, takes both nodes out of the
      scene, keeps every other child, and adds the ball's two halves when its
      radius exceeds 20 and nothing otherwise. */
  lemma BulletBallContact(s: SceneState, a: Node, b: Node, leftVx: real, rightVx: real,
                          width: real, height: real)
    requires IsBulletBall(a.name, b.name)
    requires a.id < s.nextId && b.id < s.nextId
    ensures var t := ContactOutcome(s, Contact(Some(a), Some(b)), leftVx, rightVx, width, height);
      var ball := BallOf(a, b);
      var kids := SplitChildren(ball, s.nextId, leftVx, rightVx);
      && t.score == s.score + HitScore
      && t.nextId == s.nextId + |kids|
      && t.(score := s.score, children := s.children, nextId := s.nextId) == s
      && (forall n :: n in t.children ==> n.id != a.id && n.id != b.id)
      && (forall n :: n in s.children && n.id != a.id && n.id != b.id ==> n in t.children)
      && (forall k :: k in kids ==> k in t.children)
      && (forall n :: n in t.children ==> n in s.children || n in kids)
      && |kids| == (if Splits(ball) then 2 else 0)
  {
    var bullet, ball := BulletOf(a, b), BallOf(a, b);
    var kids := SplitChildren(ball, s.nextId, leftVx, rightVx);
    var once := Without(s.children, bullet.id);
    RemovingMembers(s.children, WithId(bullet.id));
    RemovingMembers(once, WithId(ball.id));
    assert {bullet.id, ball.id} == {a.id, b.id};
  }

  /** A player–ball contact costs exactly one life; gameOver runs exactly
      when no life is left, and otherwise nothing else changes. */
  lemma PlayerBallContact(s: SceneState, a: Node, b: Node, leftVx: real, rightVx: real,
                          width: real, height: real)
    requires IsPlayerBall(a.name, b.name)
    ensures var t := ContactOutcome(s, Contact(Some(a), Some(b)), leftVx, rightVx, width, height);
      && t.lives == s.lives - 1
      && (s.lives - 1 <= 0 ==> t == GameOverOf(s.(lives := s.lives - 1), width, height))
      && (s.lives - 1 > 0 ==> t == s.(lives := s.lives - 1))
  {
    ContactRulesSymmetricAndExclusive(a.name, b.name);
  }

  /** A player–floor contact only clears `isJumping`. */
  lemma PlayerFloorContact(s: SceneState, a: Node, b: Node, leftVx: real, rightVx: real,
                           width: real, height: real)
    requires IsPlayerFloor(a.name, b.name)
    ensures ContactOutcome(s, Contact(Some(a), Some(b)), leftVx, rightVx, width, height)
         == s.(isJumping := false)
  {
  }


  lemma StopShootingIdempotent(s: SceneState)
    ensures !StopShootingOf(s).isShooting && !StopShootingOf(s).shootingTimer
    ensures StopShootingOf(StopShootingOf(s)) == StopShootingOf(s)
  {
  }

  lemma StartShootingWhenShooting(s: SceneState)
    ensures s.isShooting ==> StartShootingOf(s) == s
    ensures StartShootingOf(s).isShooting
    ensures s.shootingTimer == s.isShooting ==> StartShootingOf(s).shootingTimer
  {
  }

  /** A jump happens at most once until something clears `isJumping`. */
  lemma JumpGuarded(s: SceneState)
    ensures s.isJumping ==> JumpOf(s) == s
    ensures JumpOf(JumpOf(s)) == JumpOf(s)
    ensures JumpOf(s) != s ==>
      !s.isJumping && JumpOf(s) == s.(isJumping := true, events := s.events + [Impulse(JumpImpulse)])
  {
  }

  lemma GameOverStopsEverything(s: SceneState, width: real, height: real)
    ensures var t := GameOverOf(s, width, height);
      t.isPaused && t.initialTouch.None? && !t.isShooting && !t.shootingTimer && !t.ballTimer
      && t.savedScores == Saved(s.savedScores, s.score) && t.savedScores[0] == s.score
      && t.score == s.score && t.lives == s.lives
  {
  }

  /** gameOver is not guarded: a second call saves the same score again. */
  lemma GameOverTwiceSavesTwice(s: SceneState, width: real, height: real)
    ensures var t := GameOverOf(GameOverOf(s, width, height), width, height);
      t.savedScores == Saved(Saved(s.savedScores, s.score), s.score)
  {
  }

  lemma RestartStartsAfresh(s: SceneState, width: real, height: real, d: BallDraw)
    ensures var t := RestartOf(s, width, height, d);
      !t.isPaused && t.score == 0 && t.lives == InitialLives && !t.isShooting && !t.shootingTimer
      && t.ballTimer && t.initialTouch.None? && t.savedScores == s.savedScores
      && |t.children| == 5
      && t.children[..2] == HudNodes(s.nextId, width, height)
      && t.children[2].name == Some(FloorName) && t.children[3].name == Some(PlayerName)
      && t.children[4].name == Some(BallName)
      && (forall k :: 0 <= k < |t.children| && t.children[k].name == Some(BallName) ==> k == 4)
      && (forall k :: 0 <= k < |t.children| ==> t.children[k].name != Some(BulletName))
  {
  }

  // ---- The scene.

  class GameScene {
    const width: real
    const height: real

    var score: int
    var lives: int
    var isPaused: bool
    var isShooting: bool
    var isJumping: bool
    var shootingTimer: bool
    var ballTimer: bool
    var initialTouch: Option<Point>
    var children: seq<Node>
    var nextId: nat
    var savedScores: seq<int>
    var events: seq<Event>

    function State(): SceneState
      reads this
    {
      SceneState(score, lives, isPaused, isShooting, isJumping, shootingTimer, ballTimer,
                 initialTouch, children, nextId, savedScores, events)
    }

    /** The scene's invariant: wide enough to draw a ball position, a
        shooting timer exactly while shooting, a score made of whole hits,
        never more than three lives, and a consistent set of children. */
    ghost predicate Valid()
      reads this
    {
      && width >= 2.0 * SpawnMargin
      && shootingTimer == isShooting
      && score >= 0 && score % HitScore == 0
      && lives <= InitialLives
      && Registered(children, nextId)
    }

    /** GameScene(size:) followed by didMove(to:): HUD with score 0 and three
        lives, floor, player, one drawn ball, and the ball timer. */
    constructor (width: real, height: real, stored: seq<int>, first: BallDraw)
      requires width >= 2.0 * SpawnMargin && ValidDraw(first, width)
      ensures Valid() && this.width == width && this.height == height
      ensures State() == SceneState(0, InitialLives, false, false, false, false, true, None,
                                    FreshScene(0, width, height, first), 5, stored, [])
    {
      this.width, this.height := width, height;
      isShooting, isJumping := false, false;
      shootingTimer, ballTimer := false, false;
      initialTouch := None;
      score, lives := 0, InitialLives;
      isPaused := false;
      children, nextId := [], 0;
      savedScores, events := stored, [];
      new;
      AddHud(true);
      SetUpPlayfield(first);
      ballTimer := true;
    }

    /** addChild(_:) of a node with the next identity. */
    method AddChild(n: Node)
      requires Registered(children, nextId) && n.id == nextId && WellFormed(n)
      modifies this`children, this`nextId
      ensures Registered(children, nextId)
      ensures children == old(children) + [n] && nextId == old(nextId) + 1
    {
      RegisteredAppend(children, nextId, n);
      children := children + [n];
      nextId := nextId + 1;
    }

    /** removeFromParent() of the child with the node's identity; nothing
        happens when it is no longer a child. */
    method RemoveFromParent(n: Node)
      requires Registered(children, nextId)
      modifies this`children
      ensures Registered(children, nextId)
      ensures children == Without(old(children), n.id)
    {
      RegisteredRemoving(children, nextId, WithId(n.id));
      children := Without(children, n.id);
    }

    /** addHUD(resetScore:): lives back to three, the score zeroed only when asked. */
    method AddHud(resetScore: bool)
      requires Registered(children, nextId)
      modifies this`score, this`lives, this`children, this`nextId
      ensures Registered(children, nextId)
      ensures score == (if resetScore then 0 else old(score)) && lives == InitialLives
      ensures children == old(children) + HudNodes(old(nextId), width, height)
      ensures nextId == old(nextId) + 2
    {
      if resetScore {
        score := 0;
      }
      lives := InitialLives;
      AddChild(ScoreLabelNode(nextId, width, height));
      AddChild(LivesLabelNode(nextId, width, height));
    }

    method AddFloor()
      requires Registered(children, nextId)
      modifies this`children, this`nextId
      ensures Registered(children, nextId)
      ensures children == old(children) + [FloorNode(old(nextId), width)] && nextId == old(nextId) + 1
    {
      AddChild(FloorNode(nextId, width));
    }

    method AddPlayer()
      requires Registered(children, nextId)
      modifies this`children, this`nextId
      ensures Registered(children, nextId)
      ensures children == old(children) + [PlayerNode(old(nextId), width)] && nextId == old(nextId) + 1
    {
      AddChild(PlayerNode(nextId, width));
    }

    /** spawnBall(radius:position:) with the velocity it draws. Its callers
        pass a drawn radius in [15, 25] or half of a radius above 20. */
    method SpawnBall(radius: real, pos: Point, vx: real)
      requires Registered(children, nextId) && SplitRadius / 2.0 <= radius <= MaxBallRadius
      modifies this`children, this`nextId
      ensures Registered(children, nextId)
      ensures children == old(children) + [BallNode(old(nextId), radius, pos, vx)]
      ensures nextId == old(nextId) + 1
    {
      AddChild(BallNode(nextId, radius, pos, vx));
    }

    /** shoot(from:). */
    method Shoot(pos: Point)
      requires Registered(children, nextId)
      modifies this`children, this`nextId
      ensures Registered(children, nextId)
      ensures children == old(children) + [BulletNode(old(nextId), pos)] && nextId == old(nextId) + 1
    {
      AddChild(BulletNode(nextId, pos));
    }

    /** saveScore(_:): the new score in front of the stored list, cut back to ten. */
    method SaveScore(newScore: int)
      modifies this`savedScores
      ensures savedScores == Saved(old(savedScores), newScore)
    {
      var scores := savedScores;
      scores := [newScore] + scores;
      if |scores| > MaxScores {
        scores := scores[..MaxScores];
      }
      savedScores := scores;
    }

    /** didBegin(_:), with `leftVx` and `rightVx` the velocities spawnBall
        draws for the two halves of a split ball. The contact's nodes are
        nodes this scene created, wherever the engine has moved them. */
    method DidBegin(contact: Contact, leftVx: real, rightVx: real)
      requires Valid()
      requires contact.a.Some? ==> WellFormed(contact.a.value) && contact.a.value.id < nextId
      requires contact.b.Some? ==> WellFormed(contact.b.value) && contact.b.value.id < nextId
      requires contact.a.Some? ==> IsCurrent(children, contact.a.value)
      requires contact.b.Some? ==> IsCurrent(children, contact.b.value)
      requires -MaxBallSpeed <= leftVx <= MaxBallSpeed && -MaxBallSpeed <= rightVx <= MaxBallSpeed
      modifies this
      ensures Valid()
      ensures State() == ContactOutcome(old(State()), contact, leftVx, rightVx, width, height)
    {
      if contact.a.None? || contact.b.None? {
        return;
      }
      var nodeA, nodeB := contact.a.value, contact.b.value;
      ContactRulesSymmetricAndExclusive(nodeA.name, nodeB.name);
      ghost var before := State();

      if IsBulletBall(nodeA.name, nodeB.name) {
        var bullet := if nodeA.name == Some(BulletName) then nodeA else nodeB;
        var ball := if nodeA.name == Some(BallName) then nodeA else nodeB;
        ResolveHit(bullet, ball, leftVx, rightVx);
        assert State() == HitOf(before, bullet, ball, leftVx, rightVx);
      }

      if IsPlayerFloor(nodeA.name, nodeB.name) {
        isJumping := false;
        assert State() == before.(isJumping := false);
      }

      if IsPlayerBall(nodeA.name, nodeB.name) {
        LoseLife();
      }
    }

    /** The bullet–ball rule of didBegin. */
    method ResolveHit(bullet: Node, ball: Node, leftVx: real, rightVx: real)
      requires Registered(children, nextId)
      requires WellFormed(ball) && ball.name == Some(BallName) && ball.id < nextId
      modifies this`score, this`children, this`nextId
      ensures Registered(children, nextId)
      ensures var kids := SplitChildren(ball, old(nextId), leftVx, rightVx);
        && score == old(score) + HitScore
        && children == Without(Without(old(children), bullet.id), ball.id) + kids
        && nextId == old(nextId) + |kids|
    {
      score := score + HitScore;
      ghost var afterBullet := Without(children, bullet.id);
      ghost var firstId := nextId;
      RemoveFromParent(bullet);
      if ball.shape.Circle? {
        var radius := ball.shape.radius;
        if radius > SplitRadius {
          var newRadius := radius / 2.0;
          SpawnBall(newRadius, Point(ball.pos.x - SplitOffset, ball.pos.y), leftVx);
          SpawnBall(newRadius, Point(ball.pos.x + SplitOffset, ball.pos.y), rightVx);
        }
        ghost var kids := SplitChildren(ball, firstId, leftVx, rightVx);
        assert children == afterBullet + kids;
        RemovingAppend(afterBullet, kids, WithId(ball.id));
        RemovingNothing(kids, WithId(ball.id));
        RemoveFromParent(ball);
      }
    }

    /** The player–ball rule of didBegin. */
    method LoseLife()
      requires Valid()
      modifies this
      ensures Valid()
      ensures State() == LoseLifeOf(old(State()), width, height)
    {
      lives := lives - 1;
      if lives <= 0 {
        GameOver();
      }
    }

    /** gameOver(). Nothing stops it from running again. */
    method GameOver()
      requires Valid()
      modifies this
      ensures Valid()
      ensures State() == GameOverOf(old(State()), width, height)
    {
      Halt();
      SaveScore(score);
      ShowGameOver();
    }

    /** The first lines of gameOver(): paused, the touch forgotten, shooting
        stopped and both timers invalidated. */
    method Halt()
      modifies this`isPaused, this`initialTouch, this`isShooting, this`shootingTimer, this`ballTimer
      ensures isPaused && initialTouch == None && !isShooting && !shootingTimer && !ballTimer
    {
      isPaused, initialTouch := true, None;
      isShooting, shootingTimer := false, false;
      ballTimer := false;
    }

    /** The overlay, the "Game Over" label and the Restart and Main Menu
        buttons that gameOver() adds. */
    method ShowGameOver()
      requires Registered(children, nextId)
      modifies this`children, this`nextId
      ensures Registered(children, nextId)
      ensures children == old(children) + GameOverNodes(old(nextId), width, height)
      ensures nextId == old(nextId) + 4
    {
      var nodes := GameOverNodes(nextId, width, height);
      AddChild(nodes[0]);
      AddChild(nodes[1]);
      AddChild(nodes[2]);
      AddChild(nodes[3]);
    }

    /** restartGame(): all children removed, then the scene set up again
        without the countdown, with the ball drawn as `d`. */
    method RestartGame(d: BallDraw)
      requires Valid() && ValidDraw(d, width)
      modifies this
      ensures Valid()
      ensures State() == RestartOf(old(State()), width, height, d)
    {
      ghost var want := RestartOf(State(), width, height, d);
      children := [];  // removeAllChildren()
      Resume();
      AddHud(false);
      assert children == HudNodes(old(nextId), width, height);

      SetUpPlayfield(d);

      ballTimer := true;
      assert children == want.children;
    }

    /** The first lines of restartGame(): unpaused, score zeroed, shooting
        stopped, both timers invalidated and the touch forgotten. */
    method Resume()
      modifies this`isPaused, this`score, this`isShooting, this`shootingTimer, this`ballTimer,
               this`initialTouch
      ensures !isPaused && score == 0 && !isShooting && !shootingTimer && !ballTimer
      ensures initialTouch == None
    {
      isPaused, score := false, 0;
      isShooting, shootingTimer := false, false;
      ballTimer := false;
      initialTouch := None;
    }

    /** addFloor(), addPlayer() and spawnBall(), as didMove(to:) and
        restartGame() both call them. */
    method SetUpPlayfield(d: BallDraw)
      requires Registered(children, nextId) && ValidDraw(d, width) && width >= 2.0 * SpawnMargin
      modifies this`children, this`nextId
      ensures Registered(children, nextId)
      ensures children == old(children) + PlayfieldNodes(old(nextId), width, height, d)
      ensures nextId == old(nextId) + 3
    {
      AddFloor();
      AddPlayer();
      SpawnBall(d.radius, Point(d.x, height - SpawnMargin), d.vx);
    }

    /** touchesBegan(_:with:) for the first touch, `hits` being the identities
        of the nodes under it and `d` the ball a restart would draw. A restart
        or menu button under the touch is served first; any other touch while
        paused restarts; otherwise the touch is remembered and, on the
        player, starts the shooting. */
    method TouchesBegan(touch: Option<Point>, hits: set<nat>, d: BallDraw)
      requires Valid() && ValidDraw(d, width)
      modifies this
      ensures Valid()
      ensures touch.None? ==> State() == old(State())
      ensures touch.Some? ==>
        var s := old(State());
        if HitsNamed(s.children, hits, RestartName) then State() == RestartOf(s, width, height, d)
        else if HitsNamed(s.children, hits, MenuName) then State() == s.(events := s.events + [ExitToMenu])
        else if s.isPaused then State() == RestartOf(s, width, height, d)
        else
          var touched := s.(initialTouch := touch);
          var p := FirstNamed(s.children, PlayerName);
          State() == if p.Some? && Contains(s.children[p.value], touch.value)
                     then StartShootingOf(touched) else touched
    {
      if touch.None? {
        return;
      }
      var location := touch.value;

      if HitsNamed(children, hits, RestartName) {
        RestartGame(d);
        return;
      }

      if HitsNamed(children, hits, MenuName) {
        events := events + [ExitToMenu];
        return;
      }

      if isPaused {
        RestartGame(d);
        return;
      }

      initialTouch := Some(location);

      var p := FirstNamed(children, PlayerName);
      if p.Some? && Contains(children[p.value], location) {
        StartShooting();
      }
    }

    /** touchesMoved(_:with:): ignored while paused; otherwise the player
        follows the touch horizontally and shooting stops once the touch is
        off the player. */
    method TouchesMoved(touch: Option<Point>)
      requires Valid()
      modifies this
      ensures Valid()
      ensures old(isPaused) || touch.None? || FirstNamed(old(children), PlayerName).None? ==>
        State() == old(State())
      ensures !old(isPaused) && touch.Some? && FirstNamed(old(children), PlayerName).Some? ==>
        var i := FirstNamed(old(children), PlayerName).value;
        var moved := old(children)[i].(pos := old(children)[i].pos.(x := touch.value.x));
        var dragged := old(State()).(children := old(children)[i := moved]);
        State() == if Contains(moved, touch.value) then dragged else StopShootingOf(dragged)
    {
      if isPaused {
        return;
      }
      if touch.None? {
        return;
      }
      var location := touch.value;

      var p := FirstNamed(children, PlayerName);
      if p.Some? {
        var i := p.value;
        var moved := children[i].(pos := children[i].pos.(x := location.x));
        RegisteredReplace(children, nextId, i, moved);
        children := children[i := moved];
        if !Contains(moved, location) {
          StopShooting();
        }
      }
    }

    /** touchesEnded(_:with:): an upward swipe from the remembered touch
        jumps; shooting stops whatever the swipe. */
    method TouchesEnded(touch: Option<Point>)
      requires Valid()
      modifies this
      ensures Valid()
      ensures touch.None? ==> State() == old(State())
      ensures touch.Some? ==>
        var s := old(State());
        var swiped := s.initialTouch.Some? && IsJumpSwipe(s.initialTouch.value, touch.value);
        State() == StopShootingOf(if swiped then JumpOf(s) else s)
    {
      if touch.None? {
        return;
      }
      var endLocation := touch.value;

      if initialTouch.Some? {
        var start := initialTouch.value;
        if IsJumpSwipe(start, endLocation) {
          Jump();
        }
      }

      StopShooting();
    }

    /** update(_:): every bullet above the top edge is removed, then a player
        whose body is nearly still vertically, at most 70 high, is no longer
        jumping. */
    method Update()
      requires Valid()
      modifies this
      ensures Valid()
      ensures
        var kept := Removing(old(children), BulletsAbove(height));
        var p := FirstNamed(kept, PlayerName);
        var landed := p.Some? && kept[p.value].shape.Sprite? && Landed(kept[p.value]);
        State() == old(State()).(children := kept, isJumping := old(isJumping) && !landed)
    {
      var kept: seq<Node> := [];
      var i := 0;
      while i < |children|
        invariant 0 <= i <= |children|
        invariant kept == Removing(children[..i], BulletsAbove(height))
      {
        assert children[..i + 1][..i] == children[..i];
        if !Dropped(children[i], BulletsAbove(height)) {
          kept := kept + [children[i]];
        }
        i := i + 1;
      }
      assert children[..i] == children;
      RegisteredRemoving(children, nextId, BulletsAbove(height));
      children := kept;

      var p := FirstNamed(children, PlayerName);
      if p.Some? && children[p.value].shape.Sprite? {
        if Landed(children[p.value]) {
          isJumping := false;
        }
      }
    }

    /** A step of the physics engine between two handlers: gravity, impulses,
        velocities and collisions move the children, whose new positions and
        velocities are `moved`. The engine neither adds nor removes a node. */
    method EngineMoved(moved: seq<Node>)
      requires Valid() && SameBodies(children, moved)
      modifies this`children
      ensures Valid()
      ensures State() == old(State()).(children := moved)
    {
      RegisteredMoved(children, nextId, moved);
      children := moved;
    }

    /** jump(). */
    method Jump()
      requires Valid()
      modifies this`isJumping, this`events
      ensures Valid()
      ensures State() == JumpOf(old(State()))
    {
      var p := FirstNamed(children, PlayerName);
      if p.None? || !children[p.value].shape.Sprite? {
        return;
      }
      if !isJumping {
        events := events + [Impulse(JumpImpulse)];
        isJumping := true;
      }
    }

    /** startShooting(from:); the position it is given is not used. */
    method StartShooting()
      requires Valid()
      modifies this`isShooting, this`shootingTimer
      ensures Valid()
      ensures State() == StartShootingOf(old(State()))
    {
      if isShooting {
        return;
      }
      isShooting := true;
      shootingTimer := true;
    }

    /** stopShooting(). */
    method StopShooting()
      requires Valid()
      modifies this`isShooting, this`shootingTimer
      ensures Valid()
      ensures !isShooting && !shootingTimer
    {
      isShooting := false;
      shootingTimer := false;
    }

    /** One firing of the shooting timer: a bullet 40 above the player. */
    method ShootingTimerFired()
      requires Valid() && shootingTimer
      modifies this
      ensures Valid()
      ensures FirstNamed(old(children), PlayerName).None? ==> State() == old(State())
      ensures FirstNamed(old(children), PlayerName).Some? ==>
        var player := old(children)[FirstNamed(old(children), PlayerName).value];
        State() == old(State()).(
          children := old(children) + [BulletNode(old(nextId), Point(player.pos.x, player.pos.y + MuzzleOffset))],
          nextId := old(nextId) + 1)
    {
      var p := FirstNamed(children, PlayerName);
      if p.None? {
        return;
      }
      var player := children[p.value];
      Shoot(Point(player.pos.x, player.pos.y + MuzzleOffset));
    }

    /** One firing of the ball timer: spawnBall() with the draw `d`. */
    method BallTimerFired(d: BallDraw)
      requires Valid() && ballTimer && ValidDraw(d, width)
      modifies this
      ensures Valid()
      ensures State() == old(State()).(children := old(children) + [DrawnBall(old(nextId), d, height)],
                                       nextId := old(nextId) + 1)
    {
      SpawnBall(d.radius, Point(d.x, height - SpawnMargin), d.vx);
    }
  }
}
