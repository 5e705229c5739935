/**
 * Panel placement of the cover (src/components/Cover.tsx): the scaled scene
 * dimensions, the view-mode layout resolver that turns a view mode and an
 * open angle into four hinge rotations, the spring configuration that
 * animates them, and the card stack shown in open mode.
 *
 * Rotations are in DEGREES. The source works in radians, `deg * PI / 180`;
 * every constant it uses is a multiple of PI / 2 or the open angle so
 * converted, so degrees carry the same values without an approximation of PI.
 */
module Layout {
  import opened Types

  /** Millimetres to scene units: 1 mm is 0.01 units. */
  const Scale: real := 0.01

  /** Panel sizes in scene units. */
  const FrontW: real := CoverDims.frontWidth * Scale
  const FrontH: real := CoverDims.frontHeight * Scale
  const BackW: real := CoverDims.backWidth * Scale
  const BackH: real := CoverDims.backHeight * Scale
  const SpineW: real := CoverDims.spineDepth * Scale

  /**
   * Rotations about the shared vertical axis: the front panel (hinged on the
   * spine's right edge), the back panel (left edge), and the two flaps hinged
   * on the outer edges of those panels.
   */
  datatype Rotations = Rotations(front: real, back: real, frontFlap: real, backFlap: real)

  /** Both panels flush with the spine, both flaps folded in. */
  const ClosedLayout := Rotations(front := 0.0, back := 0.0, frontFlap := 90.0, backFlap := -90.0)

  /**
   * The layout resolver. The two halves of the cover always mirror each
   * other about the spine, flaps are either folded in or laid out, and for
   * any open angle the control allows the panels swing no further than flat.
   */
  function GetRotations(mode: ViewMode, openAngle: real): (r: Rotations)
    ensures r.front == -r.back && r.frontFlap == -r.backFlap
    ensures r.frontFlap == 90.0 || r.frontFlap == 0.0
    ensures r.frontFlap == 0.0 <==> mode == Flat
    ensures 0.0 <= openAngle <= 180.0 ==> -90.0 <= r.front <= 0.0
  {
    match mode
    case Closed => ClosedLayout
    case Open => Rotations(front := -openAngle / 2.0, back := openAngle / 2.0, frontFlap := 90.0, backFlap := -90.0)
    case Flat => Rotations(front := -90.0, back := 90.0, frontFlap := 0.0, backFlap := 0.0)
    case Unrecognised(_) => ClosedLayout
  }

  /** Closed: panels at 0, flaps at +90 / -90, whatever the open angle. */
  lemma ClosedIgnoresAngle(openAngle: real)
    ensures GetRotations(Closed, openAngle) == Rotations(0.0, 0.0, 90.0, -90.0)
  {
  }

  /** Any mode outside the union falls back to exactly the closed layout. */
  lemma UnrecognisedIsClosed(name: string, a: real, b: real)
    ensures GetRotations(Unrecognised(name), a) == GetRotations(Closed, b)
  {
  }

  /** Open: each panel swings half the open angle, in opposite directions; flaps stay folded. */
  lemma OpenHalvesAngle(openAngle: real)
    ensures GetRotations(Open, openAngle).front == -openAngle / 2.0
    ensures GetRotations(Open, openAngle).back == openAngle / 2.0
    ensures GetRotations(Open, openAngle).back - GetRotations(Open, openAngle).front == openAngle
    ensures GetRotations(Open, openAngle).frontFlap == 90.0
    ensures GetRotations(Open, openAngle).backFlap == -90.0
  {
  }

  /** The default open angle of 90 degrees puts the panels at -45 and +45 degrees. */
  lemma OpenAtRightAngle()
    ensures GetRotations(Open, 90.0) == Rotations(-45.0, 45.0, 90.0, -90.0)
  {
  }

  /** Flat: panels at -90 / +90 and flaps unfolded, whatever the open angle. */
  lemma FlatIgnoresAngle(openAngle: real)
    ensures GetRotations(Flat, openAngle) == Rotations(-90.0, 90.0, 0.0, 0.0)
  {
  }

  /**
   * Open mode joins the other two continuously: at 0 degrees it is the
   * closed layout, at 180 degrees its panels lie where flat mode puts them.
   */
  lemma OpenEndpoints(a: real)
    ensures GetRotations(Open, 0.0) == GetRotations(Closed, a)
    ensures GetRotations(Open, 180.0).front == GetRotations(Flat, a).front
    ensures GetRotations(Open, 180.0).back == GetRotations(Flat, a).back
  {
  }

  /** Opening wider swings the front panel further out. */
  lemma OpenMonotone(a: real, b: real)
    requires a <= b
    ensures GetRotations(Open, b).front <= GetRotations(Open, a).front
    ensures GetRotations(Open, a).back <= GetRotations(Open, b).back
  {
  }

  /** The one spring configuration shared by all four hinges. */
  datatype SpringConfig = SpringConfig(mass: real, tension: real, friction: real)

  /**
   * Spring parameters for an animation speed: unit mass and a fixed friction
   * of 26; the speed multiplies the base tension of 170, so over the control's
   * range [0.1, 3] the tension stays within [17, 510].
   */
  function Spring(animationSpeed: real): (c: SpringConfig)
    ensures c.mass == 1.0 && c.friction == 26.0
    ensures 0.1 <= animationSpeed <= 3.0 ==> 17.0 <= c.tension <= 510.0
    ensures animationSpeed > 0.0 ==> c.tension > 0.0
  {
    SpringConfig(mass := 1.0, tension := 170.0 * animationSpeed, friction := 26.0)
  }

  /** Tension is proportional to speed; friction and mass do not change with it. */
  lemma SpringScalesTension(speed: real, k: real)
    ensures Spring(k * speed).tension == k * Spring(speed).tension
    ensures Spring(k * speed).friction == Spring(speed).friction
    ensures Spring(k * speed).mass == Spring(speed).mass
  {
  }

  /** The placeholder card stack behind the spine appears only in open mode. */
  predicate CardStackShown(mode: ViewMode)
  {
    mode == Open
  }

  /**
   * Whenever the card stack is shown, the panels are spread by the open
   * angle; in every other mode it is hidden.
   */
  lemma CardStackOnlyWhenOpen(mode: ViewMode, openAngle: real)
    ensures CardStackShown(mode) <==> mode == Open
    ensures CardStackShown(mode) ==> GetRotations(mode, openAngle).back - GetRotations(mode, openAngle).front == openAngle
  {
  }
}
