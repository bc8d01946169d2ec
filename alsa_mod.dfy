/** The two enumerations shared by the ALSA binding: the stream direction
    and the search policy used when a hardware parameter is narrowed. Both
    derive Copy, structural equality and the declaration-order ordering. */
module Alsa {

  /** Replaces the driver constants ending in PLAYBACK/CAPTURE. */
  datatype Direction = Playback | Capture

  /** In which direction the driver searches when the submitted value of a
      hardware parameter is unavailable. */
  datatype ValueOr = Nearest

  /** The discriminant Rust assigns to each variant (declaration order). */
  function DirectionDiscriminant(d: Direction): (n: nat)
    ensures n < 2
    ensures d == Playback <==> n == 0
  {
    match d
    case Playback => 0
    case Capture => 1
  }

  /** `Nearest = 0` is written out in the declaration. */
  function ValueOrDiscriminant(v: ValueOr): (n: nat)
    ensures n == 0
  {
    match v
    case Nearest => 0
  }

  /** The derived `PartialOrd`/`Ord`: variants compare by discriminant. */
  predicate DirectionLess(a: Direction, b: Direction) {
    DirectionDiscriminant(a) < DirectionDiscriminant(b)
  }

  predicate ValueOrLess(a: ValueOr, b: ValueOr) {
    ValueOrDiscriminant(a) < ValueOrDiscriminant(b)
  }

  /** Exactly two directions exist. */
  lemma DirectionCases(d: Direction)
    ensures d == Playback || d == Capture
    ensures Playback != Capture
  {
  }

  /** The derived order places `Playback` before `Capture`. */
  lemma PlaybackBeforeCapture()
    ensures DirectionLess(Playback, Capture)
    ensures !DirectionLess(Capture, Playback)
  {
  }

  /** The derived order is a strict total order on `Direction`. */
  lemma DirectionLessIsStrictTotal(a: Direction, b: Direction, c: Direction)
    ensures !DirectionLess(a, a)
    ensures DirectionLess(a, b) && DirectionLess(b, c) ==> DirectionLess(a, c)
    ensures a != b ==> DirectionLess(a, b) || DirectionLess(b, a)
  {
  }

  /** Derived structural equality: equal iff the same variant, i.e. the
      same discriminant. */
  lemma DirectionEqualityIsDiscriminant(a: Direction, b: Direction)
    ensures a == b <==> DirectionDiscriminant(a) == DirectionDiscriminant(b)
  {
  }

  /** `ValueOr` has a single policy, so any two values are equal and
      neither is less than the other. */
  lemma ValueOrSingleton(a: ValueOr, b: ValueOr)
    ensures a == Nearest && a == b
    ensures !ValueOrLess(a, b)
  {
  }
}
