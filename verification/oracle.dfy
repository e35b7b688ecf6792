// The game's only source of randomness.
module Oracle {
  /** `randomIntBetween(min, max)`: some integer in the closed range [min, max].
    * Which one is left open; the floating-point draw behind it is not modelled. */
  method RandomIntBetween(min: int, max: int) returns (r: int)
    requires min <= max
    ensures min <= r <= max
  {
    r :| min <= r <= max;
  }
}
