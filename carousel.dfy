/**
 * The home page's testimonial carousel: previous and next wrap around, and
 * a dot jumps straight to its testimonial.
 */
module Carousel {
  /** `testimonials.length` on the home page. */
  const TestimonialCount: nat := 3

  /** `p === 0 ? length - 1 : p - 1`. */
  function Prev(p: nat, length: nat): (r: nat)
    requires p < length
    ensures r < length
    ensures p == 0 ==> r == length - 1
    ensures p > 0 ==> r == p - 1
  {
    if p == 0 then length - 1 else p - 1
  }

  /** `p === length - 1 ? 0 : p + 1`. */
  function Next(p: nat, length: nat): (r: nat)
    requires p < length
    ensures r < length
    ensures p == length - 1 ==> r == 0
    ensures p < length - 1 ==> r == p + 1
  {
    if p == length - 1 then 0 else p + 1
  }

  /** Both steps are rotation by one, modulo the length. */
  lemma StepsAreRotation(p: nat, length: nat)
    requires p < length
    ensures Next(p, length) == (p + 1) % length
    ensures Prev(p, length) == (p + length - 1) % length
  {
    if p == length - 1 {
      assert (p + 1) % length == 0;
    } else {
      assert (p + 1) % length == p + 1;
    }
    if p == 0 {
      assert (p + length - 1) % length == length - 1;
    } else {
      assert (p + length - 1) % length == p - 1 by {
        assert p + length - 1 == (p - 1) + length;
      }
    }
  }

  /** Previous undoes next and next undoes previous. */
  lemma PrevNextInverse(p: nat, length: nat)
    requires p < length
    ensures Prev(Next(p, length), length) == p
    ensures Next(Prev(p, length), length) == p
  {
  }

  /** Going forward `length` times comes back to the start. */
  function NextTimes(p: nat, length: nat, k: nat): (r: nat)
    requires p < length
    ensures r < length
  {
    if k == 0 then p else Next(NextTimes(p, length, k - 1), length)
  }

  /** Fewer than `length` steps forward land `k` places on, wrapping once. */
  lemma {:induction false} NextTimesIsShift(p: nat, length: nat, k: nat)
    requires p < length && k < length
    ensures NextTimes(p, length, k) == if p + k < length then p + k else p + k - length
  {
    if k > 0 {
      NextTimesIsShift(p, length, k - 1);
    }
  }

  /** `length` steps forward come back to the start. */
  lemma FullTurn(p: nat, length: nat)
    requires p < length
    ensures NextTimes(p, length, length) == p
  {
    NextTimesIsShift(p, length, length - 1);
  }

  /** The carousel's state: the shown testimonial. */
  class TestimonialCarousel {
    const length: nat := TestimonialCount
    var current: nat

    ghost predicate Valid()
      reads this
    {
      current < length
    }

    /** `useState(0)`: the first testimonial is shown. */
    constructor ()
      ensures Valid() && current == 0
    {
      current := 0;
    }

    /** The left arrow: one testimonial back, from the first to the last. */
    method ShowPrevious()
      requires Valid()
      modifies this
      ensures Valid() && current == Prev(old(current), length)
    {
      current := Prev(current, length);
    }

    /** The right arrow: one testimonial on, from the last to the first. */
    method ShowNext()
      requires Valid()
      modifies this
      ensures Valid() && current == Next(old(current), length)
    {
      current := Next(current, length);
    }

    /** A dot click; the dots are drawn for indices below the length only. */
    method Select(i: nat)
      requires Valid() && i < length
      modifies this
      ensures Valid() && current == i
    {
      current := i;
    }
  }
}
