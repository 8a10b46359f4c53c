/**
 * The home page's hero carousel (three slides, moved forward by a timer and
 * the next button, backward by the previous button, or directly by an
 * indicator) and the company's years of experience.
 */
module Home {

  /** The number of hero slides. */
  const SlideCount := 3

  const FoundingYear := 1963

  /** `currentYear - foundingYear`. */
  function YearsOfExperience(currentYear: int): (r: int)
    ensures currentYear >= FoundingYear ==> r >= 0
    ensures r + FoundingYear == currentYear
  {
    currentYear - FoundingYear
  }

  /** JavaScript's `a % slides.length`: the sign follows `a`. */
  function SlideRemainder(a: int): (r: int)
    ensures a >= 0 ==> 0 <= r < SlideCount && (a - r) % SlideCount == 0
    ensures a < 0 ==> -SlideCount < r <= 0 && (a - r) % SlideCount == 0
  {
    if a >= 0 then a % SlideCount else -((-a) % SlideCount)
  }

  predicate InRange(i: int) {
    0 <= i < SlideCount
  }

  /** `(prev + 1) % slides.length`: the next slide, the last wrapping to the first. */
  function Next(i: int): (r: int)
    ensures InRange(i) ==> InRange(r) && r == if i == SlideCount - 1 then 0 else i + 1
  {
    SlideRemainder(i + 1)
  }

  /** `(prev - 1 + slides.length) % slides.length`: the previous slide, the first wrapping to the last. */
  function Prev(i: int): (r: int)
    ensures InRange(i) ==> InRange(r) && r == if i == 0 then SlideCount - 1 else i - 1
  {
    SlideRemainder(i - 1 + SlideCount)
  }

  /** Previous undoes next and next undoes previous. */
  lemma NextPrevInverse(i: int)
    requires InRange(i)
    ensures Prev(Next(i)) == i && Next(Prev(i)) == i
  {
  }

  /** `k` timer ticks from slide `i`. */
  function Advance(i: int, k: nat): (r: int)
    ensures InRange(i) ==> InRange(r)
    decreases k
  {
    if k == 0 then i else Next(Advance(i, k - 1))
  }

  /** One more step, taken modulo the number of slides. */
  lemma NextOfRemainder(n: nat)
    ensures Next(n % SlideCount) == (n + 1) % SlideCount
  {
    var q, r := n / SlideCount, n % SlideCount;
    assert n == SlideCount * q + r;
    if r == SlideCount - 1 {
      assert n + 1 == SlideCount * (q + 1);
    } else {
      assert n + 1 == SlideCount * q + (r + 1);
    }
  }

  /** `k` ticks move `k` slides forward, modulo the number of slides. */
  lemma {:induction false} AdvanceIsModular(i: int, k: nat)
    requires InRange(i)
    ensures Advance(i, k) == (i + k) % SlideCount
    decreases k
  {
    if k > 0 {
      AdvanceIsModular(i, k - 1);
      NextOfRemainder(i + k - 1);
    }
  }

  /** One tick per slide brings the carousel back to where it was. */
  lemma FullCycle(i: int)
    requires InRange(i)
    ensures Advance(i, SlideCount) == i
  {
    AdvanceIsModular(i, SlideCount);
  }

  class Carousel {
    var currentSlide: int

    predicate Valid()
      reads this
    {
      InRange(currentSlide)
    }

    constructor ()
      ensures Valid() && currentSlide == 0
    {
      currentSlide := 0;
    }

    /** The next button, and the five-second timer, which uses the same updater. */
    method NextSlide()
      requires Valid()
      modifies this
      ensures Valid() && currentSlide == Next(old(currentSlide))
    {
      currentSlide := Next(currentSlide);
    }

    method PrevSlide()
      requires Valid()
      modifies this
      ensures Valid() && currentSlide == Prev(old(currentSlide))
    {
      currentSlide := Prev(currentSlide);
    }

    /** An indicator click: the indicators are numbered by slide. */
    method GoTo(index: int)
      requires InRange(index)
      modifies this
      ensures Valid() && currentSlide == index
    {
      currentSlide := index;
    }
  }
}
