/**
 * The testimonials carousel: an index into a fixed list of four testimonials
 * that the arrows move by one, wrapping at both ends, and that a dot click
 * sets directly.
 */
module Carousel {
  datatype Testimonial = Testimonial(name: string, role: string, content: string, rating: nat)

  const Testimonials: seq<Testimonial> := [
    Testimonial("Sunita Devi", "Village Resident, Bihar",
      "The offline symptom checker helped me " +
        "understand my condition when there was no " +
        "doctor nearby. It guided me to seek help " +
        "immediately, which saved my life.", 5),
    Testimonial("Dr. Mahesh Verma", "District Medical Officer",
      "RuralCare AI has transformed how we deliver " +
        "healthcare in our district. The AI " +
        "predictions are remarkably accurate and help " +
        "us prioritize critical cases.", 5),
    Testimonial("Rekha Sharma", "ASHA Health Worker",
      "The app makes my job so much easier. I can " +
        "register patients, track their vitals, and " +
        "get AI-assisted triage even in areas with " +
        "poor connectivity.", 5),
    Testimonial("Ramesh Yadav", "Patient, Rajasthan",
      "I consulted a cardiologist through " +
        "telemedicine and got proper treatment " +
        "without traveling 100km to the city. This is " +
        "truly revolutionary for villages.", 5)
  ]

  /** `testimonials.length`. */
  const Count := |Testimonials|

  /**
   * JavaScript's `%`: the remainder of truncating division, which takes the
   * sign of the dividend (Dafny's `%` never returns a negative value).
   */
  function JsRemainder(a: int, b: int): (r: int)
    requires b > 0
    ensures a >= 0 ==> 0 <= r < b
    ensures a < 0 ==> -b < r <= 0
    ensures -b < a < 0 ==> r == a
  {
    if a >= 0 then a % b else -((-a) % b)
  }

  /** For the carousel's divisor, the JavaScript remainder differs from the dividend by a multiple of it. */
  lemma JsRemainderIsCongruent(a: int)
    ensures (a - JsRemainder(a, Count)) % Count == 0
  {
  }

  /** The index after the right arrow. */
  function NextIndex(i: int): int {
    JsRemainder(i + 1, Count)
  }

  /** The index after the left arrow; adding the length first keeps the dividend non-negative. */
  function PrevIndex(i: int): int {
    JsRemainder(i - 1 + Count, Count)
  }

  predicate InRange(i: int) {
    0 <= i < Count
  }

  /** Both arrows keep the index on a testimonial. */
  lemma ArrowsStayInRange(i: int)
    requires InRange(i)
    ensures InRange(NextIndex(i)) && InRange(PrevIndex(i))
  {
  }

  /** Left undoes right and right undoes left. */
  lemma ArrowsAreInverse(i: int)
    requires InRange(i)
    ensures PrevIndex(NextIndex(i)) == i
    ensures NextIndex(PrevIndex(i)) == i
  {
  }

  /** The index wraps at both ends. */
  lemma ArrowsWrap()
    ensures PrevIndex(0) == Count - 1 == 3
    ensures NextIndex(Count - 1) == 0
  {
  }

  /** Four clicks on the right arrow come back to the start. */
  lemma FourNextsAreIdentity(i: int)
    requires InRange(i)
    ensures NextIndex(NextIndex(NextIndex(NextIndex(i)))) == i
  {
  }

  /** Without adding the length, the left arrow from the first testimonial would leave the list. */
  lemma PrevNeedsTheAddedLength()
    ensures JsRemainder(0 - 1, Count) == -1
    ensures !InRange(JsRemainder(0 - 1, Count))
  {
  }

  /** The carousel's state. */
  class TestimonialCarousel {
    var currentIndex: int

    predicate Valid()
      reads this
    {
      InRange(currentIndex)
    }

    constructor ()
      ensures currentIndex == 0 && Valid()
    {
      currentIndex := 0;
    }

    /** `next`. */
    method Next()
      requires Valid()
      modifies this
      ensures currentIndex == NextIndex(old(currentIndex)) && Valid()
    {
      ArrowsStayInRange(currentIndex);
      currentIndex := JsRemainder(currentIndex + 1, Count);
    }

    /** `prev`. */
    method Prev()
      requires Valid()
      modifies this
      ensures currentIndex == PrevIndex(old(currentIndex)) && Valid()
    {
      ArrowsStayInRange(currentIndex);
      currentIndex := JsRemainder(currentIndex - 1 + Count, Count);
    }

    /** A click on the dot drawn for testimonial `index`. */
    method Select(index: int)
      requires 0 <= index < |Testimonials|
      modifies this
      ensures currentIndex == index && Valid()
    {
      currentIndex := index;
    }
  }
}
