/**
 * Rating sums and review counts: of one section's reviews, and summed over the
 * sections of a course, as the handler's accumulators compute them.
 */
module ReviewStats {
  import opened Store

  /** The sum of the ratings of `reviews`, added left to right. */
  function RatingSum(reviews: seq<Review>): int {
    if reviews == [] then 0
    else RatingSum(reviews[..|reviews| - 1]) + reviews[|reviews| - 1].rating
  }

  lemma {:induction false} RatingSumAppend(a: seq<Review>, b: seq<Review>)
    ensures RatingSum(a + b) == RatingSum(a) + RatingSum(b)
  {
    if b == [] {
      assert a + b == a;
    } else {
      var init, last := b[..|b| - 1], b[|b| - 1];
      assert b == init + [last];
      assert (a + b)[..|a + b| - 1] == a + init;
      RatingSumAppend(a, init);
    }
  }

  /** Every rating lies on the 1 to 5 scale of the domain model. */
  predicate RatingsOnScale(reviews: seq<Review>) {
    forall x :: x in reviews ==> 1 <= x.rating <= 5
  }

  lemma {:induction false} RatingSumOnScale(reviews: seq<Review>)
    requires RatingsOnScale(reviews)
    ensures |reviews| <= RatingSum(reviews) <= 5 * |reviews|
  {
    if reviews != [] {
      var init := reviews[..|reviews| - 1];
      assert forall x :: x in init ==> x in reviews;
      RatingSumOnScale(init);
    }
  }

  /** One of the first `n` sections has no review in `reviews`. */
  predicate HasUnreviewedSection(reviews: seq<Review>, sections: seq<Section>, n: nat)
    requires n <= |sections|
  {
    exists k :: 0 <= k < n && ReviewsOfSection(reviews, sections[k].id) == []
  }

  /** The number of reviews of the first `n` sections, summed section by section. */
  function ReviewCount(reviews: seq<Review>, sections: seq<Section>, n: nat): nat
    requires n <= |sections|
  {
    if n == 0 then 0
    else ReviewCount(reviews, sections, n - 1) + |ReviewsOfSection(reviews, sections[n - 1].id)|
  }

  /** When each of the first `n` sections has a review, there are at least `n` reviews. */
  lemma {:induction false} ReviewCountAtLeast(reviews: seq<Review>, sections: seq<Section>, n: nat)
    requires n <= |sections|
    requires !HasUnreviewedSection(reviews, sections, n)
    ensures ReviewCount(reviews, sections, n) >= n
  {
    if n > 0 {
      assert ReviewsOfSection(reviews, sections[n - 1].id) != [];
      ReviewCountAtLeast(reviews, sections, n - 1);
    }
  }

  /** The sum of the ratings of the reviews of the first `n` sections, summed section by section. */
  function RatingTotal(reviews: seq<Review>, sections: seq<Section>, n: nat): int
    requires n <= |sections|
  {
    if n == 0 then 0
    else RatingTotal(reviews, sections, n - 1) + RatingSum(ReviewsOfSection(reviews, sections[n - 1].id))
  }

  /** With ratings on the 1 to 5 scale, the rating total lies between one and five times the count. */
  lemma {:induction false} RatingTotalOnScale(reviews: seq<Review>, sections: seq<Section>, n: nat)
    requires n <= |sections|
    requires RatingsOnScale(reviews)
    ensures ReviewCount(reviews, sections, n) <= RatingTotal(reviews, sections, n) <= 5 * ReviewCount(reviews, sections, n)
  {
    if n > 0 {
      var own := ReviewsOfSection(reviews, sections[n - 1].id);
      forall x | x in own ensures 1 <= x.rating <= 5 {
        ReviewsOfSectionMembers(reviews, sections[n - 1].id, x);
      }
      RatingSumOnScale(own);
      RatingTotalOnScale(reviews, sections, n - 1);
    }
  }

  /** The ids of the given sections. */
  function SectionIds(sections: seq<Section>): set<Id> {
    set k | 0 <= k < |sections| :: sections[k].id
  }

  /** Every review, in collection order, that belongs to one of the given sections. */
  function CourseReviews(reviews: seq<Review>, sections: seq<Section>): seq<Review>
  {
    var ids := SectionIds(sections);
    Filter(reviews, (x: Review) => x.sectionId in ids)
  }

  /** `w` once for each of the first `n` sections that carries the id `id`. */
  function PerMatchingSection(sections: seq<Section>, n: nat, id: Id, w: int): int
    requires n <= |sections|
  {
    if n == 0 then 0
    else PerMatchingSection(sections, n - 1, id, w) + (if sections[n - 1].id == id then w else 0)
  }

  lemma {:induction false} PerDistinctSection(sections: seq<Section>, n: nat, id: Id, w: int)
    requires n <= |sections|
    requires DistinctSectionIds(sections)
    ensures PerMatchingSection(sections, n, id, w) == if exists k :: 0 <= k < n && sections[k].id == id then w else 0
  {
    if n > 0 {
      PerDistinctSection(sections, n - 1, id, w);
      if sections[n - 1].id == id {
        forall k | 0 <= k < n - 1
          ensures sections[k].id != id
        {
          assert SectionKey(sections[k]) != SectionKey(sections[n - 1]);
        }
      }
    }
  }

  /** Appending a review to the collection counts it once per section that carries its section id. */
  lemma {:induction false} ReviewCountSnoc(reviews: seq<Review>, x: Review, sections: seq<Section>, n: nat)
    requires n <= |sections|
    ensures ReviewCount(reviews + [x], sections, n)
         == ReviewCount(reviews, sections, n) + PerMatchingSection(sections, n, x.sectionId, 1)
  {
    if n > 0 {
      ReviewCountSnoc(reviews, x, sections, n - 1);
      ReviewsOfSectionSnoc(reviews, x, sections[n - 1].id);
    }
  }

  /** Appending a review to the collection adds its rating once per section that carries its section id. */
  lemma {:induction false} RatingTotalSnoc(reviews: seq<Review>, x: Review, sections: seq<Section>, n: nat)
    requires n <= |sections|
    ensures RatingTotal(reviews + [x], sections, n)
         == RatingTotal(reviews, sections, n) + PerMatchingSection(sections, n, x.sectionId, x.rating)
  {
    if n > 0 {
      var last := sections[n - 1];
      RatingTotalSnoc(reviews, x, sections, n - 1);
      ReviewsOfSectionSnoc(reviews, x, last.id);
      var own := ReviewsOfSection(reviews, last.id);
      if x.sectionId == last.id {
        RatingSumAppend(own, [x]);
        assert [x][..0] == [];
      } else {
        assert own + [] == own;
      }
    }
  }

  /**
   * Summing section by section counts every review of the course exactly once:
   * the course totals are the count and the rating sum of all of its reviews.
   */
  lemma {:induction false} TotalsAreGlobal(reviews: seq<Review>, sections: seq<Section>)
    requires DistinctSectionIds(sections)
    ensures ReviewCount(reviews, sections, |sections|) == |CourseReviews(reviews, sections)|
    ensures RatingTotal(reviews, sections, |sections|) == RatingSum(CourseReviews(reviews, sections))
  {
    if reviews == [] {
      TotalsOfNoReviews(sections, |sections|);
    } else {
      var init, x := reviews[..|reviews| - 1], reviews[|reviews| - 1];
      var ids := SectionIds(sections);
      var extra := if x.sectionId in ids then [x] else [];
      assert reviews == init + [x];
      TotalsAreGlobal(init, sections);
      assert ReviewCount(reviews, sections, |sections|) == ReviewCount(init, sections, |sections|) + |extra| by {
        ReviewCountSnoc(init, x, sections, |sections|);
        PerDistinctSection(sections, |sections|, x.sectionId, 1);
      }
      assert RatingTotal(reviews, sections, |sections|) == RatingTotal(init, sections, |sections|) + RatingSum(extra) by {
        RatingTotalSnoc(init, x, sections, |sections|);
        PerDistinctSection(sections, |sections|, x.sectionId, x.rating);
        assert [x][..0] == [];
      }
      assert CourseReviews(reviews, sections) == CourseReviews(init, sections) + extra by {
        var p := (y: Review) => y.sectionId in ids;
        FilterAppend(init, [x], p);
        assert [x][..0] == [];
      }
      RatingSumAppend(CourseReviews(init, sections), extra);
    }
  }

  lemma {:induction false} TotalsOfNoReviews(sections: seq<Section>, n: nat)
    requires n <= |sections|
    ensures ReviewCount([], sections, n) == 0 && RatingTotal([], sections, n) == 0
  {
    if n > 0 {
      TotalsOfNoReviews(sections, n - 1);
    }
  }
}
