/**
 * The course-review handler: look up a course by its number, walk its sections,
 * attach each section's lecturer name and review records, and keep per-section
 * and course-level review counts and average ratings.
 */
module Courses {
  import opened Wrappers
  import opened Store
  import opened ReviewStats

  type Positive = n: int | n > 0 witness 1

  /** An average rating, kept exactly as the division `sum / count` the handler performs. */
  datatype Fraction = Fraction(sum: int, count: Positive) {
    function Value(): real {
      sum as real / count as real
    }
  }

  /** A JavaScript number as this handler can produce it: a value, or NaN. */
  datatype Number<T> = Finite(value: T) | NaN

  /** `{reviewId, body, rating}`, one per review document of a section. */
  datatype ReviewRecord = ReviewRecord(reviewId: Id, body: string, rating: int)

  /**
   * A section's data with the fields the handler adds. `numberOfReviews` and
   * `averageRating` are assigned only while walking the section's reviews, so
   * they stay undefined (`None`) for a section without reviews.
   */
  datatype SectionRecord = SectionRecord(
    courseId: Id,
    lecturerId: Id,
    lecturerName: string,
    reviews: seq<ReviewRecord>,
    numberOfReviews: Option<int>,
    averageRating: Option<Fraction>)

  /**
   * A course's data with its sections and the course-level statistics, which are
   * assigned only while walking the sections (`None` when there are none) and
   * are NaN once a section without reviews has been added in.
   */
  datatype CourseRecord = CourseRecord(
    courseNumber: string,
    name: string,
    sections: seq<SectionRecord>,
    numberOfReviews: Option<Number<int>>,
    averageRating: Option<Number<Fraction>>)

  /** The TypeErrors the handler throws: reading `id` of an undefined course, `name` of an undefined lecturer. */
  datatype Crash = CourseUndefined | LecturerUndefined

  function ToRecord(x: Review): ReviewRecord {
    ReviewRecord(x.id, x.body, x.rating)
  }

  /** One record per review, in the order given. */
  function ToRecords(reviews: seq<Review>): seq<ReviewRecord> {
    if reviews == [] then []
    else ToRecords(reviews[..|reviews| - 1]) + [ToRecord(reviews[|reviews| - 1])]
  }

  /** The output record of a section whose lecturer exists. */
  function SectionSummary(db: Db, section: Section): SectionRecord
    requires LecturerById(db, section.lecturerId).Some?
  {
    var reviews := ReviewsOfSection(db.reviews, section.id);
    SectionRecord(
      section.courseId,
      section.lecturerId,
      LecturerById(db, section.lecturerId).value.name,
      ToRecords(reviews),
      if reviews == [] then None else Some(|reviews|),
      if reviews == [] then None else Some(Fraction(RatingSum(reviews), |reviews|)))
  }

  /** The course-level review count after the first `n` sections: NaN once one of them had no reviews. */
  function CountAfter(reviews: seq<Review>, sections: seq<Section>, n: nat): Number<int>
    requires n <= |sections|
  {
    if HasUnreviewedSection(reviews, sections, n) then NaN
    else Finite(ReviewCount(reviews, sections, n))
  }

  /** The course-level average rating after the first `n` sections: NaN once one of them had no reviews. */
  function AverageAfter(reviews: seq<Review>, sections: seq<Section>, n: nat): Number<Fraction>
    requires 0 < n <= |sections|
  {
    if HasUnreviewedSection(reviews, sections, n) then NaN
    else
      ReviewCountAtLeast(reviews, sections, n);
      Finite(Fraction(RatingTotal(reviews, sections, n), ReviewCount(reviews, sections, n)))
  }

  /** The lecturer id of each of the first `n` sections names an existing lecturer. */
  predicate LecturersExist(db: Db, sections: seq<Section>, n: nat)
    requires n <= |sections|
  {
    forall k :: 0 <= k < n ==> LecturerById(db, sections[k].lecturerId).Some?
  }

  /** The summaries of the first `n` sections, in their order. */
  function Summaries(db: Db, sections: seq<Section>, n: nat): seq<SectionRecord>
    requires n <= |sections| && LecturersExist(db, sections, n)
  {
    if n == 0 then []
    else Summaries(db, sections, n - 1) + [SectionSummary(db, sections[n - 1])]
  }

  /** One summary per section. */
  lemma {:induction false} SummariesLength(db: Db, sections: seq<Section>, n: nat)
    requires n <= |sections| && LecturersExist(db, sections, n)
    ensures |Summaries(db, sections, n)| == n
  {
    if n > 0 {
      SummariesLength(db, sections, n - 1);
    }
  }

  /** What the handler answers for `courseNumber`: the course's data or the TypeError it throws. */
  function Aggregate(db: Db, courseNumber: string): (r: Result<CourseRecord, Crash>)
    ensures r.Success? ==> && CoursesWithNumber(db, courseNumber) != []
                           && |r.value.sections| == |SectionsOfCourse(db, CoursesWithNumber(db, courseNumber)[0].id)|
  {
    var matches := CoursesWithNumber(db, courseNumber);
    if matches == [] then Failure(CourseUndefined)
    else
      var course := matches[0];
      var sections := SectionsOfCourse(db, course.id);
      if !LecturersExist(db, sections, |sections|) then Failure(LecturerUndefined)
      else
        SummariesLength(db, sections, |sections|);
        Success(CourseRecord(
          course.courseNumber,
          course.name,
          Summaries(db, sections, |sections|),
          if sections == [] then None else Some(CountAfter(db.reviews, sections, |sections|)),
          if sections == [] then None else Some(AverageAfter(db.reviews, sections, |sections|))))
  }

  /** Adding one more section's count into the course count, as each pass of the section loop does. */
  lemma CourseCountStep(reviews: seq<Review>, sections: seq<Section>, i: nat)
    requires i < |sections|
    ensures var own := ReviewsOfSection(reviews, sections[i].id);
      var before, after := CountAfter(reviews, sections, i), CountAfter(reviews, sections, i + 1);
      && after == (if before.NaN? || own == [] then NaN else Finite(before.value + |own|))
      && (after.Finite? ==> after.value > 0)
  {
    if !HasUnreviewedSection(reviews, sections, i + 1) {
      ReviewCountAtLeast(reviews, sections, i + 1);
    }
  }

  /** The course average after a section is the rating total divided by the count, or NaN with it. */
  lemma CourseAverageStep(reviews: seq<Review>, sections: seq<Section>, i: nat)
    requires i < |sections|
    ensures var after := CountAfter(reviews, sections, i + 1);
      && (after.Finite? ==> after.value > 0)
      && AverageAfter(reviews, sections, i + 1)
         == if after.NaN? then NaN else Finite(Fraction(RatingTotal(reviews, sections, i + 1), after.value))
  {
    if !HasUnreviewedSection(reviews, sections, i + 1) {
      ReviewCountAtLeast(reviews, sections, i + 1);
    }
  }

  /** What one more pass of the section loop adds to the sections and the rating total. */
  lemma SectionStep(db: Db, sections: seq<Section>, i: nat)
    requires i < |sections| && LecturersExist(db, sections, i)
    requires LecturerById(db, sections[i].lecturerId).Some?
    ensures LecturersExist(db, sections, i + 1)
    ensures Summaries(db, sections, i + 1) == Summaries(db, sections, i) + [SectionSummary(db, sections[i])]
    ensures RatingTotal(db.reviews, sections, i + 1)
         == RatingTotal(db.reviews, sections, i) + RatingSum(ReviewsOfSection(db.reviews, sections[i].id))
  {
  }

  /**
   * The handler's inner loop over one section's review documents: copy each into
   * a record, add up the ratings, and on every step overwrite the section's
   * count with the number of documents and its average with the running sum
   * divided by that number.
   */
  method WalkReviews(reviews: seq<Review>)
    returns (records: seq<ReviewRecord>, sumSectionReviews: int, numberOfReviews: Option<int>, averageRating: Option<Fraction>)
    ensures records == ToRecords(reviews)
    ensures sumSectionReviews == RatingSum(reviews)
    ensures numberOfReviews == if reviews == [] then None else Some(|reviews|)
    ensures averageRating == if reviews == [] then None else Some(Fraction(RatingSum(reviews), |reviews|))
  {
    sumSectionReviews := 0;
    records := [];
    numberOfReviews := None;
    averageRating := None;
    var j := 0;
    while j < |reviews|
      invariant 0 <= j <= |reviews|
      invariant records == ToRecords(reviews[..j])
      invariant sumSectionReviews == RatingSum(reviews[..j])
      invariant numberOfReviews == if j == 0 then None else Some(|reviews|)
      invariant averageRating == if j == 0 then None else Some(Fraction(RatingSum(reviews[..j]), |reviews|))
    {
      var record := ReviewRecord(reviews[j].id, reviews[j].body, reviews[j].rating);
      assert reviews[..j + 1][..j] == reviews[..j];
      sumSectionReviews := sumSectionReviews + record.rating;
      numberOfReviews := Some(|reviews|);
      averageRating := Some(Fraction(sumSectionReviews, |reviews|));
      records := records + [record];
      j := j + 1;
    }
    assert reviews[..j] == reviews;
  }

  /**
   * The handler: look the course up, then walk its sections in query order,
   * joining each with its lecturer and its reviews and keeping the running
   * course totals.
   */
  method Handler(db: Db, courseNumber: string) returns (result: Result<CourseRecord, Crash>)
    ensures result == Aggregate(db, courseNumber)
  {
    var courseQuery := CoursesWithNumber(db, courseNumber);
    if courseQuery == [] {
      return Failure(CourseUndefined);
    }
    var course := courseQuery[0];
    var sectionRecords: seq<SectionRecord> := [];
    var courseNumberOfReviews: Option<Number<int>> := None;
    var courseAverageRating: Option<Number<Fraction>> := None;
    var sections := SectionsOfCourse(db, course.id);
    var sumCourseReviews := 0;
    var numberCourseReviews: Number<int> := Finite(0);
    var i := 0;
    while i < |sections|
      invariant 0 <= i <= |sections|
      invariant LecturersExist(db, sections, i)
      invariant sectionRecords == Summaries(db, sections, i)
      invariant sumCourseReviews == RatingTotal(db.reviews, sections, i)
      invariant numberCourseReviews == CountAfter(db.reviews, sections, i)
      invariant courseNumberOfReviews == if i == 0 then None else Some(CountAfter(db.reviews, sections, i))
      invariant courseAverageRating == if i == 0 then None else Some(AverageAfter(db.reviews, sections, i))
    {
      var section := sections[i];
      var lecturer := LecturerById(db, section.lecturerId);
      if lecturer.None? {
        return Failure(LecturerUndefined);
      }
      var reviews := ReviewsOfSection(db.reviews, section.id);
      var reviewRecords, sumSectionReviews, numberOfReviews, averageRating := WalkReviews(reviews);
      var sectionData := SectionRecord(section.courseId, section.lecturerId, lecturer.value.name,
                                       reviewRecords, numberOfReviews, averageRating);
      assert sectionData == SectionSummary(db, section);
      SectionStep(db, sections, i);
      CourseCountStep(db.reviews, sections, i);
      CourseAverageStep(db.reviews, sections, i);
      sumCourseReviews := sumCourseReviews + sumSectionReviews;
      // Adding an undefined section count to a number gives NaN, and NaN stays NaN.
      numberCourseReviews :=
        if numberCourseReviews.NaN? || numberOfReviews.None? then NaN
        else Finite(numberCourseReviews.value + numberOfReviews.value);
      courseNumberOfReviews := Some(numberCourseReviews);
      courseAverageRating :=
        Some(if numberCourseReviews.NaN? then NaN else Finite(Fraction(sumCourseReviews, numberCourseReviews.value)));
      sectionRecords := sectionRecords + [sectionData];
      i := i + 1;
    }
    result := Success(CourseRecord(course.courseNumber, course.name, sectionRecords, courseNumberOfReviews, courseAverageRating));
  }
}
