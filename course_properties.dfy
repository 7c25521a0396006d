/**
 * What the handler's answer promises: which course it reports on and when it
 * crashes, how the sections and their reviews are copied, and how the section
 * and course statistics relate to the review documents.
 */
module CourseProperties {
  import opened Wrappers
  import opened Store
  import opened ReviewStats
  import opened Courses

  /** The sections of the course the handler reports on, in query order. */
  function CourseSections(db: Db, courseNumber: string): seq<Section>
    requires CoursesWithNumber(db, courseNumber) != []
  {
    SectionsOfCourse(db, CoursesWithNumber(db, courseNumber)[0].id)
  }

  /** The handler crashes at the course lookup exactly when no course has the requested number. */
  lemma UnknownCourseNumberCrashes(db: Db, courseNumber: string)
    ensures Aggregate(db, courseNumber) == Failure(CourseUndefined)
        <==> forall c :: c in db.courses ==> c.courseNumber != courseNumber
  {
    var matches := CoursesWithNumber(db, courseNumber);
    if matches != [] {
      CoursesWithNumberMembers(db, courseNumber, matches[0]);
    } else {
      forall c | c in db.courses
        ensures c.courseNumber != courseNumber
      {
        CoursesWithNumberMembers(db, courseNumber, c);
      }
    }
  }

  /** No two courses share a course number. */
  predicate DistinctCourseNumbers(courses: seq<Course>) {
    forall i, j :: 0 <= i < j < |courses| ==> courses[i].courseNumber != courses[j].courseNumber
  }

  /**
   * An answer is about a course with the requested number; when course numbers
   * are unique it carries that course's name.
   */
  lemma ReportsRequestedCourse(db: Db, courseNumber: string)
    requires Aggregate(db, courseNumber).Success?
    ensures var r := Aggregate(db, courseNumber).value;
      && r.courseNumber == courseNumber
      && Course(CoursesWithNumber(db, courseNumber)[0].id, courseNumber, r.name) in db.courses
    ensures var r := Aggregate(db, courseNumber).value;
      DistinctCourseNumbers(db.courses) ==>
        forall c :: c in db.courses && c.courseNumber == courseNumber ==> c.name == r.name
  {
    var first := CoursesWithNumber(db, courseNumber)[0];
    CoursesWithNumberMembers(db, courseNumber, first);
    if DistinctCourseNumbers(db.courses) {
      forall c | c in db.courses && c.courseNumber == courseNumber
        ensures c == first
      {
        var i :| 0 <= i < |db.courses| && db.courses[i] == c;
        var j :| 0 <= j < |db.courses| && db.courses[j] == first;
        assert i == j;
      }
    }
  }

  /** The lecturer id of `s` names no lecturer document. */
  predicate NoSuchLecturer(db: Db, s: Section) {
    forall l :: l in db.lecturers ==> l.id != s.lecturerId
  }

  /**
   * Once the course is found, the handler crashes at the lecturer's name exactly
   * when one of the course's sections names a lecturer that does not exist.
   */
  lemma DanglingLecturerCrashes(db: Db, courseNumber: string)
    requires CoursesWithNumber(db, courseNumber) != []
    ensures var course := CoursesWithNumber(db, courseNumber)[0];
      Aggregate(db, courseNumber) == Failure(LecturerUndefined)
      <==> exists s :: s in db.sections && s.courseId == course.id && NoSuchLecturer(db, s)
  {
    var course := CoursesWithNumber(db, courseNumber)[0];
    var sections := SectionsOfCourse(db, course.id);
    if !LecturersExist(db, sections, |sections|) {
      var k :| 0 <= k < |sections| && LecturerById(db, sections[k].lecturerId).None?;
      SectionsOfCourseMembers(db, course.id, sections[k]);
      FindLecturerFinds(db.lecturers, sections[k].lecturerId);
      assert NoSuchLecturer(db, sections[k]);
    } else {
      forall s | s in db.sections && s.courseId == course.id
        ensures !NoSuchLecturer(db, s)
      {
        SectionsOfCourseMembers(db, course.id, s);
        var k :| 0 <= k < |sections| && sections[k] == s;
        assert LecturerById(db, sections[k].lecturerId).Some?;
        FindLecturerFinds(db.lecturers, s.lecturerId);
      }
    }
  }

  lemma {:induction false} SummariesAt(db: Db, sections: seq<Section>, n: nat, k: nat)
    requires n <= |sections| && LecturersExist(db, sections, n) && k < n
    ensures |Summaries(db, sections, n)| == n
    ensures Summaries(db, sections, n)[k] == SectionSummary(db, sections[k])
  {
    SummariesLength(db, sections, n);
    if k < n - 1 {
      SummariesAt(db, sections, n - 1, k);
    }
  }

  /**
   * The answer has one section record per section of the course, in query
   * order; each belongs to the course and carries the name of the lecturer
   * document its lecturer id names.
   */
  lemma SectionsFollowQuery(db: Db, courseNumber: string, k: nat)
    requires Aggregate(db, courseNumber).Success?
    ensures var course := CoursesWithNumber(db, courseNumber)[0];
      |Aggregate(db, courseNumber).value.sections| == |SectionsOfCourse(db, course.id)|
    ensures var course := CoursesWithNumber(db, courseNumber)[0];
      var sections := SectionsOfCourse(db, course.id);
      var out := Aggregate(db, courseNumber).value.sections;
      k < |out| ==>
        && out[k].courseId == course.id
        && out[k].lecturerId == sections[k].lecturerId
        && Section(sections[k].id, course.id, out[k].lecturerId) in db.sections
        && Lecturer(out[k].lecturerId, out[k].lecturerName) in db.lecturers
  {
    var course := CoursesWithNumber(db, courseNumber)[0];
    var sections := SectionsOfCourse(db, course.id);
    SummariesLength(db, sections, |sections|);
    if k < |sections| {
      SummariesAt(db, sections, |sections|, k);
      SectionsOfCourseMembers(db, course.id, sections[k]);
      FindLecturerFinds(db.lecturers, sections[k].lecturerId);
    }
  }

  /** The records are the reviews' ids, bodies and ratings, one per review and in the same order. */
  lemma {:induction false} ToRecordsCopies(reviews: seq<Review>)
    ensures |ToRecords(reviews)| == |reviews|
    ensures forall j :: 0 <= j < |reviews| ==>
      ToRecords(reviews)[j] == ReviewRecord(reviews[j].id, reviews[j].body, reviews[j].rating)
  {
    if reviews != [] {
      ToRecordsCopies(reviews[..|reviews| - 1]);
    }
  }

  /** A review document of the section with id `id` does not exist. */
  lemma NoReviewsOf(reviews: seq<Review>, id: Id)
    ensures ReviewsOfSection(reviews, id) == [] <==> forall x :: x in reviews ==> x.sectionId != id
  {
    var own := ReviewsOfSection(reviews, id);
    if own != [] {
      ReviewsOfSectionMembers(reviews, id, own[0]);
    } else {
      forall x | x in reviews
        ensures x.sectionId != id
      {
        ReviewsOfSectionMembers(reviews, id, x);
      }
    }
  }

  /**
   * Section `k` of the answer lists the review documents of section `k` of the
   * course in collection order, as `{reviewId, body, rating}`. Its count is the
   * number of those documents and its average the sum of their ratings divided
   * by that count; a section without reviews has no statistics at all.
   */
  lemma SectionReviews(db: Db, courseNumber: string, k: nat)
    requires Aggregate(db, courseNumber).Success?
    requires k < |CourseSections(db, courseNumber)|
    ensures var course := CoursesWithNumber(db, courseNumber)[0];
      var sectionId := SectionsOfCourse(db, course.id)[k].id;
      var own := ReviewsOfSection(db.reviews, sectionId);
      var out := Aggregate(db, courseNumber).value.sections[k];
      && (forall x :: x in own <==> x in db.reviews && x.sectionId == sectionId)
      && |out.reviews| == |own|
      && (forall j :: 0 <= j < |own| ==> out.reviews[j] == ReviewRecord(own[j].id, own[j].body, own[j].rating))
      && (own == [] <==> out.numberOfReviews.None?)
      && (own == [] <==> out.averageRating.None?)
      && (own != [] ==> out.numberOfReviews == Some(|own|) && out.averageRating.Some?
                        && out.averageRating.value.Value() == RatingSum(own) as real / |own| as real)
  {
    var course := CoursesWithNumber(db, courseNumber)[0];
    var sections := SectionsOfCourse(db, course.id);
    var own := ReviewsOfSection(db.reviews, sections[k].id);
    SummariesAt(db, sections, |sections|, k);
    ToRecordsCopies(own);
    forall x
      ensures x in own <==> x in db.reviews && x.sectionId == sections[k].id
    {
      ReviewsOfSectionMembers(db.reviews, sections[k].id, x);
    }
  }

  /** A fraction whose sum lies between one and five times its count has a value on the 1 to 5 scale. */
  lemma FractionOnScale(f: Fraction)
    requires f.count <= f.sum <= 5 * f.count
    ensures 1.0 <= f.Value() <= 5.0
  {
    var s, c, v := f.sum as real, f.count as real, f.Value();
    assert (v - 1.0) * c == s - c;
    NonNegativeFactor(v - 1.0, c);
    assert (5.0 - v) * c == 5.0 * c - s;
    NonNegativeFactor(5.0 - v, c);
  }

  lemma NonNegativeFactor(a: real, b: real)
    requires b > 0.0 && a * b >= 0.0
    ensures a >= 0.0
  {
  }

  /** With every rating on the 1 to 5 scale, every section average of the answer is on that scale. */
  lemma SectionAverageOnScale(db: Db, courseNumber: string, k: nat)
    requires RatingsOnScale(db.reviews)
    requires Aggregate(db, courseNumber).Success?
    requires k < |CourseSections(db, courseNumber)|
    requires Aggregate(db, courseNumber).value.sections[k].averageRating.Some?
    ensures 1.0 <= Aggregate(db, courseNumber).value.sections[k].averageRating.value.Value() <= 5.0
  {
    var course := CoursesWithNumber(db, courseNumber)[0];
    var sections := SectionsOfCourse(db, course.id);
    var own := ReviewsOfSection(db.reviews, sections[k].id);
    SummariesAt(db, sections, |sections|, k);
    forall x | x in own
      ensures 1 <= x.rating <= 5
    {
      ReviewsOfSectionMembers(db.reviews, sections[k].id, x);
    }
    RatingSumOnScale(own);
    FractionOnScale(Aggregate(db, courseNumber).value.sections[k].averageRating.value);
  }

  /** The JavaScript sum of the section counts: NaN as soon as one of them is undefined. */
  function SectionCountSum(records: seq<SectionRecord>): Number<int> {
    if records == [] then Finite(0)
    else
      var before, last := SectionCountSum(records[..|records| - 1]), records[|records| - 1];
      if before.NaN? || last.numberOfReviews.None? then NaN
      else Finite(before.value + last.numberOfReviews.value)
  }

  lemma SectionCountSumSnoc(records: seq<SectionRecord>, x: SectionRecord)
    ensures var before := SectionCountSum(records);
      SectionCountSum(records + [x])
      == if before.NaN? || x.numberOfReviews.None? then NaN else Finite(before.value + x.numberOfReviews.value)
  {
    assert (records + [x])[..|records|] == records;
  }

  lemma {:induction false} SummaryCountsAdd(db: Db, sections: seq<Section>, n: nat)
    requires n <= |sections| && LecturersExist(db, sections, n)
    ensures SectionCountSum(Summaries(db, sections, n)) == CountAfter(db.reviews, sections, n)
  {
    if n > 0 {
      var prev, last := Summaries(db, sections, n - 1), SectionSummary(db, sections[n - 1]);
      var own := ReviewsOfSection(db.reviews, sections[n - 1].id);
      assert Summaries(db, sections, n) == prev + [last];
      assert last.numberOfReviews == if own == [] then None else Some(|own|);
      SummaryCountsAdd(db, sections, n - 1);
      SectionCountSumSnoc(prev, last);
      CourseCountStep(db.reviews, sections, n - 1);
    }
  }

  /**
   * The course's review count is the sum of its sections' counts, NaN when one
   * of them is undefined; a course without sections has no statistics.
   */
  lemma CourseCountSumsSectionCounts(db: Db, courseNumber: string)
    requires Aggregate(db, courseNumber).Success?
    ensures var r := Aggregate(db, courseNumber).value;
      r.sections != [] ==> r.numberOfReviews == Some(SectionCountSum(r.sections))
    ensures var r := Aggregate(db, courseNumber).value;
      r.sections == [] ==> r.numberOfReviews.None? && r.averageRating.None?
  {
    var course := CoursesWithNumber(db, courseNumber)[0];
    var sections := SectionsOfCourse(db, course.id);
    SummaryCountsAdd(db, sections, |sections|);
  }

  /**
   * The course's statistics are NaN exactly when one of its sections has no
   * review document; otherwise they are numbers.
   */
  lemma UnreviewedSectionPoisonsCourse(db: Db, courseNumber: string)
    requires Aggregate(db, courseNumber).Success?
    requires Aggregate(db, courseNumber).value.sections != []
    ensures var course := CoursesWithNumber(db, courseNumber)[0];
      var r := Aggregate(db, courseNumber).value;
      var poisoned := exists s :: s in db.sections && s.courseId == course.id
                                  && forall x :: x in db.reviews ==> x.sectionId != s.id;
      && r.numberOfReviews.Some? && r.averageRating.Some?
      && (r.numberOfReviews.value.NaN? <==> poisoned)
      && (r.averageRating.value.NaN? <==> poisoned)
  {
    var course := CoursesWithNumber(db, courseNumber)[0];
    var sections := SectionsOfCourse(db, course.id);
    if HasUnreviewedSection(db.reviews, sections, |sections|) {
      var k :| 0 <= k < |sections| && ReviewsOfSection(db.reviews, sections[k].id) == [];
      SectionsOfCourseMembers(db, course.id, sections[k]);
      NoReviewsOf(db.reviews, sections[k].id);
    } else {
      forall s | s in db.sections && s.courseId == course.id
        ensures exists x :: x in db.reviews && x.sectionId == s.id
      {
        SectionsOfCourseMembers(db, course.id, s);
        var k :| 0 <= k < |sections| && sections[k] == s;
        NoReviewsOf(db.reviews, s.id);
      }
    }
  }

  /** A course review belongs to one of the given sections. */
  lemma CourseReviewsMembers(reviews: seq<Review>, sections: seq<Section>, x: Review)
    ensures x in CourseReviews(reviews, sections) <==> x in reviews && exists s :: s in sections && s.id == x.sectionId
  {
    var ids := SectionIds(sections);
    FilterMembers(reviews, (y: Review) => y.sectionId in ids, x);
    if x.sectionId in ids {
      var k :| 0 <= k < |sections| && sections[k].id == x.sectionId;
      assert sections[k] in sections;
    }
  }

  /**
   * When every section has reviews, the course's count is the number of all of
   * its review documents and its average is the sum of all of their ratings
   * divided by that number: a mean over reviews, not over section averages.
   */
  lemma CourseAverageIsGlobalMean(db: Db, courseNumber: string)
    requires DistinctSectionIds(db.sections)
    requires Aggregate(db, courseNumber).Success?
    requires Aggregate(db, courseNumber).value.numberOfReviews.Some?
    requires Aggregate(db, courseNumber).value.numberOfReviews.value.Finite?
    ensures var course := CoursesWithNumber(db, courseNumber)[0];
      var all := CourseReviews(db.reviews, SectionsOfCourse(db, course.id));
      var r := Aggregate(db, courseNumber).value;
      && (forall x :: x in all <==> x in db.reviews && exists s :: s in db.sections && s.courseId == course.id && s.id == x.sectionId)
      && |all| > 0
      && r.numberOfReviews == Some(Finite(|all|))
      && r.averageRating == Some(Finite(Fraction(RatingSum(all), |all|)))
  {
    var course := CoursesWithNumber(db, courseNumber)[0];
    var sections := SectionsOfCourse(db, course.id);
    var all := CourseReviews(db.reviews, sections);
    SectionsOfCourseDistinct(db, course.id);
    TotalsAreGlobal(db.reviews, sections);
    ReviewCountAtLeast(db.reviews, sections, |sections|);
    forall x
      ensures x in all <==> x in db.reviews && exists s :: s in db.sections && s.courseId == course.id && s.id == x.sectionId
    {
      CourseReviewsMembers(db.reviews, sections, x);
      if s :| s in db.sections && s.courseId == course.id && s.id == x.sectionId {
        SectionsOfCourseMembers(db, course.id, s);
      }
      if s :| s in sections && s.id == x.sectionId {
        SectionsOfCourseMembers(db, course.id, s);
      }
    }
  }

  /** With every rating on the 1 to 5 scale, a numeric course average is on that scale. */
  lemma CourseAverageOnScale(db: Db, courseNumber: string)
    requires RatingsOnScale(db.reviews)
    requires Aggregate(db, courseNumber).Success?
    requires Aggregate(db, courseNumber).value.averageRating.Some?
    requires Aggregate(db, courseNumber).value.averageRating.value.Finite?
    ensures 1.0 <= Aggregate(db, courseNumber).value.averageRating.value.value.Value() <= 5.0
  {
    var course := CoursesWithNumber(db, courseNumber)[0];
    var sections := SectionsOfCourse(db, course.id);
    RatingTotalOnScale(db.reviews, sections, |sections|);
    FractionOnScale(Aggregate(db, courseNumber).value.averageRating.value.value);
  }
}
