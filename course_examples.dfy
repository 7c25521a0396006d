/**
 * Concrete answers of the handler: the two-lecturer course with an unreviewed
 * section, and a course whose average differs from the mean of its section
 * averages.
 */
module CourseExamples {
  import opened Wrappers
  import opened Store
  import opened ReviewStats
  import opened Courses

  const Brian := Lecturer("l1", "Brian Eng")
  const Ben := Lecturer("l2", "Ben Block")
  const EngSection := Section("s1", "c1", "l1")
  const BlockSection := Section("s2", "c1", "l2")
  const Great := Review("r1", "s1", "Great!", 5)
  const Ok := Review("r2", "s1", "OK", 3)

  /** KIEI-451 taught by Brian Eng (reviews rated 5 and 3) and by Ben Block (no reviews). */
  const Kiei451: Db := Db(
    [Course("c1", "KIEI-451", "Intro to Software Development")],
    [Brian, Ben],
    [EngSection, BlockSection],
    [Great, Ok])

  lemma Kiei451Queries()
    ensures CoursesWithNumber(Kiei451, "KIEI-451") == Kiei451.courses
    ensures SectionsOfCourse(Kiei451, "c1") == [EngSection, BlockSection]
  {
    assert Kiei451.courses[..0] == [];
    assert [EngSection, BlockSection][..1] == [EngSection];
    assert [EngSection][..0] == [];
    assert SectionsOfCourse(Kiei451, "c1") == Filter([EngSection, BlockSection], (s: Section) => s.courseId == "c1");
    assert Filter([EngSection], (s: Section) => s.courseId == "c1") == [EngSection];
  }

  lemma DistinctIds()
    ensures "s1" != "s2" && "l1" != "l2"
  {
    assert "s1"[1] != "s2"[1];
    assert "l1"[1] != "l2"[1];
  }

  lemma EngReviews()
    ensures ReviewsOfSection([Great, Ok], "s1") == [Great, Ok]
  {
    assert [Great, Ok][..1] == [Great];
    assert [Great][..0] == [];
    assert ReviewsOfSection([Great], "s1") == [Great];
  }

  lemma BlockReviews()
    ensures ReviewsOfSection([Great, Ok], "s2") == []
  {
    DistinctIds();
    assert [Great, Ok][..1] == [Great];
    assert [Great][..0] == [];
    assert ReviewsOfSection([Great], "s2") == [];
  }

  lemma EngRecords()
    ensures ToRecords([Great, Ok]) == [ReviewRecord("r1", "Great!", 5), ReviewRecord("r2", "OK", 3)]
    ensures RatingSum([Great, Ok]) == 8
  {
    assert [Great, Ok][..1] == [Great];
    assert [Great][..0] == [];
    assert ToRecords([Great]) == [ReviewRecord("r1", "Great!", 5)];
    assert RatingSum([Great]) == 5;
  }

  lemma Kiei451Lecturers()
    ensures LecturerById(Kiei451, "l1") == Some(Brian)
    ensures LecturerById(Kiei451, "l2") == Some(Ben)
  {
    DistinctIds();
    assert Kiei451.lecturers[1..] == [Ben];
    assert FindLecturer([Ben], "l2") == Some(Ben);
  }

  /**
   * Brian Eng's section has two reviews averaging 4; Ben Block's section has no
   * statistics; and because its undefined count is added into the course
   * count, both course statistics are NaN.
   */
  lemma UnreviewedSectionGivesNaN()
    ensures Aggregate(Kiei451, "KIEI-451") == Success(CourseRecord(
      "KIEI-451", "Intro to Software Development",
      [ SectionRecord("c1", "l1", "Brian Eng",
                      [ReviewRecord("r1", "Great!", 5), ReviewRecord("r2", "OK", 3)],
                      Some(2), Some(Fraction(8, 2))),
        SectionRecord("c1", "l2", "Ben Block", [], None, None) ],
      Some(NaN), Some(NaN)))
    ensures Fraction(8, 2).Value() == 4.0
  {
    Kiei451Queries();
    EngReviews();
    BlockReviews();
    EngRecords();
    Kiei451Lecturers();
    var sections := [EngSection, BlockSection];
    assert LecturersExist(Kiei451, sections, 2);
    assert Summaries(Kiei451, sections, 1) == [SectionSummary(Kiei451, EngSection)];
    assert Summaries(Kiei451, sections, 2) == [SectionSummary(Kiei451, EngSection), SectionSummary(Kiei451, BlockSection)];
    assert HasUnreviewedSection(Kiei451.reviews, sections, 2);
  }

  const Five1 := Review("r1", "s1", "", 5)
  const Five2 := Review("r2", "s1", "", 5)
  const Five3 := Review("r3", "s1", "", 5)
  const One := Review("r4", "s2", "", 1)

  /** The same two sections; the first has three reviews rated 5, the second one review rated 1. */
  const Lopsided: Db := Db(
    [Course("c1", "KIEI-451", "Intro to Software Development")],
    [Brian, Ben],
    [EngSection, BlockSection],
    [Five1, Five2, Five3, One])

  lemma LopsidedQueries()
    ensures CoursesWithNumber(Lopsided, "KIEI-451") == Lopsided.courses
    ensures SectionsOfCourse(Lopsided, "c1") == [EngSection, BlockSection]
    ensures LecturerById(Lopsided, "l1") == Some(Brian)
    ensures LecturerById(Lopsided, "l2") == Some(Ben)
  {
    Kiei451Queries();
    Kiei451Lecturers();
  }

  /** Reviews that all belong to one section are exactly that section's reviews. */
  lemma {:induction false} AllOfSection(reviews: seq<Review>, id: Id)
    requires forall k :: 0 <= k < |reviews| ==> reviews[k].sectionId == id
    ensures ReviewsOfSection(reviews, id) == reviews
  {
    if reviews != [] {
      var init := reviews[..|reviews| - 1];
      AllOfSection(init, id);
      assert reviews == init + [reviews[|reviews| - 1]];
    }
  }

  /** Reviews none of which belongs to a section leave that section without reviews. */
  lemma {:induction false} NoneOfSection(reviews: seq<Review>, id: Id)
    requires forall k :: 0 <= k < |reviews| ==> reviews[k].sectionId != id
    ensures ReviewsOfSection(reviews, id) == []
  {
    if reviews != [] {
      var init := reviews[..|reviews| - 1];
      NoneOfSection(init, id);
      assert reviews == init + [reviews[|reviews| - 1]];
    }
  }

  lemma LopsidedFives()
    ensures ReviewsOfSection([Five1, Five2, Five3, One], "s1") == [Five1, Five2, Five3]
    ensures RatingSum([Five1, Five2, Five3]) == 15
  {
    DistinctIds();
    AllOfSection([Five1, Five2, Five3], "s1");
    ReviewsOfSectionSnoc([Five1, Five2, Five3], One, "s1");
    assert [Five1, Five2, Five3] + [One] == [Five1, Five2, Five3, One];
    assert [Five1, Five2, Five3][..2] == [Five1, Five2];
    assert [Five1, Five2][..1] == [Five1];
    assert [Five1][..0] == [];
    assert RatingSum([Five1]) == 5;
    assert RatingSum([Five1, Five2]) == 10;
  }

  lemma LopsidedOne()
    ensures ReviewsOfSection([Five1, Five2, Five3, One], "s2") == [One]
    ensures RatingSum([One]) == 1
  {
    DistinctIds();
    NoneOfSection([Five1, Five2, Five3], "s2");
    ReviewsOfSectionSnoc([Five1, Five2, Five3], One, "s2");
    assert [Five1, Five2, Five3] + [One] == [Five1, Five2, Five3, One];
    assert [One][..0] == [];
  }

  /**
   * The course average is 16 / 4 = 4, the mean over all four reviews, while the
   * section averages are 15 / 3 = 5 and 1 / 1 = 1, whose mean is 3.
   */
  lemma CourseAverageIsNotMeanOfSectionAverages()
    ensures var r := Aggregate(Lopsided, "KIEI-451");
      && r.Success? && |r.value.sections| == 2
      && r.value.sections[0].averageRating == Some(Fraction(15, 3))
      && r.value.sections[1].averageRating == Some(Fraction(1, 1))
      && r.value.averageRating == Some(Finite(Fraction(16, 4)))
    ensures Fraction(16, 4).Value() == 4.0
    ensures (Fraction(15, 3).Value() + Fraction(1, 1).Value()) / 2.0 == 3.0
  {
    LopsidedQueries();
    LopsidedFives();
    LopsidedOne();
    var sections := [EngSection, BlockSection];
    var reviews := Lopsided.reviews;
    assert LecturersExist(Lopsided, sections, 2);
    assert Summaries(Lopsided, sections, 1) == [SectionSummary(Lopsided, EngSection)];
    assert Summaries(Lopsided, sections, 2) == [SectionSummary(Lopsided, EngSection), SectionSummary(Lopsided, BlockSection)];
    assert !HasUnreviewedSection(reviews, sections, 2);
    assert ReviewCount(reviews, sections, 1) == 3;
    assert RatingTotal(reviews, sections, 1) == 15;
    assert ReviewCount(reviews, sections, 2) == 4;
    assert RatingTotal(reviews, sections, 2) == 16;
  }
}
