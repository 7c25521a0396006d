# Kellogg course reviews: the `courses` function

This project models the serverless function that answers
`/.netlify/functions/courses?courseNumber=…`. The function looks up a course
by its course number in a Firestore database. It then walks the course's
sections: for each one it joins the lecturer's name, lists the section's
reviews, and computes the section's review count and average rating. Along
the way it keeps running totals, and from them it computes the course's
review count and average rating.

The database is a snapshot of four collections held as sequences
(`Store.Db`). A `where(field, '==', value).get()` query keeps the documents
that match, in the order the collection's sequence gives (`Store.Filter`). A `doc(id).get()` lookup
may find nothing (`Store.FindLecturer`, an `Option`).

The function itself is the method `Courses.Handler`. It keeps the source's
two nested loops; the inner loop over one section's reviews is the method
`Courses.WalkReviews`. The handler is proved equal to the declarative answer
`Courses.Aggregate`, and the properties are proved about that answer in
`CourseProperties`. `CourseExamples` works out two concrete databases.

JavaScript values that matter are modelled as follows:

- A field that is never assigned (`undefined`) is `None`.
- A TypeError thrown by reading a property of `undefined` is a
  `Failure(Crash)`. This happens at the course lookup (line 53) and at the
  lecturer lookup (line 86).
- Adding an undefined section count to the course count gives NaN, and NaN
  stays NaN. This is `Number.NaN`.
- An average is kept as the exact quotient `Fraction(sum, count)` of the
  division the code performs, with `Fraction.Value()` its real value. The
  divisor is a `Positive`, so every division is proved not to divide by zero.

A section without reviews never gets `numberOfReviews` or `averageRating`:
both are assigned only inside the review loop (lines 120 and 123). Adding its
undefined count to the course count at line 131 makes both course statistics
NaN, and they stay NaN for the rest of the section loop.
`CourseProperties.UnreviewedSectionPoisonsCourse` states when this happens,
and `CourseExamples.UnreviewedSectionGivesNaN` shows it on a two-lecturer
KIEI-451 course.

## Model

| member | source | states |
|---|---|---|
| Store.FilterMembers | netlify/functions/courses.js:47 | a `where` query keeps exactly the documents whose field matches |
| Store.FilterAppend | netlify/functions/courses.js:62-65 | a query keeps the collection's order: filtering a concatenation is the concatenation of the filters |
| Store.CoursesWithNumberMembers | netlify/functions/courses.js:47 | the course query returns exactly the courses with the requested number |
| Store.SectionsOfCourseMembers | netlify/functions/courses.js:62-65 | the section query returns exactly the sections whose course id is the course's document id |
| Store.ReviewsOfSectionMembers | netlify/functions/courses.js:89-92 | the review query returns exactly the reviews whose section id is the section's document id |
| Store.ReviewsOfSectionSnoc | netlify/functions/courses.js:89-92 | one more review document in the collection adds it to the end of its own section's query, and to no other |
| Store.SectionsOfCourseDistinct | netlify/functions/courses.js:62-65 | the sections of a course have distinct document ids |
| Store.FindLecturerFinds | netlify/functions/courses.js:80-83 | the lookup by id finds a lecturer exactly when one with that id exists, and what it finds has that id |
| Store.FindLecturerById | netlify/functions/courses.js:80-83 | with unique ids, looking a lecturer up by its own id yields that lecturer |
| ReviewStats.RatingSumAppend | netlify/functions/courses.js:117 | the running sum of ratings over two runs of reviews is the sum of the two sums |
| ReviewStats.RatingSumOnScale | netlify/functions/courses.js:8 | ratings on the 1 to 5 scale sum to between one and five times their number |
| ReviewStats.ReviewCountAtLeast | netlify/functions/courses.js:131 | when every section so far has a review, the course count so far is at least the number of sections |
| ReviewStats.RatingTotalOnScale | netlify/functions/courses.js:130-131 | with ratings on the scale, the rating total `RatingTotal` (the handler's `sumCourseReviews`) lies between one and five times the section-by-section count `ReviewCount` |
| ReviewStats.PerDistinctSection | netlify/functions/courses.js:62-65 | with distinct section ids, a review's section id matches at most one section of the course |
| ReviewStats.ReviewCountSnoc | netlify/functions/courses.js:131 | a new review document raises the section-by-section count once per section carrying its section id |
| ReviewStats.RatingTotalSnoc | netlify/functions/courses.js:130 | a new review document raises the section-by-section rating total by its rating once per section carrying its section id |
| ReviewStats.TotalsAreGlobal | netlify/functions/courses.js:130-131 | summing section by section counts every review of the course exactly once: the totals are the count and rating sum of all of the course's reviews |
| ReviewStats.TotalsOfNoReviews | netlify/functions/courses.js:130-131 | over an empty review collection, the section-by-section count `ReviewCount` and rating total `RatingTotal` are 0 (the base case of `TotalsAreGlobal`) |
| Courses.SummariesLength | netlify/functions/courses.js:140 | one section record is pushed per section walked |
| Courses.Aggregate | netlify/functions/courses.js:47-141 | an answer carries one section record per section of the first course with the requested number |
| Courses.CourseCountStep | netlify/functions/courses.js:131 | each section adds its review count to the course count; an undefined count makes it NaN for good; a numeric count is positive |
| Courses.CourseAverageStep | netlify/functions/courses.js:137 | after each section the course average is the rating total over the count, or NaN when the count is NaN |
| Courses.WalkReviews | netlify/functions/courses.js:95-127 | the inner loop copies the reviews into records in order, sums their ratings, and leaves count and average undefined exactly when there are no reviews, else the number of reviews and the sum over it |
| Courses.Handler | netlify/functions/courses.js:47-141 | the two nested loops compute exactly the answer `Aggregate` describes, including both crashes |
| CourseProperties.UnknownCourseNumberCrashes | netlify/functions/courses.js:47-53 | the handler crashes at `course.id` if and only if no course has the requested number |
| CourseProperties.ReportsRequestedCourse | netlify/functions/courses.js:47-56 | an answer reports the requested course number and the name of a course with that number, the only such name when course numbers are unique |
| CourseProperties.DanglingLecturerCrashes | netlify/functions/courses.js:80-86 | once the course is found, the handler crashes at `lecturer.name` if and only if one of its sections names a lecturer that does not exist |
| CourseProperties.SummariesAt | netlify/functions/courses.js:72-140 | the k-th section record describes the k-th section of the query |
| CourseProperties.SectionsFollowQuery | netlify/functions/courses.js:62-86 | the answer has one section record per section of the course, in query order; each keeps its course and lecturer ids and carries the name of the lecturer document with that id |
| CourseProperties.ToRecordsCopies | netlify/functions/courses.js:104-126 | the review records are the documents' ids, bodies and ratings, one per document and in the same order |
| CourseProperties.NoReviewsOf | netlify/functions/courses.js:89-92 | a section's review query is empty if and only if no review document names that section |
| CourseProperties.SectionReviews | netlify/functions/courses.js:89-126 | a section record lists exactly its section's review documents in collection order; its count and average are undefined if and only if it has none, else the number of documents and their rating sum divided by it |
| CourseProperties.FractionOnScale | netlify/functions/courses.js:123 | a sum between one and five times its count divides to a value on the 1 to 5 scale |
| CourseProperties.SectionAverageOnScale | netlify/functions/courses.js:123 | with ratings on the 1 to 5 scale, every section average is on that scale |
| CourseProperties.SectionCountSumSnoc | netlify/functions/courses.js:131 | the JavaScript sum of the section counts grows by the last count, or becomes NaN when that count is undefined |
| CourseProperties.SummaryCountsAdd | netlify/functions/courses.js:131-134 | the course count after any number of sections is the JavaScript sum of their records' counts |
| CourseProperties.CourseCountSumsSectionCounts | netlify/functions/courses.js:131-134 | the course's review count is the sum of its sections' counts (NaN when one is undefined); a course without sections has no course statistics |
| CourseProperties.UnreviewedSectionPoisonsCourse | netlify/functions/courses.js:120-137 | a course with sections has both statistics, and each is NaN if and only if one of its sections has no review document |
| CourseProperties.CourseReviewsMembers | netlify/functions/courses.js:89-92 | the course's reviews are exactly the review documents of one of its sections |
| CourseProperties.CourseAverageIsGlobalMean | netlify/functions/courses.js:130-137 | when every section has reviews, the course count is the number of all of the course's reviews and the average is their rating sum over that number, not a mean of section averages |
| CourseProperties.CourseAverageOnScale | netlify/functions/courses.js:137 | with ratings on the 1 to 5 scale, a numeric course average is on that scale |
| CourseExamples.UnreviewedSectionGivesNaN | netlify/functions/courses.js:72-141 | KIEI-451 with Brian Eng's section rated 5 and 3 and Ben Block's section unreviewed: section statistics 2 and 8/2, none for Ben Block, and NaN for both course statistics |
| CourseExamples.CourseAverageIsNotMeanOfSectionAverages | netlify/functions/courses.js:117-137 | section averages 15/3 and 1/1 give a course average of 16/4 = 4, not their mean 3 |
| CourseExamples.AllOfSection | netlify/functions/courses.js:89 | reviews that all name one section are exactly that section's query result |
| CourseExamples.NoneOfSection | netlify/functions/courses.js:89 | reviews none of which names a section leave its query empty |

## Left out

- The Firebase client and its connection (lines 35 and 44) are not modelled. The database is a parameter of the handler.
- Reading the course number from the request (line 41) is not modelled. It is a parameter of the handler.
- The HTTP response (lines 144-147) is not modelled: status 200 and `JSON.stringify` of the course data. `JSON.stringify` writes NaN as `null` and omits undefined fields.
- The `await`s are sequential reads of one snapshot. Concurrent writes during a request are not modelled.
- A `where(...).get()` without `orderBy` returns documents ordered by document id. Each sequence of `Store.Db` stands for the collection in that order; the order itself is not derived from the ids.
- A `.get()` that rejects (a network or permission failure) is not modelled: every lookup succeeds on the snapshot.
- Fields of a document other than those the domain model names are not carried into the output. `course.data()` and `sections[i].data()` would carry any such extra fields along.
- Ratings are integers. Firestore could hold a string, which `+` would concatenate, or a fractional number, which `+` would add in binary floating point; neither is modelled.
- Averages are exact rational quotients, so IEEE double rounding of `/` is not modelled.
- The inner loop over a section's reviews is a separate method rather than inline in the section loop. Its four results are the four variables that loop updates.
