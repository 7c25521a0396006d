/**
 * The four Firestore collections the course handler reads (courses, lecturers,
 * sections, reviews), held in memory as sequences of id-tagged documents.
 * A `where(field, '==', value).get()` query is an order-preserving filter of a
 * collection, and `doc(id).get()` is a lookup that may find nothing.
 */
module Store {
  import opened Wrappers

  /** A Firestore document id. */
  type Id = string

  datatype Course = Course(id: Id, courseNumber: string, name: string)
  datatype Lecturer = Lecturer(id: Id, name: string)
  /** A lecturer teaching a course: the entity reviews are written about. */
  datatype Section = Section(id: Id, courseId: Id, lecturerId: Id)
  datatype Review = Review(id: Id, sectionId: Id, body: string, rating: int)

  /** A snapshot of the database; each collection in the order queries return it. */
  datatype Db = Db(courses: seq<Course>, lecturers: seq<Lecturer>, sections: seq<Section>, reviews: seq<Review>)

  /** The elements of `s` that satisfy `p`, in their order in `s`. */
  function Filter<T>(s: seq<T>, p: T -> bool): (r: seq<T>)
    ensures |r| <= |s|
  {
    if s == [] then []
    else
      var init, last := s[..|s| - 1], s[|s| - 1];
      assert s == init + [last];
      Filter(init, p) + (if p(last) then [last] else [])
  }

  /** The filter keeps exactly the elements that satisfy `p`. */
  lemma {:induction false} FilterMembers<T>(s: seq<T>, p: T -> bool, x: T)
    ensures x in Filter(s, p) <==> x in s && p(x)
  {
    if s != [] {
      var init, last := s[..|s| - 1], s[|s| - 1];
      assert s == init + [last];
      FilterMembers(init, p, x);
    }
  }

  /** Filtering distributes over concatenation: the filter keeps the collection's order. */
  lemma {:induction false} FilterAppend<T>(a: seq<T>, b: seq<T>, p: T -> bool)
    ensures Filter(a + b, p) == Filter(a, p) + Filter(b, p)
  {
    if b == [] {
      assert a + b == a;
    } else {
      var init, last := b[..|b| - 1], b[|b| - 1];
      assert b == init + [last];
      assert (a + b)[..|a + b| - 1] == a + init;
      FilterAppend(a, init, p);
    }
  }

  /** No two elements of `s` share a key. */
  predicate KeysDistinct<T>(s: seq<T>, key: T -> Id) {
    forall i, j :: 0 <= i < j < |s| ==> key(s[i]) != key(s[j])
  }

  /** A filter of a collection whose keys are distinct has distinct keys. */
  lemma {:induction false} FilterKeepsKeysDistinct<T>(s: seq<T>, p: T -> bool, key: T -> Id)
    requires KeysDistinct(s, key)
    ensures KeysDistinct(Filter(s, p), key)
  {
    if s != [] {
      var init, last := s[..|s| - 1], s[|s| - 1];
      assert s == init + [last];
      FilterKeepsKeysDistinct(init, p, key);
      var f := Filter(init, p);
      forall i | 0 <= i < |f|
        ensures key(f[i]) != key(last)
      {
        FilterMembers(init, p, f[i]);
        var k :| 0 <= k < |init| && init[k] == f[i];
        assert s[k] == f[i];
      }
    }
  }

  function SectionKey(s: Section): Id { s.id }

  /** Document ids are unique within the sections collection, as Firestore guarantees. */
  predicate DistinctSectionIds(sections: seq<Section>) {
    KeysDistinct(sections, SectionKey)
  }

  /** `courses.where('courseNumber', '==', courseNumber).get()` */
  function CoursesWithNumber(db: Db, courseNumber: string): seq<Course>
  {
    Filter(db.courses, (c: Course) => c.courseNumber == courseNumber)
  }

  /** `sections.where('courseId', '==', courseId).get()` */
  function SectionsOfCourse(db: Db, courseId: Id): seq<Section>
  {
    Filter(db.sections, (s: Section) => s.courseId == courseId)
  }

  /** `reviews.where('sectionId', '==', sectionId).get()`, over a given reviews collection. */
  function ReviewsOfSection(reviews: seq<Review>, sectionId: Id): seq<Review>
  {
    Filter(reviews, (x: Review) => x.sectionId == sectionId)
  }

  /** The courses a course-number query returns are those with that number. */
  lemma CoursesWithNumberMembers(db: Db, courseNumber: string, c: Course)
    ensures c in CoursesWithNumber(db, courseNumber) <==> c in db.courses && c.courseNumber == courseNumber
  {
    FilterMembers(db.courses, (c: Course) => c.courseNumber == courseNumber, c);
  }

  /** The sections a course-id query returns are those of that course. */
  lemma SectionsOfCourseMembers(db: Db, courseId: Id, s: Section)
    ensures s in SectionsOfCourse(db, courseId) <==> s in db.sections && s.courseId == courseId
  {
    FilterMembers(db.sections, (s: Section) => s.courseId == courseId, s);
  }

  /** The reviews a section-id query returns are those of that section. */
  lemma ReviewsOfSectionMembers(reviews: seq<Review>, sectionId: Id, x: Review)
    ensures x in ReviewsOfSection(reviews, sectionId) <==> x in reviews && x.sectionId == sectionId
  {
    FilterMembers(reviews, (x: Review) => x.sectionId == sectionId, x);
  }

  /** The reviews of a section after one more review document is appended to the collection. */
  lemma ReviewsOfSectionSnoc(reviews: seq<Review>, x: Review, sectionId: Id)
    ensures ReviewsOfSection(reviews + [x], sectionId)
         == ReviewsOfSection(reviews, sectionId) + (if x.sectionId == sectionId then [x] else [])
  {
    assert (reviews + [x])[..|reviews|] == reviews;
  }

  /** The sections of a course have distinct ids when the sections collection does. */
  lemma SectionsOfCourseDistinct(db: Db, courseId: Id)
    requires DistinctSectionIds(db.sections)
    ensures DistinctSectionIds(SectionsOfCourse(db, courseId))
  {
    FilterKeepsKeysDistinct(db.sections, (s: Section) => s.courseId == courseId, SectionKey);
  }

  /** The first lecturer in `lecturers` with the given id, if any. */
  function FindLecturer(lecturers: seq<Lecturer>, id: Id): Option<Lecturer> {
    if lecturers == [] then None
    else if lecturers[0].id == id then Some(lecturers[0])
    else FindLecturer(lecturers[1..], id)
  }

  /** The lookup finds a lecturer exactly when one has that id, and what it finds has that id. */
  lemma {:induction false} FindLecturerFinds(lecturers: seq<Lecturer>, id: Id)
    ensures FindLecturer(lecturers, id).Some? <==> exists l :: l in lecturers && l.id == id
    ensures FindLecturer(lecturers, id).Some? ==>
      FindLecturer(lecturers, id).value in lecturers && FindLecturer(lecturers, id).value.id == id
  {
    if lecturers != [] && lecturers[0].id != id {
      FindLecturerFinds(lecturers[1..], id);
      if l :| l in lecturers && l.id == id {
        assert l in lecturers[1..];
      }
    }
  }

  /** `lecturers.doc(id).get()`: the document with that id, or nothing. */
  function LecturerById(db: Db, id: Id): Option<Lecturer> {
    FindLecturer(db.lecturers, id)
  }

  /** Lecturer ids are unique within the lecturers collection. */
  function LecturerKey(l: Lecturer): Id { l.id }

  predicate DistinctLecturerIds(lecturers: seq<Lecturer>) {
    KeysDistinct(lecturers, LecturerKey)
  }

  /** With unique ids, looking a lecturer up by its own id finds exactly that lecturer. */
  lemma {:induction false} FindLecturerById(lecturers: seq<Lecturer>, l: Lecturer)
    requires DistinctLecturerIds(lecturers)
    requires l in lecturers
    ensures FindLecturer(lecturers, l.id) == Some(l)
  {
    if lecturers[0] != l {
      assert lecturers[0].id != l.id by {
        var k :| 0 <= k < |lecturers| && lecturers[k] == l;
        assert k != 0;
        assert LecturerKey(lecturers[0]) != LecturerKey(lecturers[k]);
      }
      assert l in lecturers[1..];
      assert DistinctLecturerIds(lecturers[1..]) by {
        forall i, j | 0 <= i < j < |lecturers| - 1
          ensures LecturerKey(lecturers[1..][i]) != LecturerKey(lecturers[1..][j])
        {
          assert LecturerKey(lecturers[i + 1]) != LecturerKey(lecturers[j + 1]);
        }
      }
      FindLecturerById(lecturers[1..], l);
    }
  }
}
