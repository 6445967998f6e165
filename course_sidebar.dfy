/** `getCoursesSidebarData` of app/data/course/get-course-sidebar-data.ts:
    the course with the given slug, its chapters and lessons ordered by
    position and each lesson's progress rows narrowed to the current user,
    shown only to a user who has paid for the course. */
module CourseSidebar {
  import opened JsValues
  import opened Auth
  import opened Payments

  /** A lesson-progress row. */
  datatype Progress = Progress(id: string, lessonId: string, userId: string, completed: bool)

  datatype Lesson = Lesson(id: string, title: string, position: int, description: Option<string>, progress: seq<Progress>)

  datatype Chapter = Chapter(id: string, title: string, position: int, lessons: seq<Lesson>)

  /** The course columns the query selects, with the chapters under it. */
  datatype Course = Course(
    id: string,
    title: string,
    fileKey: string,
    duration: real,
    level: string,
    category: string,
    slug: string,
    chapters: seq<Chapter>)

  // ---------------------------------------------------------------------
  // orderBy: { position: "asc" }
  // ---------------------------------------------------------------------

  predicate SortedBy<T>(s: seq<T>, pos: T -> int) {
    forall i, j :: 0 <= i < j < |s| ==> pos(s[i]) <= pos(s[j])
  }

  /** Puts `x` into a sorted sequence, before the first element whose
      position is not smaller. */
  function InsertByPosition<T>(x: T, s: seq<T>, pos: T -> int): (r: seq<T>)
    requires SortedBy(s, pos)
    ensures SortedBy(r, pos)
    ensures multiset(r) == multiset(s) + multiset{x}
    decreases |s|
  {
    if s == [] then [x]
    else if pos(x) <= pos(s[0]) then [x] + s
    else
      var rest := InsertByPosition(x, s[1..], pos);
      assert s == [s[0]] + s[1..];
      assert forall y :: y in rest ==> pos(s[0]) <= pos(y) by {
        forall y | y in rest ensures pos(s[0]) <= pos(y) {
          assert y in multiset(rest);
          assert y == x || y in multiset(s[1..]);
          if y != x {
            var k :| 0 <= k < |s[1..]| && s[1..][k] == y;
            assert s[k + 1] == y;
          }
        }
      }
      var r := [s[0]] + rest;
      assert forall i :: 1 <= i < |r| ==> r[i] == rest[i - 1];
      assert forall i :: 1 <= i < |r| ==> r[i] in rest;
      r
  }

  /** The rows in ascending position order: a sorted permutation of the input. */
  function SortByPosition<T>(s: seq<T>, pos: T -> int): (r: seq<T>)
    ensures SortedBy(r, pos)
    ensures multiset(r) == multiset(s)
    ensures |r| == |s|
    decreases |s|
  {
    if s == [] then []
    else
      assert s == [s[0]] + s[1..];
      InsertByPosition(s[0], SortByPosition(s[1..], pos), pos)
  }

  function LessonPosition(l: Lesson): int { l.position }

  function ChapterPosition(c: Chapter): int { c.position }

  // ---------------------------------------------------------------------
  // The shape of the returned course
  // ---------------------------------------------------------------------

  /** `lessonProgress: { where: { userId } }`: the rows of that user, in order. */
  function ProgressOf(rows: seq<Progress>, userId: string): (r: seq<Progress>)
    ensures forall i :: 0 <= i < |r| ==> r[i].userId == userId
    ensures forall q :: q in r <==> q in rows && q.userId == userId
    decreases |rows|
  {
    if rows == [] then []
    else
      var rest := ProgressOf(rows[1..], userId);
      assert rows == [rows[0]] + rows[1..];
      if rows[0].userId == userId then [rows[0]] + rest else rest
  }

  /** A lesson as the query returns it for `userId`: its columns, with only
      that user's progress rows. */
  function ShapeLesson(l: Lesson, userId: string): (r: Lesson)
    ensures r == l.(progress := r.progress)
    ensures forall q :: q in r.progress <==> q in l.progress && q.userId == userId
  {
    l.(progress := ProgressOf(l.progress, userId))
  }

  function ShapeLessons(ls: seq<Lesson>, userId: string): (r: seq<Lesson>)
    ensures |r| == |ls| && forall i :: 0 <= i < |ls| ==> r[i] == ShapeLesson(ls[i], userId)
  {
    seq(|ls|, i requires 0 <= i < |ls| => ShapeLesson(ls[i], userId))
  }

  /** A chapter as the query returns it for `userId`: its columns, with its
      shaped lessons in ascending position. */
  function ShapeChapter(c: Chapter, userId: string): (r: Chapter)
    ensures r == c.(lessons := r.lessons)
    ensures SortedBy(r.lessons, LessonPosition)
    ensures multiset(r.lessons) == multiset(ShapeLessons(c.lessons, userId))
  {
    c.(lessons := SortByPosition(ShapeLessons(c.lessons, userId), LessonPosition))
  }

  function ShapeChapters(cs: seq<Chapter>, userId: string): (r: seq<Chapter>)
    ensures |r| == |cs| && forall i :: 0 <= i < |cs| ==> r[i] == ShapeChapter(cs[i], userId)
  {
    seq(|cs|, i requires 0 <= i < |cs| => ShapeChapter(cs[i], userId))
  }

  /** The course as the query returns it for `userId`: its selected columns,
      with its shaped chapters in ascending position. */
  function ShapeCourse(c: Course, userId: string): (r: Course)
    ensures r == c.(chapters := r.chapters)
    ensures SortedBy(r.chapters, ChapterPosition)
    ensures multiset(r.chapters) == multiset(ShapeChapters(c.chapters, userId))
  {
    c.(chapters := SortByPosition(ShapeChapters(c.chapters, userId), ChapterPosition))
  }

  /** Every progress row under the chapter belongs to `userId`. */
  predicate ChapterProgressOf(ch: Chapter, userId: string) {
    forall j :: 0 <= j < |ch.lessons| ==> forall q :: q in ch.lessons[j].progress ==> q.userId == userId
  }

  /** Anything in a sorted copy was in the input. */
  lemma {:induction false} SortedMember<T>(s: seq<T>, pos: T -> int, y: T)
    requires y in SortByPosition(s, pos)
    ensures y in s
  {
    assert y in multiset(SortByPosition(s, pos));
  }

  /** A shaped chapter has its lessons in ascending position, and only the
      user's progress rows under them. */
  lemma {:induction false} ShapedChapterProperties(ch: Chapter, userId: string)
    ensures SortedBy(ShapeChapter(ch, userId).lessons, LessonPosition)
    ensures ChapterProgressOf(ShapeChapter(ch, userId), userId)
  {
    var ls := ShapeLessons(ch.lessons, userId);
    var r := ShapeChapter(ch, userId);
    forall j | 0 <= j < |r.lessons|
      ensures forall q :: q in r.lessons[j].progress ==> q.userId == userId
    {
      SortedMember(ls, LessonPosition, r.lessons[j]);
    }
  }

  /** The returned course keeps the course's own columns; its chapters are the
      stored chapters in ascending position; the lessons of every chapter are
      that chapter's lessons in ascending position; and every progress row
      returned belongs to `userId`. */
  lemma {:induction false} ShapedCourseProperties(c: Course, userId: string)
    ensures var r := ShapeCourse(c, userId);
      && r.id == c.id && r.title == c.title && r.slug == c.slug && r.fileKey == c.fileKey
      && r.duration == c.duration && r.level == c.level && r.category == c.category
      && SortedBy(r.chapters, ChapterPosition)
      && multiset(r.chapters) == multiset(ShapeChapters(c.chapters, userId))
      && (forall i :: 0 <= i < |r.chapters| ==> SortedBy(r.chapters[i].lessons, LessonPosition))
      && (forall i :: 0 <= i < |r.chapters| ==> ChapterProgressOf(r.chapters[i], userId))
  {
    var r := ShapeCourse(c, userId);
    var shaped := ShapeChapters(c.chapters, userId);
    forall i | 0 <= i < |r.chapters|
      ensures SortedBy(r.chapters[i].lessons, LessonPosition) && ChapterProgressOf(r.chapters[i], userId)
    {
      SortedMember(shaped, ChapterPosition, r.chapters[i]);
      var k :| 0 <= k < |shaped| && shaped[k] == r.chapters[i];
      ShapedChapterProperties(c.chapters[k], userId);
    }
  }

  // ---------------------------------------------------------------------
  // The query
  // ---------------------------------------------------------------------

  /** `prisma.course.findUnique({ where: { slug } })`. */
  function FindBySlug(catalog: seq<Course>, slug: string): (r: Option<Course>)
    ensures r.Some? ==> r.value in catalog && r.value.slug == slug
    ensures r.None? <==> forall i :: 0 <= i < |catalog| ==> catalog[i].slug != slug
    decreases |catalog|
  {
    if catalog == [] then None
    else if catalog[0].slug == slug then Some(catalog[0])
    else
      assert forall i :: 1 <= i < |catalog| ==> catalog[i] == catalog[1..][i - 1];
      FindBySlug(catalog[1..], slug)
  }

  /** What the call ends in: `requireUser` redirected, `notFound()` was thrown,
      or the course is returned. */
  datatype SidebarResult = Redirected | NotFound | Found(course: Course)

  /** `getCoursesSidebarData({ slug })`. `user` is what `requireUser` returned
      (`None` when it redirected). */
  function GetCoursesSidebarData(user: Option<User>, catalog: seq<Course>, payments: seq<Payment>, slug: string): (r: SidebarResult)
    ensures user.None? ==> r == Redirected
    ensures user.Some? && FindBySlug(catalog, slug).None? ==> r == NotFound
    ensures user.Some? && FindBySlug(catalog, slug).Some? ==>
      var c := FindBySlug(catalog, slug).value;
      r == if HasSuccessfulPayment(payments, user.value.id, c.id) then Found(ShapeCourse(c, user.value.id)) else NotFound
    ensures r.Found? ==> user.Some? && exists c :: c in catalog && c.slug == slug &&
                                                   HasSuccessfulPayment(payments, user.value.id, c.id) &&
                                                   r.course == ShapeCourse(c, user.value.id)
  {
    if user.None? then Redirected
    else
      var course := FindBySlug(catalog, slug);
      if course.None? then NotFound
      else
        var enrollment := FindFirst(payments, user.value.id, course.value.id, SuccessStatus);
        if enrollment.None? || enrollment.value.status != SuccessStatus then NotFound
        else Found(ShapeCourse(course.value, user.value.id))
  }

  /** An unknown slug is `notFound()` whatever the payment table holds: the
      table is not consulted. */
  lemma {:induction false} UnknownSlugIgnoresPayments(user: User, catalog: seq<Course>, p1: seq<Payment>, p2: seq<Payment>, slug: string)
    requires forall i :: 0 <= i < |catalog| ==> catalog[i].slug != slug
    ensures GetCoursesSidebarData(Some(user), catalog, p1, slug) == GetCoursesSidebarData(Some(user), catalog, p2, slug) == NotFound
  {
  }
}
