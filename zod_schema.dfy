/** The form schemas of lib/zodSchema.ts: the exported option lists and the
    field-by-field acceptance rules of `courseSchema`, `chapterSchema` and
    `lessonSchema`, as `safeParse` applies them to an untyped value. */
module ZodSchema {
  import opened JsValues

  const CourseLevels: seq<string> := ["Beginner", "Advanced", "Intermediate"]
  const CourseStatus: seq<string> := ["Archived", "Published", "Draft"]
  const CourseCategories: seq<string> := [
    "Development",
    "Business",
    "Finance",
    "IT & Software",
    "Office Productivity",
    "Personal Development",
    "Design",
    "Marketing",
    "Health & Fitness",
    "Music",
    "Teaching & Academics"
  ]

  /** The option lists written inline in `courseSchema` for `level` and
      `status` (the constants above are not reused there). */
  const LevelOptions: seq<string> := ["Beginner", "Intermediate", "Advanced"]
  const StatusOptions: seq<string> := ["Draft", "Published", "Archived"]

  // ---------------------------------------------------------------------
  // Generic field rules and the issues `safeParse` collects
  // ---------------------------------------------------------------------

  /** One problem reported by `safeParse`, with the key it concerns.
      `WrongType` carries zod's own wording ("Required", "Expected string,
      received number"), which is not modelled. */
  datatype Issue =
    | WrongType(path: string)
    | Message(path: string, text: string)

  /** The acceptance rule of one schema field. */
  datatype Rule =
    | Text(minLen: nat, minMessage: string, maxLen: Option<nat>, maxMessage: string)
    | Number(min: real, minMessage: string, max: Option<real>, maxMessage: string)
    | OneOf(options: seq<string>, message: string)
    | Uuid(message: string)
    | Flag
    | Optional(inner: Rule)

  type Shape = seq<(string, Rule)>

  /** The issues one field contributes. A string or number that has the right
      type is checked against both bounds; an enum given a custom message
      reports that message for a wrong type as well as for a wrong value. */
  function CheckField(v: Json, path: string, rule: Rule): (issues: seq<Issue>)
    ensures forall k :: 0 <= k < |issues| ==> issues[k].path == path
  {
    match rule
    case Text(lo, loMessage, hi, hiMessage) =>
      if !v.Str? then [WrongType(path)]
      else (if |v.s| < lo then [Message(path, loMessage)] else [])
           + (if hi.Some? && |v.s| > hi.value then [Message(path, hiMessage)] else [])
    case Number(lo, loMessage, hi, hiMessage) =>
      if !v.Num? then [WrongType(path)]
      else (if v.n < lo then [Message(path, loMessage)] else [])
           + (if hi.Some? && v.n > hi.value then [Message(path, hiMessage)] else [])
    case OneOf(options, message) =>
      if v.Str? && v.s in options then [] else [Message(path, message)]
    case Uuid(message) =>
      if !v.Str? then [WrongType(path)]
      else if IsUuid(v.s) then [] else [Message(path, message)]
    case Flag =>
      if v.Bool? then [] else [WrongType(path)]
    case Optional(inner) =>
      if v.Undefined? then [] else CheckField(v, path, inner)
  }

  /** `key` is one of the keys the shape lists. */
  predicate ShapeKey(shape: Shape, key: string) {
    exists j :: 0 <= j < |shape| && shape[j].0 == key
  }

  /** The issues of every field of an object, in the order the shape lists
      them; each is filed under one of the shape's keys, never under a key
      the shape does not list. */
  function ShapeIssues(v: Json, shape: Shape): (issues: seq<Issue>)
    ensures forall k :: 0 <= k < |issues| ==> ShapeKey(shape, issues[k].path)
    decreases |shape|
  {
    if shape == [] then []
    else
      var head := CheckField(Get(v, shape[0].0), shape[0].0, shape[0].1);
      var rest := ShapeIssues(v, shape[1..]);
      assert forall k :: 0 <= k < |rest| ==> ShapeKey(shape, rest[k].path) by {
        forall k | 0 <= k < |rest| ensures ShapeKey(shape, rest[k].path) {
          var j :| 0 <= j < |shape[1..]| && shape[1..][j].0 == rest[k].path;
          assert shape[j + 1].0 == rest[k].path;
        }
      }
      assert ShapeKey(shape, shape[0].0);
      head + rest
  }

  /** What `z.object(shape).safeParse(v)` reports: a non-object is one issue at
      the root; an object has no issues exactly when every field passes. */
  function ObjectIssues(v: Json, shape: Shape): (issues: seq<Issue>)
    ensures !v.Obj? ==> issues == [WrongType("")]
    ensures issues == [] <==> v.Obj? && forall i :: 0 <= i < |shape| ==> FieldPasses(v, shape, i)
  {
    NoIssuesIffEveryFieldPasses(v, shape);
    if !v.Obj? then [WrongType("")] else ShapeIssues(v, shape)
  }

  /** The field of `v` named by entry `i` of `shape` passes its rule. */
  predicate FieldPasses(v: Json, shape: Shape, i: int)
    requires 0 <= i < |shape|
  {
    CheckField(Get(v, shape[i].0), shape[i].0, shape[i].1) == []
  }

  /** An object has no issues exactly when every field passes: one failing
      field makes the whole parse fail. */
  lemma {:induction false} NoIssuesIffEveryFieldPasses(v: Json, shape: Shape)
    ensures ShapeIssues(v, shape) == [] <==> forall i :: 0 <= i < |shape| ==> FieldPasses(v, shape, i)
    decreases |shape|
  {
    if shape != [] {
      var head := CheckField(Get(v, shape[0].0), shape[0].0, shape[0].1);
      var rest := ShapeIssues(v, shape[1..]);
      assert ShapeIssues(v, shape) == head + rest;
      assert head + rest == [] <==> head == [] && rest == [] by {
        if head + rest == [] { assert |head + rest| == |head| + |rest|; }
      }
      NoIssuesIffEveryFieldPasses(v, shape[1..]);
      assert forall i :: 1 <= i < |shape| ==> (FieldPasses(v, shape, i) <==> FieldPasses(v, shape[1..], i - 1)) by {
        forall i | 1 <= i < |shape| ensures shape[i] == shape[1..][i - 1] { }
      }
      assert FieldPasses(v, shape, 0) <==> head == [];
      if forall i :: 0 <= i < |shape| ==> FieldPasses(v, shape, i) {
        forall j | 0 <= j < |shape| - 1 ensures FieldPasses(v, shape[1..], j) {
          assert FieldPasses(v, shape, j + 1);
        }
      }
      if ShapeIssues(v, shape) == [] {
        forall i | 0 <= i < |shape| ensures FieldPasses(v, shape, i) {
          if i > 0 { assert FieldPasses(v, shape[1..], i - 1); }
        }
      }
    }
  }

  // ---------------------------------------------------------------------
  // UUID strings (the 8-4-4-4-12 hex form of section 3 of RFC 4122)
  // ---------------------------------------------------------------------

  predicate IsHexDigit(c: char) {
    ('0' <= c <= '9') || ('a' <= c <= 'f') || ('A' <= c <= 'F')
  }

  predicate IsHyphenPosition(i: int) {
    i == 8 || i == 13 || i == 18 || i == 23
  }

  /** `z.string().uuid()` as zod 3.22 and later 3.x releases check it: 36
      characters, hyphens after the 8th, 12th, 16th and 20th hex digit, hex
      digits of either case everywhere else, with no version or variant check. */
  predicate IsUuid(s: string) {
    |s| == 36 &&
    forall i :: 0 <= i < 36 ==> if IsHyphenPosition(i) then s[i] == '-' else IsHexDigit(s[i])
  }

  predicate AllHex(h: string) {
    forall i :: 0 <= i < |h| ==> IsHexDigit(h[i])
  }

  /** Groups 32 hex digits as 8-4-4-4-12. */
  function FormatUuid(h: string): (s: string)
    requires |h| == 32
    ensures |s| == 36
  {
    h[..8] + "-" + h[8..12] + "-" + h[12..16] + "-" + h[16..20] + "-" + h[20..]
  }

  /** The hex digits of a 36-character UUID string, hyphens dropped. */
  function UuidDigits(s: string): (h: string)
    requires |s| == 36
    ensures |h| == 32
  {
    s[..8] + s[9..13] + s[14..18] + s[19..23] + s[24..]
  }

  /** Where hex digit `k` of a formatted UUID sits. */
  function DigitPosition(k: int): int {
    if k < 8 then k else if k < 12 then k + 1 else if k < 16 then k + 2 else if k < 20 then k + 3 else k + 4
  }

  lemma FormatUuidAt(h: string, k: int)
    requires |h| == 32 && 0 <= k < 32
    ensures FormatUuid(h)[DigitPosition(k)] == h[k]
    ensures UuidDigits(FormatUuid(h))[k] == h[k]
  {
  }

  /** Formatting 32 hex digits gives an accepted UUID whose digits are those 32. */
  lemma {:induction false} FormattedUuidAccepted(h: string)
    requires |h| == 32 && AllHex(h)
    ensures IsUuid(FormatUuid(h))
    ensures UuidDigits(FormatUuid(h)) == h
  {
    var s := FormatUuid(h);
    forall i | 0 <= i < 36
      ensures if IsHyphenPosition(i) then s[i] == '-' else IsHexDigit(s[i])
    {
      if !IsHyphenPosition(i) {
        var k := if i < 8 then i else if i < 13 then i - 1 else if i < 18 then i - 2 else if i < 23 then i - 3 else i - 4;
        FormatUuidAt(h, k);
      }
    }
    forall k | 0 <= k < 32 ensures UuidDigits(s)[k] == h[k] {
      FormatUuidAt(h, k);
    }
  }

  /** Every accepted UUID is the formatting of its own 32 hex digits, so the
      accepted strings are exactly the formatted ones. */
  lemma {:induction false} AcceptedUuidIsFormatted(s: string)
    requires IsUuid(s)
    ensures AllHex(UuidDigits(s))
    ensures FormatUuid(UuidDigits(s)) == s
  {
    var h := UuidDigits(s);
    forall k | 0 <= k < 32 ensures IsHexDigit(h[k]) && h[k] == s[DigitPosition(k)] {
      assert !IsHyphenPosition(DigitPosition(k));
    }
    var t := FormatUuid(h);
    forall i | 0 <= i < 36 ensures t[i] == s[i] {
      if !IsHyphenPosition(i) {
        var k := if i < 8 then i else if i < 13 then i - 1 else if i < 18 then i - 2 else if i < 23 then i - 3 else i - 4;
        FormatUuidAt(h, k);
      }
    }
  }

  // ---------------------------------------------------------------------
  // courseSchema
  // ---------------------------------------------------------------------

  /** The typed data of a course form, as `safeParse` returns it. */
  datatype CourseInput = CourseInput(
    title: string,
    description: string,
    fileKey: string,
    price: real,
    duration: real,
    level: string,
    category: string,
    smallDescription: string,
    slug: string,
    status: string)

  const CourseShape: Shape := [
    ("title", Text(3, "Title must be at least 3 characters", Some(100), "Title must not exceed 100 characters")),
    ("description", Text(3, "Description must be at least 3 characters", None, "")),
    ("fileKey", Text(1, "File key is required", None, "")),
    ("price", Number(1.0, "Price must be at least 1", None, "")),
    ("duration", Number(1.0, "Duration must be at least 1", Some(500.0), "Duration must not exceed 500")),
    ("level", OneOf(LevelOptions, "Invalid course level")),
    ("category", OneOf(CourseCategories, "Category is required.")),
    ("smallDescription", Text(3, "Small description must be at least 3 characters", Some(200), "Small description must not exceed 200 characters")),
    ("slug", Text(3, "Slug must be at least 3 characters", None, "")),
    ("status", OneOf(StatusOptions, "Invalid status"))
  ]

  /** The reference definition of a valid course, field by field, stated with
      the exported option lists. */
  predicate CourseValid(c: CourseInput) {
    && 3 <= |c.title| <= 100
    && 3 <= |c.description|
    && 1 <= |c.fileKey|
    && c.price >= 1.0
    && 1.0 <= c.duration <= 500.0
    && c.level in CourseLevels
    && c.category in CourseCategories
    && 3 <= |c.smallDescription| <= 200
    && 3 <= |c.slug|
    && c.status in CourseStatus
  }

  /** The course form as the client sends it. */
  function EncodeCourse(c: CourseInput): Json {
    Obj(map[
      "title" := Str(c.title),
      "description" := Str(c.description),
      "fileKey" := Str(c.fileKey),
      "price" := Num(c.price),
      "duration" := Num(c.duration),
      "level" := Str(c.level),
      "category" := Str(c.category),
      "smallDescription" := Str(c.smallDescription),
      "slug" := Str(c.slug),
      "status" := Str(c.status)])
  }

  datatype Parsed<+T> = Parsed(data: T) | Rejected(issues: seq<Issue>)

  /** Every field of `v` passes its rule in `shape`. */
  predicate AllFieldsPass(v: Json, shape: Shape) {
    forall i :: 0 <= i < |shape| ==> FieldPasses(v, shape, i)
  }

  lemma TextRule(x: Json, path: string, lo: nat, loMessage: string, hi: Option<nat>, hiMessage: string)
    ensures CheckField(x, path, Text(lo, loMessage, hi, hiMessage)) == []
        <==> x.Str? && lo <= |x.s| && (hi.Some? ==> |x.s| <= hi.value)
  {
  }

  lemma NumberRule(x: Json, path: string, lo: real, loMessage: string, hi: Option<real>, hiMessage: string)
    ensures CheckField(x, path, Number(lo, loMessage, hi, hiMessage)) == []
        <==> x.Num? && lo <= x.n && (hi.Some? ==> x.n <= hi.value)
  {
  }

  /** The string a field holds, or "" when it holds something else. */
  function TextOf(x: Json): string {
    if x.Str? then x.s else ""
  }

  /** The number a field holds, or 0 when it holds something else. */
  function NumberOf(x: Json): real {
    if x.Num? then x.n else 0.0
  }

  /** The course fields of an object, read as strings and numbers. */
  function CourseOf(v: Json): CourseInput {
    CourseInput(
      TextOf(Get(v, "title")), TextOf(Get(v, "description")), TextOf(Get(v, "fileKey")),
      NumberOf(Get(v, "price")), NumberOf(Get(v, "duration")),
      TextOf(Get(v, "level")), TextOf(Get(v, "category")),
      TextOf(Get(v, "smallDescription")), TextOf(Get(v, "slug")), TextOf(Get(v, "status")))
  }

  /** Each course field holds a value of the type its rule expects. */
  predicate CourseFieldsTyped(v: Json) {
    && Get(v, "title").Str? && Get(v, "description").Str? && Get(v, "fileKey").Str?
    && Get(v, "price").Num? && Get(v, "duration").Num?
    && Get(v, "level").Str? && Get(v, "category").Str?
    && Get(v, "smallDescription").Str? && Get(v, "slug").Str? && Get(v, "status").Str?
  }

  /** The ten course fields, one by one. */
  predicate EachCourseFieldPasses(v: Json) {
    && FieldPasses(v, CourseShape, 0) && FieldPasses(v, CourseShape, 1) && FieldPasses(v, CourseShape, 2)
    && FieldPasses(v, CourseShape, 3) && FieldPasses(v, CourseShape, 4) && FieldPasses(v, CourseShape, 5)
    && FieldPasses(v, CourseShape, 6) && FieldPasses(v, CourseShape, 7) && FieldPasses(v, CourseShape, 8)
    && FieldPasses(v, CourseShape, 9)
  }

  lemma CourseShapeFieldByField(v: Json)
    ensures AllFieldsPass(v, CourseShape) <==> EachCourseFieldPasses(v)
  {
    if EachCourseFieldPasses(v) {
      forall i | 0 <= i < |CourseShape| ensures FieldPasses(v, CourseShape, i) {
        assert i == 0 || i == 1 || i == 2 || i == 3 || i == 4 || i == 5 || i == 6 || i == 7 || i == 8 || i == 9;
      }
    }
  }

  /** The text and number rules of the course fields. */
  lemma CourseBoundsRules(v: Json)
    ensures FieldPasses(v, CourseShape, 0) <==> Get(v, "title").Str? && 3 <= |Get(v, "title").s| <= 100
    ensures FieldPasses(v, CourseShape, 1) <==> Get(v, "description").Str? && 3 <= |Get(v, "description").s|
    ensures FieldPasses(v, CourseShape, 2) <==> Get(v, "fileKey").Str? && 1 <= |Get(v, "fileKey").s|
    ensures FieldPasses(v, CourseShape, 3) <==> Get(v, "price").Num? && 1.0 <= Get(v, "price").n
    ensures FieldPasses(v, CourseShape, 4) <==> Get(v, "duration").Num? && 1.0 <= Get(v, "duration").n <= 500.0
    ensures FieldPasses(v, CourseShape, 7) <==> Get(v, "smallDescription").Str? && 3 <= |Get(v, "smallDescription").s| <= 200
    ensures FieldPasses(v, CourseShape, 8) <==> Get(v, "slug").Str? && 3 <= |Get(v, "slug").s|
  {
    var s := CourseShape;
    TextRule(Get(v, "title"), "title", 3, s[0].1.minMessage, Some(100), s[0].1.maxMessage);
    TextRule(Get(v, "description"), "description", 3, s[1].1.minMessage, None, "");
    TextRule(Get(v, "fileKey"), "fileKey", 1, s[2].1.minMessage, None, "");
    NumberRule(Get(v, "price"), "price", 1.0, s[3].1.minMessage, None, "");
    NumberRule(Get(v, "duration"), "duration", 1.0, s[4].1.minMessage, Some(500.0), s[4].1.maxMessage);
    TextRule(Get(v, "smallDescription"), "smallDescription", 3, s[7].1.minMessage, Some(200), s[7].1.maxMessage);
    TextRule(Get(v, "slug"), "slug", 3, s[8].1.minMessage, None, "");
  }

  /** The enum rules of the course fields, stated with the exported lists. */
  lemma CourseEnumRules(v: Json)
    ensures FieldPasses(v, CourseShape, 5) <==> Get(v, "level").Str? && Get(v, "level").s in CourseLevels
    ensures FieldPasses(v, CourseShape, 6) <==> Get(v, "category").Str? && Get(v, "category").s in CourseCategories
    ensures FieldPasses(v, CourseShape, 9) <==> Get(v, "status").Str? && Get(v, "status").s in CourseStatus
  {
    LevelOptionsMatchConstant();
    StatusOptionsMatchConstant();
  }

  /** The ten course rules together say: every field has its type and the
      course they form is valid. */
  lemma CourseRulesMeanValid(v: Json)
    ensures AllFieldsPass(v, CourseShape) <==> CourseFieldsTyped(v) && CourseValid(CourseOf(v))
  {
    CourseShapeFieldByField(v);
    CourseBoundsRules(v);
    CourseEnumRules(v);
  }

  /** `courseSchema.safeParse(v)`: the typed course when no field reports an
      issue (unknown keys are dropped), otherwise every issue in field order. */
  function ParseCourse(v: Json): (r: Parsed<CourseInput>)
    ensures r.Parsed? <==> v.Obj? && AllFieldsPass(v, CourseShape)
    ensures r.Parsed? ==> CourseValid(r.data) && r.data == CourseOf(v)
    ensures r.Rejected? ==> r.issues == ObjectIssues(v, CourseShape) && r.issues != []
  {
    if !v.Obj? then Rejected([WrongType("")])
    else
      NoIssuesIffEveryFieldPasses(v, CourseShape);
      CourseRulesMeanValid(v);
      var issues := ShapeIssues(v, CourseShape);
      if issues != [] then Rejected(issues) else Parsed(CourseOf(v))
  }

  /** A course form is accepted exactly when the course is valid, and then
      parsing gives back the course unchanged. */
  lemma {:induction false} CourseRoundTrip(c: CourseInput)
    ensures ParseCourse(EncodeCourse(c)).Parsed? <==> CourseValid(c)
    ensures CourseValid(c) ==> ParseCourse(EncodeCourse(c)) == Parsed(c)
  {
    var v := EncodeCourse(c);
    CourseRulesMeanValid(v);
    assert CourseFieldsTyped(v) && CourseOf(v) == c;
  }

  /** Title, description, small description, slug, file key, price and
      duration are checked against their bounds, and a field out of bounds
      reports the message the schema states for it. */
  lemma CourseFieldMessages(t: string, x: real)
    ensures CheckField(Str(t), "title", CourseShape[0].1) == [] <==> 3 <= |t| <= 100
    ensures |t| < 3 ==> CheckField(Str(t), "title", CourseShape[0].1) == [Message("title", "Title must be at least 3 characters")]
    ensures |t| > 100 ==> CheckField(Str(t), "title", CourseShape[0].1) == [Message("title", "Title must not exceed 100 characters")]
    ensures CheckField(Str(t), "description", CourseShape[1].1) == [] <==> |t| >= 3
    ensures CheckField(Str(t), "fileKey", CourseShape[2].1) == [] <==> |t| >= 1
    ensures t == "" ==> CheckField(Str(t), "fileKey", CourseShape[2].1) == [Message("fileKey", "File key is required")]
    ensures CheckField(Num(x), "price", CourseShape[3].1) == [] <==> x >= 1.0
    ensures CheckField(Num(x), "duration", CourseShape[4].1) == [] <==> 1.0 <= x <= 500.0
    ensures x > 500.0 ==> CheckField(Num(x), "duration", CourseShape[4].1) == [Message("duration", "Duration must not exceed 500")]
    ensures CheckField(Str(t), "smallDescription", CourseShape[7].1) == [] <==> 3 <= |t| <= 200
    ensures CheckField(Str(t), "slug", CourseShape[8].1) == [] <==> |t| >= 3
    ensures CheckField(Num(x), "title", CourseShape[0].1) == [WrongType("title")]
  {
  }

  /** The inline `level` options are the exported `courseLevels`, in another order. */
  lemma LevelOptionsMatchConstant()
    ensures forall s :: s in LevelOptions <==> s in CourseLevels
    ensures multiset(LevelOptions) == multiset(CourseLevels)
    ensures LevelOptions != CourseLevels
  {
    assert LevelOptions[1] != CourseLevels[1];
  }

  /** The inline `status` options are the exported `courseStatus`, in another order. */
  lemma StatusOptionsMatchConstant()
    ensures forall s :: s in StatusOptions <==> s in CourseStatus
    ensures multiset(StatusOptions) == multiset(CourseStatus)
    ensures StatusOptions != CourseStatus
  {
    assert StatusOptions[0] != CourseStatus[0];
  }

  /** `category` accepts exactly the eleven distinct `courseCategories`. */
  lemma CategoryOptions(x: string)
    ensures |CourseCategories| == 11
    ensures forall i, j :: 0 <= i < j < |CourseCategories| ==> CourseCategories[i] != CourseCategories[j]
    ensures CheckField(Str(x), "category", CourseShape[6].1) == [] <==> x in CourseCategories
    ensures x !in CourseCategories ==> CheckField(Str(x), "category", CourseShape[6].1) == [Message("category", "Category is required.")]
  {
  }

  // ---------------------------------------------------------------------
  // chapterSchema
  // ---------------------------------------------------------------------

  datatype ChapterInput = ChapterInput(name: string, courseId: string)

  const ChapterShape: Shape := [
    ("name", Text(3, "Name must be 3 characters long.", None, "")),
    ("courseId", Uuid("Invalid course id"))
  ]

  predicate ChapterValid(c: ChapterInput) {
    |c.name| >= 3 && IsUuid(c.courseId)
  }

  function EncodeChapter(c: ChapterInput): Json {
    Obj(map["name" := Str(c.name), "courseId" := Str(c.courseId)])
  }

  /** `chapterSchema.safeParse(v)`. */
  function ParseChapter(v: Json): (r: Parsed<ChapterInput>)
    ensures r.Parsed? <==> v.Obj? && FieldPasses(v, ChapterShape, 0) && FieldPasses(v, ChapterShape, 1)
    ensures r.Parsed? ==> ChapterValid(r.data)
    ensures r.Parsed? ==> Get(v, "name").Str? && Get(v, "courseId").Str? &&
                          r.data == ChapterInput(Get(v, "name").s, Get(v, "courseId").s)
    ensures r.Rejected? ==> r.issues == ObjectIssues(v, ChapterShape) && r.issues != []
  {
    if !v.Obj? then Rejected([WrongType("")])
    else
      NoIssuesIffEveryFieldPasses(v, ChapterShape);
      var issues := ShapeIssues(v, ChapterShape);
      if issues != [] then Rejected(issues)
      else
        assert FieldPasses(v, ChapterShape, 0) && FieldPasses(v, ChapterShape, 1);
        Parsed(ChapterInput(Get(v, "name").s, Get(v, "courseId").s))
  }

  /** A chapter form is accepted exactly when its name has at least three
      characters and its course id is a UUID, and parsing gives it back. */
  lemma {:induction false} ChapterRoundTrip(c: ChapterInput)
    ensures ParseChapter(EncodeChapter(c)).Parsed? <==> ChapterValid(c)
    ensures ChapterValid(c) ==> ParseChapter(EncodeChapter(c)) == Parsed(c)
    ensures !IsUuid(c.courseId) ==> Message("courseId", "Invalid course id") in ParseChapter(EncodeChapter(c)).issues
  {
    var v := EncodeChapter(c);
    assert Get(v, "name") == Str(c.name) && Get(v, "courseId") == Str(c.courseId);
    if !IsUuid(c.courseId) {
      assert ShapeIssues(v, ChapterShape[1..]) == CheckField(Str(c.courseId), "courseId", ChapterShape[1].1) + ShapeIssues(v, []);
    }
  }

  // ---------------------------------------------------------------------
  // lessonSchema
  // ---------------------------------------------------------------------

  datatype LessonInput = LessonInput(
    name: string,
    courseId: string,
    chapterId: string,
    description: Option<string>,
    thumbnailKey: Option<string>,
    videoKey: Option<string>)

  const LessonShape: Shape := [
    ("name", Text(3, "Name must be 3 characters long.", None, "")),
    ("courseId", Uuid("Invalid course id")),
    ("chapterId", Uuid("Invalid chapter id")),
    ("description", Optional(Text(3, "Description must be 3 characters long.", None, ""))),
    ("thumbnailKey", Optional(Text(0, "", None, ""))),
    ("videoKey", Optional(Text(0, "", None, "")))
  ]

  predicate LessonValid(l: LessonInput) {
    && |l.name| >= 3
    && IsUuid(l.courseId)
    && IsUuid(l.chapterId)
    && (l.description.Some? ==> |l.description.value| >= 3)
  }

  /** An optional string as an object entry: absent when `None`. */
  function WithOptional(m: map<string, Json>, key: string, v: Option<string>): map<string, Json> {
    if v.Some? then m[key := Str(v.value)] else m - {key}
  }

  function EncodeLesson(l: LessonInput): Json {
    var base := map["name" := Str(l.name), "courseId" := Str(l.courseId), "chapterId" := Str(l.chapterId)];
    Obj(WithOptional(WithOptional(WithOptional(base, "description", l.description), "thumbnailKey", l.thumbnailKey), "videoKey", l.videoKey))
  }

  /** Reads an optional string field: absent (or of another type) is `None`. */
  function OptionalText(x: Json): Option<string> {
    if x.Str? then Some(x.s) else None
  }

  function LessonOf(v: Json): LessonInput {
    LessonInput(
      TextOf(Get(v, "name")), TextOf(Get(v, "courseId")), TextOf(Get(v, "chapterId")),
      OptionalText(Get(v, "description")), OptionalText(Get(v, "thumbnailKey")), OptionalText(Get(v, "videoKey")))
  }

  /** Required lesson fields hold strings; optional ones are absent or strings. */
  predicate LessonFieldsTyped(v: Json) {
    && Get(v, "name").Str? && Get(v, "courseId").Str? && Get(v, "chapterId").Str?
    && (Get(v, "description").Undefined? || Get(v, "description").Str?)
    && (Get(v, "thumbnailKey").Undefined? || Get(v, "thumbnailKey").Str?)
    && (Get(v, "videoKey").Undefined? || Get(v, "videoKey").Str?)
  }

  lemma UuidRule(x: Json, path: string, message: string)
    ensures CheckField(x, path, Uuid(message)) == [] <==> x.Str? && IsUuid(x.s)
  {
  }

  lemma LessonShapeFieldByField(v: Json)
    ensures AllFieldsPass(v, LessonShape) <==>
      FieldPasses(v, LessonShape, 0) && FieldPasses(v, LessonShape, 1) && FieldPasses(v, LessonShape, 2)
      && FieldPasses(v, LessonShape, 3) && FieldPasses(v, LessonShape, 4) && FieldPasses(v, LessonShape, 5)
  {
    if FieldPasses(v, LessonShape, 0) && FieldPasses(v, LessonShape, 1) && FieldPasses(v, LessonShape, 2)
      && FieldPasses(v, LessonShape, 3) && FieldPasses(v, LessonShape, 4) && FieldPasses(v, LessonShape, 5)
    {
      forall i | 0 <= i < |LessonShape| ensures FieldPasses(v, LessonShape, i) {
        assert i == 0 || i == 1 || i == 2 || i == 3 || i == 4 || i == 5;
      }
    }
  }

  /** The six lesson rules together say: every field has its type and the
      lesson they form is valid. */
  lemma LessonRulesMeanValid(v: Json)
    ensures AllFieldsPass(v, LessonShape) <==> LessonFieldsTyped(v) && LessonValid(LessonOf(v))
  {
    var s := LessonShape;
    LessonShapeFieldByField(v);
    TextRule(Get(v, "name"), "name", 3, s[0].1.minMessage, None, "");
    UuidRule(Get(v, "courseId"), "courseId", "Invalid course id");
    UuidRule(Get(v, "chapterId"), "chapterId", "Invalid chapter id");
    TextRule(Get(v, "description"), "description", 3, s[3].1.inner.minMessage, None, "");
    TextRule(Get(v, "thumbnailKey"), "thumbnailKey", 0, "", None, "");
    TextRule(Get(v, "videoKey"), "videoKey", 0, "", None, "");
  }

  /** `lessonSchema.safeParse(v)`. */
  function ParseLesson(v: Json): (r: Parsed<LessonInput>)
    ensures r.Parsed? <==> v.Obj? && AllFieldsPass(v, LessonShape)
    ensures r.Parsed? ==> LessonValid(r.data) && r.data == LessonOf(v)
    ensures r.Rejected? ==> r.issues == ObjectIssues(v, LessonShape) && r.issues != []
  {
    if !v.Obj? then Rejected([WrongType("")])
    else
      NoIssuesIffEveryFieldPasses(v, LessonShape);
      LessonRulesMeanValid(v);
      var issues := ShapeIssues(v, LessonShape);
      if issues != [] then Rejected(issues) else Parsed(LessonOf(v))
  }

  /** A lesson form is accepted exactly when the lesson is valid: an absent
      description is accepted, a present one needs three characters, and the
      two keys are never constrained. Parsing gives the lesson back. */
  lemma {:induction false} LessonRoundTrip(l: LessonInput)
    ensures ParseLesson(EncodeLesson(l)).Parsed? <==> LessonValid(l)
    ensures LessonValid(l) ==> ParseLesson(EncodeLesson(l)) == Parsed(l)
  {
    var v := EncodeLesson(l);
    LessonRulesMeanValid(v);
    assert Get(v, "name") == Str(l.name);
    assert Get(v, "courseId") == Str(l.courseId);
    assert Get(v, "chapterId") == Str(l.chapterId);
    assert Get(v, "description") == if l.description.Some? then Str(l.description.value) else Undefined;
    assert Get(v, "thumbnailKey") == if l.thumbnailKey.Some? then Str(l.thumbnailKey.value) else Undefined;
    assert Get(v, "videoKey") == if l.videoKey.Some? then Str(l.videoKey.value) else Undefined;
    assert LessonFieldsTyped(v) && LessonOf(v) == l;
  }
}
