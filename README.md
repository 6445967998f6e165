# Course marketplace core, modelled in Dafny

This project models the decision logic of a course-marketplace web
application (AjayRajNegi/vartex). It covers:

- the form schemas for courses, chapters and lessons, with their enum
  constants;
- the admin guard and the `CreateCourse` server action, which appends only
  schema-valid courses to the course table;
- the payment-verification route, which maps a verification result to 200,
  400 or 500;
- the "has this user bought the course" check and the course-sidebar query,
  which is gated by payment, sorted by position and filtered to the user's
  progress rows;
- the request middleware: which paths it runs on, the `/admin` prefix test
  and the session-cookie redirect;
- the image uploader component, as a state machine driven by its event
  handlers;
- the display name and avatar of the signed-in user;
- the presign route for uploads.

Each handler is one atomic transition. What the network, the database and
the bot detector would answer is passed in as a parameter, and so are the
fresh ids and object URLs the uploader would generate.

Files, one module each:

| file | module | models |
|---|---|---|
| js_values.dfy | JsValues | JSON request bodies, `undefined`, JavaScript truthiness, destructuring |
| zod_schema.dfy | ZodSchema | zod field rules, `courseSchema`, `chapterSchema`, `lessonSchema`, UUID strings |
| auth.dfy | Auth | the session object of the authentication library |
| require_admin.dfy | AdminGuard | `requireAdmin` |
| create_course.dfy | CreateCourseAction | `CreateCourse` and the course table |
| payment_verify.dfy | PaymentVerifyRoute | `POST /api/payment/verify` |
| payments.dfy | Payments | the payment table and its `findFirst` query |
| user_is_enrolled.dfy | UserIsEnrolled | `checkIfCourseBought` |
| course_sidebar.dfy | CourseSidebar | `getCoursesSidebarData` |
| middleware.dfy | Middleware | matcher, prefix test, `authMiddleware` |
| uploader.dfy | FileUploader | `Uploader` component state, handlers and view |
| nav_user.dfy | NavUser | name and avatar shown by `NavUser` |
| s3_upload_route.dfy | S3UploadRoute | `fileUploadSchema` and `POST /api/s3/upload` |

## Model

| member | source | states |
|---|---|---|
| ZodSchema.CheckField | lib/zodSchema.ts:22-46 | Every issue a field rule reports is filed under that field's key. |
| ZodSchema.ShapeIssues | lib/zodSchema.ts:21-47 | `z.object` collects the issues of the fields in shape order, each filed under one of the shape's keys and never under another key. |
| ZodSchema.ObjectIssues | lib/zodSchema.ts:21-47 | A non-object gives exactly one type issue at the root. Otherwise there are no issues iff every field of the shape passes its rule. |
| ZodSchema.TextRule | lib/zodSchema.ts:22-43 | A `z.string().min(lo).max(hi)` field passes iff it holds a string whose length is within the bounds. |
| ZodSchema.NumberRule | lib/zodSchema.ts:30-34 | A `z.number().min(lo).max(hi)` field passes iff it holds a number within the bounds. |
| ZodSchema.UuidRule | lib/zodSchema.ts:51 | A `z.string().uuid()` field passes iff it holds a string that `IsUuid` accepts. |
| ZodSchema.IsUuid | lib/zodSchema.ts:51-57 | Definition: 36 characters, with hyphens at positions 8, 13, 18 and 23 and a hex digit of either case everywhere else. |
| ZodSchema.NoIssuesIffEveryFieldPasses | lib/zodSchema.ts:21-47 | An object has no issues exactly when every field of the shape passes its rule, so one failing field fails the whole object. |
| ZodSchema.FormattedUuidAccepted | lib/zodSchema.ts:51 | 32 hex digits grouped 8-4-4-4-12 with hyphens form an accepted UUID, and its digits are those 32. |
| ZodSchema.AcceptedUuidIsFormatted | lib/zodSchema.ts:51 | Every accepted UUID string is its own 32 hex digits grouped 8-4-4-4-12, so the accepted strings are exactly the formatted ones. |
| ZodSchema.CourseBoundsRules | lib/zodSchema.ts:22-43 | title is a string of length 3..100, description ≥ 3, fileKey ≥ 1, price a number ≥ 1, duration 1..500, smallDescription 3..200, slug ≥ 3; each rule holds iff its bound holds. |
| ZodSchema.CourseEnumRules | lib/zodSchema.ts:35-46 | level, category and status are accepted exactly when they are strings in the exported `courseLevels`, `courseCategories` and `courseStatus`. |
| ZodSchema.CourseRulesMeanValid | lib/zodSchema.ts:21-47 | The ten course rules pass iff every field has its type and the course they form satisfies the reference predicate `CourseValid`. |
| ZodSchema.ParseCourse | lib/zodSchema.ts:21-47 | `courseSchema.safeParse`: succeeds iff the input is an object whose every field passes. The result is then a valid course built from those fields, with unknown keys dropped. Otherwise it reports the non-empty list of issues in field order. |
| ZodSchema.CourseRoundTrip | lib/zodSchema.ts:21-47 | An encoded course is accepted iff it is valid, and a valid course parses back to itself. |
| ZodSchema.CourseFieldMessages | lib/zodSchema.ts:22-43 | Per field, the bounds hold iff no issue is reported. An out-of-bounds title, an empty file key or a duration over 500 reports the schema's own message. A number given for the title is a type issue. |
| ZodSchema.LevelOptionsMatchConstant | lib/zodSchema.ts:35-37 | The inline level options hold the same values as `courseLevels` (line 3), in a different order. |
| ZodSchema.StatusOptionsMatchConstant | lib/zodSchema.ts:44-46 | The inline status options hold the same values as `courseStatus` (line 5), in a different order. |
| ZodSchema.CategoryOptions | lib/zodSchema.ts:38 | There are 11 distinct categories. A string category passes iff it is one of them, and otherwise reports "Category is required.". |
| ZodSchema.ParseChapter | lib/zodSchema.ts:49-52 | `chapterSchema.safeParse`: succeeds iff the input is an object whose two fields pass. It then gives the input's own `name` and `courseId`, with unknown keys dropped, forming a chapter with a name of at least 3 characters and a UUID course id. Otherwise it reports the non-empty issue list. |
| ZodSchema.ChapterRoundTrip | lib/zodSchema.ts:49-52 | An encoded chapter is accepted iff it is valid and parses back to itself; a non-UUID course id reports "Invalid course id". |
| ZodSchema.LessonRulesMeanValid | lib/zodSchema.ts:54-64 | The six lesson rules pass iff the required fields are strings, the optional ones are absent or strings, and the lesson is valid. |
| ZodSchema.ParseLesson | lib/zodSchema.ts:54-64 | `lessonSchema.safeParse`: succeeds iff every field passes, giving a valid lesson; otherwise it reports the non-empty issue list. |
| ZodSchema.LessonRoundTrip | lib/zodSchema.ts:54-64 | An encoded lesson is accepted iff its name has ≥ 3 characters, both ids are UUIDs, and any description has ≥ 3 characters (the keys are unconstrained). A valid lesson parses back to itself. |
| AdminGuard.RequireAdmin | app/data/admin/require-admin.ts:8-21 | No session redirects to "/login". A role other than exactly "admin" redirects to "/not-admin". Only an admin session is returned, and it is returned unchanged; each iff holds both ways. |
| CreateCourseAction.CourseStore.CreateCourse | app/admin/courses/create/actions.ts:14-54 | The gates run in source order: admin guard, then a throwing `protect` ("Failed to create course."), a denied decision ("Errrrrr"), a rejected form ("Invalid form data"), and a throwing insert. A course is appended, as the parsed data with the admin's id, only when every gate passes. The table grows iff the answer is "Course created successfully.". Every stored course stays schema-valid. |
| CreateCourseAction.CourseStore.constructor | app/admin/courses/create/actions.ts:38 | The course table that `prisma.course.create` appends to starts empty, so every stored course is schema-valid from the start. |
| PaymentVerifyRoute.Post | app/api/payment/verify/route.ts:4-50 | An unreadable body gives 500. A falsy field gives 400 "Missing required fields." with no verifier call. Otherwise the verifier is called exactly once with the five fields in order: a throw gives 500, a truthy `error` gives 400 with that error, and anything else gives 200. |
| PaymentVerifyRoute.StatusCodes | app/api/payment/verify/route.ts:24-48 | Every response is a 200 success, a 400 error or the 500 internal error. |
| PaymentVerifyRoute.SuccessOnlyAfterVerification | app/api/payment/verify/route.ts:30-42 | A 200 means all five fields were present, the verifier was called with them, and it resolved without an error. |
| PaymentVerifyRoute.MissingFieldIgnoresVerifier | app/api/payment/verify/route.ts:17-28 | With a field missing, the response is the same 400 whatever the verifier would do. |
| PaymentVerifyRoute.EmptyStringIsMissing | app/api/payment/verify/route.ts:17-23 | An empty-string, null or absent field counts as missing. |
| Payments.FindFirst | app/data/user/user-is-enrolled.ts:13-19 | Returns a matching row of the table when one exists, the first such in table order, and nothing iff no row matches. |
| UserIsEnrolled.CheckIfCourseBought | app/data/user/user-is-enrolled.ts:6-22 | True iff there is a session and the table holds a SUCCESS payment for the session's user and this course. |
| UserIsEnrolled.NoSessionIgnoresTable | app/data/user/user-is-enrolled.ts:11 | Without a session the answer is false whatever the table holds. |
| UserIsEnrolled.UnrelatedPaymentIrrelevant | app/data/user/user-is-enrolled.ts:13-21 | Inserting, anywhere, a row that is not a SUCCESS payment of this user for this course never changes the answer. |
| UserIsEnrolled.OnlySuccessCounts | app/data/user/user-is-enrolled.ts:13-21 | A table whose every row has a status other than "SUCCESS" never makes the course bought, for any user and any course. |
| CourseSidebar.SortByPosition | app/data/course/get-course-sidebar-data.ts:22-24 | `orderBy: { position: "asc" }`: the result is sorted by position and is a permutation of the input. |
| CourseSidebar.ProgressOf | app/data/course/get-course-sidebar-data.ts:38-47 | Keeps exactly the progress rows of the given user. |
| CourseSidebar.ShapeLesson | app/data/course/get-course-sidebar-data.ts:29-48 | A returned lesson keeps its columns, and its progress rows are exactly its rows of the requesting user. |
| CourseSidebar.ShapeChapter | app/data/course/get-course-sidebar-data.ts:21-50 | A returned chapter keeps its columns. Its lessons are sorted by position and are a permutation of its shaped lessons. |
| CourseSidebar.ShapeCourse | app/data/course/get-course-sidebar-data.ts:13-52 | The returned course keeps its selected columns. Its chapters are sorted by position and are a permutation of its shaped chapters. |
| CourseSidebar.ShapedChapterProperties | app/data/course/get-course-sidebar-data.ts:29-47 | A returned chapter has its lessons in ascending position and only the user's progress rows under them. |
| CourseSidebar.ShapedCourseProperties | app/data/course/get-course-sidebar-data.ts:9-53 | The returned course keeps its columns. Its chapters are a position-sorted permutation of the stored chapters. Every chapter's lessons are sorted, and every progress row belongs to the user. |
| CourseSidebar.FindBySlug | app/data/course/get-course-sidebar-data.ts:9-12 | Finds a course with that slug, and nothing iff none has it. |
| CourseSidebar.GetCoursesSidebarData | app/data/course/get-course-sidebar-data.ts:6-72 | No user redirects. An unknown slug is not found. A known slug is found, shaped for the user, iff a SUCCESS payment by the user for that course exists; otherwise it is not found. |
| CourseSidebar.UnknownSlugIgnoresPayments | app/data/course/get-course-sidebar-data.ts:55-57 | For an unknown slug the answer is not found whatever the payment table holds. |
| Middleware.AuthMiddleware | middleware.ts:5-16 | Passes iff the session cookie is present and non-empty, and redirects home otherwise. |
| Middleware.Handle | middleware.ts:18-44 | Excluded paths are not seen at all. A bot denial blocks. Paths outside "/admin" pass. Under "/admin" the request is redirected home iff the cookie is missing. A redirect only happens under "/admin". |
| Middleware.Matched | middleware.ts:21 | Definition of `config.matcher`: the path starts with "/", and the text after that "/" does not begin with "_next/static", "_next/image", "api/auth" or "favicon", any one character, "ico". |
| Middleware.CookieOnlyMattersUnderAdmin | middleware.ts:38-44 | Outside "/admin" the cookie makes no difference. |
| Middleware.CookieValueIgnored | middleware.ts:11-13 | Any two non-empty cookie values are treated alike: only presence is checked. |
| Middleware.AdminPrefixIsTextual | middleware.ts:39 | The prefix test is on characters: every path that begins with "/admin", "/administrator" as much as "/admin/courses", is matched and gated. Without a cookie it is redirected home; with one it passes unless the bot rule denies it. |
| Middleware.ExcludedPaths | middleware.ts:21 | Paths under "/_next/static", "/_next/image", "/api/auth" and "/favicon.ico" are never matched. The unescaped dot also excludes "/favicon_ico". |
| NavUser.AsciiUpper | components/nav-user.tsx:57 | Maps a lower-case ASCII letter to the matching upper-case one and leaves every other character as it is. |
| NavUser.Initial | components/nav-user.tsx:56-58 | `charAt(0).toUpperCase()`: empty for an empty string, else one upper-cased character. |
| NavUser.BeforeFirstA | components/nav-user.tsx:65 | `split("a")[0]` is a prefix of the string, contains no 'a', and is either the whole string or followed by an 'a'. |
| NavUser.BeforeFirstAUnique | components/nav-user.tsx:65 | Those three facts determine `split("a")[0]` completely. |
| NavUser.DisplayName | components/nav-user.tsx:63-65 | The name when it is non-empty, else the email's text before its first 'a'. |
| NavUser.AvatarOf | components/nav-user.tsx:49-58 | The image when one is set (even ""), else the generated avatar URL for the email. The initial is that of the name when non-empty, else that of the email. |
| NavUser.View | components/nav-user.tsx:34-105 | Nothing is rendered iff the session is pending. Both avatars are equal, and the label's name is the trigger's with a leading space. Without a session, every text is empty apart from the label's leading space, and the avatar URL ends in "undefined". |
| NavUser.EmailNameCut | components/nav-user.tsx:63-65 | With an empty name, an email "xa…" with no 'a' in x shows as x. |
| NavUser.EmailWithoutAShownWhole | components/nav-user.tsx:99-101 | With an empty name, an email without an 'a' is shown whole. |
| S3UploadRoute.ParseFileUpload | app/api/s3/upload/route.ts:4-9 | Accepts exactly objects with non-empty string `fileName`, `contentType` and `size` and a boolean `isImage`, returning those four values; otherwise it gives the non-empty issue list. |
| S3UploadRoute.SafeParseResult | app/api/s3/upload/route.ts:15 | The result is always an object whose `success` tells whether parsing succeeded, and whose `data` is absent iff it failed. |
| S3UploadRoute.Post | app/api/s3/upload/route.ts:11-25 | The handler never returns a response. It throws (and swallows the exception) iff the body cannot be read or the schema rejects it. |
| S3UploadRoute.GuardNeverFires | app/api/s3/upload/route.ts:16-21 | The guard always sees a truthy object, so the 400 branch is unreachable. |
| S3UploadRoute.InvalidBodyThrowsInDestructuring | app/api/s3/upload/route.ts:23-24 | For a rejected body, `validation.data` is undefined, destructuring it throws, and the empty catch ends the call with no response. |
| S3UploadRoute.UploaderBodyRejected | app/api/s3/upload/route.ts:7 | The body the uploader sends, whose `size` is a number, is rejected for every file, with a type issue on `size`. |
| S3UploadRoute.PostChecked | app/api/s3/upload/route.ts:16-21 | With the guard on `success`, the answer is 400 "Invalid Request Body" iff a readable body is rejected, and nothing throws for a rejected body. |
| S3UploadRoute.CheckedGuardAnswersRejectedBodies | app/api/s3/upload/route.ts:16-21 | Every rejected body gets the 400 from the corrected guard, where the handler as written throws instead. |
| FileUploader.PresignRequestBody | components/file-uploader/Uploader.tsx:60-65 | The presign body carries the file's name and type as strings, its size as a number, and `isImage: true`. |
| FileUploader.DeleteRequestBody | components/file-uploader/Uploader.tsx:171-173 | The delete body carries the key when there is one; an absent key leaves an empty object. |
| FileUploader.RenderContent | components/file-uploader/Uploader.tsx:229-251 | Priority order: uploading (with file and progress), then error, then a preview of a truthy object URL (with `isDeleting`), then empty. Each view is shown iff its condition holds. |
| FileUploader.DropzoneDisabled | components/file-uploader/Uploader.tsx:272 | Definition of the drop zone's `disabled` option: an upload is running or the object URL is truthy. |
| FileUploader.RemoveIgnored | components/file-uploader/Uploader.tsx:159 | Definition of the early return of `handleRemoveFile`: a delete is in flight or the object URL is falsy. |
| FileUploader.Mounted | components/file-uploader/Uploader.tsx:38-49 | The initial state holds the given key and the URL built from it, is not busy, and is valid. |
| FileUploader.UploadStarted | components/file-uploader/Uploader.tsx:53 | Sets uploading and zero progress, changes nothing else, and keeps the state valid. |
| FileUploader.Progressed | components/file-uploader/Uploader.tsx:85-93 | Sets the progress, changes nothing else, and keeps the state valid. |
| FileUploader.UploadEnded | components/file-uploader/Uploader.tsx:69-124 | On 200 or 204 the upload is at 100 with the returned key. Any other status, a network error, or a failing or throwing presign gives progress 0 and the error flag. Uploading is off either way and validity is kept. |
| FileUploader.DropReset | components/file-uploader/Uploader.tsx:140-149 | A dropped file gives a fresh id and object URL, no key, no error and no delete in flight. |
| FileUploader.Dropped | components/file-uploader/Uploader.tsx:129-155 | A disabled drop zone or an empty drop changes nothing. Otherwise the state is reset for the first file and is uploading from 0. |
| FileUploader.Removed | components/file-uploader/Uploader.tsx:158-212 | Ignored while deleting or without an object URL. Otherwise: not ok keeps `isDeleting` and sets the error; ok empties the state and drops the key; a throw clears `isDeleting` and sets the error. Validity is kept. |
| FileUploader.Uploader.constructor | components/file-uploader/Uploader.tsx:37-49 | Starts in the mounted state with no requests sent and no `onChange` calls. |
| FileUploader.Uploader.StartUpload | components/file-uploader/Uploader.tsx:52-66 | Marks the upload as running and sends exactly one presign request with the file's body. |
| FileUploader.Uploader.ReportProgress | components/file-uploader/Uploader.tsx:85-93 | Records the percentage and sends nothing. |
| FileUploader.Uploader.FinishUpload | components/file-uploader/Uploader.tsx:68-124 | Called only while the upload started for `file` is running. The PUT of that `file` is sent exactly after an ok presign. `onChange` receives the key exactly on a 200 or 204. The state is `UploadEnded`. |
| FileUploader.Uploader.Drop | components/file-uploader/Uploader.tsx:129-155 | The state becomes `Dropped`. A presign request is sent iff the zone is enabled and a file was accepted. `onChange` is not called. |
| FileUploader.Uploader.RemoveFile | components/file-uploader/Uploader.tsx:158-212 | The state becomes `Removed`. An ignored remove sends nothing. Otherwise one delete request with the key is sent, and `onChange("")` is called iff the delete succeeded. |
| FileUploader.FailedDeleteLocks | components/file-uploader/Uploader.tsx:176-183 | After a not-ok delete the error view shows, every later remove is ignored, and every later drop is refused. |
| FileUploader.FailedUploadLocksDropzone | components/file-uploader/Uploader.tsx:106-124 | After a drop whose upload fails, the error view shows and the drop zone stays disabled, because the object URL is still set. |
| FileUploader.SuccessfulUploadShowsPreview | components/file-uploader/Uploader.tsx:95-103 | After a drop whose upload succeeds: progress is 100, the key is kept, the local preview shows, and the file can be removed. |
| FileUploader.DeleteSuccessReopens | components/file-uploader/Uploader.tsx:192-202 | After a successful delete: the empty view shows, the drop zone is enabled again, and there is no key. |

## Left out

- `verifyPayment` (app/api/payment/verify/route.ts:2) is a parameter of `PaymentVerifyRoute.Post`. Its order lookup and its HMAC-SHA256 signature check are not modelled.
- `requireUser` (app/data/user/require-user.ts) is not part of this model. The sidebar query receives the user it returns, or `None` when it redirected.
- The database is modelled as sequences of rows; Prisma and the listing queries are not modelled. Rows that tie on `position` keep their stored order, which the database does not promise.
- `CourseSidebar.ShapeCourse` keeps every progress row's `userId`, which the query does not select. Every such row belongs to the requesting user.
- The Arcjet bot and rate-limit decisions are boolean inputs, and so are the exceptions raised by `request()`, `aj.protect` and the insert.
- S3 requests, `fetch`, `XMLHttpRequest`, `URL.createObjectURL` and `revokeObjectURL` are not performed. The uploader receives their outcomes as parameters and logs the requests it would send.
- The uploader's toasts and console output, and the `console.log` and `console.error` calls of the payment-verification route (app/api/payment/verify/route.ts:5, 8 and 44), are not modelled.
- Numbers are exact reals, not IEEE doubles. A decimal literal that rounds to a bound counts by its exact value: `0.99999999999999999` parses to 1 and passes `price`, but the model rejects it. The infinity that `1e999` parses to passes `price` (zod 3's `min(1)` accepts it) and fails `duration`; the model cannot represent it, so `CourseValid` and the course table never hold it. NaN, a type issue in zod, is not represented either. The same holds for the values handed to `CreateCourse`.
- `NavUser.Initial`: `charAt(0)` takes one UTF-16 code unit, so a name or email that starts with a character outside the Basic Multilingual Plane (an emoji) shows a lone surrogate in the source, while the model shows the whole character.
- The drop zone's own filtering (accepted types, the 5 MB limit, one file at most) belongs to the drop-zone library. `Drop` receives the files that filtering accepted. `rejectedFiles` only shows toasts.
- `FileUploader.Uploader.ReportProgress`: the rounded percentage `Math.round(loaded / total * 100)` is taken as an integer from 0 to 100; its floating-point computation is not modelled.
- `FileUploader.Mounted`: the URL built from the key comes from a hook (hooks/use-construct-url) that is not part of this model, so it is a parameter.
- Asynchronous interleaving and React's batching of state updates are not modelled. Each handler is one atomic transition, and `onDrop` is modelled together with the synchronous start of `uploadFile`.
- `ZodSchema.CheckField`: a length is counted in characters of the model string, not in UTF-16 code units. zod's own wording for type issues ("Required", "Expected string, received number") is not modelled.
- `ZodSchema.IsUuid`: follows the UUID check of zod 3.22 and later 3.x releases (8-4-4-4-12 hex digits of either case, no version or variant check). The installed zod version is not pinned in the source. zod 3.21 and earlier also demand a version digit 1-5, and zod 4 checks the version and variant digits of RFC 9562.
- Exceptions from `auth.api.getSession` (app/data/admin/require-admin.ts:10, app/data/user/user-is-enrolled.ts:7) are not modelled; in the source they propagate to the caller. In `CreateCourse`, `requireAdmin` runs before the `try` (app/admin/courses/create/actions.ts:17-18), so such a failure is never turned into "Failed to create course.". The model has no outcome for it.
- Exceptions from the Prisma reads (app/data/user/user-is-enrolled.ts:13, app/data/course/get-course-sidebar-data.ts:9 and 59) are not modelled either. In the source they propagate uncaught.
- `NavUser.AsciiUpper`: upper-cases the ASCII letters only. JavaScript's full Unicode case mapping (for example 'ß' to "SS") is not modelled.
- `Middleware.Handle`: `getSessionCookie` is taken to return the cookie value or nothing. The redirect target "/" on the request's origin is a constant decision, not a URL.
- The session always carries a user, so the `!session?.user` test of `checkIfCourseBought` reduces to the absence of a session.
- The dropdown items of `NavUser`, the rich-text editor and renderer, the S3 delete route, and the presentation-only pages are not modelled.

## Findings

| source | as written | input that shows it | evidently intended | confidence | as-written member | corrected member |
|---|---|---|---|---|---|---|
| app/api/s3/upload/route.ts:16 | `if (!validation)` tests the `safeParse` result object, which is always truthy | body `{}`: the guard passes, destructuring `validation.data` (undefined) throws, and the empty catch returns no response | `if (!validation.success)`, answering 400 "Invalid Request Body" | high, not executed | S3UploadRoute.GuardNeverFires | S3UploadRoute.PostChecked |
