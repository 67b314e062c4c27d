/**
 * The course handlers (backend/controllers/course.controller.ts): two
 * cache-aside reads through the Redis keyspace that also holds the sessions,
 * and two writes that go to the collection only and never touch that cache.
 */
module CourseController {
  import opened Wrappers
  import opened CourseModel
  import opened Store
  import opened Http

  /** The body of `uploadCourse`, which unseen `createCourse` stores under a new id. */
  datatype CourseDraft = CourseDraft(name: string, thumbnail: string, courseData: seq<Lesson>)

  /** `Course.findById(id).select(...)` serialised: the projected course, or null. */
  function ProjectedLookup(courses: seq<Course>, courseId: string): (j: Json)
    ensures j.Null? <==> CourseIndex(courses, courseId).None?
    ensures j.CourseDoc? ==> j.course == Project(courses[CourseIndex(courses, courseId).value])
  {
    match CourseIndex(courses, courseId)
    case Some(i) => CourseDoc(Project(courses[i]))
    case None => Null
  }

  /**
   * `getSingleCourse`: a hit returns the cached value and changes nothing; a miss
   * caches what the collection yields under `courseId`, null included.
   */
  function GetSingleCourseEffect(w: World, courseId: string): (e: Effect)
    ensures e.world.users == w.users && e.world.courses == w.courses && e.world.now == w.now
    ensures e.world.jsonIncludesId == w.jsonIncludesId
    ensures courseId in w.cache ==> e == Effect(w, Answer(Sent(200, CourseView(w.cache[courseId]))))
    ensures courseId !in w.cache ==>
      && e.world.cache == w.cache[courseId := ProjectedLookup(w.courses, courseId)]
      && e.resp == Answer(Sent(200, CourseView(ProjectedLookup(w.courses, courseId))))
    ensures e.resp.reply == Sent(200, CourseView(e.world.cache[courseId]))
  {
    if courseId in w.cache then
      Effect(w, Answer(Sent(200, CourseView(w.cache[courseId]))))
    else
      var course := ProjectedLookup(w.courses, courseId);
      Effect(w.(cache := w.cache[courseId := course]), Answer(Sent(200, CourseView(course))))
  }

  method GetSingleCourse(app: Server, courseId: string) returns (resp: Response)
    modifies app
    ensures GetSingleCourseEffect(old(app.State()), courseId) == Effect(app.State(), resp)
  {
    var isCacheExist := app.RedisGet(courseId);
    if isCacheExist.Some? {
      return Answer(Sent(200, CourseView(isCacheExist.value)));
    }
    var found := app.FindCourse(courseId);
    var course := if found.Some? then CourseDoc(Project(app.courses[found.value])) else Null;
    app.RedisSet(courseId, course);
    resp := Answer(Sent(200, CourseView(course)));
  }

  /** `getAllCourses`: the same cache-aside read under the fixed key "allCourses". */
  function GetAllCoursesEffect(w: World): (e: Effect)
    ensures e.world.users == w.users && e.world.courses == w.courses && e.world.now == w.now
    ensures e.world.jsonIncludesId == w.jsonIncludesId
    ensures AllCoursesKey in w.cache ==> e == Effect(w, Answer(Sent(200, CourseListView(w.cache[AllCoursesKey]))))
    ensures AllCoursesKey !in w.cache ==>
      e.world.cache == w.cache[AllCoursesKey := CourseListDoc(ProjectAll(w.courses))]
    ensures e.resp.reply == Sent(200, CourseListView(e.world.cache[AllCoursesKey]))
  {
    if AllCoursesKey in w.cache then
      Effect(w, Answer(Sent(200, CourseListView(w.cache[AllCoursesKey]))))
    else
      var courses := CourseListDoc(ProjectAll(w.courses));
      Effect(w.(cache := w.cache[AllCoursesKey := courses]), Answer(Sent(200, CourseListView(courses))))
  }

  method GetAllCourses(app: Server) returns (resp: Response)
    modifies app
    ensures GetAllCoursesEffect(old(app.State())) == Effect(app.State(), resp)
  {
    var isCacheExist := app.RedisGet(AllCoursesKey);
    if isCacheExist.Some? {
      return Answer(Sent(200, CourseListView(isCacheExist.value)));
    }
    var courses := CourseListDoc(ProjectAll(app.courses));
    app.RedisSet(AllCoursesKey, courses);
    resp := Answer(Sent(200, CourseListView(courses)));
  }

  /**
   * `editCourse`: `findByIdAndUpdate` with `$set`, replying with the updated
   * document or null. No cache key is written.
   */
  function EditCourseEffect(w: World, courseId: string, patch: CoursePatch): (e: Effect)
    ensures e.world.cache == w.cache && e.world.users == w.users && e.world.now == w.now
    ensures e.world.jsonIncludesId == w.jsonIncludesId
    ensures CourseIndex(w.courses, courseId).None? ==> e == Effect(w, Answer(Sent(200, CourseView(Null))))
    ensures CourseIndex(w.courses, courseId).Some? ==>
      var i := CourseIndex(w.courses, courseId).value;
      && e.world.courses == w.courses[i := ApplyPatch(w.courses[i], patch)]
      && e.resp == Answer(Sent(200, CourseView(CourseDoc(ApplyPatch(w.courses[i], patch)))))
  {
    match CourseIndex(w.courses, courseId)
    case None => Effect(w, Answer(Sent(200, CourseView(Null))))
    case Some(i) =>
      var course := ApplyPatch(w.courses[i], patch);
      Effect(w.(courses := w.courses[i := course]), Answer(Sent(200, CourseView(CourseDoc(course)))))
  }

  method EditCourse(app: Server, courseId: string, patch: CoursePatch) returns (resp: Response)
    modifies app
    ensures EditCourseEffect(old(app.State()), courseId, patch) == Effect(app.State(), resp)
  {
    var found := app.FindCourse(courseId);
    if found.None? {
      return Answer(Sent(200, CourseView(Null)));
    }
    var course := ApplyPatch(app.courses[found.value], patch);
    app.ReplaceCourse(found.value, course);
    resp := Answer(Sent(200, CourseView(CourseDoc(course))));
  }

  /**
   * `uploadCourse`: appends the new course under an ObjectId no stored course
   * has; the cached list is left as it was.
   */
  function UploadCourseEffect(w: World, draft: CourseDraft, freshId: string): (e: Effect)
    requires CourseIndex(w.courses, freshId).None?
    ensures e.world == w.(courses := w.courses + [Course(freshId, draft.name, draft.thumbnail, draft.courseData)])
    ensures e.world.courses == w.courses + [Course(freshId, draft.name, draft.thumbnail, draft.courseData)]
    ensures CourseIndex(e.world.courses, freshId) == Some(|w.courses|)
    ensures e.resp == Answer(Sent(200, CourseView(CourseDoc(Course(freshId, draft.name, draft.thumbnail, draft.courseData)))))
  {
    var course := Course(freshId, draft.name, draft.thumbnail, draft.courseData);
    CourseIndexAppend(w.courses, course);
    Effect(w.(courses := w.courses + [course]), Answer(Sent(200, CourseView(CourseDoc(course)))))
  }

  method UploadCourse(app: Server, draft: CourseDraft, freshId: string) returns (resp: Response)
    requires CourseIndex(app.courses, freshId).None?
    modifies app
    ensures UploadCourseEffect(old(app.State()), draft, freshId) == Effect(app.State(), resp)
  {
    var course := Course(freshId, draft.name, draft.thumbnail, draft.courseData);
    app.InsertCourse(course);
    resp := Answer(Sent(200, CourseView(CourseDoc(course))));
  }
}
