/**
 * What the course handlers do to the Redis keyspace over several requests:
 * cached reads go stale after writes, missing courses are cached as null, and
 * course reads and sessions meet under the same keys.
 */
module CourseCache {
  import opened Wrappers
  import opened Jwt
  import opened UserModel
  import opened CourseModel
  import opened Store
  import opened Http
  import opened Auth
  import opened UserController
  import opened CourseController

  /**
   * After a course has been read into the cache, an edit of it is not seen: the
   * next read still answers the course as it was before the edit.
   */
  lemma EditLeavesCachedCourseStale(w: World, courseId: string, patch: CoursePatch)
    requires courseId !in w.cache && CourseIndex(w.courses, courseId).Some?
    ensures var read1 := GetSingleCourseEffect(w, courseId);
      var edit := EditCourseEffect(read1.world, courseId, patch);
      var read2 := GetSingleCourseEffect(edit.world, courseId);
      var i := CourseIndex(w.courses, courseId).value;
      && edit.world.courses[i] == ApplyPatch(w.courses[i], patch)
      && read2.resp == read1.resp
      && read2.resp.reply == Sent(200, CourseView(CourseDoc(Project(w.courses[i]))))
  {
  }

  /** Once the list is cached, an upload does not show in it. */
  lemma UploadLeavesCachedListStale(w: World, draft: CourseDraft, freshId: string)
    requires CourseIndex(w.courses, freshId).None?
    ensures var read1 := GetAllCoursesEffect(w);
      var up := UploadCourseEffect(read1.world, draft, freshId);
      var read2 := GetAllCoursesEffect(up.world);
      && |up.world.courses| == |w.courses| + 1
      && read2.resp == read1.resp
  {
  }

  /**
   * A read of an id with no course caches null under that id, so a course later
   * stored under that very id stays invisible to reads.
   */
  lemma MissingCourseCachedAsNull(w: World, courseId: string, draft: CourseDraft)
    requires courseId !in w.cache && CourseIndex(w.courses, courseId).None?
    ensures var read1 := GetSingleCourseEffect(w, courseId);
      var up := UploadCourseEffect(read1.world, draft, courseId);
      var read2 := GetSingleCourseEffect(up.world, courseId);
      && read1.world.cache[courseId] == Null
      && CourseIndex(up.world.courses, courseId).Some?
      && read2.resp.reply == Sent(200, CourseView(Null))
  {
    var up := UploadCourseEffect(GetSingleCourseEffect(w, courseId).world, draft, courseId);
    assert up.world.courses[|w.courses|]._id == courseId;
  }

  /**
   * Sessions are cached under the user's `_id`, so a course read at a logged-in
   * user's id answers that user's session snapshot, password digest included.
   */
  lemma CourseReadAnswersSession(w: World, u: User)
    ensures var s := SendTokenEffect(w, u, 200);
      var read := GetSingleCourseEffect(s.world, u._id);
      && read.world == s.world
      && read.resp.reply == Sent(200, CourseView(Stringify(u, w.jsonIncludesId)))
      && read.resp.reply.body.course.user.password == u.password
  {
  }

  /**
   * A course read at the id of a logged-out user caches null under the session
   * key. The cookies from before the logout then pass the gate again, with a
   * null user, while a refresh fails on the null session id.
   */
  lemma CourseReadRevivesRevokedGate(w: World, u: User, later: nat)
    requires w.jsonIncludesId && CourseIndex(w.courses, u._id).None?
    ensures var s := SendTokenEffect(w, u, 200);
      var kept := Receive(NoCookies, s.resp);
      var out := LogoutEffect(s.world, Stringify(u, true));
      var read := GetSingleCourseEffect(out.world, u._id);
      var w3 := read.world.(now := later);
      && Authenticate(out.world.(now := later), kept) == Err(UserNotFound)
      && read.world.cache[u._id] == Null
      && Authenticate(w3, kept) == Ok(Null)
      && UpdateAccessTokenResponse(w3, kept) == Fail(NullSessionId)
  {
  }
}
