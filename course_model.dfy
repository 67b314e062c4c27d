/**
 * Course documents, kept as opaque as the cache-aside reads allow: an id, a name,
 * a thumbnail reference and the lessons, whose private parts the public reads
 * project away. The collection is a sequence in the database's natural order.
 */
module CourseModel {
  import opened Wrappers

  /** The lesson fields the public reads exclude: videoUrl, suggestion, questions, links. */
  datatype LessonExtras = LessonExtras(videoUrl: string, suggestion: string, questions: seq<string>, links: seq<string>)

  datatype Lesson = Lesson(title: string, extras: Option<LessonExtras>)

  datatype Course = Course(_id: string, name: string, thumbnail: string, courseData: seq<Lesson>)

  /** The `$set` of an edit: each present field replaces the stored one. */
  datatype CoursePatch = CoursePatch(name: Option<string>, thumbnail: Option<string>, courseData: Option<seq<Lesson>>)

  /** `.select("-courseData.videoUrl -courseData.suggestion -courseData.questions -courseData.links")`. */
  function Project(c: Course): (p: Course)
    ensures p._id == c._id && p.name == c.name && p.thumbnail == c.thumbnail
    ensures |p.courseData| == |c.courseData|
    ensures forall i :: 0 <= i < |p.courseData| ==>
      p.courseData[i].title == c.courseData[i].title && p.courseData[i].extras.None?
  {
    c.(courseData := seq(|c.courseData|, i requires 0 <= i < |c.courseData| => Lesson(c.courseData[i].title, None)))
  }

  function ProjectAll(cs: seq<Course>): (ps: seq<Course>)
    ensures |ps| == |cs| && forall i :: 0 <= i < |cs| ==> ps[i] == Project(cs[i])
  {
    seq(|cs|, i requires 0 <= i < |cs| => Project(cs[i]))
  }

  /** `findById`: the position of the first course with that id. */
  function CourseIndex(cs: seq<Course>, id: string): (r: Option<nat>)
    ensures r.Some? ==> r.value < |cs| && cs[r.value]._id == id
    ensures r.Some? ==> forall j :: 0 <= j < r.value ==> cs[j]._id != id
    ensures r.None? <==> forall j :: 0 <= j < |cs| ==> cs[j]._id != id
  {
    if cs == [] then None
    else if cs[0]._id == id then Some(0)
    else match CourseIndex(cs[1..], id)
      case None => None
      case Some(k) => Some(k + 1)
  }

  /** A course appended under an id no stored course has is found at the end. */
  lemma {:induction false} CourseIndexAppend(cs: seq<Course>, c: Course)
    requires CourseIndex(cs, c._id).None?
    ensures CourseIndex(cs + [c], c._id) == Some(|cs|)
  {
    if cs != [] {
      assert (cs + [c])[1..] == cs[1..] + [c];
      CourseIndexAppend(cs[1..], c);
    }
  }

  /** `$set: data` applied to a stored course; the id never changes. */
  function ApplyPatch(c: Course, p: CoursePatch): (r: Course)
    ensures r._id == c._id
    ensures r.name == p.name.GetOr(c.name)
    ensures r.thumbnail == p.thumbnail.GetOr(c.thumbnail)
    ensures r.courseData == p.courseData.GetOr(c.courseData)
  {
    Course(c._id, p.name.GetOr(c.name), p.thumbnail.GetOr(c.thumbnail), p.courseData.GetOr(c.courseData))
  }
}
