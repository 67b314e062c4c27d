/**
 * The backend's shared state: the users collection, the courses collection, the
 * single Redis keyspace that holds both user sessions and cached course reads,
 * and the clock that token expiry is measured against.
 */
module Store {
  import opened Wrappers
  import opened UserModel
  import opened CourseModel

  /**
   * A Redis value after `JSON.parse`. `UserDoc` is a stringified user document;
   * `id` is the virtual `id`, present only if the serialiser emitted virtuals.
   * `Null` is what `JSON.stringify(null)` stores for a missing document.
   */
  datatype Json =
    | UserDoc(user: User, id: Option<string>)
    | CourseDoc(course: Course)
    | CourseListDoc(courses: seq<Course>)
    | Null

  /** `value?._id`. */
  function UnderscoreId(j: Json): Option<string> {
    match j
    case UserDoc(u, _) => Some(u._id)
    case CourseDoc(c) => Some(c._id)
    case CourseListDoc(_) => None
    case Null => None
  }

  /** `value?.id`: only a user snapshot written with virtuals has it. */
  function VirtualId(j: Json): Option<string> {
    match j
    case UserDoc(_, id) => id
    case _ => None
  }

  /** The Redis key a possibly-undefined id becomes: undefined travels as the empty string. */
  function KeyOf(id: Option<string>): (k: string)
    ensures id.Some? ==> k == id.value
    ensures id.None? ==> k == ""
  {
    id.GetOr("")
  }

  /** `JSON.parse(JSON.stringify(user))` for a user document. */
  function Stringify(u: User, withVirtualId: bool): (j: Json)
    ensures j.UserDoc? && j.user == u
    ensures UnderscoreId(j) == Some(u._id)
    ensures VirtualId(j) == if withVirtualId then Some(u._id) else None
  {
    UserDoc(u, if withVirtualId then Some(u._id) else None)
  }

  /** The fixed key of the cached course list. */
  const AllCoursesKey: string := "allCourses"

  /**
   * A snapshot of the whole state. `jsonIncludesId` is the serialiser's setting:
   * Mongoose's default `toJSON` leaves the virtual `id` out, which is `false`.
   */
  datatype World = World(
    users: map<string, User>,
    cache: map<string, Json>,
    courses: seq<Course>,
    now: nat,
    jsonIncludesId: bool)

  ghost predicate ValidWorld(w: World) {
    WellFormed(w.users)
  }

  /** The running backend: the two collections, the Redis keyspace and the clock. */
  class Server {
    var users: map<string, User>
    var cache: map<string, Json>
    var courses: seq<Course>
    var now: nat
    const jsonIncludesId: bool

    ghost function State(): World
      reads this
    {
      World(users, cache, courses, now, jsonIncludesId)
    }

    ghost predicate Valid()
      reads this
    {
      ValidWorld(State())
    }

    /** A backend with empty stores, started at time `start`. */
    constructor (jsonIncludesId: bool, start: nat)
      ensures Valid()
      ensures State() == World(map[], map[], [], start, jsonIncludesId)
    {
      users := map[];
      cache := map[];
      courses := [];
      now := start;
      this.jsonIncludesId := jsonIncludesId;
    }

    /** `User.findOne({email})`, scanning the collection. */
    method FindOne(email: string) returns (r: Option<string>)
      requires Valid()
      ensures r == FindByEmail(users, email)
    {
      var pending := users.Keys;
      while pending != {}
        invariant pending <= users.Keys
        invariant forall id :: id in users && id !in pending ==> users[id].email != email
        decreases pending
      {
        var id :| id in pending;
        if users[id].email == email {
          FindOwnEmail(users, id);
          return Some(id);
        }
        pending := pending - {id};
      }
      return None;
    }

    /** `User.findById(id)`: null when the id is undefined or unknown. */
    method FindById(id: Option<string>) returns (r: Option<User>)
      ensures r.Some? <==> id.Some? && id.value in users
      ensures r.Some? ==> r.value == users[id.value]
    {
      if id.Some? && id.value in users {
        r := Some(users[id.value]);
      } else {
        r := None;
      }
    }

    /** `doc.save()`: on success returns the document as the hook left it. */
    method SaveUser(doc: User) returns (r: Result<User, string>)
      requires Valid()
      modifies this
      ensures Valid()
      ensures Save(old(users), doc).Ok? ==> r == Ok(PreSave(doc)) && State() == old(State()).(users := Save(old(users), doc).value)
      ensures Save(old(users), doc).Err? ==> r == Err(Save(old(users), doc).error) && State() == old(State())
    {
      if !HasRequired(doc) {
        return Err(ValidationFailed);
      }
      var hooked := doc;
      if doc.password.Some? {
        hooked := hooked.(password := Some(Bcrypt.Hash(doc.password.value)));
      }
      if EmailTakenByOther(users, doc) {
        return Err(DuplicateKey);
      }
      SavePreservesWellFormed(users, doc);
      users := users[doc._id := hooked];
      r := Ok(hooked);
    }

    /** `redis.get(key)`. */
    method RedisGet(key: string) returns (r: Option<Json>)
      ensures r.Some? <==> key in cache
      ensures r.Some? ==> r.value == cache[key]
    {
      if key in cache {
        r := Some(cache[key]);
      } else {
        r := None;
      }
    }

    /** `redis.set(key, value)`. */
    method RedisSet(key: string, value: Json)
      modifies this
      ensures State() == old(State()).(cache := old(cache)[key := value])
    {
      cache := cache[key := value];
    }

    /** `redis.del(key)`; deleting a missing key is not an error. */
    method RedisDel(key: string)
      modifies this
      ensures State() == old(State()).(cache := old(cache) - {key})
    {
      cache := cache - {key};
    }

    /** `Course.findById(id)`, scanning in natural order: the first match. */
    method FindCourse(id: string) returns (r: Option<nat>)
      ensures r == CourseIndex(courses, id)
    {
      var i := 0;
      while i < |courses|
        invariant 0 <= i <= |courses|
        invariant forall j :: 0 <= j < i ==> courses[j]._id != id
      {
        if courses[i]._id == id {
          return Some(i);
        }
        i := i + 1;
      }
      return None;
    }

    /** Replaces the course stored at position `i`. */
    method ReplaceCourse(i: nat, c: Course)
      requires i < |courses|
      modifies this
      ensures State() == old(State()).(courses := old(courses)[i := c])
    {
      courses := courses[i := c];
    }

    /** Inserts a course at the end of the natural order. */
    method InsertCourse(c: Course)
      modifies this
      ensures State() == old(State()).(courses := old(courses) + [c])
    {
      courses := courses + [c];
    }
  }
}
