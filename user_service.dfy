/** `getUserById` (backend/services/user.service.ts): the profile is read from Redis only. */
module UserService {
  import opened Wrappers
  import opened Store
  import opened Http

  /**
   * The reply for a profile read: the cached value verbatim with status 201, or
   * no reply at all when the key is absent.
   */
  function ProfileReply(cache: map<string, Json>, id: string): (r: Reply)
    ensures r.Silent? <==> id !in cache
    ensures id in cache ==> r == Sent(201, Profile(cache[id]))
  {
    if id in cache then Sent(201, Profile(cache[id])) else Silent
  }

  method GetUserById(app: Server, id: string) returns (r: Reply)
    ensures r == ProfileReply(app.cache, id)
  {
    var userJson := app.RedisGet(id);
    if userJson.Some? {
      r := Sent(201, Profile(userJson.value));
    } else {
      r := Silent;
    }
  }
}
