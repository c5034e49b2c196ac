/**
 * A caching user service with the Proxy pattern (structural/proxy.ts).
 *
 * The real service builds a user's JSON text from the id alone, so it always
 * answers the same for the same id. The proxy answers from its `data` map
 * when the id is there and otherwise asks a new real service and stores the
 * answer. Where each answer came from is what both write to the console,
 * recorded here in a shared `Console` object.
 */
module Proxy {

  /** A console line: a fetch from the database by the real service, or a hit in the proxy's cache. */
  datatype Line = FetchedFromDb(userId: string) | ServedFromCache(userId: string)

  class Console {
    var lines: seq<Line>

    constructor ()
      ensures lines == []
    {
      lines := [];
    }
  }

  /**
   * `JSON.stringify({id: userId, name: 'User_' + userId})`, for an id with no
   * character that JSON has to escape.
   */
  function UserRecord(userId: string): (r: string)
    ensures |r| == 2 * |userId| + 24
    ensures r[..7] == "{\"id\":\"" && r[7..7 + |userId|] == userId
    ensures r[|r| - |userId| - 7..] == "User_" + userId + "\"}"
  {
    "{\"id\":\"" + userId + "\",\"name\":\"User_" + userId + "\"}"
  }

  /** Different ids give different user texts. */
  lemma UserRecordInjective(a: string, b: string)
    requires UserRecord(a) == UserRecord(b)
    ensures a == b
  {
    assert a == UserRecord(a)[7..7 + |a|];
  }

  class RealUserService {
    constructor ()
    {
    }

    /** `getUser`: log the database fetch and build the user's text. */
    method GetUser(userId: string, console: Console) returns (r: string)
      modifies console
      ensures r == UserRecord(userId)
      ensures console.lines == old(console.lines) + [FetchedFromDb(userId)]
    {
      console.lines := console.lines + [FetchedFromDb(userId)];
      r := UserRecord(userId);
    }
  }

  class UserProxyService {
    var data: map<string, string>
    const console: Console

    /** Every cached text is what the real service gives for that id. */
    ghost predicate Valid()
      reads this
    {
      forall id :: id in data ==> data[id] == UserRecord(id)
    }

    constructor (console: Console)
      ensures Valid() && data == map[] && this.console == console
    {
      data := map[];
      this.console := console;
    }

    /**
     * `getUser`: a cached id is answered without the real service; a missing
     * one is fetched once, stored and returned. Either way the answer is the
     * real service's, and no cached entry is ever overwritten.
     */
    method GetUser(userId: string) returns (r: string)
      requires Valid()
      modifies this, console
      ensures Valid()
      ensures r == UserRecord(userId)
      ensures userId in old(data) ==>
        data == old(data) && console.lines == old(console.lines) + [ServedFromCache(userId)]
      ensures userId !in old(data) ==>
        data == old(data)[userId := r] && console.lines == old(console.lines) + [FetchedFromDb(userId)]
      ensures forall id :: id in old(data) ==> id in data && data[id] == old(data)[id]
    {
      if userId in data {
        console.lines := console.lines + [ServedFromCache(userId)];
        r := data[userId];
        return;
      }
      var service := new RealUserService();
      var userData := service.GetUser(userId, console);
      data := data[userId := userData];
      r := userData;
    }
  }

  /** The script at the end of the source file: the second request for '123' is a cache hit. */
  method Demo() returns (first: string, second: string, lines: seq<Line>)
    ensures first == second == UserRecord("123")
    ensures lines == [FetchedFromDb("123"), ServedFromCache("123")]
  {
    var console := new Console();
    var proxy := new UserProxyService(console);
    first := proxy.GetUser("123");
    second := proxy.GetUser("123");
    lines := console.lines;
  }
}
