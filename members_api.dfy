/**
 * The members endpoint: a per-account member list kept in process memory and
 * served by GET, POST, PUT and DELETE. Members are the decoded JSON objects
 * the client sent; token verification is an oracle from token to the
 * e-mail address it was issued for.
 */
module MembersApi {
  import opened Wrappers
  import opened Seqs

  /** A decoded JSON value. */
  datatype Value =
    | Str(s: string)
    | Num(n: int)
    | Bool(b: bool)
    | Null
    | Arr(items: seq<Value>)
    | Obj(fields: map<string, Value>)

  /** A decoded JSON object. */
  type JsonObject = map<string, Value>

  /** The `id` property of an object; `None` where JavaScript reads `undefined`. */
  function IdOf(o: JsonObject): Option<Value> {
    if "id" in o then Some(o["id"]) else None
  }

  // ---------------------------------------------------------------------------
  // The bearer token in the Authorization header

  /** `s.split(sep)`: the pieces between separators, empty ones included. */
  function Split(s: string, sep: char): (parts: seq<string>)
    ensures |parts| >= 1
    ensures forall i :: 0 <= i < |parts| ==> sep !in parts[i]
  {
    if s == [] then [""]
    else
      var rest := Split(s[1..], sep);
      if s[0] == sep then [""] + rest
      else [[s[0]] + rest[0]] + rest[1..]
  }

  /** `parts.join(sep)`. */
  function Join(parts: seq<string>, sep: char): string
    requires |parts| >= 1
  {
    if |parts| == 1 then parts[0] else parts[0] + [sep] + Join(parts[1..], sep)
  }

  /** Splitting loses nothing: joining the pieces again gives back the string. */
  lemma {:induction false} JoinSplit(s: string, sep: char)
    ensures Join(Split(s, sep), sep) == s
  {
    if s != [] {
      var rest := Split(s[1..], sep);
      JoinSplit(s[1..], sep);
      if s[0] == sep {
        assert ([""] + rest)[1..] == rest;
      } else if |rest| > 1 {
        var parts := [[s[0]] + rest[0]] + rest[1..];
        assert parts[1..] == rest[1..];
        assert Join(rest, sep) == rest[0] + [sep] + Join(rest[1..], sep);
      }
    }
  }

  /** Joining starts with the first piece, followed by the end or a separator. */
  lemma JoinHead(parts: seq<string>, sep: char)
    requires |parts| >= 1
    ensures parts[0] <= Join(parts, sep)
    ensures |Join(parts, sep)| == |parts[0]| || Join(parts, sep)[|parts[0]|] == sep
  {
    if |parts| > 1 {
      assert Join(parts, sep) == parts[0] + ([sep] + Join(parts[1..], sep));
    }
  }

  /** A string holding the separator splits into at least two pieces: the first, the separator, and the rest joined. */
  lemma {:induction false} SplitAtFirst(s: string, sep: char)
    ensures sep in s ==> |Split(s, sep)| >= 2
    ensures |Split(s, sep)| >= 2 ==>
      s == Split(s, sep)[0] + [sep] + Join(Split(s, sep)[1..], sep)
  {
    JoinSplit(s, sep);
  }

  /** `w` and `t` are the first two space-separated words of `header`. */
  predicate FirstTwoWords(header: string, w: string, t: string) {
    && ' ' !in w && ' ' !in t
    && |w| + 1 + |t| <= |header|
    && header[..|w| + 1 + |t|] == w + [' '] + t
    && (|w| + 1 + |t| == |header| || header[|w| + 1 + |t|] == ' ')
  }

  /** `authorization?.split(' ')[1]`: the second space-separated word of the header, if any. */
  function BearerToken(authorization: Option<string>): (t: Option<string>)
    ensures authorization.None? ==> t.None?
    ensures authorization.Some? && ' ' in authorization.value ==> t.Some?
    ensures t.Some? ==> authorization.Some? && exists w :: FirstTwoWords(authorization.value, w, t.value)
  {
    match authorization
    case None => None
    case Some(header) =>
      var parts := Split(header, ' ');
      SplitAtFirst(header, ' ');
      if |parts| >= 2 then
        JoinHead(parts[1..], ' ');
        assert FirstTwoWords(header, parts[0], parts[1]) by {
          var tail := Join(parts[1..], ' ');
          assert header == parts[0] + [' '] + tail;
          assert tail[..|parts[1]|] == parts[1];
          assert header[..|parts[0]| + 1 + |parts[1]|] == parts[0] + [' '] + tail[..|parts[1]|];
          assert |parts[0]| + 1 + |parts[1]| < |header| ==>
            header[|parts[0]| + 1 + |parts[1]|] == tail[|parts[1]|];
        }
        Some(parts[1])
      else None
  }

  // ---------------------------------------------------------------------------
  // Requests, responses and the store

  /** A request with its body already decoded. */
  datatype Request = Request(authorization: Option<string>, httpMethod: string, body: JsonObject)

  datatype ResponseBody =
    | MemberArray(members: seq<JsonObject>)
    | MemberObject(member: JsonObject)
    | Success
    | ErrorMessage(error: string)

  datatype Response = Response(statusCode: int, body: ResponseBody)

  /** Member lists keyed by the e-mail address of their owner. */
  type Store = map<string, seq<JsonObject>>

  /** `userMembers[email] || []`. */
  function ListOf(store: Store, email: string): (ms: seq<JsonObject>)
    ensures email !in store ==> ms == []
    ensures email in store ==> ms == store[email]
  {
    if email in store then store[email] else []
  }

  /** `members.findIndex(m => m.id === id)`: the first index with that id, or -1. */
  function FindIndex(ms: seq<JsonObject>, id: Option<Value>): (r: int)
    ensures -1 <= r < |ms|
    ensures r == -1 <==> forall k :: 0 <= k < |ms| ==> IdOf(ms[k]) != id
    ensures r >= 0 ==> IdOf(ms[r]) == id && forall k :: 0 <= k < r ==> IdOf(ms[k]) != id
  {
    if ms == [] then -1
    else if IdOf(ms[0]) == id then 0
    else
      var i := FindIndex(ms[1..], id);
      if i == -1 then -1 else i + 1
  }

  /** `{ ...member, ...updates }`, where the updates are the body without its `id`. */
  function Merge(member: JsonObject, body: JsonObject): (r: JsonObject)
    ensures IdOf(r) == IdOf(member)
    ensures r.Keys == member.Keys + (body.Keys - {"id"})
    ensures forall k :: k in body && k != "id" ==> r[k] == body[k]
    ensures forall k :: k in member && k !in body ==> r[k] == member[k]
  {
    member + (body - {"id"})
  }

  /** The members of `ms` whose id differs from `id`, in order. */
  function WithoutId(ms: seq<JsonObject>, id: Option<Value>): (r: seq<JsonObject>)
    ensures forall m :: m in r <==> m in ms && IdOf(m) != id
    ensures forall m :: multiset(r)[m] == if IdOf(m) != id then multiset(ms)[m] else 0
    ensures IsSubsequence(r, ms)
  {
    FilterIsSubsequence(ms, (m: JsonObject) => IdOf(m) != id);
    Filter(ms, (m: JsonObject) => IdOf(m) != id)
  }

  const Unauthorized: Response := Response(401, ErrorMessage("Unauthorized"))
  const NotFound: Response := Response(404, ErrorMessage("Member not found"))
  const MethodNotAllowed: Response := Response(405, ErrorMessage("Method not allowed"))

  /**
   * The handler as a function of the store, the verified caller (if any) and
   * the request: the new store and the response.
   */
  function Step(store: Store, caller: Option<string>, req: Request): (r: (Store, Response))
    // without a valid token nothing happens
    ensures caller.None? ==> r == (store, Unauthorized)
    // no other account's list is touched, and no key other than the caller's appears
    ensures forall e :: e in store && (caller.None? || e != caller.value) ==> e in r.0 && r.0[e] == store[e]
    ensures caller.Some? ==> r.0.Keys <= store.Keys + {caller.value}
    ensures caller.None? ==> r.0.Keys == store.Keys
    // only POST, PUT and DELETE change anything; other methods are refused
    ensures req.httpMethod !in {"POST", "PUT", "DELETE"} ==> r.0 == store
    ensures caller.Some? && req.httpMethod !in {"GET", "POST", "PUT", "DELETE"} ==> r.1 == MethodNotAllowed
    ensures r.1.statusCode in {200, 401, 404, 405}
  {
    if caller.None? then (store, Unauthorized)
    else
      var email := caller.value;
      if req.httpMethod == "GET" then
        (store, Response(200, MemberArray(ListOf(store, email))))
      else if req.httpMethod == "POST" then
        (store[email := ListOf(store, email) + [req.body]], Response(200, MemberObject(req.body)))
      else if req.httpMethod == "PUT" then
        var members := ListOf(store, email);
        var index := FindIndex(members, IdOf(req.body));
        if index == -1 then (store, NotFound)
        else
          var updated := Merge(members[index], req.body);
          (store[email := members[index := updated]], Response(200, MemberObject(updated)))
      else if req.httpMethod == "DELETE" then
        (store[email := WithoutId(ListOf(store, email), IdOf(req.body))], Response(200, Success))
      else (store, MethodNotAllowed)
  }

  // ---------------------------------------------------------------------------
  // Properties of the handler

  /** GET returns the caller's list, or [] if there is none, and changes nothing. */
  lemma GetReturnsList(store: Store, email: string, req: Request)
    requires req.httpMethod == "GET"
    ensures Step(store, Some(email), req) == (store, Response(200, MemberArray(ListOf(store, email))))
  {
  }

  /** POST appends the body to the end of the caller's list, creating the list if needed. */
  lemma PostAppends(store: Store, email: string, req: Request)
    requires req.httpMethod == "POST"
    ensures var (s, resp) := Step(store, Some(email), req);
      && email in s && s[email] == ListOf(store, email) + [req.body]
      && resp == Response(200, MemberObject(req.body))
  {
  }

  /** A member posted and then listed is the last member of the list. */
  lemma {:induction false} PostThenGet(store: Store, email: string, post: Request, get: Request)
    requires post.httpMethod == "POST" && get.httpMethod == "GET"
    ensures var list := Step(Step(store, Some(email), post).0, Some(email), get).1.body.members;
      |list| == |ListOf(store, email)| + 1 && list[|list| - 1] == post.body
  {
  }

  /** PUT for an id the caller's list lacks is answered 404 and changes nothing. */
  lemma PutUnknownId(store: Store, email: string, req: Request)
    requires req.httpMethod == "PUT"
    requires forall m :: m in ListOf(store, email) ==> IdOf(m) != IdOf(req.body)
    ensures Step(store, Some(email), req) == (store, NotFound)
  {
    var ms := ListOf(store, email);
    assert forall k :: 0 <= k < |ms| ==> ms[k] in ms;
  }

  /**
   * PUT merges the body into the first member with the body's id; the id
   * stays, and every other member keeps its place and value.
   */
  lemma PutMergesFirstMatch(store: Store, email: string, req: Request, index: nat)
    requires req.httpMethod == "PUT"
    requires index < |ListOf(store, email)| && IdOf(ListOf(store, email)[index]) == IdOf(req.body)
    requires forall k :: 0 <= k < index ==> IdOf(ListOf(store, email)[k]) != IdOf(req.body)
    ensures var (s, resp) := Step(store, Some(email), req);
      var old_ := ListOf(store, email);
      && email in s && |s[email]| == |old_|
      && s[email][index] == Merge(old_[index], req.body)
      && IdOf(s[email][index]) == IdOf(old_[index])
      && (forall k :: 0 <= k < |old_| && k != index ==> s[email][k] == old_[k])
      && resp == Response(200, MemberObject(s[email][index]))
  {
  }

  /** DELETE leaves no member with the body's id, keeps the others in order, and answers 200. */
  lemma DeleteRemovesAll(store: Store, email: string, req: Request)
    requires req.httpMethod == "DELETE"
    ensures var (s, resp) := Step(store, Some(email), req);
      && email in s
      && (forall m :: m in s[email] <==> m in ListOf(store, email) && IdOf(m) != IdOf(req.body))
      && (forall m :: multiset(s[email])[m] == if IdOf(m) != IdOf(req.body) then multiset(ListOf(store, email))[m] else 0)
      && IsSubsequence(s[email], ListOf(store, email))
      && resp == Response(200, Success)
  {
  }

  /** Once a member is deleted, updating it is answered 404. */
  lemma {:induction false} DeleteThenPutNotFound(store: Store, email: string, del: Request, put: Request)
    requires del.httpMethod == "DELETE" && put.httpMethod == "PUT"
    requires IdOf(put.body) == IdOf(del.body)
    ensures var s := Step(store, Some(email), del).0;
      Step(s, Some(email), put) == (s, NotFound)
  {
    var s := Step(store, Some(email), del).0;
    PutUnknownId(s, email, put);
  }

  // ---------------------------------------------------------------------------
  // The handler

  /** The module-level store and the handler that updates it in place. */
  class MembersHandler {
    /** `jwt.verify` under the server's secret: the e-mail a token was issued for, if it is valid. */
    const verifyToken: string -> Option<string>
    var userMembers: Store

    constructor (verifyToken: string -> Option<string>)
      ensures this.verifyToken == verifyToken && userMembers == map[]
    {
      this.verifyToken := verifyToken;
      userMembers := map[];
    }

    /** The account a request acts for: none without a header, a second word, or a valid token. */
    function Caller(req: Request): (caller: Option<string>)
      ensures BearerToken(req.authorization).None? ==> caller.None?
      ensures BearerToken(req.authorization).Some? ==> caller == verifyToken(BearerToken(req.authorization).value)
    {
      match BearerToken(req.authorization)
      case None => None
      case Some(token) => verifyToken(token)
    }

    /** Handles one request, updating the caller's list in place. */
    method Handle(req: Request) returns (resp: Response)
      modifies this`userMembers
      ensures (userMembers, resp) == Step(old(userMembers), Caller(req), req)
    {
      var user := Caller(req);
      if user.None? {
        return Unauthorized;
      }
      var email := user.value;

      if req.httpMethod == "GET" {
        return Response(200, MemberArray(ListOf(userMembers, email)));
      }

      if req.httpMethod == "POST" {
        var member := req.body;
        if email !in userMembers {
          userMembers := userMembers[email := []];
        }
        assert userMembers[email] == ListOf(old(userMembers), email);
        assert userMembers[email := userMembers[email] + [member]]
            == old(userMembers)[email := ListOf(old(userMembers), email) + [member]];
        userMembers := userMembers[email := userMembers[email] + [member]];
        return Response(200, MemberObject(member));
      }

      if req.httpMethod == "PUT" {
        var id := IdOf(req.body);
        var members := ListOf(userMembers, email);
        var index := FindIndex(members, id);
        if index == -1 {
          return NotFound;
        }
        members := members[index := Merge(members[index], req.body)];
        userMembers := userMembers[email := members];
        return Response(200, MemberObject(members[index]));
      }

      if req.httpMethod == "DELETE" {
        var id := IdOf(req.body);
        var members := ListOf(userMembers, email);
        userMembers := userMembers[email := WithoutId(members, id)];
        return Response(200, Success);
      }

      return MethodNotAllowed;
    }
  }
}
