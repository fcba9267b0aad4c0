/**
 * The friend-request handlers of the server (server/controllers/friendController.js)
 * over the `friends` and `friendRequests` arrays of the user documents.
 *
 * The database is a map from user id to document. Each handler loads its
 * documents as copies, changes them and saves them; when both saved
 * documents are the same user, the later save wins.
 */
module Friends {
  import opened Common

  type UserId = string

  /** An entry of `friendRequests`. */
  datatype Request = Request(from: UserId, createdAt: int)

  /** The parts of a user document the handlers touch. */
  datatype UserDoc = UserDoc(friends: seq<UserId>, friendRequests: seq<Request>)

  type Db = map<UserId, UserDoc>

  /** The handlers' failures, with the HTTP status each answers with. */
  datatype FriendError = NotFound | SelfRequest | AlreadyFriends | AlreadyRequested | NoRequest | NotFriends | ServerError

  /** The HTTP status each failure is answered with. */
  function StatusCode(e: FriendError): int {
    match e
    case NotFound => 404
    case ServerError => 500
    case _ => 400
  }

  /**
   * Every failure gets an error status: 404 exactly for an unknown user, 500
   * exactly for a server error, and 400 for each refusal of the request.
   */
  lemma StatusCodes(e: FriendError)
    ensures StatusCode(e) == 400 || StatusCode(e) == 404 || StatusCode(e) == 500
    ensures StatusCode(e) == 404 <==> e == NotFound
    ensures StatusCode(e) == 500 <==> e == ServerError
    ensures StatusCode(e) == 400 <==>
      e in {SelfRequest, AlreadyFriends, AlreadyRequested, NoRequest, NotFriends}
  {
  }

  /** `friendRequests.findIndex(r => r.from === id)`: the first request from `id`, or -1. */
  function FindRequest(rs: seq<Request>, id: UserId): (i: int)
    ensures -1 <= i < |rs|
    ensures i == -1 <==> forall k | 0 <= k < |rs| :: rs[k].from != id
    ensures i >= 0 ==> rs[i].from == id && forall k | 0 <= k < i :: rs[k].from != id
    decreases |rs|
  {
    if rs == [] then -1
    else if rs[0].from == id then 0
    else
      var j := FindRequest(rs[1..], id);
      if j == -1 then -1 else j + 1
  }

  /** `splice(i, 1)` */
  function RemoveAt<T>(xs: seq<T>, i: nat): (r: seq<T>)
    requires i < |xs|
    ensures |r| == |xs| - 1
    ensures forall k | 0 <= k < i :: r[k] == xs[k]
    ensures forall k | i <= k < |r| :: r[k] == xs[k + 1]
  {
    xs[..i] + xs[i + 1..]
  }

  /** `friends.filter(f => f !== id)` */
  function Without(xs: seq<UserId>, id: UserId): (r: seq<UserId>)
    ensures id !in r
    ensures forall x :: x in r <==> x in xs && x != id
    ensures |r| <= |xs|
    decreases |xs|
  {
    if xs == [] then []
    else if xs[0] == id then Without(xs[1..], id)
    else [xs[0]] + Without(xs[1..], id)
  }

  /* ---------------------------------------------------------------------- */
  /* The handlers as functions of the database                              */
  /* ---------------------------------------------------------------------- */

  /** `sendFriendRequest`: `cur` asks `target`. */
  function Send(db: Db, cur: UserId, target: UserId, now: int): (r: Result<Db, FriendError>)
    ensures target !in db ==> r == Err(NotFound)
    ensures target in db && cur == target ==> r == Err(SelfRequest)
    ensures r.Ok? <==> (target in db && cur != target && cur in db && target !in db[cur].friends &&
      FindRequest(db[target].friendRequests, cur) == -1)
    ensures r.Ok? ==> r.value == db[target := db[target].(friendRequests := db[target].friendRequests + [Request(cur, now)])]
  {
    if target !in db then Err(NotFound)
    else if cur == target then Err(SelfRequest)
    else if cur !in db then Err(ServerError)
    else if target in db[cur].friends then Err(AlreadyFriends)
    else if FindRequest(db[target].friendRequests, cur) != -1 then Err(AlreadyRequested)
    else
      var t := db[target];
      Ok(db[target := t.(friendRequests := t.friendRequests + [Request(cur, now)])])
  }

  /** `acceptFriendRequest` exactly as written: both ids are pushed even when already present. */
  function AcceptAsWritten(db: Db, cur: UserId, requester: UserId): (r: Result<Db, FriendError>)
    ensures r.Ok? <==> requester in db && cur in db && FindRequest(db[cur].friendRequests, requester) != -1
    ensures r.Ok? ==> r.value.Keys == db.Keys
    ensures r.Ok? ==> forall u | u in db && u != cur && u != requester :: r.value[u] == db[u]
    ensures r.Ok? && cur != requester ==>
      r.value[cur].friendRequests == RemoveAt(db[cur].friendRequests, FindRequest(db[cur].friendRequests, requester)) &&
      r.value[cur].friends == db[cur].friends + [requester] &&
      r.value[requester] == db[requester].(friends := db[requester].friends + [cur])
  {
    if requester !in db then Err(NotFound)
    else if cur !in db then Err(ServerError)
    else
      var i := FindRequest(db[cur].friendRequests, requester);
      if i == -1 then Err(NoRequest)
      else
        var c := db[cur];
        var q := db[requester];
        var c' := c.(friendRequests := RemoveAt(c.friendRequests, i), friends := c.friends + [requester]);
        var q' := q.(friends := q.friends + [cur]);
        Ok(db[cur := c'][requester := q'])
  }

  /** `xs.push(id)` made idempotent: the evident intent of a friends list. */
  function AddOnce(xs: seq<UserId>, id: UserId): (r: seq<UserId>)
    ensures id in r
    ensures forall x :: x in r <==> x in xs || x == id
    ensures id in xs ==> r == xs
    ensures id !in xs ==> r == xs + [id]
  {
    if id in xs then xs else xs + [id]
  }

  /** `acceptFriendRequest` as intended: each user is added to the other's list at most once. */
  function Accept(db: Db, cur: UserId, requester: UserId): (r: Result<Db, FriendError>)
    ensures requester !in db ==> r == Err(NotFound)
    ensures r.Ok? <==> requester in db && cur in db && FindRequest(db[cur].friendRequests, requester) != -1
    ensures r.Err? && requester in db && cur in db ==> r == Err(NoRequest)
    ensures r.Ok? ==> r.value.Keys == db.Keys
    ensures r.Ok? ==> requester in r.value[cur].friends && cur in r.value[requester].friends
    ensures r.Ok? ==> forall u | u in db && u != cur && u != requester :: r.value[u] == db[u]
    ensures r.Ok? && cur != requester ==>
      r.value[cur].friendRequests == RemoveAt(db[cur].friendRequests, FindRequest(db[cur].friendRequests, requester)) &&
      r.value[cur].friends == AddOnce(db[cur].friends, requester) &&
      r.value[requester] == db[requester].(friends := AddOnce(db[requester].friends, cur))
    ensures r.Ok? && cur == requester ==> r.value == db[cur := db[cur].(friends := AddOnce(db[cur].friends, cur))]
  {
    if requester !in db then Err(NotFound)
    else if cur !in db then Err(ServerError)
    else
      var i := FindRequest(db[cur].friendRequests, requester);
      if i == -1 then Err(NoRequest)
      else
        var c := db[cur];
        var q := db[requester];
        var c' := c.(friendRequests := RemoveAt(c.friendRequests, i), friends := AddOnce(c.friends, requester));
        var q' := q.(friends := AddOnce(q.friends, cur));
        Ok(db[cur := c'][requester := q'])
  }

  /** `rejectFriendRequest`: drop the request, leave both friends lists alone. */
  function Reject(db: Db, cur: UserId, requester: UserId): (r: Result<Db, FriendError>)
    ensures requester !in db ==> r == Err(NotFound)
    ensures r.Ok? <==> requester in db && cur in db && FindRequest(db[cur].friendRequests, requester) != -1
    ensures r.Ok? ==> r.value == db[cur := db[cur].(friendRequests :=
      RemoveAt(db[cur].friendRequests, FindRequest(db[cur].friendRequests, requester)))]
  {
    if requester !in db then Err(NotFound)
    else if cur !in db then Err(ServerError)
    else
      var i := FindRequest(db[cur].friendRequests, requester);
      if i == -1 then Err(NoRequest)
      else Ok(db[cur := db[cur].(friendRequests := RemoveAt(db[cur].friendRequests, i))])
  }

  /** `removeFriend`: both lists drop each other. */
  function Remove(db: Db, cur: UserId, friend: UserId): (r: Result<Db, FriendError>)
    ensures friend !in db ==> r == Err(NotFound)
    ensures r.Ok? <==> friend in db && cur in db && friend in db[cur].friends
    ensures r.Ok? ==> r.value.Keys == db.Keys && friend !in r.value[cur].friends && cur !in r.value[friend].friends
    ensures r.Ok? ==> forall u | u in db && u != cur && u != friend :: r.value[u] == db[u]
    ensures r.Ok? && cur != friend ==>
      r.value[cur] == db[cur].(friends := Without(db[cur].friends, friend)) &&
      r.value[friend] == db[friend].(friends := Without(db[friend].friends, cur))
    ensures r.Ok? && cur == friend ==> r.value == db[cur := db[cur].(friends := Without(db[cur].friends, cur))]
  {
    if friend !in db then Err(NotFound)
    else if cur !in db then Err(ServerError)
    else if friend !in db[cur].friends then Err(NotFriends)
    else
      var c := db[cur];
      var f := db[friend];
      var c' := c.(friends := Without(c.friends, friend));
      var f' := f.(friends := Without(f.friends, cur));
      Ok(db[cur := c'][friend := f'])
  }

  /* ---------------------------------------------------------------------- */
  /* Invariants                                                             */
  /* ---------------------------------------------------------------------- */

  /** Friendship is symmetric. */
  predicate Symmetric(db: Db) {
    forall u, v | u in db && v in db :: v in db[u].friends <==> u in db[v].friends
  }

  /** No friends list holds an id twice. */
  predicate NoDuplicateFriends(db: Db) {
    forall u | u in db :: forall i, j | 0 <= i < j < |db[u].friends| :: db[u].friends[i] != db[u].friends[j]
  }

  /** No user has two pending requests from the same sender. */
  predicate OneRequestPerSender(db: Db) {
    forall u | u in db :: forall i, j | 0 <= i < j < |db[u].friendRequests| ::
      db[u].friendRequests[i].from != db[u].friendRequests[j].from
  }

  predicate Valid(db: Db) {
    Symmetric(db) && NoDuplicateFriends(db) && OneRequestPerSender(db)
  }

  lemma SendKeepsValid(db: Db, cur: UserId, target: UserId, now: int)
    requires Valid(db) && Send(db, cur, target, now).Ok?
    ensures Valid(Send(db, cur, target, now).value)
  {
    var db' := Send(db, cur, target, now).value;
    var rs := db[target].friendRequests;
    var rs' := rs + [Request(cur, now)];
    assert db'[target].friendRequests == rs';
    forall i, j | 0 <= i < j < |rs'| ensures rs'[i].from != rs'[j].from {
      if j == |rs| {
        assert rs'[i] == rs[i];
      }
    }
  }

  /** A second request from the same sender is refused and changes nothing. */
  lemma SecondSendRefused(db: Db, cur: UserId, target: UserId, now: int, later: int)
    requires Send(db, cur, target, now).Ok?
    ensures Send(Send(db, cur, target, now).value, cur, target, later) == Err(AlreadyRequested)
  {
    var db' := Send(db, cur, target, now).value;
    var rs' := db'[target].friendRequests;
    assert rs'[|rs'| - 1].from == cur;
  }

  lemma RemoveAtUnique(rs: seq<Request>, i: nat)
    requires i < |rs|
    requires forall a, b | 0 <= a < b < |rs| :: rs[a].from != rs[b].from
    ensures var r := RemoveAt(rs, i); forall a, b | 0 <= a < b < |r| :: r[a].from != r[b].from
  {
    var r := RemoveAt(rs, i);
    forall a, b | 0 <= a < b < |r| ensures r[a].from != r[b].from {
      var a' := if a < i then a else a + 1;
      var b' := if b < i then b else b + 1;
      assert r[a] == rs[a'] && r[b] == rs[b'];
    }
  }

  lemma AddOnceUnique(xs: seq<UserId>, id: UserId)
    requires forall i, j | 0 <= i < j < |xs| :: xs[i] != xs[j]
    ensures var r := AddOnce(xs, id); forall i, j | 0 <= i < j < |r| :: r[i] != r[j]
  {
    var r := AddOnce(xs, id);
    if id !in xs {
      forall i, j | 0 <= i < j < |r| ensures r[i] != r[j] {
        if j == |xs| {
          assert r[i] == xs[i];
        }
      }
    }
  }

  lemma WithoutUnique(xs: seq<UserId>, id: UserId)
    requires forall i, j | 0 <= i < j < |xs| :: xs[i] != xs[j]
    ensures var r := Without(xs, id); forall i, j | 0 <= i < j < |r| :: r[i] != r[j]
    decreases |xs|
  {
    if xs != [] {
      WithoutUnique(xs[1..], id);
      if xs[0] != id {
        var rest := Without(xs[1..], id);
        assert xs[0] !in xs[1..] by {
          forall k | 0 <= k < |xs[1..]| ensures xs[1..][k] != xs[0] {
            assert xs[1..][k] == xs[k + 1];
          }
        }
        var r := [xs[0]] + rest;
        forall i, j | 0 <= i < j < |r| ensures r[i] != r[j] {
          if i > 0 {
            assert r[i] == rest[i - 1] && r[j] == rest[j - 1];
          } else {
            assert r[j] in rest;
          }
        }
      }
    }
  }

  /** Accepting keeps friendship symmetric, lists free of repeats, and one request per sender. */
  lemma AcceptKeepsValid(db: Db, cur: UserId, requester: UserId)
    requires Valid(db) && Accept(db, cur, requester).Ok?
    ensures Valid(Accept(db, cur, requester).value)
    ensures cur != requester ==>
      var db' := Accept(db, cur, requester).value;
      requester in db'[cur].friends && cur in db'[requester].friends &&
      FindRequest(db'[cur].friendRequests, requester) == -1
  {
    AcceptKeepsSymmetric(db, cur, requester);
    AcceptKeepsUnique(db, cur, requester);
    if cur != requester {
      var db' := Accept(db, cur, requester).value;
      var i := FindRequest(db[cur].friendRequests, requester);
      var rs := db[cur].friendRequests;
      var r := db'[cur].friendRequests;
      assert r == RemoveAt(rs, i);
      forall k | 0 <= k < |r| ensures r[k].from != requester {
        if k >= i {
          assert r[k] == rs[k + 1];
        }
      }
    }
  }

  lemma AcceptKeepsSymmetric(db: Db, cur: UserId, requester: UserId)
    requires Symmetric(db) && Accept(db, cur, requester).Ok?
    ensures Symmetric(Accept(db, cur, requester).value)
  {
    var db' := Accept(db, cur, requester).value;
    forall u, v | u in db' && v in db' ensures v in db'[u].friends <==> u in db'[v].friends {
      assert u in db && v in db;
    }
  }

  lemma AcceptKeepsUnique(db: Db, cur: UserId, requester: UserId)
    requires NoDuplicateFriends(db) && OneRequestPerSender(db) && Accept(db, cur, requester).Ok?
    ensures NoDuplicateFriends(Accept(db, cur, requester).value)
    ensures OneRequestPerSender(Accept(db, cur, requester).value)
  {
    var db' := Accept(db, cur, requester).value;
    var i := FindRequest(db[cur].friendRequests, requester);
    RemoveAtUnique(db[cur].friendRequests, i);
    AddOnceUnique(db[cur].friends, requester);
    AddOnceUnique(db[requester].friends, cur);
    forall u | u in db'
      ensures forall a, b | 0 <= a < b < |db'[u].friends| :: db'[u].friends[a] != db'[u].friends[b]
      ensures forall a, b | 0 <= a < b < |db'[u].friendRequests| :: db'[u].friendRequests[a].from != db'[u].friendRequests[b].from
    {
      if u == requester {
        assert db'[u] == db[requester].(friends := AddOnce(db[requester].friends, cur));
      } else if u == cur {
        assert db'[u].friends == AddOnce(db[cur].friends, requester);
        assert db'[u].friendRequests == RemoveAt(db[cur].friendRequests, i);
      } else {
        assert db'[u] == db[u];
      }
    }
  }

  lemma RejectKeepsValid(db: Db, cur: UserId, requester: UserId)
    requires Valid(db) && Reject(db, cur, requester).Ok?
    ensures Valid(Reject(db, cur, requester).value)
    ensures forall u | u in db :: Reject(db, cur, requester).value[u].friends == db[u].friends
  {
    RemoveAtUnique(db[cur].friendRequests, FindRequest(db[cur].friendRequests, requester));
  }

  lemma RemoveKeepsValid(db: Db, cur: UserId, friend: UserId)
    requires Valid(db) && Remove(db, cur, friend).Ok?
    ensures Valid(Remove(db, cur, friend).value)
  {
    var db' := Remove(db, cur, friend).value;
    WithoutUnique(db[cur].friends, friend);
    WithoutUnique(db[friend].friends, cur);
    forall u | u in db' ensures forall i, j | 0 <= i < j < |db'[u].friends| :: db'[u].friends[i] != db'[u].friends[j] {
      if u == friend {
        assert db'[u].friends == Without(db[friend].friends, cur);
      } else if u == cur {
        assert db'[u].friends == Without(db[cur].friends, friend);
      } else {
        assert db'[u] == db[u];
      }
    }
    forall u, v | u in db' && v in db' ensures v in db'[u].friends <==> u in db'[v].friends {
      assert u in db && v in db;
    }
  }

  /**
   * With requests crossing (each of two users asked the other), accepting
   * both as written lists each user twice in the other's friends.
   */
  lemma CrossedRequestsDuplicateFriends(a: UserId, b: UserId, t1: int, t2: int)
    requires a != b
    ensures var db := map[a := UserDoc([], [Request(b, t1)]), b := UserDoc([], [Request(a, t2)])];
      Valid(db) &&
      AcceptAsWritten(db, a, b).Ok? &&
      AcceptAsWritten(AcceptAsWritten(db, a, b).value, b, a).Ok? &&
      AcceptAsWritten(AcceptAsWritten(db, a, b).value, b, a).value[a].friends == [b, b] &&
      !NoDuplicateFriends(AcceptAsWritten(AcceptAsWritten(db, a, b).value, b, a).value)
  {
    var db := map[a := UserDoc([], [Request(b, t1)]), b := UserDoc([], [Request(a, t2)])];
    assert FindRequest(db[a].friendRequests, b) == 0;
    var db1 := AcceptAsWritten(db, a, b).value;
    assert db1[b].friendRequests == [Request(a, t2)];
    assert FindRequest(db1[b].friendRequests, a) == 0;
    var db2 := AcceptAsWritten(db1, b, a).value;
    assert db2[a].friends[0] == db2[a].friends[1];
  }

  /* ---------------------------------------------------------------------- */
  /* The controller                                                         */
  /* ---------------------------------------------------------------------- */

  /** The user collection as the handlers see it. */
  class FriendController {
    var users: Db

    constructor (db: Db)
      ensures users == db
    {
      users := db;
    }

    method SendFriendRequest(cur: UserId, target: UserId, now: int) returns (err: Option<FriendError>)
      modifies this
      ensures Send(old(users), cur, target, now).Ok? ==> err == None && users == Send(old(users), cur, target, now).value
      ensures Send(old(users), cur, target, now).Err? ==> err == Some(Send(old(users), cur, target, now).error) && users == old(users)
    {
      if target !in users {
        return Some(NotFound);
      }
      if cur == target {
        return Some(SelfRequest);
      }
      if cur !in users {
        return Some(ServerError);
      }
      var currentUser := users[cur];
      var targetUser := users[target];
      if target in currentUser.friends {
        return Some(AlreadyFriends);
      }
      if FindRequest(targetUser.friendRequests, cur) != -1 {
        return Some(AlreadyRequested);
      }
      targetUser := targetUser.(friendRequests := targetUser.friendRequests + [Request(cur, now)]);
      users := users[target := targetUser];
      return None;
    }

    method AcceptFriendRequest(cur: UserId, requester: UserId) returns (err: Option<FriendError>)
      modifies this
      ensures Accept(old(users), cur, requester).Ok? ==> err == None && users == Accept(old(users), cur, requester).value
      ensures Accept(old(users), cur, requester).Err? ==> err == Some(Accept(old(users), cur, requester).error) && users == old(users)
    {
      if requester !in users {
        return Some(NotFound);
      }
      if cur !in users {
        return Some(ServerError);
      }
      var currentUser := users[cur];
      var requestingUser := users[requester];
      var requestIndex := FindRequest(currentUser.friendRequests, requester);
      if requestIndex == -1 {
        return Some(NoRequest);
      }
      currentUser := currentUser.(friendRequests := RemoveAt(currentUser.friendRequests, requestIndex));
      currentUser := currentUser.(friends := AddOnce(currentUser.friends, requester));
      requestingUser := requestingUser.(friends := AddOnce(requestingUser.friends, cur));
      users := users[cur := currentUser];
      users := users[requester := requestingUser];
      return None;
    }

    method RejectFriendRequest(cur: UserId, requester: UserId) returns (err: Option<FriendError>)
      modifies this
      ensures Reject(old(users), cur, requester).Ok? ==> err == None && users == Reject(old(users), cur, requester).value
      ensures Reject(old(users), cur, requester).Err? ==> err == Some(Reject(old(users), cur, requester).error) && users == old(users)
    {
      if requester !in users {
        return Some(NotFound);
      }
      if cur !in users {
        return Some(ServerError);
      }
      var currentUser := users[cur];
      var requestIndex := FindRequest(currentUser.friendRequests, requester);
      if requestIndex == -1 {
        return Some(NoRequest);
      }
      currentUser := currentUser.(friendRequests := RemoveAt(currentUser.friendRequests, requestIndex));
      users := users[cur := currentUser];
      return None;
    }

    method RemoveFriend(cur: UserId, friend: UserId) returns (err: Option<FriendError>)
      modifies this
      ensures Remove(old(users), cur, friend).Ok? ==> err == None && users == Remove(old(users), cur, friend).value
      ensures Remove(old(users), cur, friend).Err? ==> err == Some(Remove(old(users), cur, friend).error) && users == old(users)
    {
      if friend !in users {
        return Some(NotFound);
      }
      if cur !in users {
        return Some(ServerError);
      }
      var currentUser := users[cur];
      var friendUser := users[friend];
      if friend !in currentUser.friends {
        return Some(NotFriends);
      }
      currentUser := currentUser.(friends := Without(currentUser.friends, friend));
      friendUser := friendUser.(friends := Without(friendUser.friends, cur));
      users := users[cur := currentUser];
      users := users[friend := friendUser];
      return None;
    }
  }
}
