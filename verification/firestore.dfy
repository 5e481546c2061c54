/**
 * The user-profile service over Firestore. The `users` collection is an
 * in-memory map from uid to document (a map from field name to value); the
 * `savedPlaces` sub-collections are a map keyed by (uid, place id). Each
 * service call is one atomic step on that store.
 */
module Firestore {
  import opened Wrappers

  /** A field value: strings, flags, string arrays, and the `serverTimestamp()` sentinel. */
  datatype Value =
    | Text(text: string)
    | Flag(flag: bool)
    | TextList(items: seq<string>)
    | ServerTimestamp

  /** A document, or the `Partial<UserProfile>` passed to an update. */
  type Doc = map<string, Value>

  const UidField: string := "uid"
  const CreatedAtField: string := "createdAt"
  const UpdatedAtField: string := "updatedAt"
  const ShareLocationField: string := "shareLocation"
  const FriendIdsField: string := "friendIds"

  /** Firestore's limit on the values of one `in` query. */
  const MaxInQuery: nat := 30

  /** The fields a new profile document always receives, written after (so over) the supplied data. */
  function CreationFields(uid: string): Doc {
    map[UidField := Text(uid), CreatedAtField := ServerTimestamp, UpdatedAtField := ServerTimestamp,
        ShareLocationField := Flag(false), FriendIdsField := TextList([])]
  }

  const CreationKeys: set<string> := {UidField, CreatedAtField, UpdatedAtField, ShareLocationField, FriendIdsField}

  // ── saveUserProfile ────────────────────────────────────────────────────────

  /** The `users` collection after `saveUserProfile(uid, data)`: `setDoc` on a new uid, `updateDoc` on an existing one. */
  function SavedProfiles(users: map<string, Doc>, uid: string, data: Doc): (r: map<string, Doc>)
    ensures r.Keys == users.Keys + {uid}
    ensures forall u :: u in users && u != uid ==> r[u] == users[u]
    // create: the data plus uid, timestamps, shareLocation = false and friendIds = []
    ensures uid !in users ==> r[uid].Keys == data.Keys + CreationKeys
    ensures uid !in users ==>
      && r[uid][UidField] == Text(uid)
      && r[uid][ShareLocationField] == Flag(false)
      && r[uid][FriendIdsField] == TextList([])
      && r[uid][CreatedAtField] == ServerTimestamp
      && r[uid][UpdatedAtField] == ServerTimestamp
    ensures uid !in users ==> forall k :: k in data && k !in CreationKeys ==> r[uid][k] == data[k]
    // merge: the supplied fields overwrite, updatedAt is refreshed, every other field survives
    ensures uid in users ==> r[uid].Keys == users[uid].Keys + data.Keys + {UpdatedAtField}
    ensures uid in users ==> r[uid][UpdatedAtField] == ServerTimestamp
    ensures uid in users ==> forall k :: k in data && k != UpdatedAtField ==> r[uid][k] == data[k]
    ensures uid in users ==> forall k :: k in users[uid] && k !in data && k != UpdatedAtField ==> r[uid][k] == users[uid][k]
  {
    if uid in users then users[uid := users[uid] + data + map[UpdatedAtField := ServerTimestamp]]
    else users[uid := data + CreationFields(uid)]
  }

  /** Saving onto an existing profile keeps its friend list and sharing flag unless the data supplies them. */
  lemma MergeKeepsFriends(users: map<string, Doc>, uid: string, data: Doc)
    requires uid in users && FriendIdsField !in data && ShareLocationField !in data
    ensures FriendIds(SavedProfiles(users, uid, data)[uid]) == FriendIds(users[uid])
    ensures (ShareLocationField in SavedProfiles(users, uid, data)[uid]) == (ShareLocationField in users[uid])
  {
  }

  /** Creating a profile ignores any friend list or sharing flag in the data. */
  lemma CreateResetsFriends(users: map<string, Doc>, uid: string, data: Doc)
    requires uid !in users
    ensures FriendIds(SavedProfiles(users, uid, data)[uid]) == []
  {
  }

  // ── friend lists ───────────────────────────────────────────────────────────

  /** `profile.friendIds || []`: a missing (or non-array) field reads as the empty list. */
  function FriendIds(doc: Doc): (ids: seq<string>)
    ensures FriendIdsField !in doc ==> ids == []
  {
    if FriendIdsField in doc && doc[FriendIdsField].TextList? then doc[FriendIdsField].items else []
  }

  predicate NoDuplicates(s: seq<string>) {
    forall i, j :: 0 <= i < j < |s| ==> s[i] != s[j]
  }

  /** The new list `addFriend` computes: unchanged if `f` is present, otherwise `f` appended. */
  function WithFriend(friends: seq<string>, f: string): (r: seq<string>)
    ensures f in r && (set x | x in r) == (set x | x in friends) + {f}
    ensures |friends| <= |r| <= |friends| + 1 && r[..|friends|] == friends
    ensures NoDuplicates(friends) ==> NoDuplicates(r)
  {
    if f in friends then friends else friends + [f]
  }

  /** `friends.filter(id => id !== f)`. */
  function WithoutFriend(friends: seq<string>, f: string): (r: seq<string>)
    ensures f !in r
    ensures |r| <= |friends|
    ensures forall x :: x != f ==> (x in r <==> x in friends)
    ensures NoDuplicates(friends) ==> NoDuplicates(r)
  {
    if friends == [] then []
    else
      var rest := WithoutFriend(friends[1..], f);
      assert NoDuplicates(friends) ==> NoDuplicates(friends[1..]) && friends[0] !in friends[1..];
      (if friends[0] == f then [] else [friends[0]]) + rest
  }

  /** The filter keeps the order of the remaining ids: it distributes over concatenation. */
  lemma {:induction false} WithoutFriendAppend(a: seq<string>, b: seq<string>, f: string)
    ensures WithoutFriend(a + b, f) == WithoutFriend(a, f) + WithoutFriend(b, f)
  {
    if a == [] {
      assert a + b == b;
    } else {
      assert (a + b)[0] == a[0];
      assert (a + b)[1..] == a[1..] + b;
      WithoutFriendAppend(a[1..], b, f);
    }
  }

  /** Every occurrence of `f` goes; every other id keeps its number of occurrences. */
  lemma {:induction false} WithoutFriendCounts(friends: seq<string>, f: string, x: string)
    ensures multiset(WithoutFriend(friends, f))[x] == if x == f then 0 else multiset(friends)[x]
  {
    if friends != [] {
      var head := if friends[0] == f then [] else [friends[0]];
      WithoutFriendCounts(friends[1..], f, x);
      assert WithoutFriend(friends, f) == head + WithoutFriend(friends[1..], f);
      assert friends == [friends[0]] + friends[1..];
      assert multiset(friends) == multiset([friends[0]]) + multiset(friends[1..]);
    }
  }

  /** Removing a friend that was just added gives what removing it alone gives. */
  lemma AddThenRemove(friends: seq<string>, f: string)
    ensures WithoutFriend(WithFriend(friends, f), f) == WithoutFriend(friends, f)
  {
    if f !in friends {
      WithoutFriendAppend(friends, [f], f);
    }
  }

  /** The `users` collection after `addFriend(me, f)`. */
  function FriendAdded(users: map<string, Doc>, me: string, f: string): (r: map<string, Doc>)
    ensures r.Keys == users.Keys
    ensures forall u :: u in users && u != me ==> r[u] == users[u]
    ensures me !in users || f in FriendIds(users[me]) ==> r == users
    ensures me in users ==> FriendIds(r[me]) == WithFriend(FriendIds(users[me]), f)
    ensures me in users && f !in FriendIds(users[me]) ==>
      && r[me].Keys == users[me].Keys + {FriendIdsField, UpdatedAtField}
      && r[me][FriendIdsField] == TextList(FriendIds(users[me]) + [f])
      && r[me][UpdatedAtField] == ServerTimestamp
      && forall k :: k in users[me] && k != FriendIdsField && k != UpdatedAtField ==> k in r[me] && r[me][k] == users[me][k]
  {
    if me !in users then users
    else
      var friends := FriendIds(users[me]);
      if f in friends then users
      else users[me := users[me] + map[FriendIdsField := TextList(friends + [f]), UpdatedAtField := ServerTimestamp]]
  }

  /** `addFriend` never introduces a duplicate, so a second call changes nothing. */
  lemma AddFriendIdempotent(users: map<string, Doc>, me: string, f: string)
    ensures FriendAdded(FriendAdded(users, me, f), me, f) == FriendAdded(users, me, f)
  {
  }

  /** The `users` collection after `removeFriend(me, f)`: always written when the profile exists. */
  function FriendRemoved(users: map<string, Doc>, me: string, f: string): (r: map<string, Doc>)
    ensures r.Keys == users.Keys
    ensures forall u :: u in users && u != me ==> r[u] == users[u]
    ensures me !in users ==> r == users
    ensures me in users ==> FriendIds(r[me]) == WithoutFriend(FriendIds(users[me]), f)
    ensures me in users ==>
      && r[me].Keys == users[me].Keys + {FriendIdsField, UpdatedAtField}
      && r[me][FriendIdsField] == TextList(WithoutFriend(FriendIds(users[me]), f))
      && r[me][UpdatedAtField] == ServerTimestamp
      && forall k :: k in users[me] && k != FriendIdsField && k != UpdatedAtField ==> k in r[me] && r[me][k] == users[me][k]
  {
    if me !in users then users
    else
      var friends := WithoutFriend(FriendIds(users[me]), f);
      users[me := users[me] + map[FriendIdsField := TextList(friends), UpdatedAtField := ServerTimestamp]]
  }

  /** After `removeFriend(me, f)`, `f` is no longer among the friends, whatever the list held. */
  lemma RemoveFriendRemoves(users: map<string, Doc>, me: string, f: string)
    requires me in users
    ensures f !in FriendIds(FriendRemoved(users, me, f)[me])
  {
  }

  // ── getFriendProfiles chunking ─────────────────────────────────────────────

  /** The parts joined in order. */
  function Concat<T>(parts: seq<seq<T>>): (r: seq<T>)
    decreases |parts|
  {
    if parts == [] then [] else Concat(parts[..|parts| - 1]) + parts[|parts| - 1]
  }

  lemma {:induction false} ConcatCons<T>(c: seq<T>, parts: seq<seq<T>>)
    ensures Concat([c] + parts) == c + Concat(parts)
    decreases |parts|
  {
    if parts == [] {
      assert [c] + parts == [c];
      assert Concat([c][..0]) == [];
    } else {
      var init := parts[..|parts| - 1];
      assert ([c] + parts)[..|parts|] == [c] + init;
      ConcatCons(c, init);
    }
  }

  /** The groups of at most thirty ids that `getFriendProfiles` queries, in order. */
  function Chunks(ids: seq<string>): seq<seq<string>>
    decreases |ids|
  {
    if ids == [] then []
    else
      var n := if |ids| < MaxInQuery then |ids| else MaxInQuery;
      [ids[..n]] + Chunks(ids[n..])
  }

  /**
   * Every chunk holds between one and thirty ids, all but the last exactly
   * thirty, there are ceil(n / 30) of them, and joined in order they give back
   * the input.
   */
  lemma ChunksPartition(ids: seq<string>)
    ensures var cs := Chunks(ids);
      && (forall i :: 0 <= i < |cs| ==> 1 <= |cs[i]| <= MaxInQuery)
      && (forall i :: 0 <= i < |cs| - 1 ==> |cs[i]| == MaxInQuery)
      && Concat(cs) == ids
      && |cs| == (|ids| + MaxInQuery - 1) / MaxInQuery
  {
    ChunksSizes(ids);
    ChunksJoin(ids);
  }

  /** The sizes of the chunks: full ones of thirty, then at most one shorter, ceil(n / 30) in all. */
  lemma {:induction false} ChunksSizes(ids: seq<string>)
    ensures var cs := Chunks(ids);
      && (forall i :: 0 <= i < |cs| ==> 1 <= |cs[i]| <= MaxInQuery)
      && (forall i :: 0 <= i < |cs| - 1 ==> |cs[i]| == MaxInQuery)
      && |cs| == (|ids| + MaxInQuery - 1) / MaxInQuery
    decreases |ids|
  {
    if ids != [] {
      var n := if |ids| < MaxInQuery then |ids| else MaxInQuery;
      var rest := Chunks(ids[n..]);
      ChunksSizes(ids[n..]);
      var cs := Chunks(ids);
      assert cs == [ids[..n]] + rest;
      forall i | 1 <= i < |cs|
        ensures cs[i] == rest[i - 1]
      {
      }
    }
  }

  /** Joined in order, the chunks give back the input. */
  lemma {:induction false} ChunksJoin(ids: seq<string>)
    ensures Concat(Chunks(ids)) == ids
    decreases |ids|
  {
    if ids != [] {
      var n := if |ids| < MaxInQuery then |ids| else MaxInQuery;
      var rest := Chunks(ids[n..]);
      ChunksJoin(ids[n..]);
      ConcatCons(ids[..n], rest);
      assert ids[..n] + ids[n..] == ids;
    }
  }

  function Min(a: int, b: int): int {
    if a < b then a else b
  }

  /** One turn of the chunking loop: the chunk starting at `i`, then the chunks of what follows. */
  lemma ChunksFrom(ids: seq<string>, i: nat)
    requires i < |ids|
    ensures var end := if i + MaxInQuery < |ids| then i + MaxInQuery else |ids|;
      Chunks(ids[i..]) == [ids[i..end]] + Chunks(ids[end..])
  {
    var end := if i + MaxInQuery < |ids| then i + MaxInQuery else |ids|;
    var rest := ids[i..];
    assert rest[..end - i] == ids[i..end];
    assert rest[end - i..] == ids[end..];
  }

  /** The chunking loop of `getFriendProfiles`: `for (i = 0; i < n; i += 30) chunks.push(ids.slice(i, i + 30))`. */
  method ChunkIds(ids: seq<string>) returns (chunks: seq<seq<string>>)
    ensures chunks == Chunks(ids)
  {
    var n := |ids|;
    chunks := [];
    var i := 0;
    while i < n
      invariant 0 <= i
      invariant chunks + Chunks(ids[Min(i, n)..]) == Chunks(ids)
    {
      ChunksFrom(ids, i);
      var end := Min(i + MaxInQuery, n);
      chunks := chunks + [ids[i..end]];
      i := i + MaxInQuery;
    }
    assert ids[n..] == [];
  }

  /**
   * `getFriendProfiles`: the `in` queries it issues (one per chunk, none for an
   * empty list) and the profiles collected from Firestore's answers, in order.
   * `answer` stands for Firestore's reply to `where("uid", "in", chunk)`.
   */
  method GetFriendProfiles(friendIds: seq<string>, answer: seq<string> -> seq<Doc>)
    returns (queries: seq<seq<string>>, profiles: seq<Doc>)
    ensures friendIds == [] ==> queries == [] && profiles == []
    ensures queries == Chunks(friendIds)
    ensures forall q :: q in queries ==> 1 <= |q| <= MaxInQuery
    ensures Concat(queries) == friendIds
    ensures profiles == Concat(seq(|queries|, k requires 0 <= k < |queries| => answer(queries[k])))
  {
    if |friendIds| == 0 {
      return [], [];
    }
    var chunks := ChunkIds(friendIds);
    ChunksPartition(friendIds);
    queries := chunks;
    profiles := [];
    var j := 0;
    while j < |chunks|
      invariant 0 <= j <= |chunks|
      invariant profiles == Concat(seq(j, k requires 0 <= k < j => answer(chunks[k])))
    {
      var snap := answer(chunks[j]);
      ghost var next := seq(j + 1, k requires 0 <= k < j + 1 => answer(chunks[k]));
      assert next[..j] == seq(j, k requires 0 <= k < j => answer(chunks[k]));
      profiles := profiles + snap;
      j := j + 1;
    }
    assert chunks == seq(|chunks|, k requires 0 <= k < |chunks| => chunks[k]);
  }

  // ── saved places ───────────────────────────────────────────────────────────

  datatype SavedPlace = SavedPlace(id: string, name: string, lat: real, lng: real, note: Option<string>)

  /** A stored place: the place fields plus `createdAt`. */
  datatype PlaceRecord = PlaceRecord(place: SavedPlace, createdAt: Value)

  // ── the store ──────────────────────────────────────────────────────────────

  /** `getUserProfile` on a collection: the document when it exists, `null` otherwise. */
  function ProfileOf(users: map<string, Doc>, uid: string): (r: Option<Doc>)
    ensures r.Some? <==> uid in users
    ensures r.Some? ==> r.value == users[uid]
  {
    if uid in users then Some(users[uid]) else None
  }

  class UserStore {
    /** users/{uid} */
    var users: map<string, Doc>
    /** users/{uid}/savedPlaces/{placeId} */
    var places: map<(string, string), PlaceRecord>

    /** Each saved place is stored under its own id. */
    ghost predicate Valid()
      reads this
    {
      forall k :: k in places ==> places[k].place.id == k.1
    }

    constructor ()
      ensures Valid() && users == map[] && places == map[]
    {
      users := map[];
      places := map[];
    }

    /** `getUserProfile`: the document, or null when there is none. */
    function GetUserProfile(uid: string): (r: Option<Doc>)
      reads this
      ensures r.Some? <==> uid in users
      ensures r.Some? ==> r.value == users[uid]
    {
      ProfileOf(users, uid)
    }

    method SaveUserProfile(uid: string, data: Doc)
      requires Valid()
      modifies this
      ensures Valid()
      ensures users == SavedProfiles(old(users), uid, data) && places == old(places)
      ensures GetUserProfile(uid).Some?
    {
      users := SavedProfiles(users, uid, data);
    }

    method DeleteUserProfile(uid: string)
      requires Valid()
      modifies this
      ensures Valid()
      ensures users == old(users) - {uid} && places == old(places)
      ensures GetUserProfile(uid) == None
    {
      users := users - {uid};
    }

    method AddFriend(myUid: string, friendUid: string)
      requires Valid()
      modifies this
      ensures Valid()
      ensures users == FriendAdded(old(users), myUid, friendUid) && places == old(places)
    {
      var profile := GetUserProfile(myUid);
      if profile.None? {
        return;
      }
      var friends := FriendIds(profile.value);
      if friendUid !in friends {
        users := users[myUid := users[myUid] + map[FriendIdsField := TextList(friends + [friendUid]), UpdatedAtField := ServerTimestamp]];
      }
    }

    method RemoveFriend(myUid: string, friendUid: string)
      requires Valid()
      modifies this
      ensures Valid()
      ensures users == FriendRemoved(old(users), myUid, friendUid) && places == old(places)
    {
      var profile := GetUserProfile(myUid);
      if profile.None? {
        return;
      }
      var friends := WithoutFriend(FriendIds(profile.value), friendUid);
      users := users[myUid := users[myUid] + map[FriendIdsField := TextList(friends), UpdatedAtField := ServerTimestamp]];
    }

    /** `getUserSavedPlaces`: every place stored under the user (Firestore's order is not modelled). */
    function GetUserSavedPlaces(uid: string): (r: set<PlaceRecord>)
      reads this
      ensures forall k :: k in places && k.0 == uid ==> places[k] in r
      ensures forall p :: p in r ==> exists k :: k in places && k.0 == uid && places[k] == p
    {
      set k | k in places && k.0 == uid :: places[k]
    }

    /** `savePlaceForUser`: `setDoc` replaces the whole record under the place's id. */
    method SavePlaceForUser(uid: string, place: SavedPlace)
      requires Valid()
      modifies this
      ensures Valid()
      ensures places == old(places)[(uid, place.id) := PlaceRecord(place, ServerTimestamp)] && users == old(users)
      ensures PlaceRecord(place, ServerTimestamp) in GetUserSavedPlaces(uid)
    {
      places := places[(uid, place.id) := PlaceRecord(place, ServerTimestamp)];
    }

    method DeleteSavedPlace(uid: string, placeId: string)
      requires Valid()
      modifies this
      ensures Valid()
      ensures places == old(places) - {(uid, placeId)} && users == old(users)
      ensures forall p :: p in GetUserSavedPlaces(uid) ==> p.place.id != placeId
    {
      places := places - {(uid, placeId)};
    }
  }
}
