/**
 * Live locations in the Realtime Database (`locations/users/{uid}`) and the
 * accumulator `watchFriendsLocations` keeps for its callback. The database is
 * a map from uid to location; `Date.now()` is a parameter.
 */
module Realtime {
  import opened Wrappers

  datatype LiveLocation = LiveLocation(
    lat: real,
    lng: real,
    heading: Option<real>,
    speed: Option<real>,
    timestamp: int,
    displayName: Option<string>)

  /** The database path a user's location lives under. */
  function UserPath(uid: string): (p: string)
    ensures |p| == |"locations/users/"| + |uid|
    ensures p[..|"locations/users/"|] == "locations/users/" && p[|"locations/users/"|..] == uid
  {
    "locations/users/" + uid
  }

  /** The handle `onValue` returns: it detaches the listener on that path. */
  datatype Unsubscribe = Unsubscribe(path: string)

  /** `{...location, timestamp: now}`: the given fields, with the timestamp replaced. */
  function Stamped(location: LiveLocation, now: int): (l: LiveLocation)
    ensures l.timestamp == now
    ensures l.(timestamp := location.timestamp) == location
  {
    location.(timestamp := now)
  }

  /** The accumulator after one listener callback: store on a value, delete on null. */
  function Applied(locations: map<string, LiveLocation>, uid: string, loc: Option<LiveLocation>)
    : (r: map<string, LiveLocation>)
    ensures loc.Some? ==> uid in r && r[uid] == loc.value
    ensures loc.None? ==> uid !in r
    ensures forall u :: u != uid ==> (u in r <==> u in locations) && (u in r ==> r[u] == locations[u])
  {
    if loc.Some? then locations[uid := loc.value] else locations - {uid}
  }

  datatype Update = Update(uid: string, loc: Option<LiveLocation>)

  /** The accumulator after a sequence of callbacks, oldest first. */
  function Replay(locations: map<string, LiveLocation>, updates: seq<Update>): map<string, LiveLocation>
    decreases |updates|
  {
    if updates == [] then locations
    else Replay(Applied(locations, updates[0].uid, updates[0].loc), updates[1..])
  }

  /** The last update about `uid`, if there is one. */
  function LastFor(updates: seq<Update>, uid: string): Option<Option<LiveLocation>>
    decreases |updates|
  {
    if updates == [] then None
    else if updates[|updates| - 1].uid == uid then Some(updates[|updates| - 1].loc)
    else LastFor(updates[..|updates| - 1], uid)
  }

  lemma {:induction false} ReplaySnoc(locations: map<string, LiveLocation>, updates: seq<Update>, u: Update)
    ensures Replay(locations, updates + [u]) == Applied(Replay(locations, updates), u.uid, u.loc)
    decreases |updates|
  {
    if updates == [] {
      assert updates + [u] == [u];
    } else {
      assert (updates + [u])[1..] == updates[1..] + [u];
      ReplaySnoc(Applied(locations, updates[0].uid, updates[0].loc), updates[1..], u);
    }
  }

  /**
   * After any sequence of callbacks, each uid's entry is decided by the last
   * update about it: present with that location if it carried one, absent if it
   * was null, and as before if there was none.
   */
  lemma {:induction false} ReplayLastWins(locations: map<string, LiveLocation>, updates: seq<Update>, uid: string)
    ensures var r := Replay(locations, updates);
      match LastFor(updates, uid)
      case None => (uid in r <==> uid in locations) && (uid in r ==> r[uid] == locations[uid])
      case Some(loc) => (uid in r <==> loc.Some?) && (loc.Some? ==> r[uid] == loc.value)
    decreases |updates|
  {
    if updates != [] {
      var init := updates[..|updates| - 1];
      var last := updates[|updates| - 1];
      assert init + [last] == updates;
      ReplaySnoc(locations, init, last);
      ReplayLastWins(locations, init, uid);
    }
  }

  /** The uids a sequence of updates is about. */
  function UpdatedUids(updates: seq<Update>): set<string>
    decreases |updates|
  {
    if updates == [] then {} else {updates[0].uid} + UpdatedUids(updates[1..])
  }

  /** Only uids some update was about can appear in the accumulator. */
  lemma {:induction false} ReplayKeys(locations: map<string, LiveLocation>, updates: seq<Update>)
    ensures Replay(locations, updates).Keys <= locations.Keys + UpdatedUids(updates)
    decreases |updates|
  {
    if updates != [] {
      ReplayKeys(Applied(locations, updates[0].uid, updates[0].loc), updates[1..]);
    }
  }

  /**
   * The listener-registration loop of `watchFriendsLocations`: one handle per
   * friend uid, on that friend's path, in input order.
   */
  method ListenAll(friendUids: seq<string>) returns (unsubs: seq<Unsubscribe>)
    ensures |unsubs| == |friendUids|
    ensures forall i :: 0 <= i < |friendUids| ==> unsubs[i] == Unsubscribe(UserPath(friendUids[i]))
  {
    unsubs := [];
    var i := 0;
    while i < |friendUids|
      invariant 0 <= i <= |friendUids|
      invariant |unsubs| == i
      invariant forall k :: 0 <= k < i ==> unsubs[k] == Unsubscribe(UserPath(friendUids[k]))
    {
      unsubs := unsubs + [Unsubscribe(UserPath(friendUids[i]))];
      i := i + 1;
    }
  }

  /** The database subtree `locations/users`. */
  class LocationDb {
    var users: map<string, LiveLocation>

    constructor ()
      ensures users == map[]
    {
      users := map[];
    }

    /** `updateMyLocation`: `set` replaces the whole entry, stamped with the current time. */
    method UpdateMyLocation(uid: string, location: LiveLocation, now: int)
      modifies this
      ensures users == old(users)[uid := Stamped(location, now)]
      ensures users == Applied(old(users), uid, Some(Stamped(location, now)))
    {
      users := users[uid := Stamped(location, now)];
    }

    /** `removeMyLocation`: the entry is gone, whatever was there. */
    method RemoveMyLocation(uid: string)
      modifies this
      ensures users == old(users) - {uid}
      ensures users == Applied(old(users), uid, None)
    {
      users := users - {uid};
    }

    /** What a listener on `locations/users/{uid}` is called with: the value, or null. */
    function Snapshot(uid: string): (r: Option<LiveLocation>)
      reads this
      ensures r.Some? <==> uid in users
      ensures r.Some? ==> r.value == users[uid]
    {
      if uid in users then Some(users[uid]) else None
    }
  }

  /** Updating then removing a location leaves no entry and every other user's entry as it was. */
  lemma UpdateThenRemove(users: map<string, LiveLocation>, uid: string, location: LiveLocation, now: int)
    ensures Applied(Applied(users, uid, Some(Stamped(location, now))), uid, None) == users - {uid}
  {
  }

  /**
   * The state `watchFriendsLocations` keeps for one call: the watched uids and
   * the `locations` record its listeners update in place.
   */
  class FriendsWatch {
    const friendUids: seq<string>
    var locations: map<string, LiveLocation>

    /** Only watched friends ever have an entry. */
    ghost predicate Valid()
      reads this
    {
      forall u :: u in locations ==> u in friendUids
    }

    constructor (friendUids: seq<string>)
      ensures Valid() && this.friendUids == friendUids && locations == map[]
    {
      this.friendUids := friendUids;
      locations := map[];
    }

    /**
     * One listener callback for friend `uid`: the record is updated and the
     * callback receives a copy (a map value, which later updates cannot alter).
     */
    method OnLocation(uid: string, loc: Option<LiveLocation>) returns (snapshot: map<string, LiveLocation>)
      requires Valid() && uid in friendUids
      modifies this
      ensures Valid()
      ensures locations == Applied(old(locations), uid, loc)
      ensures snapshot == locations
    {
      if loc.Some? {
        locations := locations[uid := loc.value];
      } else {
        locations := locations - {uid};
      }
      snapshot := locations;
    }
  }

  /** `watchFriendsLocations`: the accumulator and one unsubscribe handle per friend. */
  method WatchFriendsLocations(friendUids: seq<string>) returns (watch: FriendsWatch, unsubs: seq<Unsubscribe>)
    ensures fresh(watch) && watch.Valid() && watch.friendUids == friendUids && watch.locations == map[]
    ensures |unsubs| == |friendUids|
    ensures forall i :: 0 <= i < |friendUids| ==> unsubs[i] == Unsubscribe(UserPath(friendUids[i]))
  {
    watch := new FriendsWatch(friendUids);
    unsubs := ListenAll(friendUids);
  }
}
