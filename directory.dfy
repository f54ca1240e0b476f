/** The queries the backend runs against the `users` and `locations`
    collections, as functions of the tables. `order` is the natural order of
    the `users` collection (the order its documents were inserted in), which
    decides what `find_one` and `find(...).to_list(n)` return. */
module Directory {
  import opened Types

  /** The lifecycle of an account: absent, then unverified, then verified. */
  datatype AccountStatus = Absent | Unverified | Verified

  function Status(users: map<UserId, UserRecord>, id: UserId): AccountStatus
  {
    if id !in users then Absent else if users[id].verified then Verified else Unverified
  }

  predicate NoDuplicates<T(==)>(s: seq<T>)
  {
    forall i, j | 0 <= i < j < |s| :: s[i] != s[j]
  }

  predicate HasEmail(users: map<UserId, UserRecord>, id: UserId, email: string)
  {
    id in users && users[id].email == email
  }

  /** The position of the first user in `order` with the given email, or
      |order| when there is none. */
  function FirstWithEmail(order: seq<UserId>, users: map<UserId, UserRecord>, email: string): (k: nat)
    ensures k <= |order|
    ensures k < |order| ==> HasEmail(users, order[k], email)
    ensures forall j | 0 <= j < k :: !HasEmail(users, order[j], email)
  {
    if order == [] then 0
    else if HasEmail(users, order[0], email) then 0
    else 1 + FirstWithEmail(order[1..], users, email)
  }

  /** `db.users.find_one({"email": email})`. */
  function FindByEmail(order: seq<UserId>, users: map<UserId, UserRecord>, email: string): (r: Option<UserId>)
    ensures r.Some? ==> r.value in order && HasEmail(users, r.value, email)
    ensures r.None? <==> forall id | id in order :: !HasEmail(users, id, email)
  {
    var k := FirstWithEmail(order, users, email);
    if k < |order| then Some(order[k]) else None
  }

  /** 30 minutes, in milliseconds. */
  const ActiveWindow: int := 30 * 60 * 1000

  /** The `to_list(1000)` cap on the users considered by a nearby search. */
  const MaxCandidates: nat := 1000

  predicate IsActiveOther(users: map<UserId, UserRecord>, caller: UserId, cutoff: Time, id: UserId)
  {
    id in users && id != caller && users[id].lastActive >= cutoff
  }

  /** The users of `ids`, in order, that are not the caller and were active
      at or after the cutoff. */
  function ActiveOthers(ids: seq<UserId>, users: map<UserId, UserRecord>, caller: UserId, cutoff: Time): (r: seq<UserId>)
    ensures forall id | id in r :: IsActiveOther(users, caller, cutoff, id)
    ensures forall id | id in ids && IsActiveOther(users, caller, cutoff, id) :: id in r
    ensures forall id | id in r :: id in ids
  {
    if ids == [] then []
    else
      var rest := ActiveOthers(ids[1..], users, caller, cutoff);
      if IsActiveOther(users, caller, cutoff, ids[0]) then [ids[0]] + rest else rest
  }

  /** `db.users.find({"id": {"$ne": caller}, "last_active": {"$gte": now - 30 min}}).to_list(1000)`:
      the first 1000 such users in natural order. */
  function Candidates(order: seq<UserId>, users: map<UserId, UserRecord>, caller: UserId, now: Time): (r: seq<UserId>)
    ensures |r| <= MaxCandidates
    ensures forall id | id in r :: IsActiveOther(users, caller, now - ActiveWindow, id)
    ensures var all := ActiveOthers(order, users, caller, now - ActiveWindow);
      && |r| == (if |all| <= MaxCandidates then |all| else MaxCandidates)
      && forall i | 0 <= i < |r| :: r[i] == all[i]
  {
    var all := ActiveOthers(order, users, caller, now - ActiveWindow);
    if |all| <= MaxCandidates then all else all[..MaxCandidates]
  }

  /** The query repeats no user when the natural order repeats none. */
  lemma {:induction false} ActiveOthersNoDuplicates(ids: seq<UserId>, users: map<UserId, UserRecord>, caller: UserId, cutoff: Time)
    requires NoDuplicates(ids)
    ensures NoDuplicates(ActiveOthers(ids, users, caller, cutoff))
  {
    if ids != [] {
      ActiveOthersNoDuplicates(ids[1..], users, caller, cutoff);
      var rest := ActiveOthers(ids[1..], users, caller, cutoff);
      assert ids[0] !in ids[1..];
      assert ids[0] !in rest;
    }
  }

  /** Every position moved one place on. */
  function Shift(ps: seq<nat>): (r: seq<nat>)
    ensures |r| == |ps| && forall k | 0 <= k < |ps| :: r[k] == ps[k] + 1
  {
    if ps == [] then [] else [ps[0] + 1] + Shift(ps[1..])
  }

  /** The query keeps the natural order: entry i of the answer is entry
      positions[i] of `ids`, and the positions increase. */
  lemma {:induction false} ActiveOthersInOrder(ids: seq<UserId>, users: map<UserId, UserRecord>, caller: UserId, cutoff: Time)
    returns (positions: seq<nat>)
    ensures var r := ActiveOthers(ids, users, caller, cutoff);
      && |positions| == |r|
      && (forall i | 0 <= i < |r| :: positions[i] < |ids| && r[i] == ids[positions[i]])
      && (forall i, j | 0 <= i < j < |r| :: positions[i] < positions[j])
  {
    if ids == [] {
      positions := [];
    } else {
      var rest := ActiveOthers(ids[1..], users, caller, cutoff);
      var tail := ActiveOthersInOrder(ids[1..], users, caller, cutoff);
      var shifted := Shift(tail);
      forall k | 0 <= k < |rest| ensures shifted[k] < |ids| && rest[k] == ids[shifted[k]] {
        assert ids[1..][tail[k]] == ids[tail[k] + 1];
      }
      if IsActiveOther(users, caller, cutoff, ids[0]) {
        positions := [0] + shifted;
        var r := [ids[0]] + rest;
        forall i | 0 < i < |r| ensures positions[i] < |ids| && r[i] == ids[positions[i]] {
          assert r[i] == rest[i - 1] && positions[i] == shifted[i - 1];
        }
      } else {
        positions := shifted;
      }
    }
  }

  /** When fewer than 1000 users qualify, every one of them is a candidate. */
  lemma CandidatesComplete(order: seq<UserId>, users: map<UserId, UserRecord>, caller: UserId, now: Time, id: UserId)
    requires id in order && IsActiveOther(users, caller, now - ActiveWindow, id)
    requires |ActiveOthers(order, users, caller, now - ActiveWindow)| <= MaxCandidates
    ensures id in Candidates(order, users, caller, now)
  {
  }

  /** Some user of `ids` has a stored location: the loop of get_nearby_users
      then computes at least one distance. */
  predicate AnyLocated(ids: seq<UserId>, locations: map<UserId, LocationRecord>)
  {
    exists id | id in ids :: id in locations
  }

  /** The answer entry get_nearby_users makes for one candidate, if the
      candidate has a stored location within the radius. */
  function NearbyEntry(users: map<UserId, UserRecord>, locations: map<UserId, LocationRecord>, id: UserId,
                       latitude: real, longitude: real, radius: real, dist: Distance): Option<NearbyUser>
    requires id in users
  {
    if id in locations then
      var loc := locations[id];
      var d := dist(latitude, longitude, loc.latitude, loc.longitude);
      if d <= radius then Some(NearbyUser(id, users[id].name, loc.latitude, loc.longitude, d, users[id].lastActive))
      else None
    else None
  }

  /** What the loop of get_nearby_users has collected after visiting `cands`. */
  function NearbyOf(users: map<UserId, UserRecord>, locations: map<UserId, LocationRecord>, cands: seq<UserId>,
                    latitude: real, longitude: real, radius: real, dist: Distance): (r: seq<NearbyUser>)
    requires forall id | id in cands :: id in users
    ensures |r| <= |cands|
    ensures !AnyLocated(cands, locations) ==> r == []
  {
    if cands == [] then []
    else
      var rest := NearbyOf(users, locations, cands[..|cands| - 1], latitude, longitude, radius, dist);
      match NearbyEntry(users, locations, cands[|cands| - 1], latitude, longitude, radius, dist)
      case Some(e) => rest + [e]
      case None => rest
  }

  /** Every entry is a candidate with a stored location within the radius,
      carrying that location, the distance to it, and the user's name and
      last activity. */
  lemma {:induction false} NearbyEntriesQualify(users: map<UserId, UserRecord>, locations: map<UserId, LocationRecord>,
                                                cands: seq<UserId>, latitude: real, longitude: real, radius: real, dist: Distance)
    requires forall id | id in cands :: id in users
    ensures forall e | e in NearbyOf(users, locations, cands, latitude, longitude, radius, dist) ::
      && e.id in cands && e.id in locations
      && e.latitude == locations[e.id].latitude && e.longitude == locations[e.id].longitude
      && e.distanceMiles == dist(latitude, longitude, e.latitude, e.longitude)
      && e.distanceMiles <= radius
      && e.name == users[e.id].name && e.lastActive == users[e.id].lastActive
  {
    if cands != [] {
      NearbyEntriesQualify(users, locations, cands[..|cands| - 1], latitude, longitude, radius, dist);
    }
  }

  /** Every candidate with a stored location within the radius has an entry. */
  lemma {:induction false} NearbyComplete(users: map<UserId, UserRecord>, locations: map<UserId, LocationRecord>,
                                          cands: seq<UserId>, latitude: real, longitude: real, radius: real, dist: Distance)
    requires forall id | id in cands :: id in users
    ensures forall id | id in cands && id in locations &&
                        dist(latitude, longitude, locations[id].latitude, locations[id].longitude) <= radius ::
      exists e | e in NearbyOf(users, locations, cands, latitude, longitude, radius, dist) :: e.id == id
  {
    if cands != [] {
      var init := cands[..|cands| - 1];
      var last := cands[|cands| - 1];
      NearbyComplete(users, locations, init, latitude, longitude, radius, dist);
      var r := NearbyOf(users, locations, cands, latitude, longitude, radius, dist);
      var rest := NearbyOf(users, locations, init, latitude, longitude, radius, dist);
      assert forall e | e in rest :: e in r;
      forall id | id in cands && id in locations &&
                  dist(latitude, longitude, locations[id].latitude, locations[id].longitude) <= radius
        ensures exists e | e in r :: e.id == id
      {
        if id == last {
          var e := NearbyEntry(users, locations, last, latitude, longitude, radius, dist).value;
          assert e in r && e.id == id;
        } else {
          assert id in init;
        }
      }
    }
  }

  /** The answer of a nearby search: at most 1000 entries, none of them the
      caller, each a user active in the last 30 minutes with a stored location
      at distance at most the radius. */
  lemma NearbyOfCandidates(order: seq<UserId>, users: map<UserId, UserRecord>, locations: map<UserId, LocationRecord>,
                           caller: UserId, now: Time, latitude: real, longitude: real, radius: real, dist: Distance)
    ensures var cands := Candidates(order, users, caller, now);
      var r := NearbyOf(users, locations, cands, latitude, longitude, radius, dist);
      && |r| <= MaxCandidates
      && forall e | e in r ::
        && e.id != caller
        && e.id in users && users[e.id].lastActive >= now - ActiveWindow
        && e.id in locations && e.distanceMiles <= radius
        && e.distanceMiles == dist(latitude, longitude, locations[e.id].latitude, locations[e.id].longitude)
  {
    var cands := Candidates(order, users, caller, now);
    NearbyEntriesQualify(users, locations, cands, latitude, longitude, radius, dist);
  }

  /** Entries come in candidate order: entry i is candidate positions[i], and
      the positions increase. */
  lemma {:induction false} NearbyInCandidateOrder(users: map<UserId, UserRecord>, locations: map<UserId, LocationRecord>,
                                                  cands: seq<UserId>, latitude: real, longitude: real, radius: real, dist: Distance)
    returns (positions: seq<nat>)
    requires forall id | id in cands :: id in users
    ensures var r := NearbyOf(users, locations, cands, latitude, longitude, radius, dist);
      && |positions| == |r|
      && (forall i | 0 <= i < |r| :: positions[i] < |cands| && r[i].id == cands[positions[i]])
      && (forall i, j | 0 <= i < j < |r| :: positions[i] < positions[j])
  {
    if cands == [] {
      positions := [];
    } else {
      var init := cands[..|cands| - 1];
      positions := NearbyInCandidateOrder(users, locations, init, latitude, longitude, radius, dist);
      if NearbyEntry(users, locations, cands[|cands| - 1], latitude, longitude, radius, dist).Some? {
        positions := positions + [|cands| - 1];
      }
    }
  }
}
