/** The request handlers of the backend over its three collections: `users`
    keyed by id (with the natural order of the collection kept beside it),
    `locations` keyed by user id, and the append-only `messages`. The current
    time, fresh uuids and the distance function are parameters. */
module Server {
  import opened Types
  import opened Validators
  import opened VerificationCodes
  import opened Directory
  import opened Inbox

  /** The `user` object verify and login return. */
  function PublicView(id: UserId, u: UserRecord): PublicUser
  {
    PublicUser(id, u.name, u.email, u.phone)
  }

  /** `update_one({"id": ...}, {"$set": patch})`: every field the patch names
      takes the patch's value, every other field keeps its own. */
  function ApplyPatch(u: UserRecord, p: ProfilePatch): (v: UserRecord)
    ensures v.createdAt == u.createdAt && v.lastActive == u.lastActive
    ensures v.name == (if p.name.Some? then p.name.value else u.name)
    ensures v.email == (if p.email.Some? then p.email.value else u.email)
    ensures v.phone == (if p.phone.Some? then p.phone.value else u.phone)
    ensures v.profileImage == (if p.profileImage.Some? then p.profileImage.value else u.profileImage)
    ensures v.preferences == (if p.preferences.Some? then p.preferences.value else u.preferences)
    ensures v.verified == (if p.verified.Some? then p.verified.value else u.verified)
    ensures v.verificationCode == (if p.verificationCode.Some? then p.verificationCode.value else u.verificationCode)
  {
    UserRecord(
      name := match p.name case Some(x) => x case None => u.name,
      email := match p.email case Some(x) => x case None => u.email,
      phone := match p.phone case Some(x) => x case None => u.phone,
      verificationCode := match p.verificationCode case Some(x) => x case None => u.verificationCode,
      verified := match p.verified case Some(x) => x case None => u.verified,
      createdAt := u.createdAt,
      lastActive := u.lastActive,
      profileImage := match p.profileImage case Some(x) => x case None => u.profileImage,
      preferences := match p.preferences case Some(x) => x case None => u.preferences)
  }

  /** Applying the same `$set` twice is applying it once, and the empty patch
      changes nothing. */
  lemma PatchIdempotent(u: UserRecord, p: ProfilePatch)
    ensures ApplyPatch(ApplyPatch(u, p), p) == ApplyPatch(u, p)
    ensures ApplyPatch(u, ProfilePatch(None, None, None, None, None, None, None)) == u
  {
  }

  /** The in-memory state of the backend. */
  class Backend {
    var users: map<UserId, UserRecord>
    /** The natural order of the `users` collection: ids in insertion order. */
    var order: seq<UserId>
    var locations: map<UserId, LocationRecord>
    var messages: seq<Message>

    ghost predicate Valid()
      reads this
    {
      && users.Keys == (set id | id in order)
      && NoDuplicates(order)
      && locations.Keys <= users.Keys
      && forall id | id in locations :: LatitudeValid(locations[id].latitude) && LongitudeValid(locations[id].longitude)
    }

    constructor ()
      ensures Valid()
      ensures users == map[] && order == [] && locations == map[] && messages == []
    {
      users, order, locations, messages := map[], [], map[], [];
    }

    /** The user-exists check of `verify_jwt_token`: a token is accepted
        exactly when its user is still stored. The 401 raised otherwise does
        not reach the client: the handler's second `except` clause names
        `jwt.JWTError`, which PyJWT does not define, so evaluating it raises
        `AttributeError` and the request fails with 500. */
    function Authenticate(t: Token): (r: Result<UserId>)
      reads this
      ensures r.Success? <==> t.userId in users
      ensures r.Success? ==> r.value == t.userId
      ensures r.Failure? ==> r.error == InternalError
    {
      if t.userId in users then Success(t.userId) else Failure(InternalError)
    }

    /** POST /auth/signup. */
    method Signup(name: string, email: string, phone: string, newId: UserId, now: Time)
      returns (r: Result<(UserId, string)>)
      requires Valid()
      requires newId !in users
      modifies this
      ensures Valid()
      ensures !(EmailValid(email) && PhoneValid(phone)) ==> r == Failure(ValidationError)
      ensures EmailValid(email) && PhoneValid(phone) && FindByEmail(old(order), old(users), email).Some?
        ==> r == Failure(UserAlreadyExists)
      ensures r.Success? <==>
        EmailValid(email) && PhoneValid(phone) && FindByEmail(old(order), old(users), email).None?
      ensures r.Failure? ==> users == old(users) && order == old(order)
      ensures r.Success? ==>
        var code := r.value.1;
        && r.value.0 == newId
        && IsVerificationCode(code) && 100000 <= ParseDecimal(code) <= 999999
        && users == old(users)[newId := UserRecord(name, email, phone, Some(code), false, now, now, None, [])]
        && order == old(order) + [newId]
        && Status(users, newId) == Unverified
      ensures locations == old(locations) && messages == old(messages)
    {
      if !(EmailValid(email) && PhoneValid(phone)) {
        return Failure(ValidationError);
      }
      if FindByEmail(order, users, email).Some? {
        return Failure(UserAlreadyExists);
      }
      var code := CreateVerificationCode();
      users := users[newId := UserRecord(name, email, phone, Some(code), false, now, now, None, [])];
      order := order + [newId];
      r := Success((newId, code));
    }

    /** Whether a verify request names a stored user whose stored code equals
        the given one (absent and null both read as None). */
    function CodeMatches(userId: Option<UserId>, code: Option<string>): (b: bool)
      reads this
      ensures b ==> userId.Some? && userId.value in users
    {
      userId.Some? && userId.value in users && users[userId.value].verificationCode == code
    }

    /** POST /auth/verify. */
    method VerifyCode(userId: Option<UserId>, code: Option<string>) returns (r: Result<Session>)
      requires Valid()
      modifies this
      ensures Valid()
      ensures r.Success? <==> old(CodeMatches(userId, code))
      ensures r.Failure? ==> r.error == InvalidVerificationCode && users == old(users)
      ensures r.Success? ==>
        var id := userId.value;
        && users == old(users)[id := old(users)[id].(verified := true, verificationCode := None)]
        && r.value == Session(Token(id), PublicView(id, old(users)[id]))
        && Status(users, id) == Verified
        // the code just used can never verify again ...
        && (forall c :: !CodeMatches(userId, Some(c)))
        // ... but a request without a code now matches the cleared one
        && CodeMatches(userId, None)
      ensures order == old(order) && locations == old(locations) && messages == old(messages)
    {
      if !CodeMatches(userId, code) {
        return Failure(InvalidVerificationCode);
      }
      var id := userId.value;
      var u := users[id];
      users := users[id := u.(verified := true, verificationCode := None)];
      r := Success(Session(Token(id), PublicView(id, u)));
    }

    /** POST /auth/login: looks the email up, refuses unknown and unverified
        users, and issues a token for the user found. */
    function Login(email: string): (r: Result<Session>)
      reads this
      requires Valid()
      ensures r == Failure(UserNotFound) <==> forall id | id in users :: users[id].email != email
      ensures r == Failure(UserNotVerified) <==>
        var found := FindByEmail(order, users, email);
        found.Some? && Status(users, found.value) == Unverified
      ensures r.Success? <==>
        var found := FindByEmail(order, users, email);
        found.Some? && Status(users, found.value) == Verified
      ensures r.Success? ==>
        var id := r.value.token.userId;
        && Some(id) == FindByEmail(order, users, email)
        && Status(users, id) == Verified
        && users[id].email == email
        && r.value.user == PublicView(id, users[id])
    {
      match FindByEmail(order, users, email)
      case None => Failure(UserNotFound)
      case Some(id) =>
        if !users[id].verified then Failure(UserNotVerified)
        else Success(Session(Token(id), PublicView(id, users[id])))
    }

    /** GET /profile. */
    function GetProfile(t: Token): (r: Result<Profile>)
      reads this
      ensures r.Success? <==> t.userId in users
      ensures r.Failure? ==> r.error == InternalError
      ensures r.Success? ==>
        var u := users[t.userId];
        r.value == Profile(t.userId, u.name, u.email, u.phone, u.preferences, u.profileImage)
    {
      match Authenticate(t)
      case Failure(e) => Failure(e)
      case Success(id) =>
        var u := users[id];
        Success(Profile(id, u.name, u.email, u.phone, u.preferences, u.profileImage))
    }

    /** PUT /profile: `$set` of the given fields on the caller's record, with
        no validation of their values. */
    method UpdateProfile(t: Token, patch: ProfilePatch) returns (r: Result<()>)
      requires Valid()
      modifies this
      ensures Valid()
      ensures r.Success? <==> t.userId in old(users)
      ensures r.Failure? ==> r.error == InternalError && users == old(users)
      ensures r.Success? ==> users == old(users)[t.userId := ApplyPatch(old(users)[t.userId], patch)]
      ensures order == old(order) && locations == old(locations) && messages == old(messages)
    {
      var auth := Authenticate(t);
      if auth.Failure? {
        return Failure(auth.error);
      }
      var id := auth.value;
      users := users[id := ApplyPatch(users[id], patch)];
      r := Success(());
    }

    /** PUT /preferences: replaces the caller's preference list. */
    method UpdatePreferences(t: Token, preferences: seq<string>) returns (r: Result<()>)
      requires Valid()
      modifies this
      ensures Valid()
      ensures r.Success? <==> t.userId in old(users)
      ensures r.Failure? ==> r.error == InternalError && users == old(users)
      ensures r.Success? ==> users == old(users)[t.userId := old(users)[t.userId].(preferences := preferences)]
      ensures order == old(order) && locations == old(locations) && messages == old(messages)
    {
      var auth := Authenticate(t);
      if auth.Failure? {
        return Failure(auth.error);
      }
      var id := auth.value;
      users := users[id := users[id].(preferences := preferences)];
      r := Success(());
    }

    /** POST /location: upserts the caller's one location record and marks
        the caller active now. The `user_id` of the body is validated as a
        string but not used: the record is always the caller's. */
    method UpdateLocation(t: Token, latitude: real, longitude: real, bodyUserId: UserId, now: Time)
      returns (r: Result<()>)
      requires Valid()
      modifies this
      ensures Valid()
      ensures t.userId !in old(users) ==> r == Failure(InternalError)
      ensures t.userId in old(users) && !(LatitudeValid(latitude) && LongitudeValid(longitude))
        ==> r == Failure(ValidationError)
      ensures r.Success? <==> t.userId in old(users) && LatitudeValid(latitude) && LongitudeValid(longitude)
      ensures r.Failure? ==> users == old(users) && locations == old(locations)
      ensures r.Success? ==>
        && locations == old(locations)[t.userId := LocationRecord(latitude, longitude, now)]
        && users == old(users)[t.userId := old(users)[t.userId].(lastActive := now)]
      ensures order == old(order) && messages == old(messages)
    {
      var auth := Authenticate(t);
      if auth.Failure? {
        return Failure(auth.error);
      }
      if !(LatitudeValid(latitude) && LongitudeValid(longitude)) {
        return Failure(ValidationError);
      }
      var id := auth.value;
      locations := locations[id := LocationRecord(latitude, longitude, now)];
      users := users[id := users[id].(lastActive := now)];
      r := Success(());
    }

    /** POST /users/nearby: among the first 1000 other users active in the
        last 30 minutes, those with a stored location within the radius, in
        candidate order. The request's own coordinates are not range-checked:
        a latitude beyond ±90 makes the geodesic computation raise at the first
        candidate with a stored location, and the request fails with 500. */
    method NearbyUsers(t: Token, latitude: real, longitude: real, radiusMiles: Option<real>, now: Time, dist: Distance)
      returns (r: Result<seq<NearbyUser>>)
      requires Valid()
      ensures t.userId !in users ==> r == Failure(InternalError)
      ensures t.userId in users && RadiusMiles(radiusMiles).Failure? ==> r == Failure(ValidationError)
      ensures t.userId in users && RadiusMiles(radiusMiles).Success? && !LatitudeValid(latitude)
              && AnyLocated(Candidates(order, users, t.userId, now), locations)
        ==> r == Failure(InternalError)
      ensures r.Success? <==>
        && t.userId in users && RadiusMiles(radiusMiles).Success?
        && (LatitudeValid(latitude) || !AnyLocated(Candidates(order, users, t.userId, now), locations))
      ensures r.Success? ==>
        r.value == NearbyOf(users, locations, Candidates(order, users, t.userId, now),
                            latitude, longitude, RadiusMiles(radiusMiles).value, dist)
      ensures r.Success? ==> forall e | e in r.value ::
        && e.id != t.userId
        && e.id in users && users[e.id].lastActive >= now - ActiveWindow
        && e.id in locations && e.distanceMiles <= RadiusMiles(radiusMiles).value
        && e.distanceMiles == dist(latitude, longitude, locations[e.id].latitude, locations[e.id].longitude)
      ensures r.Success? ==> |r.value| <= MaxCandidates
    {
      var auth := Authenticate(t);
      if auth.Failure? {
        return Failure(auth.error);
      }
      var radius := RadiusMiles(radiusMiles);
      if radius.Failure? {
        return Failure(radius.error);
      }
      var caller := auth.value;
      var cands := Candidates(order, users, caller, now);
      r := CollectNearby(cands, latitude, longitude, radius.value, dist);
      NearbyOfCandidates(order, users, locations, caller, now, latitude, longitude, radius.value, dist);
    }

    /** The loop of get_nearby_users over the candidates: each candidate with
        a stored location within the radius is added, in candidate order. The
        first distance computed with a latitude beyond ±90 raises. */
    method CollectNearby(cands: seq<UserId>, latitude: real, longitude: real, radius: real, dist: Distance)
      returns (r: Result<seq<NearbyUser>>)
      requires forall id | id in cands :: id in users
      ensures r.Failure? <==> !LatitudeValid(latitude) && AnyLocated(cands, locations)
      ensures r.Failure? ==> r.error == InternalError
      ensures r.Success? ==> r.value == NearbyOf(users, locations, cands, latitude, longitude, radius, dist)
    {
      var nearby: seq<NearbyUser> := [];
      var i := 0;
      while i < |cands|
        invariant 0 <= i <= |cands|
        invariant nearby == NearbyOf(users, locations, cands[..i], latitude, longitude, radius, dist)
        invariant !LatitudeValid(latitude) ==> !AnyLocated(cands[..i], locations)
      {
        var id := cands[i];
        if id in locations && !LatitudeValid(latitude) {
          assert cands[i] in cands;
          return Failure(InternalError);
        }
        if id in locations {
          var loc := locations[id];
          var d := dist(latitude, longitude, loc.latitude, loc.longitude);
          if d <= radius {
            nearby := nearby + [NearbyUser(id, users[id].name, loc.latitude, loc.longitude, d, users[id].lastActive)];
          }
        }
        assert cands[..i + 1][..i] == cands[..i];
        i := i + 1;
      }
      assert cands[..i] == cands;
      r := Success(nearby);
    }

    /** POST /messages: appends a message from the caller, stamped now and
        read by nobody, and answers its id. */
    method SendMessage(t: Token, recipientIds: seq<UserId>, content: string, imageData: Option<string>,
                       newId: MessageId, now: Time)
      returns (r: Result<MessageId>)
      requires Valid()
      modifies this
      ensures Valid()
      ensures r.Success? <==> t.userId in users
      ensures r.Failure? ==> r.error == InternalError && messages == old(messages)
      ensures r.Success? ==>
        && r.value == newId
        && messages == old(messages) + [Message(newId, t.userId, recipientIds, content, imageData, now, [])]
      ensures users == old(users) && order == old(order) && locations == old(locations)
    {
      var auth := Authenticate(t);
      if auth.Failure? {
        return Failure(auth.error);
      }
      messages := messages + [Message(newId, auth.value, recipientIds, content, imageData, now, [])];
      r := Success(newId);
    }

    /** The sender name get_messages adds to a message: present when the
        sender is still stored. */
    function SenderName(m: Message): Option<string>
      reads this
    {
      if m.senderId in users then Some(users[m.senderId].name) else None
    }

    /** The loop of get_messages that adds `sender_name` to each message of
        the page whose sender is still stored. */
    method AnnotateSenders(page: seq<Message>) returns (entries: seq<InboxEntry>)
      ensures |entries| == |page|
      ensures forall k | 0 <= k < |page| :: entries[k] == InboxEntry(page[k], SenderName(page[k]))
    {
      entries := [];
      var i := 0;
      while i < |page|
        invariant 0 <= i <= |page|
        invariant |entries| == i
        invariant forall k | 0 <= k < i :: entries[k] == InboxEntry(page[k], SenderName(page[k]))
      {
        var m := page[i];
        var name: Option<string> := None;
        if m.senderId in users {
          name := Some(users[m.senderId].name);
        }
        entries := entries + [InboxEntry(m, name)];
        i := i + 1;
      }
    }

    /** GET /messages: the caller's inbox query, each message with its
        sender's name where the sender exists. */
    method GetMessages(t: Token) returns (r: Result<seq<InboxEntry>>)
      requires Valid()
      ensures r.Success? <==> t.userId in users
      ensures r.Failure? ==> r.error == InternalError
      ensures r.Success? ==>
        var page := InboxQuery(messages, t.userId);
        && |r.value| == |page|
        && forall k | 0 <= k < |page| :: r.value[k] == InboxEntry(page[k], SenderName(page[k]))
      ensures r.Success? ==>
        && |r.value| <= PageSize
        && (forall k | 0 <= k < |r.value| :: Involves(r.value[k].message, t.userId))
        && (forall i, j | 0 <= i < j < |r.value| :: r.value[i].message.timestamp >= r.value[j].message.timestamp)
    {
      var auth := Authenticate(t);
      if auth.Failure? {
        return Failure(auth.error);
      }
      var page := InboxQuery(messages, auth.value);
      InboxQuerySound(messages, auth.value);
      var entries := AnnotateSenders(page);
      forall k | 0 <= k < |entries| ensures Involves(entries[k].message, auth.value) {
        assert entries[k].message == page[k];
      }
      forall i, j | 0 <= i < j < |entries| ensures entries[i].message.timestamp >= entries[j].message.timestamp {
        assert entries[i].message == page[i] && entries[j].message == page[j];
      }
      r := Success(entries);
    }
  }
}
