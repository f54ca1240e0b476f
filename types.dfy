/** The records the backend keeps in its three collections, the values its
    endpoints return, and the errors they raise. */
module Types {

  datatype Option<T> = None | Some(value: T)

  /** An endpoint either answers or raises one of the HTTP errors below. */
  datatype Result<T> = Success(value: T) | Failure(error: Error)

  /** The HTTP errors of the endpoints (status and detail in the comment). */
  datatype Error =
    | ValidationError          // 422: a request-body validator rejected a field
    | UserAlreadyExists        // 400 "User already exists"
    | InvalidVerificationCode  // 400 "Invalid verification code"
    | UserNotFound             // 400 "User not found" (login by email)
    | UserNotVerified          // 400 "User not verified"
    | InternalError            // 500: an exception the handler does not catch

  type UserId = string
  type MessageId = string

  /** A point in time, in whole milliseconds: MongoDB stores every datetime as
      a BSON date, dropping the microseconds of Python's datetime. A handler's
      `now` is the clock read so truncated, as the stored value and the query
      cutoff both are. */
  type Time = int

  /** A document of the `users` collection; its `id` is the key it is stored under. */
  datatype UserRecord = UserRecord(
    name: string,
    email: string,
    phone: string,
    verificationCode: Option<string>,
    verified: bool,
    createdAt: Time,
    lastActive: Time,
    profileImage: Option<string>,
    preferences: seq<string>)

  /** A document of the `locations` collection; its `user_id` is the key it is stored under. */
  datatype LocationRecord = LocationRecord(latitude: real, longitude: real, timestamp: Time)

  /** A document of the `messages` collection. */
  datatype Message = Message(
    id: MessageId,
    senderId: UserId,
    recipientIds: seq<UserId>,
    content: string,
    imageData: Option<string>,
    timestamp: Time,
    readBy: seq<UserId>)

  /** A bearer token, reduced to the user id its payload carries. */
  datatype Token = Token(userId: UserId)

  /** The `user` object returned by verify and login. */
  datatype PublicUser = PublicUser(id: UserId, name: string, email: string, phone: string)

  /** The answer of verify and login: a token and the user it was issued for. */
  datatype Session = Session(token: Token, user: PublicUser)

  /** The answer of GET /profile. */
  datatype Profile = Profile(
    id: UserId,
    name: string,
    email: string,
    phone: string,
    preferences: seq<string>,
    profileImage: Option<string>)

  /** One entry of the nearby-users answer. */
  datatype NearbyUser = NearbyUser(
    id: UserId,
    name: string,
    latitude: real,
    longitude: real,
    distanceMiles: real,
    lastActive: Time)

  /** One message of the inbox answer, with the sender's name when the sender still exists. */
  datatype InboxEntry = InboxEntry(message: Message, senderName: Option<string>)

  /** The body of PUT /profile: each field present in the JSON object is set
      (`$set`); `Some(None)` sets a nullable field to null. */
  datatype ProfilePatch = ProfilePatch(
    name: Option<string>,
    email: Option<string>,
    phone: Option<string>,
    profileImage: Option<Option<string>>,
    preferences: Option<seq<string>>,
    verified: Option<bool>,
    verificationCode: Option<Option<string>>)

  /** A geodesic distance in miles between two (latitude, longitude) points. */
  type Distance = (real, real, real, real) -> real
}
