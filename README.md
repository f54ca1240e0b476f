# Nearby Connect backend, modelled in Dafny

Nearby Connect is a social-discovery app. Users sign up with a name, email
and phone, verify the account with a six-digit code, share their location,
list the users active near them, and exchange messages. This project models
the request handlers of its FastAPI backend (`backend/server.py`) over the
backend's three MongoDB collections. Each request is one atomic transition of
a `Server.Backend` object, which holds:

- `users`: user records keyed by id. Beside it, `order` keeps the
  collection's natural (insertion) order. That order decides which document
  `find_one({"email": …})` returns and which 1000 documents
  `find(…).to_list(1000)` returns.
- `locations`: one location record per user id.
- `messages`: an append-only sequence.

The current time (an integer count of milliseconds: MongoDB stores each
datetime as a BSON date and drops the microseconds, so the activity cutoff
compares whole milliseconds and messages sent within one millisecond tie
under the timestamp sort), the fresh uuids and the
geodesic distance are parameters of the handlers. The distance is a function
parameter `dist`, so the nearby filter is verified for every distance
function.

Modules:

- `Types`: the records, the answers and the HTTP errors.
- `Validators`: the request-body validators (email, phone, latitude,
  longitude, radius). The two regular expressions are read with Python's
  `re.match` semantics. There, a final `$` also matches just before a
  trailing newline. For email this admits nothing new (`EmailValidIsBody`).
  For phone it admits a 15-character body followed by `"\n"`
  (`PhoneValidIff`, `PhoneExamples`).
- `VerificationCodes`: `create_verification_code` as a nondeterministic
  choice in 100000..999999, written in decimal.
- `Directory`: the account lifecycle (absent, unverified, verified) and the
  queries on `users` and `locations`. These are the lookup by email, the
  active-candidate query, and `NearbyOf`, the specification of the
  nearby-users loop.
- `Inbox`: the message query. It selects the messages the user sent or
  received, sorts them newest first and keeps 100.
- `Server`: the `Backend` class, one method or function per endpoint.
- `Scenarios`: request sequences over the handlers, replayed against their
  contracts. One follows the authentication part of the backend's test run
  (`backend_test.py`), with the test's own data. The others exercise the
  handlers' edge cases.

Authentication comes first in every protected handler, then body validation.
FastAPI resolves the token dependency before it validates the body. A token
is modelled as the user id it carries. The only part of `verify_jwt_token`
modelled is its check that this user still exists.

Five behaviours of the code are worth stating outright:

- A phone such as `"555-0100"` is refused with 422. It has only 8 characters,
  and the phone regex asks for 10 to 15 (`Scenarios.InvalidSignups`).
- The server enforces no length limit on message content.
- Login refuses an unverified user with "User not verified"
  (backend/server.py:238-239), besides refusing an unknown email with
  "User not found".
- A protected request whose token names a user who is no longer stored
  fails with 500, not with the 401 "User not found" the token check raises
  (backend/server.py:160-169). The check's second `except` clause names
  `jwt.JWTError`. The `jwt` module the server uses is PyJWT, whose
  `encode`, `decode` and `ExpiredSignatureError` it calls, and PyJWT defines
  no such name. Evaluating the clause therefore raises `AttributeError`
  (`Server.Backend.Authenticate`). Only an expired token gets its 401.
- The request coordinates of a nearby search are not range-checked. A
  latitude beyond ±90 makes geopy's geodesic (geopy 2.x, whose `Point`
  refuses such a latitude; 1.x normalised it instead) raise at the
  first candidate with a stored location, and the request fails with 500
  (`Server.Backend.NearbyUsers`).

One more quirk is modelled as written. After verification the stored code is
null. A verify request for that user that carries no code therefore
succeeds again (`Server.Backend.VerifyCode`, `Scenarios.VerifiedWithoutCode`).

## Model

| member | source | states |
|---|---|---|
| `Validators.EmailValid` | backend/server.py:55-60 | `re.match` of the email regex, with `$` also matching before a final newline; an accepted address holds an '@' and has at least 5 characters |
| `Validators.PhoneValid` | backend/server.py:62-67 | `re.match` of the phone regex, with the same reading of `$`; an accepted phone has 10 to 17 characters |
| `Validators.LatitudeValid` | backend/server.py:92-96 | the closed latitude bounds -90..90 of the location body (definition; `CoordinateExamples` and `UpdateLocation` state its use) |
| `Validators.LongitudeValid` | backend/server.py:98-102 | the closed longitude bounds -180..180 of the location body (definition; `CoordinateExamples` and `UpdateLocation` state its use) |
| `Validators.RadiusMiles` | backend/server.py:125-128 | an absent radius is 1.0; a given radius is accepted iff 0.5 ≤ r ≤ 5.0 and is then kept unchanged; otherwise the error is 422 |
| `Validators.EmailValidIsBody` | backend/server.py:55-60 | the match-before-final-newline behaviour of `$` accepts no extra address: the validator accepts s iff `[^@]+@[^@]+\.[^@]+` matches all of s |
| `Validators.EmailSingleAt` | backend/server.py:55-60 | an accepted address holds exactly one '@', which is neither first nor last |
| `Validators.EmailFromParts` | backend/server.py:55-60 | every non-empty '@'-free local part + "@" + '@'-free domain with an inner '.' is accepted (the converse of the shape) |
| `Validators.EmailRejectsWithoutAt` | backend/server.py:55-60 | a string without '@' is rejected |
| `Validators.EmailAcceptsExample` | backend_test.py:53-57 | the signup test's address, with its clock reading taken as 1 ("alice.test.1@example.com"), is accepted |
| `Validators.EmailRejectsExample` | backend_test.py:79-93 | "invalid-email" is rejected |
| `Validators.PhoneValidIff` | backend/server.py:62-67 | a phone is accepted iff, after an optional leading '+', it has 10–15 characters from digits, whitespace, '-', '(' and ')', or 16 such characters whose last is the final newline |
| `Validators.PhoneExamples` | backend/server.py:62-67 | "+1234567890" is accepted; "555-0100" is rejected; a 15-digit body plus "\n" is accepted while 16 digits are rejected |
| `Validators.CoordinateExamples` | backend/server.py:92-102 | the latitude and longitude bounds are closed; the test's latitude 200 is rejected and its San Francisco coordinates are accepted |
| `VerificationCodes.Decimal` | backend/server.py:136 | `str(n)` is a non-empty string of decimal digits |
| `VerificationCodes.ParseOfDecimal` | backend/server.py:136 | reading back `str(n)` gives n (round trip) |
| `VerificationCodes.DecimalLength` | backend/server.py:136 | a number with k+1 digits is written with k+1 characters and no leading zero |
| `VerificationCodes.SixDigitCodes` | backend/server.py:134-136 | every value randint(100000, 999999) can draw gives six digits without a leading zero, and they read back as that value |
| `VerificationCodes.CreateVerificationCode` | backend/server.py:134-136 | the code is six decimal digits, the first not zero, and its value lies in 100000..999999 |
| `Directory.FirstWithEmail` | backend/server.py:178 | the index found is that of the first user in natural order with the email; no earlier user has it; when no user has it, the index is past the end |
| `Directory.FindByEmail` | backend/server.py:234-236 | `find_one` by email finds a user holding that email, and finds none iff no user holds it |
| `Directory.ActiveOthers` | backend/server.py:305-311 | the query keeps exactly the users, other than the caller, active at or after the cutoff |
| `Directory.ActiveOthersNoDuplicates` | backend/server.py:305-311 | the query repeats no user when the natural order repeats none |
| `Directory.ActiveOthersInOrder` | backend/server.py:305-311 | the query keeps the natural order: its entries sit at strictly increasing positions of the collection |
| `Directory.Candidates` | backend/server.py:305-311 | `to_list(1000)`: the first min(n, 1000) qualifying users in natural order, n being how many qualify; each is another user, active in the last 30 minutes |
| `Directory.CandidatesComplete` | backend/server.py:305-311 | when at most 1000 users qualify, every qualifying user is a candidate |
| `Directory.NearbyOf` | backend/server.py:313-332 | what the nearby loop collects from a list of candidates: never more entries than candidates, and none when no candidate has a stored location |
| `Directory.NearbyEntriesQualify` | backend/server.py:313-332 | every entry is a candidate with a stored location; it carries that location, the distance to it (≤ radius), and the user's name and last activity |
| `Directory.NearbyComplete` | backend/server.py:315-324 | every candidate with a stored location within the radius has an entry |
| `Directory.NearbyOfCandidates` | backend/server.py:302-334 | the nearby answer over the candidates has at most 1000 entries, none of them the caller, each a user active in the last 30 minutes with a stored location at distance at most the radius |
| `Directory.NearbyInCandidateOrder` | backend/server.py:313-334 | entries come in candidate order: entry i is candidate positions[i], and the positions strictly increase |
| `Inbox.Involves` | backend/server.py:360-364 | the `$or` filter: the user is the sender or one of the recipients (definition; `InvolvingCounts` states the selection it makes) |
| `Inbox.Involving` | backend/server.py:360-364 | the selection is no longer than the collection |
| `Inbox.InvolvingCounts` | backend/server.py:360-364 | each message occurs in the selection as often as in the collection if the user is its sender or one of its recipients, and not at all otherwise |
| `Inbox.SortNewestFirst` | backend/server.py:365 | `.sort("timestamp", -1)` as a stable insertion sort; it keeps the number of messages (`SortNewestFirstCorrect` states order and permutation) |
| `Inbox.InsertCounts` | backend/server.py:365 | inserting a message into the sorted list adds exactly that message: the multiset grows by one copy of it |
| `Inbox.InsertKeepsOrder` | backend/server.py:365 | inserting into a newest-first list keeps it newest first |
| `Inbox.SortNewestFirstCorrect` | backend/server.py:365 | the sort is ordered by non-increasing timestamp and is a permutation of its input |
| `Inbox.InboxQuery` | backend/server.py:359-365 | the answer holds min(n, 100) messages, n being the number of messages that involve the user |
| `Inbox.InboxQuerySound` | backend/server.py:359-365 | every returned message has the user as sender or recipient; the answer is newest first; it is a sub-multiset of the matching messages |
| `Inbox.PrefixNoOlder` | backend/server.py:365 | in a newest-first list, every message after the first n is no newer than any of the first n |
| `Inbox.InboxQueryNewest` | backend/server.py:359-365 | with at most 100 matching messages all are returned; any matching message left out is no newer than every returned one |
| `Inbox.NewestSortsFirst` | backend/server.py:365 | a message strictly newer than all others is sorted first |
| `Inbox.NewMessageFirst` | backend/server.py:337-365 | a message newer than every stored one, once appended, is the first entry in the inbox of its sender and of each recipient |
| `Server.ApplyPatch` | backend/server.py:271-277 | `$set` gives each named field the patch's value and leaves every other field, and the timestamps, as they were |
| `Server.PatchIdempotent` | backend/server.py:271-277 | repeating a profile update changes nothing more; an empty update changes nothing |
| `Server.Backend.constructor` | backend/server.py:24-26 | the backend starts with empty collections and satisfies its invariant |
| `Server.Backend.Authenticate` | backend/server.py:152-169 | a token is accepted iff its user is still stored, and it names that user; otherwise the request fails with 500, because the 401 raised at line 163 meets the `except jwt.JWTError` clause, which PyJWT cannot evaluate |
| `Server.Backend.Signup` | backend/server.py:175-201 | an invalid email or phone gives 422; an email already stored gives "User already exists"; both leave the store unchanged. Otherwise exactly one unverified user is added under the new id, with the six-digit code returned, and it is appended to the natural order; nothing else changes |
| `Server.Backend.CodeMatches` | backend/server.py:205-209 | a match needs a user id that is stored |
| `Server.Backend.VerifyCode` | backend/server.py:203-230 | succeeds iff the user exists and its stored code equals the given one (null equals absent); otherwise fails "Invalid verification code" with no change. On success the user is verified with the code cleared, so no code matches again but a code-less request does; a token for that user and its pre-update public fields are returned; nothing else changes |
| `Server.Backend.Login` | backend/server.py:232-254 | "User not found" iff no user has the email; "User not verified" iff the first user with it is unverified; success iff that first user is verified, and then the token names that user, and the answer carries its public fields; the store is read only |
| `Server.Backend.GetProfile` | backend/server.py:256-269 | with a valid token, the caller's id, name, email, phone, preferences and image; otherwise 500 |
| `Server.Backend.UpdateProfile` | backend/server.py:271-277 | with a valid token only the caller's record changes, by the patch; otherwise 500 and no change |
| `Server.Backend.UpdatePreferences` | backend/server.py:375-381 | with a valid token only the caller's preferences are replaced; otherwise 500 and no change |
| `Server.Backend.UpdateLocation` | backend/server.py:279-300 | 500 for an unknown user, then 422 for an out-of-range coordinate, each with no change. Otherwise the caller has exactly one location record holding the coordinates and now, its last_active is now, and no other user's records change |
| `Server.Backend.NearbyUsers` | backend/server.py:302-334 | 500 for an unknown user; 422 for a radius out of bounds; 500 when, past those, the request latitude is beyond ±90 and some candidate has a stored location. Success in every other case, and then the loop's answer equals `NearbyOf` over the candidates. It never contains the caller; every entry is active in the last 30 minutes, has a stored location and lies within the radius; there are at most 1000 entries |
| `Server.Backend.CollectNearby` | backend/server.py:313-332 | the loop over the candidates fails with 500 iff the latitude is beyond ±90 and some candidate has a stored location; otherwise its answer is `NearbyOf` of the candidates |
| `Server.Backend.SendMessage` | backend/server.py:336-356 | with a valid token, exactly one message is appended, from the caller, stamped now, with empty read_by, and its id is returned; otherwise 500 and no change |
| `Server.Backend.SenderName` | backend/server.py:368-371 | the sender's name where the sender is still stored, and none otherwise (definition; `GetMessages` states its use) |
| `Server.Backend.AnnotateSenders` | backend/server.py:367-371 | the loop over the page: entry k is message k of the page, with its sender's name where the sender is still stored |
| `Server.Backend.GetMessages` | backend/server.py:358-373 | entry k is message k of the inbox query, with the sender's name iff the sender exists; at most 100 entries, each involving the caller, by non-increasing timestamp; 500 for an unknown user |
| `Scenarios.TestSuiteAuthRun` | backend_test.py:49-168 | the test run's order and data: after Alice's signup, the "invalid-email" signup fails with 422; her code verifies and gives her token; "000000" then fails with 400; login by her email gives her token |
| `Scenarios.SignupTwice` | backend/server.py:175-254 | after a signup, the same signup fails "User already exists" and login fails "User not verified" |
| `Scenarios.VerifyOnce` | backend/server.py:203-230 | after signup the code "000000" fails; the real code verifies once and then fails |
| `Scenarios.VerifiedWithoutCode` | backend/server.py:203-254 | after verification a request without a code verifies again, and login by email succeeds |
| `Scenarios.InvalidSignups` | backend/server.py:55-67 | signups with "invalid-email" or with phone "555-0100" fail with 422 |

## Left out

- JWT encoding, decoding, signing and expiry are not modelled. Tokens are the user id they carry. The other outcomes of the token check are not modelled: the 401 "Token expired"; the 500 for a token that does not decode or has no `user_id` (its "Invalid token" 401 meets the same `except jwt.JWTError` clause); and the 403 for a missing header.
- bcrypt password hashing is not modelled. No endpoint uses it, and the login body's `password` and `verification_code` fields are ignored as in the source.
- The geodesic distance (geopy) is not modelled; it is the `dist` parameter.
- Server.Backend.NearbyUsers: the geodesic is modelled only as far as its failure on a request latitude beyond ±90 (500). Its normalisation of a longitude beyond ±180 is part of the `dist` parameter.
- Server.Backend.NearbyUsers: `distanceMiles` is the raw distance. The source's `round(distance, 2)` in the answer is not modelled, because it is floating-point rounding. The radius comparison uses the unrounded distance, as in the source.
- Floating point is not modelled: coordinates and radii are reals, so NaN and infinities do not arise.
- Validators.PhoneChar: `\d` and `\s` are read as ASCII classes. Python's Unicode digits and whitespace are not modelled.
- Server.Backend.VerifyCode: the request body is a plain dict, so `user_id` can be any JSON value. Only a string or absent/null id is modelled. A non-string id, in particular an object such as `{"$ne": null}` that MongoDB reads as a query operator and that then matches the first stored user, is not modelled.
- Pydantic's coercion of non-string JSON values into string fields is not modelled. A verify request's code is a string or absent/null. A number, which never equals a stored string, is not modelled.
- Server.Backend.UpdateProfile: the patch covers the record's fields except `id`, `created_at` and `last_active`. Keys outside the schema are not modelled. Values of another JSON type are not modelled. MongoDB servers older than 5.0 reject an empty `$set`; that error is not modelled.
- get_profile's 404 is not modelled as a separate branch. Requests are atomic here, so it cannot follow a successful token check.
- The uuids of users and messages are parameters. Server.Backend.Signup requires the new user id to be fresh, which uuid4 is taken to guarantee. The location document's own id is never read and is not stored.
- Inbox.SortNewestFirst: MongoDB leaves the order of messages with equal timestamps unspecified. The model keeps their natural order. The proved properties (newest first, permutation, top 100) hold for any tie order.
- MongoDB's natural order is taken to be insertion order.
- Server.Backend.GetMessages: the answer is modelled as the message fields plus the sender name. The handler returns the raw MongoDB documents, which carry an `_id` ObjectId. FastAPI's default JSON encoder has no encoder for ObjectId, so on that reading a non-empty inbox answers 500. The model does not capture that serialisation failure.
- Concurrency between requests is not modelled. Each request is one atomic transition, although the async handlers await between their queries.
- Socket.IO (the `new_message` emit, rooms and the connect, disconnect and join handlers), CORS, logging and server start-up are not modelled. They are transport and I/O.
- The mobile client (radar state, blip layout, compose flow) is not part of this model.
