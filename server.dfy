/**
 * The server side of the proof-of-work gate: challenge issuance (`GET
 * /challenge`) and the decision ladder of `POST /data`. The request body is
 * taken already decoded; the clock, the digest, the data directory listing
 * and the timestamps of the built matches are parameters.
 */
module Server {
  import opened Wrappers
  import opened PyJson
  import opened Decimal
  import opened Pow
  import opened Store
  import opened Datasource
  import Entities

  const CHALLENGE_EXPIRATION: nat := 60
  const DIFFICULTY: int := 4
  const NAMESPACE: string := "datafeed"

  const INVALID_FORMAT: string := "Invalid request format."
  const EXPIRED_OR_INVALID: string := "Challenge expired or invalid"
  const INVALID_POW: string := "Invalid PoW solution."

  /** An HTTP answer: a status and a JSON body, or an exception that escaped
      the handler (which the web framework turns into a 500 page). */
  datatype Reply = Reply(status: int, body: Json) | Unhandled

  function ErrorBody(message: string): Json {
    JObject([("error", JStr(message))])
  }

  // ---------------------------------------------------------------- issuance

  /** The challenge text issued at time `now`: the namespace followed by the
      decimal number of whole seconds, from which that number reads back. */
  function ChallengePayload(now: real): (p: string)
    ensures |p| > |NAMESPACE| && p[..|NAMESPACE|] == NAMESPACE
    ensures ParseInt(p[|NAMESPACE|..]) == Truncate(now)
  {
    var p := NAMESPACE + IntToString(Truncate(now));
    assert p[|NAMESPACE|..] == IntToString(Truncate(now));
    ParseIntToString(Truncate(now));
    p
  }

  /** Two challenges are equal exactly when they were issued in the same
      second: the text carries nothing finer than the truncated clock. */
  lemma SameSecondSameChallenge(t1: real, t2: real)
    ensures ChallengePayload(t1) == ChallengePayload(t2) <==> Truncate(t1) == Truncate(t2)
  {
    if ChallengePayload(t1) == ChallengePayload(t2) {
      assert ChallengePayload(t1)[|NAMESPACE|..] == ChallengePayload(t2)[|NAMESPACE|..];
    }
  }

  /** The JSON body of `GET /challenge`. */
  function ChallengeBody(id: string, payload: string, difficulty: int): Json {
    JObject([("challenge_id", JStr(id)), ("challenge", JStr(payload)), ("difficulty", JInt(difficulty))])
  }

  /** `get_challenge`: builds the challenge, stores id -> text for
      CHALLENGE_EXPIRATION seconds (the difficulty is not stored) and answers
      with id, text and difficulty. */
  method GetChallenge(store: ChallengeStore, now: real, digest: Digest) returns (reply: Reply)
    modifies store
    ensures var p := ChallengePayload(now);
            reply == Reply(200, ChallengeBody(digest(p), p, DIFFICULTY)) &&
            store.entries == old(store.entries)[digest(p) := Entry(p, now + CHALLENGE_EXPIRATION as real)]
  {
    var challenge := ChallengePayload(now);
    var challengeId := digest(challenge);
    var difficulty := DIFFICULTY;
    store.SetEx(challengeId, CHALLENGE_EXPIRATION, challenge, now);
    reply := Reply(200, ChallengeBody(challengeId, challenge, difficulty));
  }

  // ------------------------------------------------------------ verification

  /** The fields `verify_pow` reads with `data.get(...)`; JNull when missing. */
  datatype Request = Request(challengeId: Json, challenge: Json, nonce: Json, difficulty: Json, entityName: Json)

  function RequestOf(body: seq<(string, Json)>): Request {
    Request(GetOrNull(body, "challenge_id"), GetOrNull(body, "challenge"), GetOrNull(body, "nonce"),
            GetOrNull(body, "difficulty"), GetOrNull(body, "entity_name"))
  }

  /** `isinstance(j, int)`, which holds for booleans too. */
  predicate IsPyInt(j: Json) {
    j.JInt? || j.JBool?
  }

  function PyInt(j: Json): int
    requires IsPyInt(j)
  {
    if j.JInt? then j.i else if j.b then 1 else 0
  }

  /** `f"{j}"` for an int or a bool. */
  function PyStr(j: Json): string
    requires IsPyInt(j)
  {
    if j.JInt? then IntToString(j.i) else if j.b then "True" else "False"
  }

  /** Rung 1: both strings truthy, nonce and difficulty ints. */
  predicate WellFormed(req: Request) {
    Truthy(req.challengeId) && Truthy(req.challenge) && IsPyInt(req.nonce) && IsPyInt(req.difficulty)
  }

  /** The store key the client's challenge id is sent as: strings as they
      are, numbers by their repr; any other value is refused by the store
      client with an exception the handler does not catch. */
  function StoreKey(j: Json): Option<string> {
    match j
    case JStr(s) => Some(s)
    case JInt(i) => Some(IntToString(i))
    case JFloat(r) => Some(r)
    case _ => None
  }

  /** Rung 2: a non-empty stored text equal to the submitted challenge. */
  predicate ChallengeMatches(stored: Option<string>, challenge: Json) {
    stored.Some? && stored.value != "" && challenge == JStr(stored.value)
  }

  predicate ChallengeAccepted(entries: map<string, Entry>, now: real, req: Request) {
    WellFormed(req) && StoreKey(req.challengeId).Some? &&
    ChallengeMatches(Live(entries, StoreKey(req.challengeId).value, now), req.challenge)
  }

  /** Rung 3: the digest of challenge and nonce against the difficulty the
      client submitted; None where building the prefix raises. */
  function PowCheck(digest: Digest, req: Request): Option<bool>
    requires req.challenge.JStr? && IsPyInt(req.nonce) && IsPyInt(req.difficulty)
  {
    StartsWithZeros(digest(req.challenge.s + PyStr(req.nonce)), PyInt(req.difficulty))
  }

  predicate PowHolds(digest: Digest, req: Request)
    requires req.challenge.JStr? && IsPyInt(req.nonce) && IsPyInt(req.difficulty)
  {
    PowCheck(digest, req) == Some(true)
  }

  predicate PassesGate(entries: map<string, Entry>, now: real, digest: Digest, req: Request) {
    ChallengeAccepted(entries, now, req) && PowHolds(digest, req)
  }

  /** The body of a 200 answer. */
  function MatchesBody(matches: seq<Json>): Json {
    Entities.CreateResponse("success", "Entity matches retrieved", JObject([("matches", JArray(matches))]))
  }

  /** The answer after a passed gate: 500 when the directory cannot be
      listed, 400 when it is empty, else 200 with the matches or 404. */
  function LookupReply(listing: Option<seq<DataFile>>, entity: Json, stamp: nat -> string): Reply {
    match listing
    case None => Reply(500, Entities.CreateResponse("error", "Failed to fetch data.", JNull))
    case Some(files) =>
      if files == [] then Reply(400, Entities.CreateResponse("Error", INVALID_FORMAT, JNull))
      else
        var matches := Envelopes(Select(AllRecords(files), entity), stamp);
        if matches != [] then Reply(200, MatchesBody(matches))
        else
          Reply(404, Entities.CreateResponse("not_found", "No matching entities found.", JNull))
  }

  /** A listed, non-empty directory answers 200 exactly when some record
      carries the requested name, and 404 otherwise. */
  lemma LookupFindsExactlyNamedRecords(files: seq<DataFile>, entity: Json, stamp: nat -> string)
    requires files != []
    ensures var reply := LookupReply(Some(files), entity, stamp);
            reply.Reply? && (reply.status == 200 || reply.status == 404) &&
            (reply.status == 200 <==> exists r :: r in AllRecords(files) && r.name == entity)
  {
    var recs := AllRecords(files);
    var sel := Select(recs, entity);
    SelectMembers(recs, entity);
    if sel != [] {
      assert sel[0] in sel;
    }
  }

  /** `verify_pow`. It has no modifies clause: no outcome writes or deletes a
      store entry, so an accepted proof is accepted again until the entry
      expires. */
  method VerifyPow(store: ChallengeStore, now: real, digest: Digest, req: Request,
                   listing: Option<seq<DataFile>>, stamp: nat -> string) returns (reply: Reply)
    ensures !WellFormed(req) ==> reply == Reply(400, ErrorBody(INVALID_FORMAT))
    ensures WellFormed(req) && StoreKey(req.challengeId).None? ==> reply == Unhandled
    ensures WellFormed(req) && StoreKey(req.challengeId).Some? && !ChallengeAccepted(store.entries, now, req) ==>
              reply == Reply(400, ErrorBody(EXPIRED_OR_INVALID))
    ensures ChallengeAccepted(store.entries, now, req) && !IndexSized(PyInt(req.difficulty)) ==> reply == Unhandled
    ensures ChallengeAccepted(store.entries, now, req) && IndexSized(PyInt(req.difficulty)) && !PowHolds(digest, req) ==>
              reply == Reply(400, Entities.CreateResponse("error", INVALID_POW, JNull))
    ensures PassesGate(store.entries, now, digest, req) ==> reply == LookupReply(listing, req.entityName, stamp)
  {
    if !(Truthy(req.challengeId) && Truthy(req.challenge) && IsPyInt(req.nonce) && IsPyInt(req.difficulty)) {
      return Reply(400, ErrorBody(INVALID_FORMAT));
    }
    var key := StoreKey(req.challengeId);
    if key.None? {
      return Unhandled;
    }
    var stored := store.Get(key.value, now);
    if stored.None? || stored.value == "" || req.challenge != JStr(stored.value) {
      return Reply(400, ErrorBody(EXPIRED_OR_INVALID));
    }
    var hashValue := digest(req.challenge.s + PyStr(req.nonce));
    var prefix := ZeroPrefix(PyInt(req.difficulty));
    if prefix.None? {
      return Unhandled;
    }
    if !(prefix.value <= hashValue) {
      return Reply(400, Entities.CreateResponse("error", INVALID_POW, JNull));
    }
    match listing {
      case None =>
        reply := Reply(500, Entities.CreateResponse("error", "Failed to fetch data.", JNull));
      case Some(files) =>
        if files == [] {
          return Reply(400, Entities.CreateResponse("Error", INVALID_FORMAT, JNull));
        }
        var matches := CollectMatches(files, req.entityName, stamp);
        if matches != [] {
          reply := Reply(200, MatchesBody(matches));
        } else {
          reply := Reply(404, Entities.CreateResponse("not_found", "No matching entities found.", JNull));
        }
    }
  }

  // ---------------------------------------------------------- gate properties

  /** A nonce of 0 is an int, not a missing field: the format check accepts it. */
  lemma ZeroNonceWellFormed(challengeId: string, challenge: string, difficulty: int, entity: Json)
    requires challengeId != "" && challenge != ""
    ensures WellFormed(Request(JStr(challengeId), JStr(challenge), JInt(0), JInt(difficulty), entity))
  {
  }

  /** An id that is absent or expired in the store is rejected whatever the
      nonce; so is an id whose stored text differs from the submitted one. */
  lemma StaleChallengeRejected(entries: map<string, Entry>, now: real, digest: Digest, req: Request)
    requires StoreKey(req.challengeId).Some?
    requires var key := StoreKey(req.challengeId).value;
             key !in entries || now >= entries[key].expiresAt || req.challenge != JStr(entries[key].value)
    ensures !PassesGate(entries, now, digest, req)
  {
  }

  /** A deleted challenge behaves like one never issued. */
  lemma DeletedChallengeRejected(entries: map<string, Entry>, now: real, digest: Digest, req: Request)
    requires StoreKey(req.challengeId).Some?
    ensures !PassesGate(entries - {StoreKey(req.challengeId).value}, now, digest, req)
  {
  }

  /** The difficulty enforced is the one the client submits: with a
      difficulty of zero or less every nonce passes a live challenge, unless
      the difficulty is too negative to build the prefix. */
  lemma SubmittedDifficultyTrusted(entries: map<string, Entry>, now: real, digest: Digest, req: Request)
    requires ChallengeAccepted(entries, now, req)
    requires PyInt(req.difficulty) <= 0
    ensures PassesGate(entries, now, digest, req) <==> IndexSized(PyInt(req.difficulty))
  {
    NoDifficultyAlwaysPasses(digest(req.challenge.s + PyStr(req.nonce)), PyInt(req.difficulty));
  }

  /** Verification consumes nothing: a request that passed once passes again
      at any time before its entry expires. */
  lemma ReplayUntilExpiry(entries: map<string, Entry>, t1: real, t2: real, digest: Digest, req: Request)
    requires PassesGate(entries, t1, digest, req)
    ensures StoreKey(req.challengeId).value in entries
    ensures t2 < entries[StoreKey(req.challengeId).value].expiresAt ==> PassesGate(entries, t2, digest, req)
  {
  }
}
