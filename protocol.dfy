/**
 * Properties that join the two sides: what the server issues passes the
 * client's check, what the client posts is what the server reads, a solved
 * challenge passes the gate, and the client's unit count reads a path the
 * server's answer does not have.
 */
module Protocol {
  import opened Wrappers
  import opened PyJson
  import opened Decimal
  import opened Pow
  import opened Store
  import opened Datasource
  import opened Server
  import opened Client
  import Entities

  /** The body of `GET /challenge` passes the client's key check unchanged. */
  lemma IssuedChallengePassesClientCheck(now: real, digest: Digest)
    ensures var p := ChallengePayload(now);
            var body := ChallengeBody(digest(p), p, DIFFICULTY);
            CheckChallengeResponse(body) == Ok(body)
  {
    var p := ChallengePayload(now);
    var body := ChallengeBody(digest(p), p, DIFFICULTY);
    assert Keys(body.fields) == ["challenge_id", "challenge", "difficulty"];
  }

  /** The server reads back exactly the five values the client sent. */
  lemma PayloadDecodesToRequest(challengeId: Json, challenge: Json, nonce: Json, difficulty: Json, entityName: Json)
    ensures RequestOf(FetchDataPayload(challengeId, challenge, nonce, difficulty, entityName).fields) ==
            Request(challengeId, challenge, nonce, difficulty, entityName)
  {
  }

  /** A live entry, its own text and a solving nonce pass all three rungs. */
  lemma LiveSolvedPassesGate(entries: map<string, Entry>, now: real, digest: Digest, id: string, p: string,
                             expiresAt: real, nonce: nat, difficulty: int, entityName: Json)
    requires id != "" && p != "" && now < expiresAt
    requires IsSolution(digest, p, difficulty, nonce)
    ensures PassesGate(entries[id := Entry(p, expiresAt)], now, digest,
                       Request(JStr(id), JStr(p), JInt(nonce), JInt(difficulty), entityName))
  {
    var req := Request(JStr(id), JStr(p), JInt(nonce), JInt(difficulty), entityName);
    assert PyStr(req.nonce) == NatToString(nonce);
  }

  /** Issue, solve, submit: a challenge still live in the store, answered
      with a nonce that solves it at the issued difficulty, passes every rung
      of the gate. */
  lemma SolvedChallengePassesGate(entries: map<string, Entry>, issuedAt: real, now: real, digest: Digest,
                                  nonce: nat, entityName: Json)
    requires digest(ChallengePayload(issuedAt)) != ""
    requires now < issuedAt + CHALLENGE_EXPIRATION as real
    requires IsSolution(digest, ChallengePayload(issuedAt), DIFFICULTY, nonce)
    ensures var p := ChallengePayload(issuedAt);
            var id := digest(p);
            var stored := entries[id := Entry(p, issuedAt + CHALLENGE_EXPIRATION as real)];
            var body := FetchDataPayload(JStr(id), JStr(p), JInt(nonce), JInt(DIFFICULTY), entityName);
            PassesGate(stored, now, digest, RequestOf(body.fields))
  {
    var p := ChallengePayload(issuedAt);
    var id := digest(p);
    PayloadDecodesToRequest(JStr(id), JStr(p), JInt(nonce), JInt(DIFFICULTY), entityName);
    LiveSolvedPassesGate(entries, now, digest, id, p, issuedAt + CHALLENGE_EXPIRATION as real, nonce, DIFFICULTY,
                         entityName);
  }

  // ---------------------------------------- the unit count reads a missing path

  /** Every 200 answer of the server holds its matches under
      `data["matches"]`, so the count as written finds no `facts` and is 0. */
  lemma ServerAnswerCountsNoUnits(files: seq<DataFile>, entity: Json, stamp: nat -> string)
    ensures var reply := LookupReply(Some(files), entity, stamp);
            reply.Reply? && reply.status == 200 ==> MatchCount(reply.body) == Some(0)
  {
    var reply := LookupReply(Some(files), entity, stamp);
    if reply.Reply? && reply.status == 200 {
      var inner := JObject([("matches", JArray(Envelopes(Select(AllRecords(files), entity), stamp)))]);
      assert Get(reply.body.fields, "data") == Some(inner);
      assert Keys(inner.fields) == ["matches"];
    }
  }

  function RecUnits(r: Rec): Option<nat> {
    FactsUnits(r.facts)
  }

  lemma {:induction false} EnvelopeUnits(recs: seq<Rec>, stamp: nat -> string)
    ensures SumOpt(Envelopes(recs, stamp), MatchUnits) == SumOpt(recs, RecUnits)
  {
    if recs != [] {
      var n := |recs|;
      EnvelopeUnits(recs[..n - 1], stamp);
      assert Envelopes(recs, stamp)[..n - 1] == Envelopes(recs[..n - 1], stamp);
      var m := Envelopes(recs, stamp)[n - 1];
      assert m == Entities.CreateCompanyFacts(recs[n - 1].name, recs[n - 1].facts, stamp(n - 1));
    }
  }

  /** The corrected count, read under `data["matches"]`, adds up the units
      of the facts of every match the server returned. */
  lemma CorrectedCountSumsMatches(files: seq<DataFile>, entity: Json, stamp: nat -> string)
    ensures var reply := LookupReply(Some(files), entity, stamp);
            reply.Reply? && reply.status == 200 ==>
              CorrectedMatchCount(reply.body) == SumOpt(Select(AllRecords(files), entity), RecUnits)
  {
    var reply := LookupReply(Some(files), entity, stamp);
    if reply.Reply? && reply.status == 200 {
      var sel := Select(AllRecords(files), entity);
      var inner := JObject([("matches", JArray(Envelopes(sel, stamp)))]);
      assert Get(reply.body.fields, "data") == Some(inner);
      assert Get(inner.fields, "matches") == Some(JArray(Envelopes(sel, stamp)));
      EnvelopeUnits(sel, stamp);
    }
  }

  /** One matching company with one fact that has units: the count as
      written reports 0, the corrected one 1. */
  lemma OneFactCountedOnlyWhenCorrected(stamp: nat -> string)
    ensures var units := JObject([("shares", JArray([]))]);
            var facts := JObject([("dei", JObject([("EntityCommonStockSharesOutstanding",
                                                    JObject([("units", units)]))]))]);
            var body := MatchesBody(Envelopes([Rec(JStr("AAR CORP"), facts)], stamp));
            MatchCount(body) == Some(0) && CorrectedMatchCount(body) == Some(1)
  {
    var units := JObject([("shares", JArray([]))]);
    var sub := ("EntityCommonStockSharesOutstanding", JObject([("units", units)]));
    var cat := ("dei", JObject([sub]));
    var facts := JObject([cat]);
    var recs := [Rec(JStr("AAR CORP"), facts)];
    var ms := Envelopes(recs, stamp);
    var body := MatchesBody(ms);
    var inner := JObject([("matches", JArray(ms))]);
    assert Get(body.fields, "data") == Some(inner);
    assert Keys(inner.fields) == ["matches"];
    assert SubcategoryUnits(sub) == Some(1);
    assert SumOpt([sub], SubcategoryUnits) == Some(1);
    assert SumOpt([cat], CategoryUnits) == Some(1);
    assert RecUnits(recs[0]) == Some(1);
    assert SumOpt(recs, RecUnits) == Some(1);
    EnvelopeUnits(recs, stamp);
  }
}
