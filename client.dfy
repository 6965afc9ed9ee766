/**
 * The client: the response check of `get_challenge`, the nonce search of
 * `solve_pow`, the request body of `fetch_data` and the count of units that
 * `main` reports. HTTP sessions, retries and printing are not modelled.
 */
module Client {
  import opened Wrappers
  import opened PyJson
  import opened Decimal
  import opened Pow

  const MALFORMED: string := "Malformed response: missing keys"

  /** The exceptions the modelled code raises (and does not catch). */
  datatype Raised = ValueError(message: string) | TypeError | OverflowError

  // ------------------------------------------------------------ get_challenge

  predicate HasChallengeKeys(data: Json) {
    Contains(data, "challenge_id") == Some(true) &&
    Contains(data, "challenge") == Some(true) &&
    Contains(data, "difficulty") == Some(true)
  }

  /** The response check of `get_challenge`: the decoded reply is handed back unchanged
      when it holds all three keys, and is refused otherwise; `in` on a value
      that is not a container raises TypeError. */
  function CheckChallengeResponse(data: Json): (r: Result<Json, Raised>)
    ensures r.Ok? <==> HasChallengeKeys(data)
    ensures r.Ok? ==> r.value == data
    ensures !IsContainer(data) ==> r == Err(TypeError)
    ensures IsContainer(data) && !HasChallengeKeys(data) ==> r == Err(ValueError(MALFORMED))
    ensures data.JObject? ==>
              (r.Ok? <==> "challenge_id" in Keys(data.fields) && "challenge" in Keys(data.fields) &&
                          "difficulty" in Keys(data.fields))
  {
    match Contains(data, "challenge_id")
    case None => Err(TypeError)
    case Some(hasId) =>
      if hasId && Contains(data, "challenge") == Some(true) && Contains(data, "difficulty") == Some(true)
      then Ok(data)
      else Err(ValueError(MALFORMED))
  }

  // ---------------------------------------------------------------- solve_pow

  /** `solve_pow`: tries nonce 0, 1, 2, ... and returns the first whose
      digest meets the difficulty. Building the prefix raises OverflowError
      for a difficulty outside the index type. The source loops forever when
      no nonce solves the challenge; the model asks that one exists. */
  method SolvePow(digest: Digest, challenge: string, difficulty: int) returns (r: Result<nat, Raised>)
    requires IndexSized(difficulty) ==> exists n: nat :: IsSolution(digest, challenge, difficulty, n)
    ensures r.Err? <==> !IndexSized(difficulty)
    ensures r.Err? ==> r.error == OverflowError
    ensures r.Ok? ==> IsSolution(digest, challenge, difficulty, r.value)
    ensures r.Ok? ==> forall m: nat :: m < r.value ==> !IsSolution(digest, challenge, difficulty, m)
  {
    var nonce: nat := 0;
    var prefix := ZeroPrefix(difficulty);
    if prefix.None? {
      return Err(OverflowError);
    }
    ghost var bound: nat :| IsSolution(digest, challenge, difficulty, bound);
    while true
      invariant nonce <= bound
      invariant forall m: nat :: m < nonce ==> !IsSolution(digest, challenge, difficulty, m)
      decreases bound - nonce
    {
      var inputStr := challenge + NatToString(nonce);
      var hashValue := digest(inputStr);
      if prefix.value <= hashValue {
        return Ok(nonce);
      }
      nonce := nonce + 1;
    }
  }

  // --------------------------------------------------------------- fetch_data

  /** The body `fetch_data` posts: exactly five keys, each bound to its argument. */
  function FetchDataPayload(challengeId: Json, challenge: Json, nonce: Json, difficulty: Json,
                            entityName: Json): (p: Json)
    ensures p.JObject?
    ensures Keys(p.fields) == ["challenge_id", "challenge", "nonce", "difficulty", "entity_name"]
    ensures Get(p.fields, "challenge_id") == Some(challengeId)
    ensures Get(p.fields, "challenge") == Some(challenge)
    ensures Get(p.fields, "nonce") == Some(nonce)
    ensures Get(p.fields, "difficulty") == Some(difficulty)
    ensures Get(p.fields, "entity_name") == Some(entityName)
  {
    var fields := [("challenge_id", challengeId), ("challenge", challenge), ("nonce", nonce),
                   ("difficulty", difficulty), ("entity_name", entityName)];
    assert Keys(fields) == ["challenge_id", "challenge", "nonce", "difficulty", "entity_name"];
    GetAt(fields, 0, "challenge_id");
    GetAt(fields, 1, "challenge");
    GetAt(fields, 2, "nonce");
    GetAt(fields, 3, "difficulty");
    GetAt(fields, 4, "entity_name");
    JObject(fields)
  }

  // -------------------------------------------------------------- num_matches

  function AddOpt(a: Option<nat>, b: Option<nat>): Option<nat> {
    if a.Some? && b.Some? then Some(a.value + b.value) else None
  }

  /** The sum of `f` over `xs` in order; None as soon as one term raised. */
  function SumOpt<T>(xs: seq<T>, f: T -> Option<nat>): Option<nat> {
    if xs == [] then Some(0) else AddOpt(SumOpt(xs[..|xs| - 1], f), f(xs[|xs| - 1]))
  }

  lemma SumOptSnoc<T>(xs: seq<T>, f: T -> Option<nat>, i: nat)
    requires i < |xs|
    ensures SumOpt(xs[..i + 1], f) == AddOpt(SumOpt(xs[..i], f), f(xs[i]))
  {
    assert xs[..i + 1][..i] == xs[..i];
  }

  /** Once a term has raised, the whole sum has. */
  lemma {:induction false} SumOptNoneSticks<T>(xs: seq<T>, f: T -> Option<nat>, i: nat)
    requires i <= |xs| && SumOpt(xs[..i], f).None?
    ensures SumOpt(xs, f).None?
    decreases |xs| - i
  {
    if i < |xs| {
      SumOptSnoc(xs, f, i);
      SumOptNoneSticks(xs, f, i + 1);
    } else {
      assert xs[..i] == xs;
    }
  }

  /** `len(units)` for a subcategory dict holding "units", else nothing. */
  function SubcategoryUnits(entry: (string, Json)): Option<nat> {
    var sd := entry.1;
    if sd.JObject? && HasKey(sd.fields, "units") then PyLen(GetOrNull(sd.fields, "units")) else Some(0)
  }

  /** A category's subcategories; `.items()` raises on anything but a dict. */
  function CategoryUnits(entry: (string, Json)): Option<nat> {
    if entry.1.JObject? then SumOpt(entry.1.fields, SubcategoryUnits) else None
  }

  function FactsUnits(facts: Json): Option<nat> {
    if facts.JObject? then SumOpt(facts.fields, CategoryUnits) else None
  }

  /** The unit count of `main` as written: the units under
      `data["data"]["facts"]`, and 0 when that path is absent. */
  function MatchCount(data: Json): Option<nat> {
    if data.JObject? && HasKey(data.fields, "data") then
      var inner := GetOrNull(data.fields, "data");
      match Contains(inner, "facts")
      case None => None
      case Some(false) => Some(0)
      case Some(true) => if inner.JObject? then FactsUnits(GetOrNull(inner.fields, "facts")) else None
    else
      Some(0)
  }

  /** The inner loop of the unit count in `main`: adds the units of one category's
      subcategories to the running count, or raises. */
  method AddCategoryUnits(subs: seq<(string, Json)>, count: nat) returns (r: Option<nat>)
    ensures r == AddOpt(Some(count), SumOpt(subs, SubcategoryUnits))
  {
    var numMatches := count;
    for j := 0 to |subs|
      invariant count <= numMatches
      invariant SumOpt(subs[..j], SubcategoryUnits) == Some(numMatches - count)
    {
      var subcategoryData := subs[j].1;
      SumOptSnoc(subs, SubcategoryUnits, j);
      if subcategoryData.JObject? && HasKey(subcategoryData.fields, "units") {
        var n := PyLen(GetOrNull(subcategoryData.fields, "units"));
        if n.None? {
          SumOptNoneSticks(subs, SubcategoryUnits, j + 1);
          return None;
        }
        numMatches := numMatches + n.value;
      }
    }
    assert subs[..|subs|] == subs;
    return Some(numMatches);
  }

  /** The nested loops of the unit count in `main`. */
  method NumMatches(data: Json) returns (num: Option<nat>)
    ensures num == MatchCount(data)
  {
    if !(data.JObject? && HasKey(data.fields, "data")) {
      return Some(0);
    }
    var inner := GetOrNull(data.fields, "data");
    var hasFacts := Contains(inner, "facts");
    if hasFacts.None? {
      return None;
    }
    if !hasFacts.value {
      return Some(0);
    }
    if !inner.JObject? {
      return None;
    }
    var facts := GetOrNull(inner.fields, "facts");
    if !facts.JObject? {
      return None;
    }
    var cats := facts.fields;
    var numMatches: nat := 0;
    for i := 0 to |cats|
      invariant SumOpt(cats[..i], CategoryUnits) == Some(numMatches)
    {
      var categoryData := cats[i].1;
      SumOptSnoc(cats, CategoryUnits, i);
      if !categoryData.JObject? {
        SumOptNoneSticks(cats, CategoryUnits, i + 1);
        return None;
      }
      var added := AddCategoryUnits(categoryData.fields, numMatches);
      if added.None? {
        SumOptNoneSticks(cats, CategoryUnits, i + 1);
        return None;
      }
      numMatches := added.value;
    }
    assert cats[..|cats|] == cats;
    return Some(numMatches);
  }

  /** The count the comment above the unit count in `main` describes, read where the server
      puts the matches: the units of the facts of every returned match. */
  function MatchUnits(m: Json): Option<nat> {
    if m.JObject? then FactsUnits(GetOrNull(m.fields, "facts")) else None
  }

  function CorrectedMatchCount(data: Json): Option<nat> {
    if data.JObject? && HasKey(data.fields, "data") then
      var inner := GetOrNull(data.fields, "data");
      if inner.JObject? && HasKey(inner.fields, "matches") then
        var matches := GetOrNull(inner.fields, "matches");
        if matches.JArray? then SumOpt(matches.items, MatchUnits) else None
      else
        Some(0)
    else
      Some(0)
  }
}
