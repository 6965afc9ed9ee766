/**
 * The data lookup behind a verified request: every file of the data
 * directory is scanned in listing order; a `.json` file contributes its one
 * document, a `.csv` file one record per row, and every record whose
 * `entityName` equals the requested name becomes a company-facts match.
 * Reading and parsing are left to the inputs: each file carries what
 * `json.load` made of it (None when opening or parsing raised) and the rows
 * the CSV reader delivered before it reached the end or raised.
 */
module Datasource {
  import opened Wrappers
  import opened PyJson
  import Entities

  datatype DataFile = DataFile(name: string, asJson: Option<Json>, csvRows: seq<seq<(string, Json)>>)

  /** A scanned record: its `entityName` (None when missing) and its facts. */
  datatype Rec = Rec(name: Json, facts: Json)

  predicate EndsWith(s: string, suffix: string) {
    |suffix| <= |s| && s[|s| - |suffix|..] == suffix
  }

  /** A CSV row: its `entityName` column, and the whole row as the facts. */
  function RowRecord(row: seq<(string, Json)>): Rec {
    Rec(GetOrNull(row, "entityName"), JObject(row))
  }

  /** The records one file contributes; a document that is not a dict raises
      on `.get`, and the file is skipped like any other unreadable one. */
  function FileRecords(f: DataFile): seq<Rec> {
    if EndsWith(f.name, ".json") then
      match f.asJson
      case Some(JObject(doc)) => [Rec(GetOrNull(doc, "entityName"), GetOr(doc, "facts", JObject([])))]
      case _ => []
    else if EndsWith(f.name, ".csv") then
      seq(|f.csvRows|, k requires 0 <= k < |f.csvRows| => RowRecord(f.csvRows[k]))
    else
      []
  }

  /** All records of the directory, in scan order. */
  function AllRecords(files: seq<DataFile>): seq<Rec> {
    if files == [] then [] else AllRecords(files[..|files| - 1]) + FileRecords(files[|files| - 1])
  }

  /** The records whose name equals `entity`, in scan order. */
  function Select(recs: seq<Rec>, entity: Json): seq<Rec> {
    if recs == [] then []
    else
      var last := recs[|recs| - 1];
      Select(recs[..|recs| - 1], entity) + (if last.name == entity then [last] else [])
  }

  /** The company-facts match built for a record; the k-th match built reads
      the clock as `stamp(k)`. */
  function Envelopes(sel: seq<Rec>, stamp: nat -> string): (ms: seq<Json>)
    ensures |ms| == |sel|
  {
    seq(|sel|, k requires 0 <= k < |sel| => Entities.CreateCompanyFacts(sel[k].name, sel[k].facts, stamp(k)))
  }

  lemma {:induction false} SelectMembers(recs: seq<Rec>, entity: Json)
    ensures forall r :: r in Select(recs, entity) <==> r in recs && r.name == entity
  {
    if recs != [] {
      var init := recs[..|recs| - 1];
      SelectMembers(init, entity);
      assert recs == init + [recs[|recs| - 1]];
    }
  }

  lemma {:induction false} SelectShorter(recs: seq<Rec>, entity: Json)
    ensures |Select(recs, entity)| <= |recs|
    ensures |Select(recs, entity)| == |recs| <==> forall r :: r in recs ==> r.name == entity
  {
    if recs != [] {
      var init := recs[..|recs| - 1];
      SelectShorter(init, entity);
      assert recs == init + [recs[|recs| - 1]];
    }
  }

  lemma SelectSnoc(recs: seq<Rec>, r: Rec, entity: Json)
    ensures Select(recs + [r], entity) == Select(recs, entity) + (if r.name == entity then [r] else [])
  {
    assert (recs + [r])[..|recs|] == recs;
  }

  lemma EnvelopesSnoc(sel: seq<Rec>, r: Rec, stamp: nat -> string)
    ensures Envelopes(sel + [r], stamp) ==
            Envelopes(sel, stamp) + [Entities.CreateCompanyFacts(r.name, r.facts, stamp(|sel|))]
  {
  }

  /** Every match carries the requested name as its company name. */
  lemma MatchesCarryEntity(recs: seq<Rec>, entity: Json, stamp: nat -> string)
    ensures forall m :: m in Envelopes(Select(recs, entity), stamp) ==>
              m.JObject? && Get(m.fields, "company_name") == Some(entity)
  {
    SelectMembers(recs, entity);
    var sel := Select(recs, entity);
    forall m | m in Envelopes(sel, stamp)
      ensures m.JObject? && Get(m.fields, "company_name") == Some(entity)
    {
      var k :| 0 <= k < |sel| && Envelopes(sel, stamp)[k] == m;
      assert sel[k] in sel && sel[k].name == entity;
      assert m == Entities.CreateCompanyFacts(sel[k].name, sel[k].facts, stamp(k));
    }
  }

  lemma AllRecordsSnoc(files: seq<DataFile>, i: nat)
    requires i < |files|
    ensures AllRecords(files[..i + 1]) == AllRecords(files[..i]) + FileRecords(files[i])
  {
    assert files[..i + 1][..i] == files[..i];
  }

  /** One pass of the scan's outer loop: the records of one file, each
      appended as a match when its name equals `entity`; `before` are the
      records scanned so far and `matches0` the matches built from them. */
  method ScanFile(f: DataFile, entity: Json, stamp: nat -> string, ghost before: seq<Rec>, matches0: seq<Json>)
    returns (matches: seq<Json>)
    requires matches0 == Envelopes(Select(before, entity), stamp)
    ensures matches == Envelopes(Select(before + FileRecords(f), entity), stamp)
  {
    matches := matches0;
    ghost var sel := Select(before, entity);
    if EndsWith(f.name, ".json") {
      match f.asJson {
        case Some(JObject(doc)) =>
          var r := Rec(GetOrNull(doc, "entityName"), GetOr(doc, "facts", JObject([])));
          assert FileRecords(f) == [r];
          SelectSnoc(before, r, entity);
          if r.name == entity {
            EnvelopesSnoc(sel, r, stamp);
            matches := matches + [Entities.CreateCompanyFacts(r.name, r.facts, stamp(|matches|))];
          }
        case _ =>
          assert FileRecords(f) == [];
          assert before + [] == before;
      }
    } else if EndsWith(f.name, ".csv") {
      ghost var recs := FileRecords(f);
      assert before + recs[..0] == before;
      for j := 0 to |f.csvRows|
        invariant sel == Select(before + recs[..j], entity)
        invariant matches == Envelopes(sel, stamp)
      {
        var r := RowRecord(f.csvRows[j]);
        assert before + recs[..j + 1] == (before + recs[..j]) + [r];
        SelectSnoc(before + recs[..j], r, entity);
        if r.name == entity {
          EnvelopesSnoc(sel, r, stamp);
          matches := matches + [Entities.CreateCompanyFacts(r.name, r.facts, stamp(|matches|))];
          sel := sel + [r];
        }
      }
      assert recs[..|f.csvRows|] == recs;
    } else {
      assert before + FileRecords(f) == before;
    }
  }

  /** The scan of the data directory: files in listing order, one match per
      record whose name equals `entity`, in scan order. */
  method CollectMatches(files: seq<DataFile>, entity: Json, stamp: nat -> string) returns (matches: seq<Json>)
    ensures matches == Envelopes(Select(AllRecords(files), entity), stamp)
  {
    matches := [];
    for i := 0 to |files|
      invariant matches == Envelopes(Select(AllRecords(files[..i]), entity), stamp)
    {
      AllRecordsSnoc(files, i);
      matches := ScanFile(files[i], entity, stamp, AllRecords(files[..i]), matches);
    }
    assert files[..|files|] == files;
  }
}
