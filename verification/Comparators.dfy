/** infrareplay/plugins/comparators: the verdict on one pair of events. */
module Comparators {
  import opened Json
  import opened Normalize
  import opened Redaction
  import opened Sequences
  import opened Events

  /** The registry holds two comparators; other event types are not compared. */
  predicate Comparable(kind: EventType) {
    kind.HttpResponse? || kind.PgResult?
  }

  predicate NormEqual(ignore: set<string>, a: JSON, b: JSON) {
    PyEq(Norm(ignore, a), Norm(ignore, b))
  }

  /** The payload fields a comparator looks at differ: status exactly, the rest by normal form. */
  predicate FieldDiffers(ignore: set<string>, kind: EventType, key: string, o: Payload, r: Payload) {
    match kind
    case HttpResponse =>
      if key == "status" then !PyEq(Get(o, key), Get(r, key))
      else key == "body" && !NormEqual(ignore, Get(o, key), Get(r, key))
    case PgResult => key in {"rows_affected", "rows"} && !NormEqual(ignore, Get(o, key), Get(r, key))
    case _ => false
  }

  /** The replayed step went through and shows what the original showed. */
  predicate Agree(ignore: set<string>, kind: EventType, o: Payload, r: Payload) {
    && "error" !in r
    && match kind
       case HttpResponse => PyEq(Get(o, "status"), Get(r, "status")) && NormEqual(ignore, Get(o, "body"), Get(r, "body"))
       case PgResult =>
         && NormEqual(ignore, Get(o, "rows_affected"), Get(r, "rows_affected"))
         && NormEqual(ignore, Get(o, "rows"), Get(r, "rows"))
       case _ => true
  }

  /** The entry of a diff under `key`: there exactly when the two sides are not equal, and then
      it shows both. */
  predicate Entry(diff: Payload, key: string, original: JSON, replayed: JSON) {
    && (key in diff <==> !PyEq(original, replayed))
    && (key in diff ==> diff[key] == Obj(map["original" := original, "replayed" := replayed]))
  }

  /** What a row about two linked responses says: a replayed error by itself, else the status
      exactly and the body in normal form. */
  predicate HttpRow(ignore: set<string>, original: Event, replayed: Event, row: ComparisonResult) {
    var o, r := original.payload, replayed.payload;
    var os, rs := Get(o, "status"), Get(r, "status");
    var ob, rb := Norm(ignore, Get(o, "body")), Norm(ignore, Get(r, "body"));
    && row.replayRecordingId == replayed.recordingId && row.kind == HttpResponse
    && row.originalId == Some(original.eventId) && row.replayedId == Some(replayed.eventId)
    && if "error" in r then row.category == ERROR && row.diff == map["error" := r["error"]]
       else
         && row.category == (if PyEq(os, rs) && PyEq(ob, rb) then MATCH else DIFFERENT)
         && row.diff.Keys <= {"status", "body"}
         && Entry(row.diff, "status", os, rs) && Entry(row.diff, "body", ob, rb)
  }

  /** ... and about two linked SQL results: row count and rows, in normal form. */
  predicate PgRow(ignore: set<string>, original: Event, replayed: Event, row: ComparisonResult) {
    var o, r := original.payload, replayed.payload;
    var oa, ra := Norm(ignore, Get(o, "rows_affected")), Norm(ignore, Get(r, "rows_affected"));
    var os, rs := Norm(ignore, Get(o, "rows")), Norm(ignore, Get(r, "rows"));
    && row.replayRecordingId == replayed.recordingId && row.kind == PgResult
    && row.originalId == Some(original.eventId) && row.replayedId == Some(replayed.eventId)
    && if "error" in r then row.category == ERROR && row.diff == map["error" := r["error"]]
       else
         && row.category == (if PyEq(oa, ra) && PyEq(os, rs) then MATCH else DIFFERENT)
         && row.diff.Keys <= {"rows_affected", "rows"}
         && Entry(row.diff, "rows_affected", oa, ra) && Entry(row.diff, "rows", os, rs)
  }

  function Sides(a: JSON, b: JSON): JSON {
    Obj(map["original" := a, "replayed" := b])
  }

  function Shown(ignore: set<string>, kind: EventType, key: string, v: JSON): JSON {
    if kind.HttpResponse? && key == "status" then v else Norm(ignore, v)
  }

  function AddDiff(ignore: set<string>, kind: EventType, o: Payload, r: Payload, key: string, diff: Payload): Payload {
    if FieldDiffers(ignore, kind, key, o, r)
    then diff[key := Sides(Shown(ignore, kind, key, Get(o, key)), Shown(ignore, kind, key, Get(r, key)))]
    else diff
  }

  /** The fields a comparator walks, in its order. */
  function ComparedKeys(kind: EventType): seq<string> {
    match kind
    case HttpResponse => ["status", "body"]
    case PgResult => ["rows_affected", "rows"]
    case _ => []
  }

  function DiffUpTo(ignore: set<string>, kind: EventType, o: Payload, r: Payload, keys: seq<string>): Payload {
    if |keys| == 0 then map[]
    else AddDiff(ignore, kind, o, r, keys[|keys| - 1], DiffUpTo(ignore, kind, o, r, keys[..|keys| - 1]))
  }

  function FieldDiff(ignore: set<string>, kind: EventType, o: Payload, r: Payload): Payload {
    DiffUpTo(ignore, kind, o, r, ComparedKeys(kind))
  }

  lemma {:induction false} DiffShows(ignore: set<string>, kind: EventType, o: Payload, r: Payload, keys: seq<string>, key: string)
    ensures key in DiffUpTo(ignore, kind, o, r, keys) <==> key in keys && FieldDiffers(ignore, kind, key, o, r)
    ensures key in DiffUpTo(ignore, kind, o, r, keys) ==>
        DiffUpTo(ignore, kind, o, r, keys)[key] == Sides(Shown(ignore, kind, key, Get(o, key)), Shown(ignore, kind, key, Get(r, key)))
  {
    if |keys| > 0 {
      DiffShows(ignore, kind, o, r, keys[..|keys| - 1], key);
      assert keys == keys[..|keys| - 1] + [keys[|keys| - 1]];
    }
  }

  /** The comparison row of a linked pair. */
  function Verdict(ignore: set<string>, original: Event, replayed: Event): ComparisonResult {
    var kind := original.kind;
    var diff := FieldDiff(ignore, kind, original.payload, replayed.payload);
    var base := ComparisonResult(
      replayed.recordingId, Some(original.eventId), Some(replayed.eventId), kind, MATCH, map[]);
    if "error" in replayed.payload then
      base.(category := ERROR, diff := map["error" := replayed.payload["error"]])
    else if diff != map[] then base.(category := DIFFERENT, diff := diff)
    else base
  }

  lemma AgreeEverywhere(ignore: set<string>, kind: EventType, o: Payload, r: Payload)
    ensures Agree(ignore, kind, o, r) <==> "error" !in r && forall key :: !FieldDiffers(ignore, kind, key, o, r)
  {
    if kind.HttpResponse? {
      assert FieldDiffers(ignore, kind, "status", o, r) <==> !PyEq(Get(o, "status"), Get(r, "status"));
      assert FieldDiffers(ignore, kind, "body", o, r) <==> !NormEqual(ignore, Get(o, "body"), Get(r, "body")) by {
        assert |"status"| != |"body"|;
      }
    } else if kind.PgResult? {
      assert FieldDiffers(ignore, kind, "rows_affected", o, r) <==> !NormEqual(ignore, Get(o, "rows_affected"), Get(r, "rows_affected"));
      assert FieldDiffers(ignore, kind, "rows", o, r) <==> !NormEqual(ignore, Get(o, "rows"), Get(r, "rows"));
    }
  }

  /** A verdict is MATCH exactly when the replayed step has no error and agrees on every
      compared field; the diff of a DIFFERENT verdict names exactly the fields that differ. */
  lemma MatchMeansAgree(ignore: set<string>, original: Event, replayed: Event)
    ensures var v := Verdict(ignore, original, replayed);
        var o, r := original.payload, replayed.payload;
        && (v.category == ERROR <==> "error" in r)
        && (v.category == MATCH <==> Agree(ignore, original.kind, o, r))
        && (v.category != ERROR ==> forall key :: key in v.diff <==> FieldDiffers(ignore, original.kind, key, o, r))
  {
    var kind, o, r := original.kind, original.payload, replayed.payload;
    AgreeEverywhere(ignore, kind, o, r);
    forall key ensures key in FieldDiff(ignore, kind, o, r) <==> FieldDiffers(ignore, kind, key, o, r) {
      DiffShows(ignore, kind, o, r, ComparedKeys(kind), key);
      assert ComparedKeys(HttpResponse)[0] == "status" && ComparedKeys(HttpResponse)[1] == "body";
      assert ComparedKeys(PgResult)[0] == "rows_affected" && ComparedKeys(PgResult)[1] == "rows";
    }
  }

  lemma VerdictIsHttpRow(ignore: set<string>, original: Event, replayed: Event)
    requires original.kind.HttpResponse?
    ensures HttpRow(ignore, original, replayed, Verdict(ignore, original, replayed))
  {
    var o, r := original.payload, replayed.payload;
    var keys := ComparedKeys(HttpResponse);
    assert keys[0] == "status" && keys[1] == "body";
    forall key ensures key in FieldDiff(ignore, HttpResponse, o, r) <==> key in keys && FieldDiffers(ignore, HttpResponse, key, o, r) {
      DiffShows(ignore, HttpResponse, o, r, keys, key);
    }
    DiffShows(ignore, HttpResponse, o, r, keys, "status");
    DiffShows(ignore, HttpResponse, o, r, keys, "body");
    assert |"status"| != |"body"|;
  }

  lemma VerdictIsPgRow(ignore: set<string>, original: Event, replayed: Event)
    requires original.kind.PgResult?
    ensures PgRow(ignore, original, replayed, Verdict(ignore, original, replayed))
  {
    var o, r := original.payload, replayed.payload;
    var keys := ComparedKeys(PgResult);
    assert keys[0] == "rows_affected" && keys[1] == "rows";
    forall key ensures key in FieldDiff(ignore, PgResult, o, r) <==> key in keys && FieldDiffers(ignore, PgResult, key, o, r) {
      DiffShows(ignore, PgResult, o, r, keys, key);
    }
    DiffShows(ignore, PgResult, o, r, keys, "rows_affected");
    DiffShows(ignore, PgResult, o, r, keys, "rows");
  }

  method HttpCompare(ignore: set<string>, original: Event, replayed: Event) returns (result: ComparisonResult)
    requires original.kind.HttpResponse?
    ensures HttpRow(ignore, original, replayed, result)
    ensures result == Verdict(ignore, original, replayed)
  {
    result := ComparisonResult(
      replayed.recordingId, Some(original.eventId), Some(replayed.eventId), HttpResponse, MATCH, map[]);
    VerdictIsHttpRow(ignore, original, replayed);
    if "error" in replayed.payload {
      result := result.(category := ERROR);
      result := result.(diff := map["error" := replayed.payload["error"]]);
      return;
    }
    var diff: Payload := map[];
    var origStatus, newStatus := Get(original.payload, "status"), Get(replayed.payload, "status");
    if !PyEq(origStatus, newStatus) {
      diff := diff["status" := Sides(origStatus, newStatus)];
    }
    assert ["status"][..0] == [];
    assert diff == DiffUpTo(ignore, HttpResponse, original.payload, replayed.payload, ["status"]);
    var origBody := Norm(ignore, Get(original.payload, "body"));
    var newBody := Norm(ignore, Get(replayed.payload, "body"));
    if !PyEq(origBody, newBody) {
      diff := diff["body" := Sides(origBody, newBody)];
    }
    assert ["status", "body"][..1] == ["status"];
    assert diff == FieldDiff(ignore, HttpResponse, original.payload, replayed.payload);
    if diff != map[] {
      result := result.(category := DIFFERENT);
      result := result.(diff := diff);
    }
  }

  method PgCompare(ignore: set<string>, original: Event, replayed: Event) returns (result: ComparisonResult)
    requires original.kind.PgResult?
    ensures PgRow(ignore, original, replayed, result)
    ensures result == Verdict(ignore, original, replayed)
  {
    VerdictIsPgRow(ignore, original, replayed);
    result := ComparisonResult(
      replayed.recordingId, Some(original.eventId), Some(replayed.eventId), PgResult, MATCH, map[]);
    if "error" in replayed.payload {
      result := result.(category := ERROR);
      result := result.(diff := map["error" := replayed.payload["error"]]);
      return;
    }
    var diff: Payload := map[];
    var keys := ["rows_affected", "rows"];
    for i := 0 to |keys|
      invariant diff == DiffUpTo(ignore, PgResult, original.payload, replayed.payload, keys[..i])
    {
      var key := keys[i];
      assert keys[..i + 1][..i] == keys[..i];
      var orig := Norm(ignore, Get(original.payload, key));
      var new_ := Norm(ignore, Get(replayed.payload, key));
      if !PyEq(orig, new_) {
        diff := diff[key := Sides(orig, new_)];
      }
    }
    assert keys[..|keys|] == keys;
    if diff != map[] {
      result := result.(category := DIFFERENT);
      result := result.(diff := diff);
    }
  }

  // ------------------------------------------------- redaction and comparison

  function Redact(e: Event): Event {
    e.(payload := ScrubPayload(e.payload))
  }

  lemma ScrubGet(p: Payload, key: string)
    requires !Sensitive(key)
    ensures Get(ScrubPayload(p), key) == Scrub(Get(p, key))
  {
  }

  lemma RedactionKeepsField(ignore: set<string>, kind: EventType, key: string, o: Payload, r: Payload)
    requires !Sensitive(key) && !FieldDiffers(ignore, kind, key, o, r)
    ensures !FieldDiffers(ignore, kind, key, ScrubPayload(o), ScrubPayload(r))
  {
    ScrubGet(o, key);
    ScrubGet(r, key);
    ScrubViewCommute(Get(o, key));
    ScrubViewCommute(Get(r, key));
    if NormEqual(ignore, Get(o, key), Get(r, key)) {
      RedactionKeepsAgreement(ignore, Get(o, key), Get(r, key));
    }
  }

  lemma ComparedKeysPublic(kind: EventType, key: string)
    requires key in ComparedKeys(kind)
    ensures !Sensitive(key)
  {
    LowerFixed(key);
  }

  /** Both sides are redacted before they are stored, and a pair that matched before
      redaction still matches afterwards. */
  lemma RedactionKeepsMatches(ignore: set<string>, original: Event, replayed: Event)
    requires original.kind == replayed.kind
    requires Verdict(ignore, original, replayed).category == MATCH
    ensures Verdict(ignore, Redact(original), Redact(replayed)).category == MATCH
  {
    var o, r := original.payload, replayed.payload;
    MatchMeansAgree(ignore, original, replayed);
    MatchMeansAgree(ignore, Redact(original), Redact(replayed));
    forall key ensures !FieldDiffers(ignore, original.kind, key, ScrubPayload(o), ScrubPayload(r)) {
      if key in ComparedKeys(original.kind) {
        ComparedKeysPublic(original.kind, key);
        RedactionKeepsField(ignore, original.kind, key, o, r);
      } else {
        NotCompared(ignore, original.kind, key, ScrubPayload(o), ScrubPayload(r));
      }
    }
  }

  lemma NotCompared(ignore: set<string>, kind: EventType, key: string, o: Payload, r: Payload)
    requires key !in ComparedKeys(kind)
    ensures !FieldDiffers(ignore, kind, key, o, r)
  {
    assert ComparedKeys(HttpResponse)[0] == "status" && ComparedKeys(HttpResponse)[1] == "body";
    assert ComparedKeys(PgResult)[0] == "rows_affected" && ComparedKeys(PgResult)[1] == "rows";
  }
}
