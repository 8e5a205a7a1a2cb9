/** What normalising, redacting and substituting do to a JSON value, place by place. */
module Places {
  import opened Json
  import opened Sequences
  import opened Patterns
  import opened Normalize
  import opened Redaction

  datatype Step = Field(key: string) | Item(index: nat)

  /** What a value holds at the end of a path, if the path leads anywhere. */
  function ValueAt(v: JSON, path: seq<Step>): Option<JSON> {
    if |path| == 0 then Some(v)
    else match path[0]
      case Field(key) => if v.Obj? && key in v.fields then ValueAt(v.fields[key], path[1..]) else None
      case Item(index) => if v.Arr? && index < |v.items| then ValueAt(v.items[index], path[1..]) else None
  }

  /** Some key that the path goes through satisfies `p`. */
  predicate Through(p: string -> bool, path: seq<Step>) {
    exists i :: 0 <= i < |path| && path[i].Field? && p(path[i].key)
  }

  lemma ThroughStep(p: string -> bool, path: seq<Step>)
    requires |path| > 0
    ensures Through(p, path) <==> (path[0].Field? && p(path[0].key)) || Through(p, path[1..])
  {
    if i :| 0 <= i < |path| && path[i].Field? && p(path[i].key) {
      assert i > 0 ==> path[1..][i - 1] == path[i];
    }
    if i :| 0 <= i < |path[1..]| && path[1..][i].Field? && p(path[1..][i].key) {
      assert path[i + 1] == path[1..][i];
    }
  }

  // ------------------------------------------------------------- normalisation

  predicate Volatile(ignore: set<string>, key: string) {
    || key in ignore
    || Lower(key) in {"date", "server", "etag", "content-length", "set-cookie", "x-request-id",
                      "x-infrareplay-correlation-id", "x-infrareplay-recording-id"}
  }

  /** What normalisation leaves at a place that it does not drop. */
  predicate NormalisedTo(before: Option<JSON>, after: Option<JSON>) {
    match before
    case None => after.None?
    case Some(Str(s)) =>
      after == Some(Str(if IsUuid(s) then "<uuid>" else if IsTimestamp(s) then "<timestamp>" else if IsPrefixedId(s) then "<id>" else s))
    case Some(Obj(_)) => after.Some? && after.value.Obj?
    case Some(Arr(items)) => after.Some? && after.value.Arr? && |after.value.items| == |items|
    case Some(_) => after == before
  }

  /** Exactly the places under a volatile header or an ignored field are gone, in any depth and
      any letter case; every other place is there, with volatile strings as their shape. */
  lemma {:induction false} NormPlaces(ignore: set<string>, v: JSON, path: seq<Step>)
    ensures Through(k => Volatile(ignore, k), path) ==> ValueAt(Norm(ignore, v), path).None?
    ensures !Through(k => Volatile(ignore, k), path) ==> NormalisedTo(ValueAt(v, path), ValueAt(Norm(ignore, v), path))
    decreases |path|
  {
    if |path| > 0 {
      ThroughStep(k => Volatile(ignore, k), path);
      match (v, path[0])
      case (Obj(fields), Field(key)) =>
        if key in fields {
          NormPlaces(ignore, fields[key], path[1..]);
        }
      case (Arr(items), Item(index)) =>
        if index < |items| {
          NormPlaces(ignore, items[index], path[1..]);
        }
      case _ =>
    }
  }

  // ---------------------------------------------------------------- redaction

  predicate Secret(key: string) {
    Lower(key) in {"authorization", "cookie", "set-cookie", "x-api-key", "password", "secret", "token",
                   "access_token", "refresh_token", "card_number", "cvv"}
  }

  predicate Unchanged(before: Option<JSON>, after: Option<JSON>) {
    match before
    case Some(Obj(fields)) => after.Some? && after.value.Obj? && after.value.fields.Keys == fields.Keys
    case Some(Arr(items)) => after.Some? && after.value.Arr? && |after.value.items| == |items|
    case _ => after == before
  }

  /** Place by place: what a sensitive key holds is the mask, whatever it was; off such keys
      nothing is added, dropped or changed. */
  lemma {:induction false} ScrubPlaces(v: JSON, path: seq<Step>)
    ensures !Through(Secret, path) ==> Unchanged(ValueAt(v, path), ValueAt(Scrub(v), path))
    ensures |path| > 0 && path[|path| - 1].Field? && Secret(path[|path| - 1].key) && !Through(Secret, path[..|path| - 1]) ==>
        ValueAt(Scrub(v), path) == if ValueAt(v, path).Some? then Some(Str("***REDACTED***")) else None
    decreases |path|
  {
    if |path| > 0 {
      ThroughStep(Secret, path);
      if |path| > 1 {
        ThroughStep(Secret, path[..|path| - 1]);
        assert path[..|path| - 1][1..] == path[1..][..|path| - 2];
      }
      match (v, path[0])
      case (Obj(fields), Field(key)) =>
        if key in fields && !Secret(key) {
          ScrubPlaces(fields[key], path[1..]);
        }
      case (Arr(items), Item(index)) =>
        if index < |items| {
          ScrubPlaces(items[index], path[1..]);
        }
      case _ =>
    }
  }
}
