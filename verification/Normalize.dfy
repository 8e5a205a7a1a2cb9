/** infrareplay/comparison/normalize.py: volatile values become their shape. */
module Normalize {
  import opened Json
  import opened Patterns

  const UUID := "<uuid>"
  const TIMESTAMP := "<timestamp>"
  const ID := "<id>"

  const VOLATILE_HEADERS := {
    "date", "server", "etag", "content-length", "set-cookie", "x-request-id",
    "x-infrareplay-correlation-id", "x-infrareplay-recording-id"
  }

  predicate Kept(ignore: set<string>, key: string) {
    Lower(key) !in VOLATILE_HEADERS && key !in ignore
  }

  function Placeholder(s: string): string {
    if IsUuid(s) then UUID
    else if IsTimestamp(s) then TIMESTAMP
    else if IsPrefixedId(s) then ID
    else s
  }

  /** `ignore` is config.IGNORE_FIELDS. */
  function Norm(ignore: set<string>, v: JSON): JSON {
    match v
    case Obj(fields) => Obj(map k | k in fields && Kept(ignore, k) :: Norm(ignore, fields[k]))
    case Arr(items) => Arr(seq(|items|, i requires 0 <= i < |items| => Norm(ignore, items[i])))
    case Str(s) => Str(Placeholder(s))
    case _ => v
  }

  lemma PlaceholderIdempotent(s: string)
    ensures Placeholder(Placeholder(s)) == Placeholder(s)
  {
    UnshapedStart(UUID);
    UnshapedStart(TIMESTAMP);
    UnshapedStart(ID);
  }

  lemma {:induction false} NormIdempotent(ignore: set<string>, v: JSON)
    ensures Norm(ignore, Norm(ignore, v)) == Norm(ignore, v)
  {
    match v
    case Obj(fields) =>
      forall k | k in fields ensures Norm(ignore, Norm(ignore, fields[k])) == Norm(ignore, fields[k]) {
        NormIdempotent(ignore, fields[k]);
      }
    case Arr(items) =>
      forall i | 0 <= i < |items| ensures Norm(ignore, Norm(ignore, items[i])) == Norm(ignore, items[i]) {
        NormIdempotent(ignore, items[i]);
      }
    case Str(s) => PlaceholderIdempotent(s);
    case _ =>
  }
}
