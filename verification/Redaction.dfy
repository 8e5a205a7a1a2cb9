/** infrareplay/plugins/redaction_default/plugin.py: masking by key, at any depth. */
module Redaction {
  import opened Json
  import opened Patterns
  import opened Normalize

  const REDACTED := "***REDACTED***"

  const SENSITIVE_KEYS := {
    "authorization", "cookie", "set-cookie", "x-api-key", "password", "secret", "token",
    "access_token", "refresh_token", "card_number", "cvv"
  }

  predicate Sensitive(key: string) { Lower(key) in SENSITIVE_KEYS }

  function Scrub(v: JSON): JSON {
    match v
    case Obj(fields) =>
      Obj(map k | k in fields :: if Sensitive(k) then Str(REDACTED) else Scrub(fields[k]))
    case Arr(items) => Arr(seq(|items|, i requires 0 <= i < |items| => Scrub(items[i])))
    case _ => v
  }

  function ScrubPayload(payload: Payload): Payload {
    Scrub(Obj(payload)).fields
  }

  /** No sensitive key carries anything but the mask. */
  ghost predicate Masked(v: JSON) {
    match v
    case Obj(fields) => forall k :: k in fields ==> if Sensitive(k) then fields[k] == Str(REDACTED) else Masked(fields[k])
    case Arr(items) => forall i :: 0 <= i < |items| ==> Masked(items[i])
    case _ => true
  }

  /** Scrubbing leaves exactly the already masked values alone, so a second pass does nothing. */
  lemma {:induction false} ScrubFixesMasked(v: JSON)
    ensures Masked(Scrub(v))
    ensures Scrub(v) == v <==> Masked(v)
  {
    match v
    case Obj(fields) =>
      var s := Scrub(v);
      forall k | k in fields
        ensures Masked(Scrub(fields[k])) && (Scrub(fields[k]) == fields[k] <==> Masked(fields[k]))
      {
        ScrubFixesMasked(fields[k]);
      }
      if s == v {
        forall k | k in fields ensures s.fields[k] == fields[k] {}
      }
      if Masked(v) {
        assert s.fields == fields;
      }
    case Arr(items) =>
      var s := Scrub(v);
      forall i | 0 <= i < |items|
        ensures Masked(Scrub(items[i])) && (Scrub(items[i]) == items[i] <==> Masked(items[i]))
      {
        ScrubFixesMasked(items[i]);
      }
      if s == v {
        forall i | 0 <= i < |items| ensures s.items[i] == items[i] {}
      }
      if Masked(v) {
        assert s.items == items;
      }
    case _ =>
  }

  lemma {:induction false} ScrubNormCommute(ignore: set<string>, v: JSON)
    ensures Norm(ignore, Scrub(v)) == Scrub(Norm(ignore, v))
  {
    match v
    case Obj(fields) =>
      UnshapedStart(REDACTED);
      forall k | k in fields ensures Norm(ignore, Scrub(fields[k])) == Scrub(Norm(ignore, fields[k])) {
        ScrubNormCommute(ignore, fields[k]);
      }
    case Arr(items) =>
      forall i | 0 <= i < |items| ensures Norm(ignore, Scrub(items[i])) == Scrub(Norm(ignore, items[i])) {
        ScrubNormCommute(ignore, items[i]);
      }
    case _ =>
  }

  lemma {:induction false} ScrubViewCommute(v: JSON)
    ensures View(Scrub(v)) == Scrub(View(v))
  {
    match v
    case Obj(fields) =>
      forall k | k in fields ensures View(Scrub(fields[k])) == Scrub(View(fields[k])) {
        ScrubViewCommute(fields[k]);
      }
    case Arr(items) =>
      forall i | 0 <= i < |items| ensures View(Scrub(items[i])) == Scrub(View(items[i])) {
        ScrubViewCommute(items[i]);
      }
    case _ =>
  }

  /** Values that compare equal still do once both have been redacted: redaction never
      makes a difference appear. */
  lemma RedactionKeepsAgreement(ignore: set<string>, a: JSON, b: JSON)
    requires PyEq(Norm(ignore, a), Norm(ignore, b))
    ensures PyEq(Norm(ignore, Scrub(a)), Norm(ignore, Scrub(b)))
  {
    ScrubNormCommute(ignore, a);
    ScrubNormCommute(ignore, b);
    ScrubViewCommute(Norm(ignore, a));
    ScrubViewCommute(Norm(ignore, b));
  }
}
