/** infrareplay/replay/substitution.py: one consistent renaming of strings per replay run. */
module Substitution {
  import opened Json
  import opened Sequences
  import opened Patterns
  import opened Normalize
  import opened Places

  /** What the engine does to a string once `generated` holds its replacement. */
  datatype Renaming = Renaming(mapping: map<string, string>, auto: bool, generated: map<string, string>) {
    predicate Generates(s: string) {
      s !in mapping && auto && IsUuid(s)
    }

    function Image(s: string): string {
      if s in mapping then mapping[s]
      else if Generates(s) && s in generated then generated[s]
      else s
    }

    function Rewrite(v: JSON): JSON {
      match v
      case Obj(fields) => Obj(map k | k in fields :: Rewrite(fields[k]))
      case Arr(items) => Arr(seq(|items|, i requires 0 <= i < |items| => Rewrite(items[i])))
      case Str(s) => Str(Image(s))
      case _ => v
    }

    /** Every string of `v` that needs a generated replacement has one. */
    ghost predicate Covers(v: JSON) {
      match v
      case Obj(fields) => forall k :: k in fields ==> Covers(fields[k])
      case Arr(items) => forall i :: 0 <= i < |items| ==> Covers(items[i])
      case Str(s) => Generates(s) ==> s in generated
      case _ => true
    }

    ghost predicate ExtendedBy(other: Renaming) {
      && other.mapping == mapping
      && other.auto == auto
      && forall s :: s in generated ==> s in other.generated && other.generated[s] == generated[s]
    }

    /** The memory of a run: generated replacements are UUIDs, one each. */
    ghost predicate Sound() {
      && (forall s :: s in generated ==> IsUuid(s) && IsUuid(generated[s]))
      && (forall s, t :: s in generated && t in generated && generated[s] == generated[t] ==> s == t)
    }
  }

  /** Later growth of the memory never changes an answer already given. */
  lemma {:induction false} RewriteStable(a: Renaming, b: Renaming, v: JSON)
    requires a.ExtendedBy(b) && a.Covers(v)
    ensures b.Covers(v) && b.Rewrite(v) == a.Rewrite(v)
  {
    match v
    case Obj(fields) =>
      forall k | k in fields ensures b.Covers(fields[k]) && b.Rewrite(fields[k]) == a.Rewrite(fields[k]) {
        RewriteStable(a, b, fields[k]);
      }
    case Arr(items) =>
      forall i | 0 <= i < |items| ensures b.Covers(items[i]) && b.Rewrite(items[i]) == a.Rewrite(items[i]) {
        RewriteStable(a, b, items[i]);
      }
    case _ =>
  }

  /** Without an explicit mapping two different payload values stay different. */
  lemma {:induction false} RewriteInjective(r: Renaming, v: JSON, w: JSON)
    requires r.Sound() && r.mapping == map[]
    requires r.Covers(v) && r.Covers(w)
    requires r.Rewrite(v) == r.Rewrite(w)
    ensures v == w
  {
    match (v, w)
    case (Obj(fs), Obj(gs)) =>
      var a, b := r.Rewrite(v).fields, r.Rewrite(w).fields;
      assert a.Keys == fs.Keys && b.Keys == gs.Keys;
      forall k | k in fs ensures fs[k] == gs[k] {
        assert a[k] == b[k];
        RewriteInjective(r, fs[k], gs[k]);
      }
      assert fs == gs;
    case (Arr(xs), Arr(ys)) =>
      var a, b := r.Rewrite(v).items, r.Rewrite(w).items;
      forall i | 0 <= i < |xs| ensures xs[i] == ys[i] {
        assert a[i] == b[i];
        RewriteInjective(r, xs[i], ys[i]);
      }
    case _ =>
  }

  /** What a string becomes: its mapped value, its generated one, or itself. */
  predicate SwappedTo(mapping: map<string, string>, auto: bool, generated: map<string, string>, s: string, t: string) {
    if s in mapping then t == mapping[s]
    else if auto && IsUuid(s) then s in generated && t == generated[s]
    else t == s
  }

  /** A place before and after substitution. */
  predicate SubstitutedTo(mapping: map<string, string>, auto: bool, generated: map<string, string>, before: Option<JSON>, after: Option<JSON>) {
    match before
    case Some(Str(s)) => after.Some? && after.value.Str? && SwappedTo(mapping, auto, generated, s, after.value.s)
    case Some(Obj(fields)) => after.Some? && after.value.Obj? && after.value.fields.Keys == fields.Keys
    case Some(Arr(items)) => after.Some? && after.value.Arr? && |after.value.items| == |items|
    case _ => after == before
  }

  /** Every place of `v`, at any depth, and nothing but those. */
  ghost predicate Substituted(mapping: map<string, string>, auto: bool, generated: map<string, string>, v: JSON, w: JSON) {
    forall path :: SubstitutedTo(mapping, auto, generated, ValueAt(v, path), ValueAt(w, path))
  }

  lemma {:induction false} RewritePlace(r: Renaming, v: JSON, path: seq<Step>)
    requires r.Covers(v)
    ensures SubstitutedTo(r.mapping, r.auto, r.generated, ValueAt(v, path), ValueAt(r.Rewrite(v), path))
    decreases |path|
  {
    if |path| > 0 {
      match (v, path[0])
      case (Obj(fields), Field(key)) =>
        if key in fields {
          RewritePlace(r, fields[key], path[1..]);
        }
      case (Arr(items), Item(index)) =>
        if index < |items| {
          RewritePlace(r, items[index], path[1..]);
        }
      case _ =>
    }
  }

  /** What the renaming does, place by place. */
  lemma RewritePlaces(r: Renaming, v: JSON)
    requires r.Covers(v)
    ensures Substituted(r.mapping, r.auto, r.generated, v, r.Rewrite(v))
  {
    forall path ensures SubstitutedTo(r.mapping, r.auto, r.generated, ValueAt(v, path), ValueAt(r.Rewrite(v), path)) {
      RewritePlace(r, v, path);
    }
  }

  /** A value with every string blanked: its keys, shape and other leaves. */
  function Skeleton(v: JSON): JSON {
    match v
    case Obj(fields) => Obj(map k | k in fields :: Skeleton(fields[k]))
    case Arr(items) => Arr(seq(|items|, i requires 0 <= i < |items| => Skeleton(items[i])))
    case Str(_) => Str("")
    case _ => v
  }

  lemma {:induction false} RewriteKeepsSkeleton(r: Renaming, v: JSON)
    ensures Skeleton(r.Rewrite(v)) == Skeleton(v)
  {
    match v
    case Obj(fields) =>
      forall k | k in fields ensures Skeleton(r.Rewrite(fields[k])) == Skeleton(fields[k]) {
        RewriteKeepsSkeleton(r, fields[k]);
      }
    case Arr(items) =>
      forall i | 0 <= i < |items| ensures Skeleton(r.Rewrite(items[i])) == Skeleton(items[i]) {
        RewriteKeepsSkeleton(r, items[i]);
      }
    case _ =>
  }

  /** The mapping replaces each value by one with the same placeholder. */
  ghost predicate KeepsPlaceholders(mapping: map<string, string>) {
    forall s :: s in mapping ==> Placeholder(mapping[s]) == Placeholder(s)
  }

  lemma {:induction false} NormAbsorbs(ignore: set<string>, r: Renaming, v: JSON)
    requires r.Sound() && KeepsPlaceholders(r.mapping)
    ensures Norm(ignore, r.Rewrite(v)) == Norm(ignore, v)
  {
    match v
    case Obj(fields) =>
      forall k | k in fields ensures Norm(ignore, r.Rewrite(fields[k])) == Norm(ignore, fields[k]) {
        NormAbsorbs(ignore, r, fields[k]);
      }
    case Arr(items) =>
      forall i | 0 <= i < |items| ensures Norm(ignore, r.Rewrite(items[i])) == Norm(ignore, items[i]) {
        NormAbsorbs(ignore, r, items[i]);
      }
    case _ =>
  }

  ghost predicate Invisible(ignore: set<string>, r: Renaming, v: JSON) {
    Norm(ignore, r.Rewrite(v)) == Norm(ignore, v)
  }

  /** Substitution is invisible to the comparison exactly when the explicit mapping keeps
      every value's placeholder; generated UUIDs never show. */
  lemma NormAbsorbsExactly(ignore: set<string>, r: Renaming)
    requires r.Sound()
    ensures (forall v :: Invisible(ignore, r, v)) <==> KeepsPlaceholders(r.mapping)
  {
    if KeepsPlaceholders(r.mapping) {
      forall v ensures Invisible(ignore, r, v) {
        NormAbsorbs(ignore, r, v);
      }
    } else {
      var s :| s in r.mapping && Placeholder(r.mapping[s]) != Placeholder(s);
      MappedStringShows(ignore, r, s);
      assert !Invisible(ignore, r, Str(s));
    }
  }

  lemma MappedStringShows(ignore: set<string>, r: Renaming, s: string)
    requires s in r.mapping && Placeholder(r.mapping[s]) != Placeholder(s)
    ensures Norm(ignore, r.Rewrite(Str(s))) != Norm(ignore, Str(s))
  {
  }

  /** `str(uuid4())` draws. */
  ghost predicate UuidShaped(uuid4: nat -> string) {
    forall i: nat :: IsUuid(uuid4(i))
  }

  /** The first `n` draws of `str(uuid4())` are all different. */
  ghost predicate Distinct(uuid4: nat -> string, n: nat) {
    forall i, j :: 0 <= i < j < n ==> uuid4(i) != uuid4(j)
  }

  /** `drawnFor` tells which of the first `n` draws each remembered replacement was. */
  ghost predicate Drawn(uuid4: nat -> string, n: nat, generated: map<string, string>, drawnFor: map<string, nat>) {
    && drawnFor.Keys == generated.Keys
    && (forall s :: s in generated ==> IsUuid(s) && drawnFor[s] < n && generated[s] == uuid4(drawnFor[s]))
    && (forall s, t :: s in drawnFor && t in drawnFor && drawnFor[s] == drawnFor[t] ==> s == t)
  }

  lemma DrawnMore(uuid4: nat -> string, n: nat, generated: map<string, string>, drawnFor: map<string, nat>, s: string)
    requires Drawn(uuid4, n, generated, drawnFor) && IsUuid(s) && s !in generated
    ensures Drawn(uuid4, n + 1, generated[s := uuid4(n)], drawnFor[s := n])
  {
  }

  class SubstitutionEngine {
    const mapping: map<string, string>
    const auto: bool
    const uuid4: nat -> string
    var drawn: nat
    var generated: map<string, string>
    ghost var drawnFor: map<string, nat>   // which draw a remembered replacement came from

    function Memory(): Renaming
      reads this
    {
      Renaming(mapping, auto, generated)
    }

    /** Every remembered replacement is a draw of its own. */
    ghost predicate Valid()
      reads this
    {
      UuidShaped(uuid4) && Drawn(uuid4, drawn, generated, drawnFor)
    }

    /** `mapping` arrives with its templates already expanded. */
    constructor (mapping: map<string, string>, auto: bool, uuid4: nat -> string)
      requires UuidShaped(uuid4)
      ensures Valid() && Memory() == Renaming(mapping, auto, map[])
      ensures this.uuid4 == uuid4 && drawn == 0
    {
      this.mapping := mapping;
      this.auto := auto;
      this.uuid4 := uuid4;
      drawn := 0;
      generated := map[];
      drawnFor := map[];
    }

    /** The memory is one-to-one as long as no draw has been repeated. */
    lemma MemorySound()
      requires Valid() && Distinct(uuid4, drawn)
      ensures Memory().Sound()
    {
      forall s, t | s in generated && t in generated && generated[s] == generated[t] ensures s == t {
        var i, j := drawnFor[s], drawnFor[t];
        assert i < j ==> uuid4(i) != uuid4(j);
        assert j < i ==> uuid4(j) != uuid4(i);
      }
    }

    /** `setdefault(value, str(uuid4()))` evaluates its default, so a UUID is drawn even when
        one is remembered. */
    method SetDefault(value: string) returns (r: string)
      requires Valid() && IsUuid(value)
      modifies `drawn, `generated, `drawnFor
      ensures Valid() && drawn == old(drawn) + 1
      ensures generated == if value in old(generated) then old(generated) else old(generated)[value := uuid4(old(drawn))]
      ensures r == generated[value]
    {
      var replacement := uuid4(drawn);
      if value !in generated {
        DrawnMore(uuid4, drawn, generated, drawnFor, value);
        generated, drawnFor := generated[value := replacement], drawnFor[value := drawn];
      }
      drawn := drawn + 1;
      r := generated[value];
    }

    method Swap(value: string) returns (r: string)
      requires Valid()
      modifies this
      ensures Valid() && old(Memory()).ExtendedBy(Memory())
      ensures Memory().Covers(Str(value)) && r == Memory().Image(value)
      ensures if value in mapping then r == mapping[value] && drawn == old(drawn) && generated == old(generated)
              else if auto && IsUuid(value) then
                if value in old(generated) then r == old(generated)[value] && drawn == old(drawn) + 1 && generated == old(generated)
                else r == uuid4(old(drawn)) && drawn == old(drawn) + 1 && generated == old(generated)[value := r]
              else r == value && drawn == old(drawn) && generated == old(generated)
    {
      if value in mapping {
        return mapping[value];
      }
      if !auto || !IsUuid(value) {
        return value;
      }
      r := SetDefault(value);
    }

    method Walk(value: JSON) returns (r: JSON)
      requires Valid()
      modifies this
      ensures Valid() && old(Memory()).ExtendedBy(Memory())
      ensures Memory().Covers(value) && r == Memory().Rewrite(value)
      decreases value
    {
      match value
      case Obj(fields) =>
        var out: Payload := map[];
        var todo := fields.Keys;
        while todo != {}
          invariant Valid() && old(Memory()).ExtendedBy(Memory())
          invariant todo <= fields.Keys && out.Keys == fields.Keys - todo
          invariant forall k :: k in out ==> Memory().Covers(fields[k]) && out[k] == Memory().Rewrite(fields[k])
          decreases |todo|
        {
          // Any key order: the result does not depend on it.
          var k :| k in todo;
          ghost var before := Memory();
          var x := Walk(fields[k]);
          forall j | j in out ensures Memory().Covers(fields[j]) && Memory().Rewrite(fields[j]) == out[j] {
            RewriteStable(before, Memory(), fields[j]);
          }
          out := out[k := x];
          todo := todo - {k};
        }
        r := Obj(out);
        assert out == Memory().Rewrite(value).fields;
      case Arr(items) =>
        var out: seq<JSON> := [];
        for i := 0 to |items|
          invariant Valid() && old(Memory()).ExtendedBy(Memory())
          invariant |out| == i
          invariant forall j :: 0 <= j < i ==> Memory().Covers(items[j]) && out[j] == Memory().Rewrite(items[j])
        {
          ghost var before := Memory();
          var x := Walk(items[i]);
          forall j | 0 <= j < i ensures Memory().Covers(items[j]) && Memory().Rewrite(items[j]) == out[j] {
            RewriteStable(before, Memory(), items[j]);
          }
          out := out + [x];
        }
        r := Arr(out);
      case Str(s) =>
        var t := Swap(s);
        r := Str(t);
      case _ =>
        r := value;
    }

    method Apply(payload: Payload) returns (r: Payload)
      requires Valid()
      modifies this
      ensures Valid() && old(Memory()).ExtendedBy(Memory())
      ensures Memory().Covers(Obj(payload)) && Obj(r) == Memory().Rewrite(Obj(payload))
    {
      if mapping == map[] && !auto {
        NothingToDo(Memory(), Obj(payload));
        return payload;
      }
      var walked := Walk(Obj(payload));
      r := walked.fields;
    }

    /** `[subs.apply(r.payload) for r in requests]`: one renaming explains every output of
        the run, including the first ones; it is one-to-one on generated values unless a draw
        was repeated. */
    method ApplyAll(payloads: seq<Payload>) returns (out: seq<Payload>)
      requires Valid()
      modifies this
      ensures Valid() && old(Memory()).ExtendedBy(Memory())
      ensures |out| == |payloads|
      ensures forall i :: 0 <= i < |out| ==>
          Memory().Covers(Obj(payloads[i])) && Obj(out[i]) == Memory().Rewrite(Obj(payloads[i]))
      ensures forall i :: 0 <= i < |out| ==> Substituted(mapping, auto, generated, Obj(payloads[i]), Obj(out[i]))
      ensures Distinct(uuid4, drawn) ==> Memory().Sound()
    {
      out := [];
      for i := 0 to |payloads|
        invariant Valid() && old(Memory()).ExtendedBy(Memory())
        invariant |out| == i
        invariant forall j :: 0 <= j < i ==>
            Memory().Covers(Obj(payloads[j])) && Obj(out[j]) == Memory().Rewrite(Obj(payloads[j]))
      {
        ghost var before := Memory();
        var x := Apply(payloads[i]);
        forall j | 0 <= j < i ensures Memory().Covers(Obj(payloads[j])) && Memory().Rewrite(Obj(payloads[j])) == Obj(out[j]) {
          RewriteStable(before, Memory(), Obj(payloads[j]));
        }
        out := out + [x];
      }
      forall i | 0 <= i < |out| ensures Substituted(mapping, auto, generated, Obj(payloads[i]), Obj(out[i])) {
        RewritePlaces(Memory(), Obj(payloads[i]));
      }
      if Distinct(uuid4, drawn) {
        MemorySound();
      }
    }
  }

  // -------------------------------------------------------------- enough UUIDs

  function HexDigit(d: nat): char
    requires d < 16
  {
    "0123456789abcdef"[d]
  }

  lemma HexDigits(d: nat, e: nat)
    requires d < 16 && e < 16
    ensures Hex(HexDigit(d)) && (HexDigit(d) == HexDigit(e) ==> d == e)
  {
  }

  /** `n` in `k` hex digits, the last ones if it has more. */
  function Digits(n: nat, k: nat): (s: string)
    ensures |s| == k
  {
    if k == 0 then "" else Digits(n / 16, k - 1) + [HexDigit(n % 16)]
  }

  function Pow16(k: nat): (p: nat)
    ensures p > 0
  {
    if k == 0 then 1 else 16 * Pow16(k - 1)
  }

  lemma {:induction false} DigitsHex(n: nat, k: nat, i: nat)
    requires i < k
    ensures Hex(Digits(n, k)[i])
  {
    HexDigits(n % 16, 0);
    if i < k - 1 {
      DigitsHex(n / 16, k - 1, i);
    }
  }

  lemma {:induction false} DigitsTell(m: nat, n: nat, k: nat)
    requires m < Pow16(k) && n < Pow16(k) && Digits(m, k) == Digits(n, k)
    ensures m == n
  {
    if k > 0 {
      var a, b := Digits(m, k), Digits(n, k);
      assert a[..k - 1] == Digits(m / 16, k - 1) && b[..k - 1] == Digits(n / 16, k - 1);
      assert a[k - 1] == HexDigit(m % 16) && b[k - 1] == HexDigit(n % 16);
      HexDigits(m % 16, n % 16);
      DigitsTell(m / 16, n / 16, k - 1);
    }
  }

  /** The `n`-th UUID, counting in its 32 digits. */
  function NthUuid(n: nat): string {
    var d := Digits(n, 32);
    d[..8] + "-" + d[8..12] + "-" + d[12..16] + "-" + d[16..20] + "-" + d[20..]
  }

  lemma NthUuidShaped(n: nat)
    ensures IsUuid(NthUuid(n))
  {
    var d, u := Digits(n, 32), NthUuid(n);
    forall i | 0 <= i < 32 ensures Hex(d[i]) {
      DigitsHex(n, 32, i);
    }
    assert u[35] == d[31] && FirstLine(u) == u;
  }

  /** The 32 digits of a UUID. */
  function Undashed(u: string): string
    requires |u| == 36
  {
    u[..8] + u[9..13] + u[14..18] + u[19..23] + u[24..]
  }

  lemma UndashedNth(n: nat)
    ensures Undashed(NthUuid(n)) == Digits(n, 32)
  {
    var d, u := Digits(n, 32), NthUuid(n);
    assert u[..8] == d[..8];
    assert u[9..13] == d[8..12];
    assert u[14..18] == d[12..16];
    assert u[19..23] == d[16..20];
    assert u[24..] == d[20..];
    assert d == d[..8] + d[8..12] + d[12..16] + d[16..20] + d[20..];
  }

  lemma NthUuidTells(m: nat, n: nat)
    requires m < Pow16(32) && n < Pow16(32) && NthUuid(m) == NthUuid(n)
    ensures m == n
  {
    UndashedNth(m);
    UndashedNth(n);
    DigitsTell(m, n, 32);
  }

  /** There are enough UUIDs: a supply of them need not repeat in its first 16^32 draws. */
  lemma EnoughUuids() returns (uuid4: nat -> string)
    ensures UuidShaped(uuid4) && Distinct(uuid4, Pow16(32))
  {
    uuid4 := NthUuid;
    forall i: nat ensures IsUuid(uuid4(i)) {
      NthUuidShaped(i);
    }
    forall i, j | 0 <= i < j < Pow16(32) ensures uuid4(i) != uuid4(j) {
      if uuid4(i) == uuid4(j) {
        NthUuidTells(i, j);
      }
    }
  }

  lemma {:induction false} NothingToDo(r: Renaming, v: JSON)
    requires r.mapping == map[] && !r.auto
    ensures r.Covers(v) && r.Rewrite(v) == v
  {
    match v
    case Obj(fields) =>
      forall k | k in fields ensures r.Covers(fields[k]) && r.Rewrite(fields[k]) == fields[k] {
        NothingToDo(r, fields[k]);
      }
      assert r.Rewrite(v).fields == fields;
    case Arr(items) =>
      forall i | 0 <= i < |items| ensures r.Covers(items[i]) && r.Rewrite(items[i]) == items[i] {
        NothingToDo(r, items[i]);
      }
    case _ =>
  }
}
