module Correlate {
  // infrareplay/recording/correlate.py: regroup, order, re-sequence and re-parent a stream.

  import opened Sequences
  import opened Events

  // ------------------------------------------------------------ specification

  /** `key=lambda g: (g[0].timestamp_ns, g[0].sequence)`; a group is never empty. */
  function GroupKey(g: seq<Event>): Key {
    if |g| == 0 then (0, 0) else EventKey(g[0])
  }

  function SortedGroup(es: seq<Event>, correlation: string): seq<Event> {
    SortBy(EventKey, Select(CorrOf, es, correlation))
  }

  /** One group per correlation id, in dict order, each in wall-clock order. */
  function Partition(es: seq<Event>): seq<seq<Event>> {
    var ks := Keys(CorrOf, es);
    seq(|ks|, i requires 0 <= i < |ks| => SortedGroup(es, ks[i]))
  }

  function Groups(es: seq<Event>): seq<seq<Event>> {
    SortBy(GroupKey, Partition(es))
  }

  /** The first request of the group. */
  function Root(group: seq<Event>): Option<Event> {
    if |group| == 0 then None
    else
      var last := group[|group| - 1];
      match Root(group[..|group| - 1])
      case Some(first) => Some(first)
      case None => if last.kind.HttpRequest? then Some(last) else None
  }

  function LastQuery(group: seq<Event>, n: nat): Option<Event>
    requires n <= |group|
  {
    if n == 0 then None
    else if group[n - 1].kind.PgQuery? then Some(group[n - 1])
    else LastQuery(group, n - 1)
  }

  function ParentFor(event: Event, root: Option<Event>, lastQuery: Option<Event>): Option<string> {
    if event.kind.HttpRequest? then None
    else if event.kind.PgResult? && lastQuery.Some? then Some(lastQuery.value.eventId)
    else if root.Some? then Some(root.value.eventId)
    else None
  }

  /** `event.parent_event_id or ...`: an empty id counts as missing. */
  predicate Recorded(event: Event) {
    event.parent.Some? && event.parent.value != ""
  }

  function LinkedParent(group: seq<Event>, i: nat): Option<string>
    requires i < |group|
  {
    if Recorded(group[i]) then group[i].parent
    else ParentFor(group[i], Root(group), LastQuery(group, i))
  }

  function Link(group: seq<Event>): seq<Event> {
    seq(|group|, i requires 0 <= i < |group| => group[i].(parent := LinkedParent(group, i)))
  }

  function Numbered(group: seq<Event>, start: int): seq<Event> {
    seq(|group|, i requires 0 <= i < |group| => group[i].(sequence := start + i))
  }

  function LinkAll(gs: seq<seq<Event>>): seq<seq<Event>> {
    MapSeq(Link, gs)
  }

  /** Running sequence numbers across the groups. */
  function NumberAll(gs: seq<seq<Event>>): (r: seq<seq<Event>>)
    ensures |r| == |gs|
  {
    if |gs| == 0 then []
    else
      var init := gs[..|gs| - 1];
      NumberAll(init) + [Numbered(gs[|gs| - 1], |Flatten(init)|)]
  }

  /** The output, still split into its groups. */
  function OutGroups(es: seq<Event>): seq<seq<Event>> {
    NumberAll(LinkAll(Groups(es)))
  }

  function Correlated(es: seq<Event>): seq<Event> {
    Flatten(OutGroups(es))
  }

  // ------------------------------------------------------------ implementation

  method SortLists(lists: seq<seq<Event>>) returns (groups: seq<seq<Event>>)
    ensures groups == MapSeq((g: seq<Event>) => SortBy(EventKey, g), lists)
  {
    groups := [];
    for i := 0 to |lists|
      invariant |groups| == i
      invariant forall j :: 0 <= j < i ==> groups[j] == SortBy(EventKey, lists[j])
    {
      groups := groups + [SortBy(EventKey, lists[i])];
    }
  }

  method GroupEvents(events: seq<Event>) returns (groups: seq<seq<Event>>)
    ensures groups == Groups(events)
  {
    var order, byCorrelation := GroupBy(CorrOf, events);
    var lists := seq(|order|, i requires 0 <= i < |order| => byCorrelation[order[i]]);
    groups := SortLists(lists);
    assert groups == Partition(events);
    groups := SortBy(GroupKey, groups);
  }

  method LinkGroup(group: seq<Event>) returns (linked: seq<Event>)
    ensures linked == Link(group)
  {
    var root := Root(group);
    var lastQuery: Option<Event> := None;
    linked := [];
    for i := 0 to |group|
      invariant lastQuery == LastQuery(group, i)
      invariant linked == Link(group)[..i]
    {
      var event := group[i];
      var parent := if Recorded(event) then event.parent else ParentFor(event, root, lastQuery);
      linked := linked + [event.(parent := parent)];
      if event.kind.PgQuery? {
        lastQuery := Some(event);
      }
    }
  }

  method NumberGroup(group: seq<Event>, start: int) returns (numbered: seq<Event>, sequence: int)
    ensures numbered == Numbered(group, start) && sequence == start + |group|
  {
    numbered, sequence := [], start;
    for i := 0 to |group|
      invariant sequence == start + i
      invariant numbered == Numbered(group, start)[..i]
    {
      numbered := numbered + [group[i].(sequence := sequence)];
      sequence := sequence + 1;
    }
  }

  lemma NumberStep(groups: seq<seq<Event>>, i: nat)
    requires i < |groups|
    ensures var before, after := LinkAll(groups[..i]), LinkAll(groups[..i + 1]);
        && Flatten(NumberAll(after)) == Flatten(NumberAll(before)) + Numbered(Link(groups[i]), |Flatten(before)|)
        && |Flatten(after)| == |Flatten(before)| + |groups[i]|
  {
    var before, after := LinkAll(groups[..i]), LinkAll(groups[..i + 1]);
    assert after[..i] == before && after[i] == Link(groups[i]);
    assert NumberAll(after)[..i] == NumberAll(before);
  }

  method Correlate(events: seq<Event>) returns (ordered: seq<Event>)
    ensures ordered == Correlated(events)
  {
    var groups := GroupEvents(events);
    ordered := [];
    var sequence := 0;
    for i := 0 to |groups|
      invariant ordered == Flatten(NumberAll(LinkAll(groups[..i])))
      invariant sequence == |Flatten(LinkAll(groups[..i]))|
    {
      NumberStep(groups, i);
      var linked := LinkGroup(groups[i]);
      var numbered;
      numbered, sequence := NumberGroup(linked, sequence);
      ordered := ordered + numbered;
    }
    assert groups[..|groups|] == groups;
  }
}
