/** The data the home page is rendered with: the fetched lists, split for display. */
module HomePage {
  import opened Wrappers
  import opened Seqs
  import opened Events
  import Text

  /** `event.repetition` is truthy. */
  predicate IsRepetitive(e: Event) { Text.Truthy(e.repetition) }

  predicate IsOneOff(e: Event) { !IsRepetitive(e) }

  /** How many one-off events the page shows. */
  const UniqueEventsShown := 3

  /** `repetitiveEvents`: the recurring events, in fetched order. */
  function RepetitiveEvents(events: seq<Event>): (r: seq<Event>)
    ensures forall e :: e in r <==> e in events && IsRepetitive(e)
    ensures forall e :: multiset(r)[e] == if IsRepetitive(e) then multiset(events)[e] else 0
    ensures IsSubsequence(r, events)
  {
    Filter(events, IsRepetitive)
  }

  /** `uniqueEvents`: the first three one-off events, in fetched order. */
  function UniqueEvents(events: seq<Event>): (r: seq<Event>)
    ensures var oneOff := Filter(events, IsOneOff);
      |r| == (if |oneOff| < UniqueEventsShown then |oneOff| else UniqueEventsShown) &&
      r == oneOff[..|r|]
    ensures forall e :: e in r ==> e in events && !IsRepetitive(e)
    ensures IsSubsequence(r, events)
  {
    var oneOff := Filter(events, IsOneOff);
    var r := if |oneOff| < UniqueEventsShown then oneOff else oneOff[..UniqueEventsShown];
    PrefixIsSubsequence(oneOff, |r|);
    assert r == oneOff[..|r|];
    SubsequenceTransitive(r, oneOff, events);
    r
  }

  /** Every fetched event is either recurring or one-off, and lands on its side exactly as often. */
  lemma RepetitiveAndOneOffSplit(events: seq<Event>)
    ensures multiset(RepetitiveEvents(events)) + multiset(Filter(events, IsOneOff)) == multiset(events)
    ensures |RepetitiveEvents(events)| + |Filter(events, IsOneOff)| == |events|
  {
    var r, o := Filter(events, IsRepetitive), Filter(events, IsOneOff);
    assert multiset(r) + multiset(o) == multiset(events) by {
      forall e ensures (multiset(r) + multiset(o))[e] == multiset(events)[e] {
        assert multiset(r)[e] == if IsRepetitive(e) then multiset(events)[e] else 0;
        assert multiset(o)[e] == if IsOneOff(e) then multiset(events)[e] else 0;
      }
    }
    assert |multiset(r)| + |multiset(o)| == |multiset(events)|;
  }

  /** No event is in both lists, and at most three one-off events are shown. */
  lemma ListsAreDisjoint(events: seq<Event>)
    ensures forall e :: !(e in RepetitiveEvents(events) && e in UniqueEvents(events))
    ensures |UniqueEvents(events)| <= 3
  {
  }

  /** The four responses the page fetches together. */
  datatype Fetched<P, N> = Fetched(publications: seq<P>, events: seq<Event>, notes: seq<N>, guildMembers: int)

  /** The initial data handed to the client component. */
  datatype InitialData<P, N> = InitialData(
    initialPublications: seq<P>,
    repetitiveEvents: seq<Event>,
    uniqueEvents: seq<Event>,
    latestNotes: seq<N>,
    guildMemberCount: Option<int>)

  /** `getInitialData`; `None` stands for any of the four requests failing. */
  function InitialDataFor<P, N>(fetched: Option<Fetched<P, N>>): (d: InitialData<P, N>)
    ensures fetched.None? ==>
      d.initialPublications == [] && d.repetitiveEvents == [] && d.uniqueEvents == [] &&
      d.latestNotes == [] && d.guildMemberCount == None
    ensures fetched.Some? ==>
      d.initialPublications == fetched.value.publications &&
      d.repetitiveEvents == RepetitiveEvents(fetched.value.events) &&
      d.uniqueEvents == UniqueEvents(fetched.value.events) &&
      d.latestNotes == fetched.value.notes && d.guildMemberCount == Some(fetched.value.guildMembers)
  {
    match fetched
    case None => InitialData([], [], [], [], None)
    case Some(res) =>
      InitialData(res.publications, RepetitiveEvents(res.events), UniqueEvents(res.events),
                  res.notes, Some(res.guildMembers))
  }
}
