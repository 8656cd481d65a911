/** The `current_events` command of `EventCommand`: the current events, challenges
    and bosses get their names filled in, then one embed field per kind present. */
module EventCommand {
  import opened Wrappers
  import opened Characters
  import opened Events
  import opened EventStore

  /** The name given to a record whose lookup finds nothing. */
  const Placeholder := "NN"

  /** An event's name: the repository's name for its id, or the placeholder. */
  function EventName(records: seq<EventRecord>, eventId: int): string {
    NameById(records, IntKey(eventId)).GetOr(Placeholder)
  }

  /** A challenge's name: the name of the dress with the challenge's id, or the placeholder. */
  function DressName(dressById: int -> Option<Dress>, challengeId: int): string {
    match dressById(challengeId)
    case Some(dress) => dress.name
    case None => Placeholder
  }

  /** A boss's name: the name of the enemy with the boss's id, or the placeholder. */
  function EnemyName(enemyById: int -> Option<Enemy>, bossId: int): string {
    match enemyById(bossId)
    case Some(enemy) => enemy.name
    case None => Placeholder
  }

  /** An event no record matches gets the placeholder; otherwise it gets the
      name of the first record whose id matches, or the placeholder when that
      record has no name. */
  lemma PlaceholderOnlyWhenNotFound(records: seq<EventRecord>, eventId: int)
    ensures (forall i :: 0 <= i < |records| ==> !SameId(records[i].eventId, IntKey(eventId))) ==>
      EventName(records, eventId) == Placeholder
    ensures forall k :: 0 <= k < |records| && SameId(records[k].eventId, IntKey(eventId)) &&
                        (forall j :: 0 <= j < k ==> !SameId(records[j].eventId, IntKey(eventId))) ==>
      EventName(records, eventId) == records[k].name.GetOr(Placeholder)
  {
    NameByIdFirst(records, IntKey(eventId));
  }

  /** The fields of an event that `set_name` does not touch. */
  function Untouched(e: Event): (Option<int>, Option<int>, Option<int>, Option<string>)
    reads e
  {
    (e.startDate, e.endDate, e.rarity, e.hpPercentage)
  }

  /** The fields `set_name` does not touch are as they were. */
  twostate predicate OnlyNamesChanged(events: seq<Event>)
    reads events
  {
    forall e :: e in events ==> Untouched(e) == old(Untouched(e))
  }

  /** The loop body of `__get_complete_events_list` for one event. */
  method NameEvent(event: Event, repository: EventRepository)
    modifies event
    ensures event.name == Some(EventName(repository.events, event.eventId))
    ensures event.startDate == old(event.startDate) && event.endDate == old(event.endDate)
    ensures event.rarity == old(event.rarity) && event.hpPercentage == old(event.hpPercentage)
  {
    var eventName := repository.GetEventNameById(IntKey(event.eventId));
    event.SetName(if eventName.Some? then eventName.value else Placeholder);
  }

  /** `__get_complete_events_list`: every event, in order, named after the
      repository's record for its id. The same objects are returned, renamed in place. */
  method CompleteEvents(events: seq<Event>, repository: EventRepository) returns (list: seq<Event>)
    modifies events
    ensures list == events
    ensures forall e :: e in events ==> e.name == Some(EventName(repository.events, e.eventId))
    ensures OnlyNamesChanged(events)
  {
    list := [];
    ghost var records := repository.events;
    var i := 0;
    while i < |events|
      invariant 0 <= i <= |events|
      invariant repository.events == records
      invariant list == events[..i]
      invariant forall e :: e in list ==> e.name == Some(EventName(records, e.eventId))
      invariant OnlyNamesChanged(events)
    {
      var event := events[i];
      NameEvent(event, repository);
      list := list + [event];
      i := i + 1;
    }
    assert events[..|events|] == events;
  }

  /** `__get_complete_challenges_list`: every challenge, in order, named after
      the dress with its id. */
  method CompleteChallenges(challenges: seq<Event>, dressById: int -> Option<Dress>) returns (list: seq<Event>)
    modifies challenges
    ensures list == challenges
    ensures forall e :: e in challenges ==> e.name == Some(DressName(dressById, e.eventId))
    ensures OnlyNamesChanged(challenges)
  {
    list := [];
    var i := 0;
    while i < |challenges|
      invariant 0 <= i <= |challenges|
      invariant list == challenges[..i]
      invariant forall e :: e in list ==> e.name == Some(DressName(dressById, e.eventId))
      invariant OnlyNamesChanged(challenges)
    {
      var challenge := challenges[i];
      var dress := dressById(challenge.eventId);
      var dressName := if dress.Some? then dress.value.name else Placeholder;
      challenge.SetName(dressName);
      list := list + [challenge];
      i := i + 1;
    }
    assert challenges[..|challenges|] == challenges;
  }

  /** `__get_complete_bosses_list`: every boss, in order, named after the enemy with its id. */
  method CompleteBosses(bosses: seq<Event>, enemyById: int -> Option<Enemy>) returns (list: seq<Event>)
    modifies bosses
    ensures list == bosses
    ensures forall e :: e in bosses ==> e.name == Some(EnemyName(enemyById, e.eventId))
    ensures OnlyNamesChanged(bosses)
  {
    list := [];
    var i := 0;
    while i < |bosses|
      invariant 0 <= i <= |bosses|
      invariant list == bosses[..i]
      invariant forall e :: e in list ==> e.name == Some(EnemyName(enemyById, e.eventId))
      invariant OnlyNamesChanged(bosses)
    {
      var boss := bosses[i];
      var enemy := enemyById(boss.eventId);
      var enemyName := if enemy.Some? then enemy.value.name else Placeholder;
      boss.SetName(enemyName);
      list := list + [boss];
      i := i + 1;
    }
    assert bosses[..|bosses|] == bosses;
  }

  /** One field of the reply embed: its title and the records it lists, in order. */
  datatype Field = Field(title: string, entries: seq<Event>)

  const EventsTitle := "Events"
  const ChallengesTitle := "Challenges Revue"
  const BossesTitle := "Score Attack Revue"

  /** The fields for the kinds present in the dict, always in the order events,
      challenges, bosses. */
  function Fields(current: CurrentEvents): (r: seq<Field>)
    ensures |r| <= 3
  {
    (if current.events.Some? then [Field(EventsTitle, current.events.value)] else []) +
    (if current.challenges.Some? then [Field(ChallengesTitle, current.challenges.value)] else []) +
    (if current.bosses.Some? then [Field(BossesTitle, current.bosses.value)] else [])
  }

  function Titles(fields: seq<Field>): (r: seq<string>)
    ensures |r| == |fields|
    ensures forall i :: 0 <= i < |fields| ==> r[i] == fields[i].title
  {
    if fields == [] then [] else [fields[0].title] + Titles(fields[1..])
  }

  /** The titles of the present kinds, in the fixed order. */
  lemma {:induction false} TitlesOfFields(current: CurrentEvents)
    ensures Titles(Fields(current)) ==
      (if current.events.Some? then [EventsTitle] else []) +
      (if current.challenges.Some? then [ChallengesTitle] else []) +
      (if current.bosses.Some? then [BossesTitle] else [])
  {
    var a := if current.events.Some? then [Field(EventsTitle, current.events.value)] else [];
    var b := if current.challenges.Some? then [Field(ChallengesTitle, current.challenges.value)] else [];
    var c := if current.bosses.Some? then [Field(BossesTitle, current.bosses.value)] else [];
    assert Fields(current) == a + b + c;
    TitlesAppend(a, b);
    TitlesAppend(a + b, c);
    assert Titles(a) == if current.events.Some? then [EventsTitle] else [];
    assert Titles(b) == if current.challenges.Some? then [ChallengesTitle] else [];
    assert Titles(c) == if current.bosses.Some? then [BossesTitle] else [];
  }

  lemma {:induction false} TitlesAppend(a: seq<Field>, b: seq<Field>)
    ensures Titles(a + b) == Titles(a) + Titles(b)
  {
    if a == [] {
      assert a + b == b;
    } else {
      assert (a + b)[1..] == a[1..] + b;
      TitlesAppend(a[1..], b);
    }
  }

  /** A kind's field is present exactly when its key is, and the titles come in
      the fixed order; with nothing current there is no field. */
  lemma FieldsFollowKeys(current: CurrentEvents)
    ensures EventsTitle in Titles(Fields(current)) <==> current.events.Some?
    ensures ChallengesTitle in Titles(Fields(current)) <==> current.challenges.Some?
    ensures BossesTitle in Titles(Fields(current)) <==> current.bosses.Some?
    ensures |Fields(current)| == (if current.events.Some? then 1 else 0) +
                                 (if current.challenges.Some? then 1 else 0) +
                                 (if current.bosses.Some? then 1 else 0)
    ensures Fields(NoCurrentEvents) == []
    ensures current.events.Some? && current.challenges.Some? && current.bosses.Some? ==>
      Titles(Fields(current)) == [EventsTitle, ChallengesTitle, BossesTitle]
  {
    TitlesOfFields(current);
    var a := if current.events.Some? then [EventsTitle] else [];
    var b := if current.challenges.Some? then [ChallengesTitle] else [];
    var c := if current.bosses.Some? then [BossesTitle] else [];
    assert Titles(Fields(current)) == a + b + c;
    assert |EventsTitle| == 6 && |ChallengesTitle| == 16 && |BossesTitle| == 18;
    assert EventsTitle !in b + c && ChallengesTitle !in a + c && BossesTitle !in a + b;
    assert |Fields(current)| == |a| + |b| + |c|;
  }

  /** Every record that one of the dict's lists holds. */
  function Listed(current: CurrentEvents): seq<Event> {
    current.events.GetOr([]) + current.challenges.GetOr([]) + current.bosses.GetOr([])
  }

  /** The `'events'` block of `current_events`: when the key is present, its
      records are named and listed under the events title. */
  method EventsBlock(events: Option<seq<Event>>, repository: EventRepository) returns (fields: seq<Field>)
    modifies events.GetOr([])
    ensures fields == if events.Some? then [Field(EventsTitle, events.value)] else []
    ensures forall e :: e in events.GetOr([]) ==> e.name == Some(EventName(repository.events, e.eventId))
    ensures OnlyNamesChanged(events.GetOr([]))
  {
    fields := [];
    if events.Some? {
      var list := CompleteEvents(events.value, repository);
      fields := [Field(EventsTitle, list)];
    }
  }

  /** The `'challenges'` block: the records named after their dresses. */
  method ChallengesBlock(challenges: Option<seq<Event>>, dressById: int -> Option<Dress>) returns (fields: seq<Field>)
    modifies challenges.GetOr([])
    ensures fields == if challenges.Some? then [Field(ChallengesTitle, challenges.value)] else []
    ensures forall e :: e in challenges.GetOr([]) ==> e.name == Some(DressName(dressById, e.eventId))
    ensures OnlyNamesChanged(challenges.GetOr([]))
  {
    fields := [];
    if challenges.Some? {
      var list := CompleteChallenges(challenges.value, dressById);
      fields := [Field(ChallengesTitle, list)];
    }
  }

  /** The `'bosses'` block: the records named after their enemies. */
  method BossesBlock(bosses: Option<seq<Event>>, enemyById: int -> Option<Enemy>) returns (fields: seq<Field>)
    modifies bosses.GetOr([])
    ensures fields == if bosses.Some? then [Field(BossesTitle, bosses.value)] else []
    ensures forall e :: e in bosses.GetOr([]) ==> e.name == Some(EnemyName(enemyById, e.eventId))
    ensures OnlyNamesChanged(bosses.GetOr([]))
  {
    fields := [];
    if bosses.Some? {
      var list := CompleteBosses(bosses.value, enemyById);
      fields := [Field(BossesTitle, list)];
    }
  }

  /** `current_events`: fetches the current events through the repository, names
      each present list's records and lays out one field per present kind. A
      record listed under several kinds keeps the name the last block gave it. */
  method CurrentEventsFields(repository: EventRepository, dressById: int -> Option<Dress>,
                             enemyById: int -> Option<Enemy>, fetched: Result<CurrentEvents>)
    returns (r: Result<seq<Field>>)
    modifies set e | fetched.Ok? && e in Listed(fetched.value)
    ensures GetCurrentEvents(fetched).Raised? ==> r == Raised(GetCurrentEvents(fetched).error)
    ensures GetCurrentEvents(fetched).Ok? ==> r == Ok(Fields(GetCurrentEvents(fetched).value))
    ensures GetCurrentEvents(fetched).Ok? ==> OnlyNamesChanged(Listed(GetCurrentEvents(fetched).value))
    ensures GetCurrentEvents(fetched).Ok? ==> var current := GetCurrentEvents(fetched).value;
      forall e :: e in current.bosses.GetOr([]) ==> e.name == Some(EnemyName(enemyById, e.eventId))
    ensures GetCurrentEvents(fetched).Ok? ==> var current := GetCurrentEvents(fetched).value;
      forall e :: e in current.challenges.GetOr([]) && e !in current.bosses.GetOr([]) ==>
        e.name == Some(DressName(dressById, e.eventId))
    ensures GetCurrentEvents(fetched).Ok? ==> var current := GetCurrentEvents(fetched).value;
      forall e :: e in current.events.GetOr([]) && e !in current.challenges.GetOr([]) &&
                  e !in current.bosses.GetOr([]) ==>
        e.name == Some(EventName(repository.events, e.eventId))
  {
    var loaded := GetCurrentEvents(fetched);
    if loaded.Raised? {
      return Raised(loaded.error);
    }
    var current := loaded.value;
    ghost var listed := Listed(current);
    label named0:
    var events := EventsBlock(current.events, repository);
    assert OnlyNamesChanged@named0(listed);
    label named1:
    var challenges := ChallengesBlock(current.challenges, dressById);
    assert OnlyNamesChanged@named1(listed);
    assert OnlyNamesChanged@named0(listed);
    label named2:
    var bosses := BossesBlock(current.bosses, enemyById);
    assert OnlyNamesChanged@named2(listed);
    return Ok(events + challenges + bosses);
  }
}
