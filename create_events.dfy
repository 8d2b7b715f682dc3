/** Indexing of name-creation events (src/subcommands/index/events/create.rs):
    fetch the events newer than the last one stored, and for each event that
    parses and validates, write its name rows and then its event row. */
module CreateEvents {
  import opened Common
  import opened Db
  import opened NameCommandInline

  /** The fields of a parsed creation event that the indexer stores. */
  datatype EventData = EventData(
    eventId: seq<byte>,
    nsid: Nsid,
    pubkey: Pubkey,
    name: string,
    createdAt: nat,
    rawContent: string,
    children: Option<seq<(string, Pubkey)>>)

  /** A fetched event, as the indexer sees it: what `EventData::from_event`
      gave for it and what `validate_create` gave for that data (the latter
      only matters when the former succeeded). */
  datatype Event = Event(parsed: Result<EventData>, validation: Result<()>)

  const NO_CHILDREN: Error := Message("No children found")

  /** The row `save_names` writes for the namespace itself. */
  function RootRow(ed: EventData): NameNsidRow {
    NameNsidRow(ed.name, ed.nsid, ed.nsid, Some(ed.nsid), ed.pubkey)
  }

  /** The row for one child: its nsid hashes the child's name with the
      PARENT's key, while the row stores the child's own key. */
  function ChildRow(ed: EventData, child: (string, Pubkey), finalize: NsidBuilder -> Nsid): NameNsidRow {
    NameNsidRow(child.0, finalize(NewBuilder(child.0, ed.pubkey)), ed.nsid, Some(ed.nsid), child.1)
  }

  function ChildRows(ed: EventData, children: seq<(string, Pubkey)>, finalize: NsidBuilder -> Nsid): (rows: seq<NameNsidRow>)
    ensures |rows| == |children|
    ensures forall i :: 0 <= i < |children| ==>
      && rows[i].name == children[i].0
      && rows[i].nsid == finalize([Root(children[i].0, ed.pubkey)])
      && rows[i].pubkey == children[i].1
      && rows[i].parent == Some(ed.nsid)
  {
    seq(|children|, i requires 0 <= i < |children| => ChildRow(ed, children[i], finalize))
  }

  /** The row `save_event` writes. */
  function EventRow(ed: EventData): CreateEventRow {
    CreateEventRow(ed.nsid, ed.pubkey, ed.createdAt, ed.eventId, ed.name, ed.rawContent)
  }

  /** What a run appends to the two tables, and how it ends. */
  datatype Written = Written(result: Result<()>, names: seq<NameNsidRow>, events: seq<CreateEventRow>)

  const NOTHING: Written := Written(Ok(()), [], [])

  /** `a` followed by `b`, unless `a` already failed. */
  function Then(a: Written, b: Written): Written {
    if a.result.Err? then a else Written(b.result, a.names + b.names, a.events + b.events)
  }

  /** The writes for one event: none when it does not parse or does not
      validate; otherwise the root row, then (if there are children) the
      child rows and the event row, or else the "No children found" error. */
  function EventWrites(e: Event, finalize: NsidBuilder -> Nsid): Written
  {
    match e.parsed
    case Err(_) => NOTHING
    case Ok(ed) =>
      if e.validation.Err? then NOTHING
      else if ed.children.None? then Written(Err(NO_CHILDREN), [RootRow(ed)], [])
      else Written(Ok(()), [RootRow(ed)] + ChildRows(ed, ed.children.value, finalize), [EventRow(ed)])
  }

  /** The writes for a list of events, in order, up to the first error. */
  function CreateWrites(events: seq<Event>, finalize: NsidBuilder -> Nsid): Written
  {
    if events == [] then NOTHING
    else Then(CreateWrites(events[..|events| - 1], finalize),
              EventWrites(events[|events| - 1], finalize))
  }

  /** `save_names`. */
  method SaveNames(db: Database, ed: EventData, finalize: NsidBuilder -> Nsid) returns (r: Result<()>)
    modifies db
    ensures ed.children.None? ==> r == Err(NO_CHILDREN) && db.nameNsid == old(db.nameNsid) + [RootRow(ed)]
    ensures ed.children.Some? ==> r == Ok(())
    ensures ed.children.Some? ==>
      db.nameNsid == old(db.nameNsid) + [RootRow(ed)] + ChildRows(ed, ed.children.value, finalize)
    ensures db.schema == old(db.schema) && db.created == old(db.created) && db.blockchain == old(db.blockchain)
    ensures db.createEvents == old(db.createEvents) && db.recordsEvents == old(db.recordsEvents)
  {
    db.IndexNameNsid(ed.nsid, ed.name, ed.nsid, Some(ed.nsid), ed.pubkey);
    if ed.children.None? {
      return Err(NO_CHILDREN);
    }
    var children := ed.children.value;
    ghost var before := db.nameNsid;
    var i := 0;
    while i < |children|
      invariant 0 <= i <= |children|
      invariant db.nameNsid == before + ChildRows(ed, children[..i], finalize)
      invariant db.schema == old(db.schema) && db.created == old(db.created) && db.blockchain == old(db.blockchain)
      invariant db.createEvents == old(db.createEvents) && db.recordsEvents == old(db.recordsEvents)
    {
      var (name, pubkey) := children[i];
      var nsid := finalize(NewBuilder(name, ed.pubkey));
      db.IndexNameNsid(nsid, name, ed.nsid, Some(ed.nsid), pubkey);
      assert ChildRows(ed, children[..i + 1], finalize) == ChildRows(ed, children[..i], finalize) + [ChildRow(ed, children[i], finalize)];
      i := i + 1;
    }
    assert children[..i] == children;
    return Ok(());
  }

  /** `save_event`. */
  method SaveEvent(db: Database, ed: EventData)
    modifies db
    ensures db.createEvents == old(db.createEvents) + [EventRow(ed)]
    ensures db.schema == old(db.schema) && db.created == old(db.created) && db.blockchain == old(db.blockchain)
    ensures db.nameNsid == old(db.nameNsid) && db.recordsEvents == old(db.recordsEvents)
  {
    db.InsertCreateEvent(ed.nsid, ed.pubkey, ed.createdAt, ed.eventId, ed.name, ed.rawContent);
  }

  /** The body of `create`'s loop for one event: skip it when it does not
      parse or does not validate, otherwise save its names, then the event. */
  method IndexEvent(db: Database, e: Event, finalize: NsidBuilder -> Nsid) returns (r: Result<()>)
    modifies db
    ensures var x := EventWrites(e, finalize);
      && r == x.result
      && db.nameNsid == old(db.nameNsid) + x.names
      && db.createEvents == old(db.createEvents) + x.events
    ensures db.schema == old(db.schema) && db.created == old(db.created) && db.blockchain == old(db.blockchain)
    ensures db.recordsEvents == old(db.recordsEvents)
  {
    var parsed := e.parsed;
    if parsed.Err? {
      return Ok(());
    }
    var ed := parsed.value;
    if e.validation.Err? {
      return Ok(());
    }
    r := SaveNames(db, ed, finalize);
    if r.Err? {
      return r;
    }
    SaveEvent(db, ed);
  }

  /** `create`. `fetch` stands for `latest_events`: the relay query for
      events created since the given time. */
  method Create(db: Database, fetch: nat -> Result<seq<Event>>, finalize: NsidBuilder -> Nsid) returns (r: Result<()>)
    modifies db
    ensures var fetched := fetch(LastCreateEventTime(old(db.createEvents)));
      fetched.Err? ==> r == Err(fetched.error) && db.nameNsid == old(db.nameNsid) && db.createEvents == old(db.createEvents)
    ensures var fetched := fetch(LastCreateEventTime(old(db.createEvents)));
      fetched.Ok? ==>
        var w := CreateWrites(fetched.value, finalize);
        r == w.result && db.nameNsid == old(db.nameNsid) + w.names && db.createEvents == old(db.createEvents) + w.events
    ensures db.schema == old(db.schema) && db.created == old(db.created) && db.blockchain == old(db.blockchain)
    ensures db.recordsEvents == old(db.recordsEvents)
  {
    var since := LastCreateEventTime(db.createEvents);
    var fetched := fetch(since);
    if fetched.Err? {
      return Err(fetched.error);
    }
    r := IndexEvents(db, fetched.value, finalize);
  }

  /** `create`'s `for event in events` loop. */
  method IndexEvents(db: Database, events: seq<Event>, finalize: NsidBuilder -> Nsid) returns (r: Result<()>)
    modifies db
    ensures var w := CreateWrites(events, finalize);
      r == w.result && db.nameNsid == old(db.nameNsid) + w.names && db.createEvents == old(db.createEvents) + w.events
    ensures db.schema == old(db.schema) && db.created == old(db.created) && db.blockchain == old(db.blockchain)
    ensures db.recordsEvents == old(db.recordsEvents)
  {
    ghost var names0, events0 := db.nameNsid, db.createEvents;
    ghost var w := NOTHING;
    var i := 0;
    while i < |events|
      invariant 0 <= i <= |events|
      invariant w == CreateWrites(events[..i], finalize) && w.result.Ok?
      invariant db.nameNsid == names0 + w.names && db.createEvents == events0 + w.events
      invariant db.schema == old(db.schema) && db.created == old(db.created) && db.blockchain == old(db.blockchain)
      invariant db.recordsEvents == old(db.recordsEvents)
    {
      CreateWritesStep(events, i, finalize);
      ghost var x := EventWrites(events[i], finalize);
      var handled := IndexEvent(db, events[i], finalize);
      ThenAppends(names0, events0, w, x);
      if handled.Err? {
        CreateWritesStopsAtError(events, finalize, i + 1);
        return handled;
      }
      w := Then(w, x);
      i := i + 1;
    }
    assert events[..i] == events;
    r := Ok(());
  }

  lemma ThenAssoc(x: Written, y: Written, z: Written)
    ensures Then(Then(x, y), z) == Then(x, Then(y, z))
  {
    if x.result.Ok? && y.result.Ok? {
      assert x.names + y.names + z.names == x.names + (y.names + z.names);
      assert x.events + y.events + z.events == x.events + (y.events + z.events);
    }
  }

  /** Appending one event's writes after a successful prefix. */
  lemma ThenAppends(names0: seq<NameNsidRow>, events0: seq<CreateEventRow>, w: Written, x: Written)
    requires w.result.Ok?
    ensures Then(w, x).result == x.result
    ensures names0 + w.names + x.names == names0 + Then(w, x).names
    ensures events0 + w.events + x.events == events0 + Then(w, x).events
  {
  }

  /** One more event: the writes so far, then that event's. */
  lemma CreateWritesStep(events: seq<Event>, i: nat, finalize: NsidBuilder -> Nsid)
    requires i < |events|
    ensures CreateWrites(events[..i + 1], finalize)
         == Then(CreateWrites(events[..i], finalize), EventWrites(events[i], finalize))
  {
    assert events[..i + 1][..i] == events[..i];
  }

  /** Processing a list in two parts is processing the first part, then the
      second unless the first failed. */
  lemma {:induction false} CreateWritesAppend(a: seq<Event>, b: seq<Event>, finalize: NsidBuilder -> Nsid)
    ensures CreateWrites(a + b, finalize)
         == Then(CreateWrites(a, finalize), CreateWrites(b, finalize))
    decreases |b|
  {
    if b == [] {
      assert a + b == a;
    } else {
      var n := |b| - 1;
      var last := EventWrites(b[n], finalize);
      assert (a + b)[..|a + b| - 1] == a + b[..n];
      assert (a + b)[|a + b| - 1] == b[n];
      assert CreateWrites(a + b, finalize)
          == Then(CreateWrites(a + b[..n], finalize), last);
      CreateWritesAppend(a, b[..n], finalize);
      assert CreateWrites(b, finalize)
          == Then(CreateWrites(b[..n], finalize), last);
      ThenAssoc(CreateWrites(a, finalize), CreateWrites(b[..n], finalize), last);
    }
  }

  /** An error ends the run: events after the one that failed write
      nothing. */
  lemma CreateWritesStopsAtError(events: seq<Event>, finalize: NsidBuilder -> Nsid, k: nat)
    requires k <= |events| && CreateWrites(events[..k], finalize).result.Err?
    ensures CreateWrites(events, finalize) == CreateWrites(events[..k], finalize)
  {
    assert events == events[..k] + events[k..];
    CreateWritesAppend(events[..k], events[k..], finalize);
  }

  /** An event that does not parse, or parses but does not validate,
      leaves no trace: removing it changes nothing the run writes. */
  lemma SkippedEventInvisible(events: seq<Event>, i: nat, finalize: NsidBuilder -> Nsid)
    requires i < |events|
    requires events[i].parsed.Err? || events[i].validation.Err?
    ensures CreateWrites(events, finalize)
         == CreateWrites(events[..i] + events[i + 1..], finalize)
  {
    SplitAt(events, i);
    SkippedBetween(events[..i], events[i], events[i + 1..], finalize);
  }

  lemma SplitAt(events: seq<Event>, i: nat)
    requires i < |events|
    ensures events == events[..i] + [events[i]] + events[i + 1..]
  {
  }

  lemma SkippedBetween(a: seq<Event>, e: Event, b: seq<Event>, finalize: NsidBuilder -> Nsid)
    requires e.parsed.Err? || e.validation.Err?
    ensures CreateWrites(a + [e] + b, finalize) == CreateWrites(a + b, finalize)
  {
    CreateWritesAppend(a + [e], b, finalize);
    CreateWritesAppend(a, [e], finalize);
    CreateWritesAppend(a, b, finalize);
    SkippedAlone(e, finalize);
    ThenNothing(CreateWrites(a, finalize));
  }

  /** A skipped event on its own writes nothing. */
  lemma SkippedAlone(e: Event, finalize: NsidBuilder -> Nsid)
    requires e.parsed.Err? || e.validation.Err?
    ensures CreateWrites([e], finalize) == NOTHING
  {
    assert [e][..0] == [];
  }

  /** Writing nothing after a prefix leaves the prefix as it is. */
  lemma ThenNothing(w: Written)
    ensures Then(w, NOTHING) == w
  {
    if w.result.Ok? {
      assert w.result.value == ();
      assert w.names + [] == w.names && w.events + [] == w.events;
    }
  }

  /** A valid event without children stops the run with the root row
      already written and no event row. */
  lemma MissingChildrenAborts(events: seq<Event>, i: nat, finalize: NsidBuilder -> Nsid)
    requires i < |events| && CreateWrites(events[..i], finalize).result.Ok?
    requires events[i].parsed.Ok? && events[i].validation.Ok?
    requires events[i].parsed.value.children.None?
    ensures var before := CreateWrites(events[..i], finalize);
      CreateWrites(events, finalize)
        == Written(Err(NO_CHILDREN), before.names + [RootRow(events[i].parsed.value)], before.events)
  {
    SplitAt(events, i);
    MissingChildrenBetween(events[..i], events[i], events[i + 1..], finalize);
  }

  lemma MissingChildrenBetween(a: seq<Event>, e: Event, b: seq<Event>, finalize: NsidBuilder -> Nsid)
    requires CreateWrites(a, finalize).result.Ok?
    requires e.parsed.Ok? && e.validation.Ok? && e.parsed.value.children.None?
    ensures var before := CreateWrites(a, finalize);
      CreateWrites(a + [e] + b, finalize)
        == Written(Err(NO_CHILDREN), before.names + [RootRow(e.parsed.value)], before.events)
  {
    CreateWritesAppend(a + [e], b, finalize);
    CreateWritesAppend(a, [e], finalize);
    assert [e][..0] == [];
    ThenFails(CreateWrites(a, finalize), NO_CHILDREN, [RootRow(e.parsed.value)]);
  }

  /** A failing step after a successful prefix keeps the prefix's event
      rows and adds only its own name rows. */
  lemma ThenFails(w: Written, e: Error, names: seq<NameNsidRow>)
    requires w.result.Ok?
    ensures Then(w, Written(Err(e), names, [])) == Written(Err(e), w.names + names, w.events)
  {
    assert w.events + [] == w.events;
  }

  /** `row` is the namespace's own name row for the stored event `ev`. */
  predicate IsRootRowOf(row: NameNsidRow, ev: CreateEventRow) {
    row.nsid == row.root == ev.nsid && row.name == ev.name && row.pubkey == ev.pubkey
  }

  predicate HasRootRow(names: seq<NameNsidRow>, ev: CreateEventRow) {
    exists i :: 0 <= i < |names| && IsRootRowOf(names[i], ev)
  }

  /** Every event row in `w` has a root row among `w`'s name rows. */
  predicate EveryEventHasRootRow(w: Written) {
    forall j :: 0 <= j < |w.events| ==> HasRootRow(w.names, w.events[j])
  }

  /** No event row is written without the namespace's own name row: every
      stored event has a root row with its nsid, name and key. */
  lemma {:induction false} EventRowsHaveNameRows(events: seq<Event>, finalize: NsidBuilder -> Nsid)
    ensures EveryEventHasRootRow(CreateWrites(events, finalize))
  {
    if events != [] {
      var n := |events| - 1;
      EventRowsHaveNameRows(events[..n], finalize);
      var w0 := CreateWrites(events[..n], finalize);
      var x := EventWrites(events[n], finalize);
      var w := CreateWrites(events, finalize);
      assert w == Then(w0, x);
      assert EveryEventHasRootRow(w0);
      if w0.result.Ok? {
        assert w.names == w0.names + x.names && w.events == w0.events + x.events;
        forall j | 0 <= j < |w.events|
          ensures HasRootRow(w.names, w.events[j])
        {
          if j < |w0.events| {
            assert HasRootRow(w0.names, w0.events[j]);
            var i :| 0 <= i < |w0.names| && IsRootRowOf(w0.names[i], w0.events[j]);
            assert w.names[i] == w0.names[i] && w.events[j] == w0.events[j];
          } else {
            var ed := events[n].parsed.value;
            assert x.events == [EventRow(ed)] && x.names[0] == RootRow(ed);
            assert IsRootRowOf(w.names[|w0.names|], w.events[j]);
          }
        }
      }
    }
  }
}
