/** The application state coordinator of App.tsx as a state machine over
    values: the four `useState` variables plus the durable store, the startup
    effects, and one transition per handler. The class in module Application
    is proved to follow these definitions step by step. */
module Coordinator {

  import opened Wrappers
  import opened Views
  import opened Storage
  import opened JournalRepository

  /** The in-memory state (`activeView`, `isSidebarOpen`, `isTourOpen`,
      `journalEntries`) together with the contents of localStorage. */
  datatype State<G> = State(
    activeView: View,
    sidebarOpen: bool,
    tourOpen: bool,
    journal: seq<Entry<G>>,
    store: Store)

  /** The handlers the view layer can call. `writeOk` says whether the
      `setItem` that the handler causes goes through. */
  datatype Event<G> =
    | ViewChange(view: View)
    | OpenSidebar
    | CloseSidebar
    | CloseTour(writeOk: bool)
    | AddToJournal(id: string, problem: string, guidance: G, writeOk: bool)

  /** The `useState` initial values, over whatever the store holds. */
  function Initial<G>(store: Store): (s: State<G>)
  {
    State(Home, false, false, [], store)
  }

  /** The journal effect's load step: a list is loaded only when the read does
      not throw, the stored text is truthy and it parses. */
  function LoadJournal<G>(codec: Codec<G>, store: Store, readOk: bool): (r: Option<seq<Entry<G>>>)
    ensures r.Some? <==>
      readOk && JournalKey in store && store[JournalKey] != "" && codec.decode(store[JournalKey]).Some?
    ensures r.Some? ==> r == codec.decode(store[JournalKey])
  {
    if !readOk then None
    else
      var stored := GetItem(store, JournalKey);
      if Truthy(stored) then codec.decode(stored.value) else None
  }

  /** The onboarding check, which fails open: the tour is to be opened when
      the read throws, or when the flag is absent or the empty string. */
  function TourShouldOpen(store: Store, readOk: bool): (open: bool)
    ensures open <==> !readOk || OnboardingKey !in store || store[OnboardingKey] == ""
  {
    !readOk || !Truthy(GetItem(store, OnboardingKey))
  }

  /** The save effect: overwrite the journal key with the whole current list. */
  function SaveJournal<G>(codec: Codec<G>, s: State<G>, writeOk: bool): (t: State<G>)
  {
    s.(store := SetItem(s.store, JournalKey, codec.encode(s.journal), writeOk))
  }

  /** What the two mount effects do, in React's order: the load effect reads
      both keys and queues the loaded list and the open tour; the save effect
      then runs with the list of the first render; and only if a list was
      loaded does the re-render replace the list and save it again. */
  function Hydrate<G>(codec: Codec<G>, s: State<G>, journalReadOk: bool, flagReadOk: bool,
                      initialSaveOk: bool, hydratedSaveOk: bool): State<G>
  {
    var loaded := LoadJournal(codec, s.store, journalReadOk);
    var shown := s.(tourOpen := s.tourOpen || TourShouldOpen(s.store, flagReadOk));
    var saved := SaveJournal(codec, shown, initialSaveOk);
    match loaded
    case None => saved
    case Some(entries) => SaveJournal(codec, saved.(journal := entries), hydratedSaveOk)
  }

  /** A session start against a store left by an earlier session. */
  function Startup<G>(codec: Codec<G>, store: Store, journalReadOk: bool, flagReadOk: bool,
                      initialSaveOk: bool, hydratedSaveOk: bool): State<G>
  {
    Hydrate(codec, Initial(store), journalReadOk, flagReadOk, initialSaveOk, hydratedSaveOk)
  }

  /** One handler call, including the save effect a journal change triggers. */
  function Step<G>(codec: Codec<G>, s: State<G>, e: Event<G>): State<G>
  {
    match e
    case ViewChange(v) => s.(activeView := v, sidebarOpen := false)
    case OpenSidebar => s.(sidebarOpen := true)
    case CloseSidebar => s.(sidebarOpen := false)
    case CloseTour(ok) => s.(tourOpen := false, store := SetItem(s.store, OnboardingKey, "true", ok))
    case AddToJournal(id, problem, guidance, ok) =>
      SaveJournal(codec, s.(journal := [Entry(id, problem, guidance)] + s.journal), ok)
  }

  /** A sequence of handler calls, processed one at a time in order. */
  function Run<G>(codec: Codec<G>, s: State<G>, events: seq<Event<G>>): State<G>
    decreases |events|
  {
    if events == [] then s else Run(codec, Step(codec, s, events[0]), events[1..])
  }

  /** The rendering condition of the onboarding overlay. */
  predicate TourVisible<G>(s: State<G>)
  {
    s.tourOpen && s.activeView == Home
  }

  /** The journal key holds the encoding of the complete in-memory list. */
  ghost predicate Persisted<G>(codec: Codec<G>, s: State<G>)
  {
    JournalKey in s.store && s.store[JournalKey] == codec.encode(s.journal)
  }

  /** The entries a sequence of events adds, in the order they are added. */
  function Added<G>(events: seq<Event<G>>): seq<Entry<G>>
  {
    if events == [] then []
    else
      var e := events[0];
      (if e.AddToJournal? then [Entry(e.id, e.problem, e.guidance)] else []) + Added(events[1..])
  }

  /** Every journal write in a sequence of events goes through. */
  predicate JournalWritesSucceed<G>(events: seq<Event<G>>)
  {
    forall i :: 0 <= i < |events| && events[i].AddToJournal? ==> events[i].writeOk
  }

  /** Every onboarding-flag write in a sequence of events throws. */
  predicate FlagWritesFail<G>(events: seq<Event<G>>)
  {
    forall i :: 0 <= i < |events| && events[i].CloseTour? ==> !events[i].writeOk
  }

  /** No event in a sequence closes the tour. */
  predicate NoCloseTour<G>(events: seq<Event<G>>)
  {
    forall i :: 0 <= i < |events| ==> !events[i].CloseTour?
  }
}
