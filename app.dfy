/** The `App` component: its four `useState` variables and the localStorage
    it writes, updated in place by the two effects and the handlers. Each
    method is proved to make exactly the transition the Coordinator module
    defines, so every property proved there holds of the object. */
module Application {

  import opened Wrappers
  import opened Views
  import opened Storage
  import opened JournalRepository
  import opened Coordinator

  class App<G> {
    /** `JSON.stringify` / `JSON.parse` as used for the journal key. */
    const codec: Codec<G>

    var activeView: View
    var isSidebarOpen: bool
    var isTourOpen: bool
    var journalEntries: seq<Entry<G>>
    /** The contents of localStorage. */
    var store: Store
    /** Whether the mount effects have run; the load effect has no
        dependencies, so it runs once, right after the first render. */
    ghost var mounted: bool

    /** The whole state as a value of the Coordinator model. */
    function Snapshot(): State<G>
      reads this
    {
      State(activeView, isSidebarOpen, isTourOpen, journalEntries, store)
    }

    /** First render: the `useState` defaults, over the store an earlier
        session left behind. */
    constructor (codec: Codec<G>, store: Store)
      ensures this.codec == codec
      ensures activeView == Home && !isSidebarOpen && !isTourOpen && journalEntries == []
      ensures this.store == store
      ensures Snapshot() == Initial(store)
      ensures !mounted
    {
      this.codec := codec;
      activeView := Home;
      isSidebarOpen := false;
      isTourOpen := false;
      journalEntries := [];
      this.store := store;
      mounted := false;
    }

    /** The save effect: overwrite the journal key with the whole list. */
    method SaveJournal(writeOk: bool)
      modifies this`store
      ensures store == SetItem(old(store), JournalKey, codec.encode(journalEntries), writeOk)
    {
      if writeOk {
        store := store[JournalKey := codec.encode(journalEntries)];
      }
    }

    /** The mount effects, in the order React runs them: the load effect
        reads the journal and the onboarding flag, the save effect runs with
        the list of the first render, and a loaded list is set and saved. */
    method Mount(journalReadOk: bool, flagReadOk: bool, initialSaveOk: bool, hydratedSaveOk: bool)
      requires !mounted && Snapshot() == Initial(store)
      modifies this
      ensures mounted
      ensures activeView == old(activeView) && isSidebarOpen == old(isSidebarOpen)
      ensures isTourOpen == (old(isTourOpen) || TourShouldOpen(old(store), flagReadOk))
      ensures match LoadJournal(codec, old(store), journalReadOk)
              case Some(loaded) => journalEntries == loaded
              case None => journalEntries == old(journalEntries)
      ensures Snapshot() == Startup(codec, old(store), journalReadOk, flagReadOk, initialSaveOk, hydratedSaveOk)
    {
      var loaded: Option<seq<Entry<G>>> := None;
      if journalReadOk {
        var stored := GetItem(store, JournalKey);
        if Truthy(stored) {
          loaded := codec.decode(stored.value);
        }
      }
      if !flagReadOk {
        isTourOpen := true;
      } else {
        var tourShown := GetItem(store, OnboardingKey);
        if !Truthy(tourShown) {
          isTourOpen := true;
        }
      }
      SaveJournal(initialSaveOk);
      if loaded.Some? {
        journalEntries := loaded.value;
        SaveJournal(hydratedSaveOk);
      }
      mounted := true;
    }

    /** `addToJournal`: put the new entry first, then the save effect. */
    method AddToJournal(id: string, problem: string, guidance: G, writeOk: bool)
      modifies this`journalEntries, this`store
      ensures journalEntries == [Entry(id, problem, guidance)] + old(journalEntries)
      ensures activeView == old(activeView) && isSidebarOpen == old(isSidebarOpen) && isTourOpen == old(isTourOpen)
      ensures store == SetItem(old(store), JournalKey, codec.encode(journalEntries), writeOk)
      ensures Snapshot() == Step(codec, old(Snapshot()), Event.AddToJournal(id, problem, guidance, writeOk))
    {
      journalEntries := [Entry(id, problem, guidance)] + journalEntries;
      SaveJournal(writeOk);
    }

    /** `handleViewChange`: switch view and always close the sidebar. */
    method HandleViewChange(view: View)
      modifies this`activeView, this`isSidebarOpen
      ensures activeView == view && !isSidebarOpen
      ensures isTourOpen == old(isTourOpen) && journalEntries == old(journalEntries) && store == old(store)
      ensures Snapshot() == Step(codec, old(Snapshot()), ViewChange(view))
    {
      activeView := view;
      isSidebarOpen := false;
    }

    /** The header's menu button. */
    method OpenSidebar()
      modifies this`isSidebarOpen
      ensures Snapshot() == old(Snapshot()).(sidebarOpen := true)
      ensures Snapshot() == Step(codec, old(Snapshot()), Event.OpenSidebar)
    {
      isSidebarOpen := true;
    }

    /** The sidebar's close button. */
    method CloseSidebar()
      modifies this`isSidebarOpen
      ensures Snapshot() == old(Snapshot()).(sidebarOpen := false)
      ensures Snapshot() == Step(codec, old(Snapshot()), Event.CloseSidebar)
    {
      isSidebarOpen := false;
    }

    /** `handleCloseTour`: close the tour, then try to record it as shown. */
    method HandleCloseTour(writeOk: bool)
      modifies this`isTourOpen, this`store
      ensures !isTourOpen
      ensures store == SetItem(old(store), OnboardingKey, "true", writeOk)
      ensures activeView == old(activeView) && isSidebarOpen == old(isSidebarOpen)
      ensures journalEntries == old(journalEntries)
      ensures Snapshot() == Step(codec, old(Snapshot()), CloseTour(writeOk))
    {
      isTourOpen := false;
      if writeOk {
        store := store[OnboardingKey := "true"];
      }
    }

    /** Whether the onboarding overlay is rendered. */
    predicate IsTourVisible()
      reads this
      ensures IsTourVisible() <==> TourVisible(Snapshot())
    {
      isTourOpen && activeView == Home
    }

    /** The header title for the current view. */
    function ActiveViewLabel(): (title: string)
      reads this
      ensures title == Label(activeView) && |title| > 0
    {
      Label(activeView)
    }

    /** The counter passed to the sidebar. */
    function JournalEntryCount(): (count: nat)
      reads this
      ensures count == |Snapshot().journal|
    {
      |journalEntries|
    }
  }
}
