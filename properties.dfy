/** What the coordinator guarantees: about startup, about each handler, and
    about any sequence of handler calls. */
module CoordinatorProperties {

  import opened Wrappers
  import opened Views
  import opened Storage
  import opened JournalRepository
  import opened Coordinator

  // ---------------------------------------------------------------------
  // Startup
  // ---------------------------------------------------------------------

  /** A session starts on the home view with the sidebar closed. The journal
      is the loaded list when one loads and empty otherwise; the tour is open
      exactly when the onboarding check fails open; startup never writes the
      onboarding flag and writes no key other than the journal's. */
  lemma StartupState<G>(codec: Codec<G>, store: Store, journalReadOk: bool, flagReadOk: bool,
                        initialSaveOk: bool, hydratedSaveOk: bool)
    ensures var t := Startup(codec, store, journalReadOk, flagReadOk, initialSaveOk, hydratedSaveOk);
      && t.activeView == Home
      && !t.sidebarOpen
      && (match LoadJournal(codec, store, journalReadOk)
          case Some(loaded) => t.journal == loaded
          case None => t.journal == [])
      && (t.tourOpen <==> !flagReadOk || OnboardingKey !in store || store[OnboardingKey] == "")
      && (forall k :: k != JournalKey ==> GetItem(t.store, k) == GetItem(store, k))
  {
  }

  /** A journal read that throws also costs the stored journal: the session
      goes on with an empty journal, and the first save overwrites the key
      with the encoding of `[]`. */
  lemma ReadFailureReplacesJournal<G>(codec: Codec<G>, store: Store, flagReadOk: bool, hydratedSaveOk: bool)
    ensures var t := Startup(codec, store, false, flagReadOk, true, hydratedSaveOk);
      t.journal == [] && JournalKey in t.store && t.store[JournalKey] == codec.encode([])
  {
  }

  /** Stored text that does not parse is replaced at once by the encoding of
      the empty list, because the save effect first runs with the initial
      `[]`; the session goes on with an empty journal. */
  lemma UnparsableJournalReplaced<G>(codec: Codec<G>, store: Store, flagReadOk: bool, hydratedSaveOk: bool)
    requires JournalKey in store && store[JournalKey] != ""
    requires codec.decode(store[JournalKey]) == None
    ensures var t := Startup(codec, store, true, flagReadOk, true, hydratedSaveOk);
      t.journal == [] && JournalKey in t.store && t.store[JournalKey] == codec.encode([])
  {
  }

  /** When both mount-time writes that happen go through, the store holds
      the whole in-memory journal after startup. */
  lemma StartupPersists<G>(codec: Codec<G>, store: Store, journalReadOk: bool, flagReadOk: bool,
                           initialSaveOk: bool, hydratedSaveOk: bool)
    requires initialSaveOk
    requires LoadJournal(codec, store, journalReadOk).Some? ==> hydratedSaveOk
    ensures Persisted(codec, Startup(codec, store, journalReadOk, flagReadOk, initialSaveOk, hydratedSaveOk))
  {
  }

  /** The other side of the mount ordering: when a list loads but the second
      write throws, the store is left holding the empty list while memory
      holds the loaded one, so the stored journal is lost unless a later
      change is saved. */
  lemma ResaveFailureLeavesEmptyOnDisk<G>(codec: Codec<G>, store: Store, flagReadOk: bool)
    requires LoadJournal(codec, store, true).Some?
    ensures var t := Startup(codec, store, true, flagReadOk, true, false);
      && t.journal == LoadJournal(codec, store, true).value
      && JournalKey in t.store && t.store[JournalKey] == codec.encode([])
  {
  }

  /** A persisted journal comes back unchanged in the next session, however
      the mount-time writes of that session turn out. */
  lemma JournalSurvivesReload<G(!new)>(codec: Codec<G>, s: State<G>, flagReadOk: bool,
                                       initialSaveOk: bool, hydratedSaveOk: bool)
    requires Faithful(codec)
    requires Persisted(codec, s)
    ensures Startup(codec, s.store, true, flagReadOk, initialSaveOk, hydratedSaveOk).journal == s.journal
  {
  }

  // ---------------------------------------------------------------------
  // Handlers
  // ---------------------------------------------------------------------

  /** Adding an entry puts it in front of the existing ones, which keep their
      order and contents; the view, sidebar and tour do not change; the store
      then holds the complete new list, or is untouched if the write throws. */
  lemma AddPrepends<G>(codec: Codec<G>, s: State<G>, id: string, problem: string, guidance: G, writeOk: bool)
    ensures var t := Step(codec, s, AddToJournal(id, problem, guidance, writeOk));
      && |t.journal| == |s.journal| + 1
      && t.journal[0] == Entry(id, problem, guidance)
      && t.journal[1..] == s.journal
      && t.activeView == s.activeView && t.sidebarOpen == s.sidebarOpen && t.tourOpen == s.tourOpen
      && (writeOk ==> Persisted(codec, t))
      && (!writeOk ==> t.store == s.store)
      && GetItem(t.store, OnboardingKey) == GetItem(s.store, OnboardingKey)
  {
    WritesDoNotInterfere(s.store, codec.encode([Entry(id, problem, guidance)] + s.journal), writeOk);
  }

  /** Reading back the journal key after a successful add parses to exactly
      the in-memory list. */
  lemma AddRoundTrips<G(!new)>(codec: Codec<G>, s: State<G>, id: string, problem: string, guidance: G)
    requires Faithful(codec)
    ensures var t := Step(codec, s, AddToJournal(id, problem, guidance, true));
      LoadJournal(codec, t.store, true) == Some(t.journal)
  {
  }

  /** Navigation sets the view and closes the sidebar whatever its state;
      the tour flag, the journal and the store are untouched. */
  lemma ViewChangeClosesSidebar<G>(codec: Codec<G>, s: State<G>, v: View)
    ensures var t := Step(codec, s, ViewChange(v));
      && t.activeView == v && !t.sidebarOpen
      && t.tourOpen == s.tourOpen && t.journal == s.journal && t.store == s.store
  {
  }

  /** The menu button opens the sidebar and its close button closes it;
      nothing else changes. */
  lemma SidebarToggles<G>(codec: Codec<G>, s: State<G>)
    ensures var t := Step(codec, s, OpenSidebar);
      t == s.(sidebarOpen := true)
    ensures var t := Step(codec, s, CloseSidebar);
      t == s.(sidebarOpen := false)
  {
  }

  /** After navigating, the tour shows exactly when it is open and the
      target is home; leaving home and coming back shows it again. */
  lemma TourPinnedToHome<G>(codec: Codec<G>, s: State<G>, v: View)
    ensures TourVisible(Step(codec, s, ViewChange(v))) <==> s.tourOpen && v == Home
    ensures TourVisible(Step(codec, Step(codec, s, ViewChange(v)), ViewChange(Home))) <==> s.tourOpen
  {
  }

  /** Closing the tour hides it, records the flag `"true"` when the write
      goes through, and leaves the view, sidebar and journal alone. */
  lemma CloseTourEffect<G>(codec: Codec<G>, s: State<G>, writeOk: bool)
    ensures var t := Step(codec, s, CloseTour(writeOk));
      && !t.tourOpen && !TourVisible(t)
      && (writeOk ==> OnboardingKey in t.store && t.store[OnboardingKey] == "true")
      && (!writeOk ==> t.store == s.store)
      && t.activeView == s.activeView && t.sidebarOpen == s.sidebarOpen && t.journal == s.journal
      && GetItem(t.store, JournalKey) == GetItem(s.store, JournalKey)
  {
    WritesDoNotInterfere(s.store, "true", writeOk);
  }

  /** Closing twice is closing once; with both writes alike, the very same state. */
  lemma CloseTourIdempotent<G>(codec: Codec<G>, s: State<G>, first: bool, second: bool)
    ensures Step(codec, Step(codec, s, CloseTour(first)), CloseTour(second)) == Step(codec, s, CloseTour(first || second))
  {
  }

  /** Once the flag is written, a later session does not open the tour,
      whatever else happened in the session after the close. */
  lemma OnboardingIsOneShot<G>(codec: Codec<G>, s: State<G>, events: seq<Event<G>>, journalReadOk: bool,
                               initialSaveOk: bool, hydratedSaveOk: bool)
    ensures var later := Run(codec, Step(codec, s, CloseTour(true)), events).store;
      !Startup(codec, later, journalReadOk, true, initialSaveOk, hydratedSaveOk).tourOpen
  {
    RunKeepsFlag(codec, Step(codec, s, CloseTour(true)), events);
  }

  /** If the flag is unset and closing fails to write it, the tour opens
      again in the next session, whatever else the session does as long as
      no later close writes the flag. */
  lemma FailedCloseShowsTourAgain<G>(codec: Codec<G>, s: State<G>, events: seq<Event<G>>,
                                     journalReadOk: bool, flagReadOk: bool,
                                     initialSaveOk: bool, hydratedSaveOk: bool)
    requires !Truthy(GetItem(s.store, OnboardingKey))
    requires FlagWritesFail(events)
    ensures var later := Run(codec, Step(codec, s, CloseTour(false)), events).store;
      Startup(codec, later, journalReadOk, flagReadOk, initialSaveOk, hydratedSaveOk).tourOpen
  {
    RunKeepsFlagUnset(codec, Step(codec, s, CloseTour(false)), events);
  }

  // ---------------------------------------------------------------------
  // Sequences of handler calls
  // ---------------------------------------------------------------------

  /** After any sequence of calls, the journal is the added entries newest
      first, in front of the entries there before. */
  lemma {:induction false} RunJournal<G>(codec: Codec<G>, s: State<G>, events: seq<Event<G>>)
    ensures Run(codec, s, events).journal == Reverse(Added(events)) + s.journal
    decreases |events|
  {
    if events != [] {
      var e := events[0];
      var next := Step(codec, s, e);
      RunJournal(codec, next, events[1..]);
      if e.AddToJournal? {
        var entry := Entry(e.id, e.problem, e.guidance);
        assert Added(events) == [entry] + Added(events[1..]);
        assert ([entry] + Added(events[1..]))[1..] == Added(events[1..]);
      } else {
        assert Added(events) == Added(events[1..]);
      }
    }
  }

  /** The counter handed to the sidebar grows by one per added entry. */
  lemma RunJournalCount<G>(codec: Codec<G>, s: State<G>, events: seq<Event<G>>)
    ensures |Run(codec, s, events).journal| == |s.journal| + |Added(events)|
  {
    RunJournal(codec, s, events);
  }

  /** Three submissions from a fresh session give the three entries newest first. */
  lemma PrependOrdering<G>(codec: Codec<G>, store: Store, e1: Entry<G>, e2: Entry<G>, e3: Entry<G>,
                           ok1: bool, ok2: bool, ok3: bool)
    ensures var events := [AddToJournal(e1.id, e1.problem, e1.guidance, ok1),
                           AddToJournal(e2.id, e2.problem, e2.guidance, ok2),
                           AddToJournal(e3.id, e3.problem, e3.guidance, ok3)];
      Run(codec, Initial(store), events).journal == [e3, e2, e1]
  {
    var events := [AddToJournal(e1.id, e1.problem, e1.guidance, ok1),
                   AddToJournal(e2.id, e2.problem, e2.guidance, ok2),
                   AddToJournal(e3.id, e3.problem, e3.guidance, ok3)];
    RunJournal(codec, Initial(store), events);
    assert Added(events[2..]) == [e3] by { assert events[2..][1..] == []; }
    assert Added(events[1..]) == [e2, e3] by { assert events[1..][1..] == events[2..]; }
    assert Added(events) == [e1, e2, e3];
    assert Reverse([e1, e2, e3]) == [e3, e2, e1] by {
      assert [e1, e2, e3][1..] == [e2, e3];
      assert [e2, e3][1..] == [e3];
      assert Reverse([e3]) == [e3] by { assert [e3][1..] == []; }
      assert Reverse([e2, e3]) == [e3, e2];
    }
  }

  /** One call that is not a failed journal write keeps the store in step
      with the journal. */
  lemma StepPersists<G>(codec: Codec<G>, s: State<G>, e: Event<G>)
    requires Persisted(codec, s)
    requires e.AddToJournal? ==> e.writeOk
    ensures Persisted(codec, Step(codec, s, e))
  {
  }

  /** As long as every journal write goes through, the store keeps holding
      the complete current journal, whatever else happens. */
  lemma {:induction false} RunPersists<G>(codec: Codec<G>, s: State<G>, events: seq<Event<G>>)
    requires Persisted(codec, s)
    requires JournalWritesSucceed(events)
    ensures Persisted(codec, Run(codec, s, events))
    decreases |events|
  {
    if events != [] {
      StepPersists(codec, s, events[0]);
      assert JournalWritesSucceed(events[1..]) by {
        forall i | 0 <= i < |events[1..]| && events[1..][i].AddToJournal?
          ensures events[1..][i].writeOk
        {
          assert events[1..][i] == events[i + 1];
        }
      }
      RunPersists(codec, Step(codec, s, events[0]), events[1..]);
    }
  }

  /** An unset onboarding flag stays unset through any sequence of calls
      whose closes all fail to write: the journal saves write only the
      journal key. */
  lemma {:induction false} RunKeepsFlagUnset<G>(codec: Codec<G>, s: State<G>, events: seq<Event<G>>)
    requires !Truthy(GetItem(s.store, OnboardingKey))
    requires FlagWritesFail(events)
    ensures !Truthy(GetItem(Run(codec, s, events).store, OnboardingKey))
    decreases |events|
  {
    if events != [] {
      var e := events[0];
      if e.AddToJournal? {
        WritesDoNotInterfere(s.store, codec.encode([Entry(e.id, e.problem, e.guidance)] + s.journal), e.writeOk);
      }
      assert FlagWritesFail(events[1..]) by {
        forall i | 0 <= i < |events[1..]| && events[1..][i].CloseTour?
          ensures !events[1..][i].writeOk
        {
          assert events[1..][i] == events[i + 1];
        }
      }
      RunKeepsFlagUnset(codec, Step(codec, s, e), events[1..]);
    }
  }

  /** Only closing the tour closes it: without that call, an open tour stays
      open through navigation, sidebar use and journal additions. */
  lemma {:induction false} RunKeepsTourOpen<G>(codec: Codec<G>, s: State<G>, events: seq<Event<G>>)
    requires s.tourOpen
    requires NoCloseTour(events)
    ensures Run(codec, s, events).tourOpen
    decreases |events|
  {
    if events != [] {
      assert !events[0].CloseTour?;
      assert NoCloseTour(events[1..]) by {
        forall i | 0 <= i < |events[1..]| ensures !events[1..][i].CloseTour? {
          assert events[1..][i] == events[i + 1];
        }
      }
      RunKeepsTourOpen(codec, Step(codec, s, events[0]), events[1..]);
    }
  }

  /** A set onboarding flag stays set through any sequence of calls: the
      journal saves write only the journal key, and a later close writes
      `"true"` again or nothing. */
  lemma {:induction false} RunKeepsFlag<G>(codec: Codec<G>, s: State<G>, events: seq<Event<G>>)
    requires Truthy(GetItem(s.store, OnboardingKey))
    ensures Truthy(GetItem(Run(codec, s, events).store, OnboardingKey))
    decreases |events|
  {
    if events != [] {
      var e := events[0];
      if e.AddToJournal? {
        WritesDoNotInterfere(s.store, codec.encode([Entry(e.id, e.problem, e.guidance)] + s.journal), e.writeOk);
      }
      RunKeepsFlag(codec, Step(codec, s, e), events[1..]);
    }
  }

  /** A session whose journal writes all go through leaves behind a store
      from which the next session loads exactly the journal it ended with. */
  lemma SessionJournalSurvivesReload<G(!new)>(codec: Codec<G>, s: State<G>, events: seq<Event<G>>,
                                              flagReadOk: bool, initialSaveOk: bool, hydratedSaveOk: bool)
    requires Faithful(codec)
    requires Persisted(codec, s)
    requires JournalWritesSucceed(events)
    ensures var t := Run(codec, s, events);
      Startup(codec, t.store, true, flagReadOk, initialSaveOk, hydratedSaveOk).journal
        == Reverse(Added(events)) + s.journal
  {
    RunPersists(codec, s, events);
    RunJournal(codec, s, events);
    JournalSurvivesReload(codec, Run(codec, s, events), flagReadOk, initialSaveOk, hydratedSaveOk);
  }
}
