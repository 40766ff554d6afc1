# Application state coordinator of the Ayah guidance app, in Dafny

This project models the state coordinator of the `App` component (`App.tsx`)
of a single-user client application. The component owns four pieces of state:

- the active view, one of eight screens;
- whether the sidebar is open;
- whether the onboarding tour is open;
- the journal, a list of problem-and-guidance entries, newest first.

It keeps two keys of the browser's localStorage in step with that state:

- `ayah-guidance-journal` holds the serialized journal;
- `ayah-guidance-onboarding-v1-shown` marks the tour as already shown.

The model has two layers.

- `Coordinator` (coordinator.dfy) is a state machine over values.
  - `State` holds the four variables and the store (`map<string, string>`).
  - `Step` is one handler call. `Run` is a sequence of calls.
  - `Hydrate` and `Startup` are the two mount effects, in the order React runs them.
- `Application.App` (app.dfy) is a class with the same fields.
  - It has one method per handler and one for the mount effects.
  - Each handler method ensures `Snapshot() == Step(old(Snapshot()), event)` and may change only the fields it writes.
  - `Mount` requires the first-render state, runs once, and ensures `Snapshot() == Startup(old(store), ...)`.
  - `SaveJournal`, the save effect both of them use, changes only the store.
  - So the properties proved in `CoordinatorProperties` (properties.dfy) hold of the object.

Inputs from the environment are parameters:

- Whether a `getItem` or `setItem` throws is a `bool`: `journalReadOk`, `flagReadOk`, `writeOk`, `initialSaveOk`, `hydratedSaveOk`.
- `JSON.stringify` / `JSON.parse` of the journal are a `Codec` value held by the object. A parse that throws is `None`.
- The round trip `decode(encode(s)) == Some(s)` is the hypothesis `Faithful(codec)`. Only the lemmas that need it require it.
- An entry's id is the creation timestamp. It is passed in by the caller.
- The guidance value is the type parameter `G` and is never looked into.

Mount ordering, as the model states it:

- The save effect first runs with the initial `[]`, which overwrites the journal key with the encoding of `[]`.
- Only if a list loaded is it set and saved a second time.
- So unparsable stored text is replaced by the empty list straight away (`UnparsableJournalReplaced`).
- A stored journal is left as `[]` on disk if that second write throws (`ResaveFailureLeavesEmptyOnDisk`).
- A journal read that throws also replaces the stored journal with `[]` (`ReadFailureReplacesJournal`).

## Model

| member | source | states |
|---|---|---|
| `Views.Label` | App.tsx:15-26 | every one of the eight views has a non-empty header title (the lookup is total) |
| `Storage.GetItem` | App.tsx:40 | a read yields the stored string exactly when the key is present, and null otherwise |
| `Storage.SetItem` | App.tsx:63 | a write that goes through sets the key and leaves every other key alone; a write that throws leaves the store unchanged |
| `Storage.WritesDoNotInterfere` | App.tsx:28-29 | writing the journal key never changes what a read of the onboarding key returns, and the other way round, whether or not the write goes through |
| `Coordinator.LoadJournal` | App.tsx:38-46 | a list loads exactly when the read does not throw, the stored text is present and non-empty, and it parses; the loaded list is the parse |
| `Coordinator.TourShouldOpen` | App.tsx:48-57 | the tour opens exactly when the read throws, or the flag is absent or the empty string (fail open, truthiness) |
| `Application.App.constructor` | App.tsx:32-35 | initial state: view home, sidebar closed, tour closed, journal empty, store as an earlier session left it |
| `Application.App.Mount` | App.tsx:38-67 | runs once, on the first-render state; view and sidebar kept; tour opened per `TourShouldOpen`; journal replaced only by a loaded list; the whole new state is `Startup` of the store it found |
| `Application.App.SaveJournal` | App.tsx:61-67 | the journal key is overwritten with the encoding of the whole current list, or untouched if the write throws |
| `Application.App.AddToJournal` | App.tsx:69-77 | the new entry goes in front of the old list; view, sidebar and tour unchanged; then the save effect |
| `Application.App.HandleViewChange` | App.tsx:79-82 | sets the view and closes the sidebar; tour flag, journal and store unchanged |
| `Application.App.OpenSidebar` | App.tsx:127 | opens the sidebar and changes nothing else |
| `Application.App.CloseSidebar` | App.tsx:120 | closes the sidebar and changes nothing else |
| `Application.App.HandleCloseTour` | App.tsx:84-91 | closes the tour and, if the write goes through, stores `"true"` under the onboarding key; nothing else changes |
| `Application.App.IsTourVisible` | App.tsx:133 | the overlay shows exactly when the tour is open and the view is home |
| `Application.App.ActiveViewLabel` | App.tsx:128 | the header title is the label of the current view and is never empty |
| `Application.App.JournalEntryCount` | App.tsx:123 | the sidebar counter is the journal's length |
| `CoordinatorProperties.StartupState` | App.tsx:32-58 | a session starts on home with the sidebar closed; the journal is the loaded list or `[]`; the tour is open exactly when the check fails open; a read of any key other than the journal key returns the same as before startup, present or absent |
| `CoordinatorProperties.ReadFailureReplacesJournal` | App.tsx:38-67 | a journal read that throws gives an empty journal, and the first save overwrites the stored journal with the encoding of `[]` |
| `CoordinatorProperties.UnparsableJournalReplaced` | App.tsx:38-67 | non-empty stored text that does not parse gives an empty journal and is overwritten with the encoding of `[]` |
| `CoordinatorProperties.StartupPersists` | App.tsx:38-67 | when the mount-time writes go through, the store holds the whole journal after startup |
| `CoordinatorProperties.ResaveFailureLeavesEmptyOnDisk` | App.tsx:38-67 | a loaded list whose re-save throws stays in memory while the store holds the encoding of `[]` |
| `CoordinatorProperties.JournalSurvivesReload` | App.tsx:38-46 | a persisted journal is what the next session loads, whatever that session's writes do |
| `CoordinatorProperties.AddPrepends` | App.tsx:69-77 | one more entry, first; old entries in order; view, sidebar and tour unchanged; store holds the full new list or is untouched if the write throws; a read of the onboarding flag returns the same as before, present or absent |
| `CoordinatorProperties.AddRoundTrips` | App.tsx:61-67 | after a successful add, reading back the journal key parses to exactly the in-memory list |
| `CoordinatorProperties.ViewChangeClosesSidebar` | App.tsx:79-82 | navigation sets the view and closes the sidebar whatever its state; tour, journal and store unchanged |
| `CoordinatorProperties.SidebarToggles` | App.tsx:120-127 | the two sidebar handlers set only the sidebar flag |
| `CoordinatorProperties.TourPinnedToHome` | App.tsx:79-82 | after navigating, the tour shows exactly when it is open and the target is home; leaving home and coming back shows it again |
| `CoordinatorProperties.CloseTourEffect` | App.tsx:84-91 | closing hides the tour, writes `"true"` if the write goes through, and leaves view, sidebar and journal alone; a read of the journal key returns the same as before, present or absent |
| `CoordinatorProperties.CloseTourIdempotent` | App.tsx:84-91 | closing twice gives the same state as closing once |
| `CoordinatorProperties.OnboardingIsOneShot` | App.tsx:48-52 | after a successful close and any further calls in that session, a later session whose flag read works does not open the tour |
| `CoordinatorProperties.FailedCloseShowsTourAgain` | App.tsx:84-91 | with the flag unset, a close whose write throws, followed by any calls whose closes also fail to write, leaves the flag unset, so the next session opens the tour again |
| `CoordinatorProperties.RunJournal` | App.tsx:76 | after any sequence of calls, the journal is the added entries newest first, in front of the earlier ones |
| `CoordinatorProperties.RunJournalCount` | App.tsx:123 | the counter grows by exactly one per added entry |
| `CoordinatorProperties.PrependOrdering` | App.tsx:69-77 | three additions in a fresh session give `[e3, e2, e1]` |
| `CoordinatorProperties.StepPersists` | App.tsx:61-91 | a call whose journal write (if any) goes through keeps the journal key equal to the encoding of the journal |
| `CoordinatorProperties.RunPersists` | App.tsx:61-67 | while every journal write goes through, the store keeps holding the complete current journal |
| `CoordinatorProperties.RunKeepsFlag` | App.tsx:61-91 | a set onboarding flag stays set through any sequence of calls |
| `CoordinatorProperties.RunKeepsFlagUnset` | App.tsx:61-91 | an unset onboarding flag stays unset through any sequence of calls whose flag writes all throw |
| `CoordinatorProperties.RunKeepsTourOpen` | App.tsx:79-91 | only closing the tour closes it: navigation, sidebar use and additions keep an open tour open |
| `CoordinatorProperties.SessionJournalSurvivesReload` | App.tsx:38-77 | after a session whose journal writes all go through, the next session loads exactly the journal it ended with |

## Left out

- Rendering: the JSX, CSS classes and the components (`Sidebar`, `Header`, the pages, `OnboardingTour`) are not modelled. The `renderActiveView` switch (App.tsx:93-114) only dispatches on the active view. Its `default` branch cannot be reached, because `View` is closed.
- pages/HomeView.tsx is not part of this model. It only calls the navigation handler with fixed views, and that handler is modelled.
- `JSON.stringify` / `JSON.parse` are not modelled. They are the `Codec` parameter, and their round trip is the hypothesis `Faithful`.
- `LoadJournal`: the source sets whatever `JSON.parse` returns, even a non-array. The model's decoder yields a list or nothing, so such text counts as "does not parse" and the model goes on with `[]`. The source behaves differently:
  - for stored `null`, the re-render fails at App.tsx:123 (`journalEntries.length`), after the first save has already written `[]`;
  - for stored `5`, the source keeps the non-list and writes `5` back.
- The clock behind entry ids is not modelled: ids are inputs. Two entries created in the same millisecond get the same id. Nothing here relies on ids being unique.
- `console.error` logging is not modelled. It has no effect on state.
- React scheduling is left out beyond the order of the two mount effects and the save effect after each journal change.
- Several tabs writing the same keys (last writer wins) are left out. That is concurrency outside this component.
