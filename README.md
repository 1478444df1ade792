# Satisfaction kiosk: vote recording, aggregation and admin gesture

A Dafny model of the logic of a single-page satisfaction kiosk. A visitor
picks an age bracket and taps one of four smileys (excellent, bien, moyen,
insuffisant). The page stores a feedback record `{rating, age, createdAt}`
at the head of a list that it writes, whole, to browser local storage under
the key `satisfaction-feedbacks`. The satisfaction component keeps a
per-session counter of taps. It reads the stored list back. It hides an
operator tab that opens after three quick taps in the top-right corner.
That tab shows a category × age-bracket count matrix and a plain-text export
of the session counter.

Modules, one per concern:

- `Votes` (`votes.dfy`): the four categories; `MapRatingToVoteType`, the
  total step function from a rating to a category; `MapVoteToRating`, the
  fixed table the page stores.
- `Records` (`records.dfy`): the six age brackets and the feedback record.
  Its age is kept as text, because what is read back from storage is not
  checked.
- `Storage` (`storage.dfy`): local storage as a class over
  `map<string, Blob>`. A `Blob` is the stored text, abstracted as the JSON of
  a list, the empty text, or text that is not JSON. There are three load
  functions, one per call site, because the call sites treat a parse failure
  differently.
- `AgeMatrix` (`age_matrix.dfy`): the 4×6 matrix. `ComputeMatrix` is the
  source's loop, proved equal to the specification `MatrixOf`. The lemmas
  relate each cell to an independent per-cell count and the total of the
  cells to the number of records with a known bracket.
- `SessionTally` (`session_tally.dfy`): the session counter, the export
  text, and a parser for that text, used to prove the text is unambiguous.
- `Decimal` (`decimal.dfy`): decimal text of a count and its inverse.
- `AdminGate` (`admin_gate.dfy`): the triple-tap state machine, as a pure
  transition `NextState` and as the class `Gate` whose `OnTap` mutates
  `lastClick` and `count`.
- `HomePage` (`home_page.dfy`): the page as a class with the selected age,
  the error message and the in-memory list.
- `Satisfaction` (`satisfaction_app.dfy`): the component as a class with the
  counter, active tab, stored records and matrix. It holds the page as its
  vote callback and shares the page's storage. Its invariant: while the
  operator tab is shown, the matrix is that of the stored records.

Behaviour of the code worth knowing when reading the model:

- Unlike the component's two loads, the page's initial load
  (`src/app/page.tsx:21-24`) does not catch a parse failure. `Home.Mount`
  returns `false` in that case and leaves the list unchanged.
- The component's reload after a vote (`SatisfactionApp.tsx:113-122`)
  ignores a parse failure and keeps its current list. On mount (`:150-160`)
  a parse failure gives the empty list.
- The reset clears only the session counter, never the stored records.
- The gesture uses the 150 px corner zone and a 700 ms window. A slow
  in-zone tap sets the count to 1.

## Model

| member | source | states |
|---|---|---|
| `Votes.MapRatingToVoteType` | src/components/SatisfactionApp.tsx:31-36 | total over all integers: excellent iff r >= 5, bien iff r = 4, moyen iff r = 3, insuffisant iff r <= 2 |
| `Votes.RankIsClampedRating` | src/components/SatisfactionApp.tsx:31-36 | the category's rank is the rating clamped to 2..5, minus 2 |
| `Votes.MapRatingMonotone` | src/components/SatisfactionApp.tsx:31-36 | a higher rating never gives a less satisfied category |
| `Votes.MapVoteToRating` | src/app/page.tsx:27-32 | every stored rating lies in 2..5 and maps back to the vote's own category |
| `Votes.RatingRoundTrip` | src/app/page.tsx:27-32 | on ratings 2..5 the two tables are inverse; ratings below 2 come back as 2 |
| `Votes.MapVoteToRatingInjective` | src/app/page.tsx:27-32 | distinct categories are stored as distinct ratings |
| `Records.AgeGroupsDistinct` | src/components/SatisfactionApp.tsx:20-21 | the six brackets are pairwise distinct |
| `Storage.ReadFeedbacks` | src/app/page.tsx:22-23 | nothing stored or empty text gives the empty list; a JSON list gives that list; fails exactly on text that is not JSON |
| `Storage.MountLoad` | src/components/SatisfactionApp.tsx:150-160 | as ReadFeedbacks, with a parse failure caught as the empty list |
| `Storage.ReloadAfterVote` | src/components/SatisfactionApp.tsx:113-122 | as ReadFeedbacks, with a parse failure ignored so the current list is kept |
| `Storage.PersistThenLoad` | src/app/page.tsx:34-38 | after the whole list is written under the key, every one of the three loads returns exactly that list |
| `Storage.LocalStorage.GetItem` | src/app/page.tsx:22 | returns the entry under the key, or nothing when the key is absent |
| `Storage.LocalStorage.SetItem` | src/app/page.tsx:37 | the key now maps to the value; no other key changes |
| `AgeMatrix.ZeroMatrixCells` | src/components/SatisfactionApp.tsx:166-199 | the initial matrix has all 24 cells present and 0 |
| `AgeMatrix.TallyCells` | src/components/SatisfactionApp.tsx:201-206 | one record adds 1 to the cell of its category and age and leaves every other cell and every key as it was |
| `AgeMatrix.TallySkipsUnknownAge` | src/components/SatisfactionApp.tsx:203-205 | a record whose age is not a bracket leaves the matrix unchanged |
| `AgeMatrix.TallyAllCells` | src/components/SatisfactionApp.tsx:201-206 | counting a list of records adds each cell's per-cell record count and keeps the matrix fully populated |
| `AgeMatrix.MatrixOfCells` | src/components/SatisfactionApp.tsx:163-209 | the view's matrix is fully populated and each cell is the number of records with that category and age |
| `AgeMatrix.MatrixOfTotal` | src/components/SatisfactionApp.tsx:163-209 | the 24 cells add up to the number of records whose age is a known bracket |
| `AgeMatrix.ComputeMatrix` | src/components/SatisfactionApp.tsx:166-208 | the loop yields the specified matrix, fully populated, with per-cell counts and total as above |
| `AgeMatrix.TwoVoteScenario` | src/components/SatisfactionApp.tsx:163-209 | votes 5/20-24 and 2/60+ give excellent/20-24 = 1, insuffisant/60+ = 1, every other cell 0 |
| `SessionTally.VoteCount.Inc` | src/components/SatisfactionApp.tsx:99 | the voted category goes up by exactly 1; the other three are unchanged |
| `SessionTally.CountAllCounts` | src/components/SatisfactionApp.tsx:99 | after a sequence of votes each category holds its start value plus its number of votes |
| `SessionTally.SessionCounts` | src/components/SatisfactionApp.tsx:125-132 | from the reset counter, each category holds exactly its number of votes |
| `SessionTally.ExportLines` | src/components/SatisfactionApp.tsx:134-139 | the report is the header followed by the Excellent, Bien, Moyen, Insuffisant lines, in that order |
| `SessionTally.ExportRoundTrip` | src/components/SatisfactionApp.tsx:134-139 | the report text reads back as exactly the counter it was built from |
| `SessionTally.ExportInjective` | src/components/SatisfactionApp.tsx:134-139 | distinct counters give distinct reports |
| `Decimal.NatToString` | src/components/SatisfactionApp.tsx:136-139 | a count renders as a non-empty digit string without a leading zero |
| `Decimal.NatRoundTrip` | src/components/SatisfactionApp.tsx:136-139 | the rendered count reads back as the count |
| `AdminGate.NextState` | src/components/SatisfactionApp.tsx:66-88 | out-of-zone taps change nothing; in-zone taps set lastClick to now; a slow tap sets count to 1; a quick in-zone tap that does not open adds one to the count; a tap opens iff it is in the zone, quick, and brings the count to 3, after which the count is 0; the count stays in 0..2 |
| `AdminGate.ThreeQuickTapsOpen` | src/components/SatisfactionApp.tsx:77-82 | a slow first tap and two quick taps open the tab on the third tap only and leave the count at 0 |
| `AdminGate.SlowThirdTapDoesNotOpen` | src/components/SatisfactionApp.tsx:77-87 | two quick taps and a slow third do not open; the count restarts at 1 |
| `AdminGate.OutsideThirdTapDoesNotOpen` | src/components/SatisfactionApp.tsx:70-73 | two quick taps and a third outside the zone do not open and leave the state as after the second |
| `AdminGate.OpensNeedThreeZoneTaps` | src/components/SatisfactionApp.tsx:62-92 | over any click sequence, 3 × opens + final count is at most the in-zone clicks + the starting count |
| `AdminGate.FewZoneTapsNeverOpen` | src/components/SatisfactionApp.tsx:62-92 | from the initial state, fewer than three in-zone clicks never open the tab |
| `AdminGate.Gate.constructor` | src/components/SatisfactionApp.tsx:63-64 | the listener starts with lastClick 0 and count 0 |
| `AdminGate.Gate.OnTap` | src/components/SatisfactionApp.tsx:66-88 | the new (lastClick, count) and the open flag are those of NextState |
| `HomePage.Home.constructor` | src/app/page.tsx:16-18 | no age selected, no error, empty list |
| `HomePage.Home.Mount` | src/app/page.tsx:21-24 | the list becomes the stored list (empty when nothing is stored); on text that is not JSON the load fails (`false`) and the list is kept |
| `HomePage.Home.SetAge` | src/app/page.tsx:70 | the selection becomes the chosen bracket |
| `HomePage.Home.Save` | src/app/page.tsx:34-38 | the new list is the record followed by the old list, and the storage key holds exactly the new list |
| `HomePage.Home.HandleVote` | src/app/page.tsx:41-52 | with no age: the error is set and the list and storage are unchanged; with an age: the error is cleared and a record with the selected age and the vote's rating is prepended and persisted |
| `Satisfaction.SatisfactionApp.constructor` | src/components/SatisfactionApp.tsx:43-56 | zero counter, vote tab, no stored records, no matrix, gate in its initial state |
| `Satisfaction.SatisfactionApp.SyncMatrix` | src/components/SatisfactionApp.tsx:163-209 | while the operator tab is shown the matrix becomes that of the stored records; otherwise it is left as it was |
| `Satisfaction.SatisfactionApp.Mount` | src/components/SatisfactionApp.tsx:150-160 | the stored records become the mount load of the storage entry |
| `Satisfaction.SatisfactionApp.OnGlobalClick` | src/components/SatisfactionApp.tsx:62-92 | the gate steps as NextState; when it opens, the operator tab is shown with the current matrix |
| `Satisfaction.SatisfactionApp.SetActiveTab` | src/components/SatisfactionApp.tsx:324 | the tab becomes the chosen one, with the matrix kept current |
| `Satisfaction.SatisfactionApp.HandleVote` | src/components/SatisfactionApp.tsx:94-123 | the voted category's count goes up by one and the records are reloaded; with no age the page shows the error and its list and storage are unchanged; with an age the page's error is cleared, the key holds the page's new list, and the reloaded list is that list, headed by the new record |
| `Satisfaction.SatisfactionApp.ResetVotes` | src/components/SatisfactionApp.tsx:125-132 | all four counts become 0; stored records and storage are untouched |
| `Satisfaction.SatisfactionApp.ExportResults` | src/components/SatisfactionApp.tsx:134-147 | the exported text is the report of the current counter and reads back as that counter |

## Left out

- Presentation: the smiley drawings, buttons, cards, tab layout, toast, the 250 ms highlight timer and the "Derniers votes" list of the 20 newest records. These only display state the model holds.
- Browser calls: the haptic `navigator.vibrate`, and the Blob, object URL and anchor used to download the report. `ExportResults` returns the report text only.
- React scheduling: state updates are applied in program order, and the matrix effect is the explicit `SyncMatrix` step run after each change to the tab or the stored records. Adding and removing the click listener is not modelled.
- The server-rendering guard `typeof window !== "undefined"`: the model always runs in the browser.
- JSON: stored text is a `Blob`. Text that parses to something other than a list of records (`null`, an object, records with missing or non-numeric fields) is not modelled. Ratings are integers.
- The matrix guard `base[col][f.age] !== undefined` is modelled as "the age is one of the row's six keys". JavaScript property lookup also accepts inherited names such as `toString`. That only adds an extra key, which the table never displays.
- Clock and window: `createdAt` is an opaque text, `Date.now()` is the parameter `now`, `window.innerWidth` is the parameter `width`, and pointer coordinates are integers.
- Storage write failures (quota exceeded, storage disabled): `SetItem` always succeeds.
- src/components/AgeTiles.tsx and src/components/AgeSelect.tsx are not part of this model. They are UI widgets; their only logic is the same six-bracket list, and `SetAge` requires one of those six brackets.
- HomePage.Home.Mount: when the stored text is not JSON, the source's `JSON.parse` throws out of the mount effect and nothing catches it, so React unmounts the page and the kiosk stops. The model only reports `false` and keeps the page usable; a later accepted vote would then overwrite the unparseable text, which the real page never reaches.
- SessionTally.VoteCount.Inc: counts are unbounded naturals. In the source they are JavaScript numbers, so `prev[type] + 1` stops growing at 2^53.
- Decimal.NatToString: renders plain decimal digits. A JavaScript template literal switches to exponent form from 1e21, which the model does not capture.
