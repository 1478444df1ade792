/**
 * The satisfaction component: the session counter, the records it reads
 * back from storage, the operator tab with its matrix, and the hidden
 * gesture that opens that tab.
 */
module Satisfaction {
  import opened Wrappers
  import opened Votes
  import opened Records
  import opened Storage
  import opened AgeMatrix
  import opened SessionTally
  import opened AdminGate
  import opened HomePage

  datatype Tab = VoteTab | AdminTab

  class SatisfactionApp {
    const storage: LocalStorage
    /** The page's vote callback, when one is given. */
    const onVote: Home?
    /** The click listener installed on mount. */
    const gate: Gate
    var votes: VoteCount
    var activeTab: Tab
    var stored: seq<Feedback>
    /** The matrix last computed; None until the operator tab is first shown. */
    var matrix: Option<Matrix>

    /**
     * The callback writes to the same storage the component reads, and while
     * the operator tab is shown its matrix is that of the stored records.
     */
    ghost predicate Valid()
      reads this, onVote
    {
      (onVote != null ==> onVote.storage == storage && onVote.Valid())
      && (activeTab == AdminTab ==> matrix == Some(MatrixOf(stored)))
    }

    constructor (storage: LocalStorage, onVote: Home?)
      requires onVote != null ==> onVote.storage == storage && onVote.Valid()
      ensures Valid() && fresh(gate)
      ensures this.storage == storage && this.onVote == onVote
      ensures votes == Zero && activeTab == VoteTab && stored == [] && matrix == None
      ensures gate.State() == Initial
    {
      this.storage := storage;
      this.onVote := onVote;
      gate := new Gate();
      votes := Zero;
      activeTab := VoteTab;
      stored := [];
      matrix := None;
    }

    /** The matrix effect: recomputed whenever the operator tab is shown. */
    method SyncMatrix()
      modifies this`matrix
      ensures matrix == if activeTab == AdminTab then Some(MatrixOf(stored)) else old(matrix)
    {
      if activeTab == AdminTab {
        var m := ComputeMatrix(stored);
        matrix := Some(m);
      }
    }

    /** The load on mount: a missing entry or a failed parse gives the empty list. */
    method Mount()
      requires Valid()
      modifies this`stored, this`matrix
      ensures Valid()
      ensures stored == MountLoad(Lookup(storage.items, StorageKey))
    {
      var raw := storage.GetItem(StorageKey);
      stored := MountLoad(raw);
      SyncMatrix();
    }

    /** A click anywhere in the window; three quick ones in the corner open the operator tab. */
    method OnGlobalClick(x: int, y: int, width: int, now: int) returns (unlocked: bool)
      requires Valid()
      modifies this`activeTab, this`matrix, gate
      ensures Valid()
      ensures TapOutcome(gate.State(), unlocked) == NextState(old(gate.State()), x, y, width, now)
      ensures activeTab == if unlocked then AdminTab else old(activeTab)
    {
      unlocked := gate.OnTap(x, y, width, now);
      if unlocked {
        activeTab := AdminTab;
        SyncMatrix();
      }
    }

    /** The tab control and the operator tab's back button. */
    method SetActiveTab(tab: Tab)
      requires Valid()
      modifies this`activeTab, this`matrix
      ensures Valid() && activeTab == tab
    {
      activeTab := tab;
      SyncMatrix();
    }

    /**
     * A smiley tap: the page records the vote (when it has a bracket), the
     * session count of `t` goes up by one, and the records are read back.
     */
    method HandleVote(t: VoteType, createdAt: Timestamp)
      requires Valid()
      modifies this`votes, this`stored, this`matrix, storage, onVote
      ensures Valid()
      ensures votes == old(votes).Inc(t)
      ensures stored == ReloadAfterVote(Lookup(storage.items, StorageKey), old(stored))
      ensures onVote == null ==> storage.items == old(storage.items)
      ensures onVote != null ==> onVote.age == old(onVote.age)
      ensures onVote != null && old(onVote.age) == "" ==>
        onVote.err == Some(AgeRequiredMessage)
        && onVote.data == old(onVote.data)
        && storage.items == old(storage.items)
      ensures onVote != null && old(onVote.age) != "" ==>
        onVote.err == None
        && storage.items == old(storage.items)[StorageKey := Stringify(onVote.data)]
        && stored == onVote.data
        && |stored| == |old(onVote.data)| + 1
        && stored[0] == Feedback(MapVoteToRating(t), onVote.age, createdAt)
        && stored[1..] == old(onVote.data)
    {
      if onVote != null {
        onVote.HandleVote(t, createdAt);
        if onVote.age != "" {
          PersistThenLoad(old(storage.items), onVote.data, stored);
        }
      }
      votes := votes.Inc(t);
      var raw := storage.GetItem(StorageKey);
      stored := ReloadAfterVote(raw, stored);
      SyncMatrix();
    }

    /** Zeroes the session counter; the stored records are not touched. */
    method ResetVotes()
      modifies this`votes
      ensures votes == Zero
      ensures stored == old(stored) && storage.items == old(storage.items)
    {
      votes := Zero;
    }

    /** The text of the exported report; it reads back as the session counter. */
    method ExportResults() returns (text: string)
      ensures text == ExportText(votes)
      ensures ParseReport(text) == Some(votes)
    {
      text := ExportText(votes);
      ExportRoundTrip(votes);
    }
  }
}
