/**
 * The page that owns the feedback list: it holds the selected age bracket,
 * the error message, and the in-memory list, and writes the whole list to
 * local storage on each recorded vote.
 */
module HomePage {
  import opened Wrappers
  import opened Votes
  import opened Records
  import opened Storage

  /** Shown when a smiley is tapped before an age bracket is chosen. */
  const AgeRequiredMessage: string := "Choisis une tranche d’âge avant de voter."

  class Home {
    const storage: LocalStorage
    /** The selected bracket; "" until one is chosen. */
    var age: string
    var err: Option<string>
    /** The feedback list, newest first. */
    var data: seq<Feedback>

    /** The selection only ever holds one of the six brackets, once made. */
    ghost predicate Valid()
      reads this
    {
      age == "" || KnownAge(age)
    }

    constructor (storage: LocalStorage)
      ensures Valid()
      ensures this.storage == storage && age == "" && err == None && data == []
    {
      this.storage := storage;
      age, err, data := "", None, [];
    }

    /**
     * The load on mount. The parse is not guarded here: text that is not
     * JSON makes the load throw, reported as `false`, and the list stays.
     */
    method Mount() returns (ok: bool)
      modifies this`data
      ensures var r := ReadFeedbacks(Lookup(storage.items, StorageKey));
        ok == r.Ok? && data == (if ok then r.value else old(data))
    {
      var raw := storage.GetItem(StorageKey);
      var r := ReadFeedbacks(raw);
      if r.Err? {
        return false;
      }
      data := r.value;
      ok := true;
    }

    /** The age selector's change handler; it offers only the six brackets. */
    method SetAge(a: string)
      requires KnownAge(a)
      modifies this`age
      ensures Valid() && age == a
    {
      age := a;
    }

    /** Prepends the record and persists the whole new list under the fixed key. */
    method Save(f: Feedback)
      modifies this`data, storage
      ensures data == [f] + old(data)
      ensures storage.items == old(storage.items)[StorageKey := Stringify(data)]
    {
      var next := [f] + data;
      data := next;
      storage.SetItem(StorageKey, Stringify(next));
    }

    /**
     * The vote callback: without a bracket, only the error is set; with one,
     * the error is cleared and a record with the vote's rating is saved.
     */
    method HandleVote(t: VoteType, createdAt: Timestamp)
      requires Valid()
      modifies this`err, this`data, storage
      ensures old(age) == "" ==>
        err == Some(AgeRequiredMessage) && data == old(data) && storage.items == old(storage.items)
      ensures old(age) != "" ==>
        err == None
        && |data| == |old(data)| + 1
        && data[0] == Feedback(MapVoteToRating(t), age, createdAt)
        && data[1..] == old(data)
        && KnownAge(data[0].age) && 2 <= data[0].rating <= 5
        && storage.items == old(storage.items)[StorageKey := Stringify(data)]
    {
      if age == "" {
        err := Some(AgeRequiredMessage);
        return;
      }
      err := None;
      Save(Feedback(MapVoteToRating(t), age, createdAt));
    }
  }
}
