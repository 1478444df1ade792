/**
 * Browser local storage, reduced to what the feedback store needs: a map
 * from keys to stored texts, with the JSON text abstracted to a `Blob`, and
 * the three ways the components turn what they read back into a list.
 */
module Storage {
  import opened Wrappers
  import opened Records

  /** The one key under which the whole feedback list is kept. */
  const StorageKey: string := "satisfaction-feedbacks"

  /**
   * A stored text: the JSON of a feedback list, the empty text (falsy, so
   * read as "nothing stored"), or text on which `JSON.parse` throws.
   */
  datatype Blob = Json(records: seq<Feedback>) | EmptyText | NotJson

  /** Why reading the stored list failed: `JSON.parse` threw. */
  datatype LoadError = ParseError

  /** `JSON.stringify` of a feedback list. */
  function Stringify(records: seq<Feedback>): (b: Blob)
    ensures b != EmptyText && b != NotJson
  {
    Json(records)
  }

  /** `localStorage.getItem`: `null` when nothing is stored under the key. */
  function Lookup(items: map<string, Blob>, key: string): (raw: Option<Blob>)
    ensures raw.Some? <==> key in items
    ensures raw.Some? ==> raw.value == items[key]
  {
    if key in items then Some(items[key]) else None
  }

  /**
   * `raw ? JSON.parse(raw) : []`: nothing stored or the empty text gives the
   * empty list, a JSON list gives that list, other text fails to parse.
   */
  function ReadFeedbacks(raw: Option<Blob>): (r: Result<seq<Feedback>, LoadError>)
    ensures (raw == None || raw == Some(EmptyText)) ==> r == Ok([])
    ensures raw.Some? && raw.value.Json? ==> r == Ok(raw.value.records)
    ensures r.Err? <==> raw == Some(NotJson)
  {
    match raw
    case None => Ok([])
    case Some(Json(rs)) => Ok(rs)
    case Some(EmptyText) => Ok([])
    case Some(NotJson) => Err(ParseError)
  }

  /** The component's load on mount: a parse failure is caught and gives the empty list. */
  function MountLoad(raw: Option<Blob>): (fs: seq<Feedback>)
    ensures raw == None ==> fs == []
    ensures raw == Some(NotJson) ==> fs == []
    ensures ReadFeedbacks(raw).Ok? ==> fs == ReadFeedbacks(raw).value
  {
    match ReadFeedbacks(raw)
    case Ok(rs) => rs
    case Err(_) => []
  }

  /** The component's reload after a vote: a parse failure is ignored and keeps `current`. */
  function ReloadAfterVote(raw: Option<Blob>, current: seq<Feedback>): (fs: seq<Feedback>)
    ensures raw == None ==> fs == []
    ensures raw == Some(NotJson) ==> fs == current
    ensures ReadFeedbacks(raw).Ok? ==> fs == ReadFeedbacks(raw).value
  {
    match ReadFeedbacks(raw)
    case Ok(rs) => rs
    case Err(_) => current
  }

  /** What `setItem(StorageKey, JSON.stringify(fs))` writes is what every reader gets back. */
  lemma PersistThenLoad(items: map<string, Blob>, fs: seq<Feedback>, current: seq<Feedback>)
    ensures ReadFeedbacks(Lookup(items[StorageKey := Stringify(fs)], StorageKey)) == Ok(fs)
    ensures MountLoad(Lookup(items[StorageKey := Stringify(fs)], StorageKey)) == fs
    ensures ReloadAfterVote(Lookup(items[StorageKey := Stringify(fs)], StorageKey), current) == fs
  {
  }

  /** The browser's key-value store; every component shares the one instance. */
  class LocalStorage {
    var items: map<string, Blob>

    constructor (initial: map<string, Blob>)
      ensures items == initial
    {
      items := initial;
    }

    method GetItem(key: string) returns (raw: Option<Blob>)
      ensures raw.Some? <==> key in items
      ensures raw.Some? ==> raw.value == items[key]
    {
      if key in items {
        raw := Some(items[key]);
      } else {
        raw := None;
      }
    }

    method SetItem(key: string, value: Blob)
      modifies this
      ensures items == old(items)[key := value]
    {
      items := items[key := value];
    }
  }
}
