/**
 * The clip list kept in the browser's local key-value storage: one slot, under the key
 * "recordedVideos", that holds the clips in the order they were saved. A missing slot reads
 * as the empty list.
 */
module Storage {
  import Decimal
  import opened Media

  /** The single key the clip list is stored under. */
  const VideosKey: string := "recordedVideos"

  /**
   * One saved clip: the time-based id (the clock in milliseconds, in decimal), the object URL
   * of its blob, and the ISO timestamp. There is no filename field.
   */
  datatype RecordedVideo = RecordedVideo(id: string, url: ObjectUrl, timestamp: string)

  /** The list stored under the key, or the empty list when the key is absent. */
  function ReadOrEmpty(items: map<string, seq<RecordedVideo>>): (videos: seq<RecordedVideo>)
    ensures VideosKey !in items ==> videos == []
    ensures VideosKey in items ==> videos == items[VideosKey]
  {
    if VideosKey in items then items[VideosKey] else []
  }

  /** The store after appending `v`: the earlier list, then `v`, written back under the key. */
  function Appended(items: map<string, seq<RecordedVideo>>, v: RecordedVideo): (after: map<string, seq<RecordedVideo>>)
    ensures after.Keys == items.Keys + {VideosKey}
    ensures forall k :: k in items && k != VideosKey ==> after[k] == items[k]
  {
    items[VideosKey := ReadOrEmpty(items) + [v]]
  }

  /** Reading after a save gives the previous list followed by the saved clip. */
  lemma SaveThenRead(items: map<string, seq<RecordedVideo>>, v: RecordedVideo)
    ensures ReadOrEmpty(Appended(items, v)) == ReadOrEmpty(items) + [v]
    ensures |ReadOrEmpty(Appended(items, v))| == |ReadOrEmpty(items)| + 1
    ensures VideosKey !in items ==> ReadOrEmpty(Appended(items, v)) == [v]
  {
  }

  /** Saving `vs` one after the other appends exactly `vs`, in order. */
  function SaveAll(items: map<string, seq<RecordedVideo>>, vs: seq<RecordedVideo>): map<string, seq<RecordedVideo>>
    decreases |vs|
  {
    if vs == [] then items else SaveAll(Appended(items, vs[0]), vs[1..])
  }

  lemma {:induction false} SaveAllAppends(items: map<string, seq<RecordedVideo>>, vs: seq<RecordedVideo>)
    ensures ReadOrEmpty(SaveAll(items, vs)) == ReadOrEmpty(items) + vs
    decreases |vs|
  {
    if vs != [] {
      SaveAllAppends(Appended(items, vs[0]), vs[1..]);
      assert [vs[0]] + vs[1..] == vs;
    }
  }

  /** After the key is removed the list reads as empty, whatever it held. */
  lemma RemovedReadsEmpty(items: map<string, seq<RecordedVideo>>)
    ensures ReadOrEmpty(items - {VideosKey}) == []
  {
  }

  /** The browser's `localStorage`, with the clip list already parsed. */
  class LocalStorage {
    var items: map<string, seq<RecordedVideo>>

    constructor ()
      ensures items == map[]
    {
      items := map[];
    }

    function RecordedVideos(): seq<RecordedVideo>
      reads this
    {
      ReadOrEmpty(items)
    }

    /**
     * Builds the record for `blob` (id from the clock `now`, in milliseconds; `timestamp` is
     * the clock as an ISO string), appends it to the stored list and returns that same record.
     */
    method SaveVideoToLocalStorage(blob: Blob, now: nat, timestamp: string) returns (video: RecordedVideo)
      modifies this
      ensures video == RecordedVideo(Decimal.NatToString(now), BlobUrl(blob), timestamp)
      ensures RecordedVideos() == old(RecordedVideos()) + [video]
      ensures items == Appended(old(items), video)
    {
      var id := Decimal.NatToString(now);
      var url := BlobUrl(blob);
      video := RecordedVideo(id, url, timestamp);
      var videos := if VideosKey in items then items[VideosKey] else [];
      videos := videos + [video];
      items := items[VideosKey := videos];
    }

    /** The stored list; the empty list when nothing was ever saved. */
    method GetRecordedVideos() returns (videos: seq<RecordedVideo>)
      ensures VideosKey !in items ==> videos == []
      ensures VideosKey in items ==> videos == items[VideosKey]
    {
      videos := if VideosKey in items then items[VideosKey] else [];
    }

    /** `localStorage.removeItem(key)`. */
    method RemoveItem(key: string)
      modifies this
      ensures items == old(items) - {key}
    {
      items := items - {key};
    }
  }

  /** The "Clear Recordings" action: drop the clip list (the page reload that follows is not modelled here). */
  method ClearRecordings(store: LocalStorage)
    modifies store
    ensures store.RecordedVideos() == []
    ensures forall k :: k in old(store.items) && k != VideosKey ==> k in store.items && store.items[k] == old(store.items)[k]
    ensures store.items == old(store.items) - {VideosKey}
  {
    store.RemoveItem(VideosKey);
  }
}
