/** The per-user day records kept in the document store
    (`users/{uid}/namazRecords/{dateId}`), as the dashboard and the history
    page read and write them. A record is a map from field name to value:
    the five prayer flags and a server-assigned `timestamp`. */
module Records {
  import opened Wrappers

  /** The five prayers, in the order the pages show them. */
  const PrayerNames: seq<string> := ["fajr", "dhuhr", "asr", "maghrib", "isha"]

  /** The field both write paths set to the server's time. */
  const TimestampField: string := "timestamp"

  /** A field value of a day record: a prayer flag, or the opaque server
      timestamp (`FieldValue.serverTimestamp()` once the server has set it). */
  datatype Field = Flag(on: bool) | ServerTime(time: int)

  type Doc = map<string, Field>

  /** JavaScript truthiness of a stored field value: a timestamp is an object,
      so it is truthy. */
  function Truthy(f: Field): bool {
    match f
    case Flag(b) => b
    case ServerTime(_) => true
  }

  /** `doc[name] || false`: whether the record marks `name` as done. */
  function FlagOf(doc: Doc, name: string): (b: bool)
    ensures name !in doc ==> !b
    ensures name in doc && doc[name].Flag? ==> b == doc[name].on
  {
    name in doc && Truthy(doc[name])
  }

  /** The all-missed record both pages fall back to when none is stored. */
  function Defaults(): (d: Doc)
    ensures d.Keys == set n | n in PrayerNames
    ensures forall n :: n in d ==> d[n] == Flag(false)
  {
    map["fajr" := Flag(false), "dhuhr" := Flag(false), "asr" := Flag(false),
        "maghrib" := Flag(false), "isha" := Flag(false)]
  }

  /** Every flag of the defaults reads as not done. */
  lemma DefaultsAllMissed(name: string)
    ensures !FlagOf(Defaults(), name)
  {
  }

  /** `set(patch, {merge: true})` on a document: every field of the patch
      overrides, every other field of the stored document stays. This is the
      semantics the store is taken to have; it is not derived from the store's code. */
  function Merge(base: Doc, patch: Doc): (r: Doc)
    ensures r.Keys == base.Keys + patch.Keys
    ensures forall k :: k in patch ==> r[k] == patch[k]
    ensures forall k :: k in base && k !in patch ==> r[k] == base[k]
  {
    base + patch
  }

  /** The signed-in identity: `currentUser.uid` and `currentUser.email`. */
  datatype User = User(uid: string, email: string)

  /** The path `users/{uid}/namazRecords/{dateId}`. */
  datatype DocRef = DocRef(uid: string, dateId: string)

  /** What `docRef.get()` yields: Some(data) when the snapshot exists. */
  function Snapshot(docs: map<DocRef, Doc>, ref: DocRef): (s: Option<Doc>)
    ensures s.Some? <==> ref in docs
    ensures s.Some? ==> s.value == docs[ref]
  {
    if ref in docs then Some(docs[ref]) else None
  }

  /** The record a handler works on: the snapshot's data, or the empty
      record when no document is stored (dashboard.js:45-48,
      history.js:133-136). */
  function DataOr(snap: Option<Doc>): (d: Doc)
    ensures snap.None? ==> d == map[]
    ensures snap.Some? ==> d == snap.value
  {
    if snap.Some? then snap.value else map[]
  }

  /** The document store of every user's day records. */
  class RecordStore {
    var docs: map<DocRef, Doc>

    constructor (initial: map<DocRef, Doc>)
      ensures docs == initial
    {
      docs := initial;
    }

    /** `docRef.get()`; a read changes nothing. */
    method Get(ref: DocRef) returns (snap: Option<Doc>)
      ensures snap.Some? <==> ref in docs
      ensures snap.Some? ==> snap.value == docs[ref]
    {
      snap := Snapshot(docs, ref);
    }

    /** `docRef.set(patch, {merge: true})`: only the record at `ref` changes,
        and it becomes the stored record (or the empty one) merged with `patch`. */
    method SetMerge(ref: DocRef, patch: Doc)
      modifies this
      ensures docs == old(docs)[ref := Merge(DataOr(Snapshot(old(docs), ref)), patch)]
    {
      docs := docs[ref := Merge(DataOr(Snapshot(docs, ref)), patch)];
    }
  }
}
