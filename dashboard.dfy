/** dashboard.js: the one-way "mark done" click handler and the load of
    today's record onto the five toggle buttons. */
module Dashboard {
  import opened Wrappers
  import opened Calendar
  import opened Utils
  import opened Records

  /** The document the click handler writes with merge (dashboard.js:55-59):
      `{...currentPrayers, [name]: true, timestamp: serverTimestamp()}`. In the
      object literal a later key wins, so a button named "timestamp" writes
      the timestamp. */
  function MarkDonePatch(current: Doc, name: string, now: int): Doc {
    current[name := Flag(true)][TimestampField := ServerTime(now)]
  }

  /** Today's record once the mark-done write for `name` has gone through,
      `snap` being what the handler read before writing. */
  function MarkDone(snap: Option<Doc>, name: string, now: int): Doc {
    Merge(DataOr(snap), MarkDonePatch(DataOr(snap), name, now))
  }

  /** Mark-done stores true for the prayer whatever it held before: the
      value it read (`currentStatus`, dashboard.js:51) plays no part. */
  lemma MarkDoneSetsDone(snap: Option<Doc>, name: string, now: int)
    requires name != TimestampField
    ensures name in MarkDone(snap, name, now) && MarkDone(snap, name, now)[name] == Flag(true)
    ensures FlagOf(MarkDone(snap, name, now), name)
    ensures TimestampField in MarkDone(snap, name, now)
    ensures MarkDone(snap, name, now)[TimestampField] == ServerTime(now)
  {
  }

  /** The write keeps every other field of the record as it was read. */
  lemma MarkDoneKeepsOtherFields(snap: Option<Doc>, name: string, now: int, k: string)
    requires k != name && k != TimestampField
    ensures k in MarkDone(snap, name, now) <==> k in DataOr(snap)
    ensures k in DataOr(snap) ==> MarkDone(snap, name, now)[k] == DataOr(snap)[k]
  {
  }

  /** Marking a prayer done twice gives the record marking it once, with the
      second write's timestamp. */
  lemma MarkDoneIdempotent(snap: Option<Doc>, name: string, t1: int, t2: int)
    ensures MarkDone(Some(MarkDone(snap, name, t1)), name, t2) == MarkDone(snap, name, t2)
  {
    var d := DataOr(snap);
    var once := MarkDone(snap, name, t1);
    assert once == d[name := Flag(true)][TimestampField := ServerTime(t1)];
    assert MarkDone(Some(once), name, t2) == d[name := Flag(true)][TimestampField := ServerTime(t2)];
  }

  /** The `prayers` object of loadDashboardPrayers (dashboard.js:93-103): the
      five defaults, with the stored record assigned over them. */
  function LoadedPrayers(snap: Option<Doc>): Doc
  {
    if snap.Some? then Merge(Defaults(), snap.value) else Defaults()
  }

  /** The done bit of each button after a load, `prayers[name] || false`. */
  function ButtonStates(prayers: Doc, buttonPrayers: seq<string>): (s: seq<bool>)
    ensures |s| == |buttonPrayers|
  {
    seq(|buttonPrayers|, i requires 0 <= i < |buttonPrayers| => FlagOf(prayers, buttonPrayers[i]))
  }

  /** Overlaying the defaults changes nothing a button shows: each button shows
      exactly the stored flag, and every prayer shows missed when no record
      is stored. */
  lemma LoadedShowsStored(snap: Option<Doc>, buttonPrayers: seq<string>, i: int)
    requires 0 <= i < |buttonPrayers|
    ensures ButtonStates(LoadedPrayers(snap), buttonPrayers)[i] == FlagOf(DataOr(snap), buttonPrayers[i])
    ensures snap.None? ==> !ButtonStates(LoadedPrayers(snap), buttonPrayers)[i]
  {
    var n := buttonPrayers[i];
    DefaultsAllMissed(n);
  }

  const LoginToTrack: Notice := Notice("Please log in to track prayers.", Error)
  const Loaded: Notice := Notice("Dashboard loaded successfully.", Info)

  function UpdatedNotice(name: string): Notice {
    Notice(Capitalize(name) + " prayer status updated!", Success)
  }

  function UpdateFailed(message: string): Notice {
    Notice("Error updating prayer: " + message, Error)
  }

  function LoadFailed(message: string): Notice {
    Notice("Error loading dashboard: " + message, Error)
  }

  /** The dashboard page: its toggle buttons (the `data-prayer` of each and
      whether it shows done), the user e-mail display and the message area. */
  class DashboardPage {
    const buttonPrayers: seq<string>
    var done: seq<bool>
    const hasEmailDisplay: bool
    var emailShown: string
    var message: Option<Notice>

    ghost predicate Valid()
      reads this
    {
      |done| == |buttonPrayers|
    }

    constructor (buttonPrayers: seq<string>, done: seq<bool>, hasEmailDisplay: bool)
      requires |done| == |buttonPrayers|
      ensures Valid()
      ensures this.buttonPrayers == buttonPrayers && this.done == done
      ensures this.hasEmailDisplay == hasEmailDisplay && emailShown == "" && message == None
    {
      this.buttonPrayers := buttonPrayers;
      this.done := done;
      this.hasEmailDisplay := hasEmailDisplay;
      emailShown := "";
      message := None;
    }

    /** The click on button `j` (dashboard.js:28-71), `today` being the UTC day
        of the click and `now` the time the server stamps on the write. The
        read and the write of the store may each fail; the button turns
        done only once the write has gone through. */
    method Click(j: nat, user: Option<User>, today: int, now: int, store: RecordStore,
                 read: Outcome, write: Outcome)
      requires Valid() && j < |buttonPrayers| && InRange(today)
      modifies this, store
      ensures Valid() && emailShown == old(emailShown)
      ensures user.None? ==>
        store.docs == old(store.docs) && done == old(done) && message == Some(LoginToTrack)
      ensures user.Some? && read.Err? ==>
        store.docs == old(store.docs) && done == old(done) && message == Some(UpdateFailed(read.message))
      ensures user.Some? && read.Ok? && write.Err? ==>
        store.docs == old(store.docs) && done == old(done) && message == Some(UpdateFailed(write.message))
      ensures user.Some? && read.Ok? && write.Ok? ==>
        var ref := DocRef(user.value.uid, DateId(today));
        && store.docs == old(store.docs)[ref := MarkDone(Snapshot(old(store.docs), ref), buttonPrayers[j], now)]
        && done == old(done)[j := true]
        && message == Some(UpdatedNotice(buttonPrayers[j]))
    {
      if user.None? {
        message := Some(LoginToTrack);
        return;
      }
      var name := buttonPrayers[j];
      var ref := DocRef(user.value.uid, DateId(today));
      if read.Err? {
        message := Some(UpdateFailed(read.message));
        return;
      }
      var snap := store.Get(ref);
      var currentPrayers := DataOr(snap);
      if write.Err? {
        message := Some(UpdateFailed(write.message));
        return;
      }
      store.SetMerge(ref, MarkDonePatch(currentPrayers, name, now));
      done := done[j := true];
      message := Some(UpdatedNotice(name));
    }

    /** loadDashboardPrayers (dashboard.js:76-119): with no signed-in user it
        does nothing; otherwise it shows the user's e-mail, reads today's
        record and sets every button from the defaults overlaid with it. */
    method Load(user: Option<User>, today: int, store: RecordStore, read: Outcome)
      requires Valid() && InRange(today)
      modifies this
      ensures Valid()
      ensures user.None? ==>
        done == old(done) && emailShown == old(emailShown) && message == old(message)
      ensures user.Some? ==>
        emailShown == if hasEmailDisplay then user.value.email else old(emailShown)
      ensures user.Some? && read.Err? ==>
        done == old(done) && message == Some(LoadFailed(read.message))
      ensures user.Some? && read.Ok? ==>
        var ref := DocRef(user.value.uid, DateId(today));
        && done == ButtonStates(LoadedPrayers(Snapshot(store.docs, ref)), buttonPrayers)
        && message == Some(Loaded)
    {
      if user.None? {
        return;
      }
      if hasEmailDisplay {
        emailShown := user.value.email;
      }
      var ref := DocRef(user.value.uid, DateId(today));
      if read.Err? {
        message := Some(LoadFailed(read.message));
        return;
      }
      var snap := store.Get(ref);
      ShowStates(LoadedPrayers(snap));
      message := Some(Loaded);
    }

    /** The `togglePrayerBtns.forEach` of loadDashboardPrayers
        (dashboard.js:106-112): each button shows `prayers[name] || false`. */
    method ShowStates(prayers: Doc)
      requires Valid()
      modifies this
      ensures Valid() && done == ButtonStates(prayers, buttonPrayers)
      ensures emailShown == old(emailShown) && message == old(message)
    {
      for i := 0 to |buttonPrayers|
        invariant |done| == |buttonPrayers|
        invariant emailShown == old(emailShown) && message == old(message)
        invariant forall k :: 0 <= k < i ==> done[k] == FlagOf(prayers, buttonPrayers[k])
      {
        done := done[i := FlagOf(prayers, buttonPrayers[i])];
      }
    }
  }
}
