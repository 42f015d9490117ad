/** history.js: the rolling window of day cards rebuilt from the fetched
    records (loadNamazHistory) and the true toggle of one prayer on one
    day (updateHistoryPrayerStatus). */
module History {
  import opened Wrappers
  import opened Calendar
  import opened Utils
  import opened Records

  /** One rendered day: its UTC day, the `data-date` of its buttons and
      whether each of the five prayer buttons shows done. */
  datatype Card = Card(day: int, dateId: string, flags: seq<bool>)

  /** The contents of `historyList`: what the page came with, the loading
      text, or the cards appended so far. */
  datatype ListView = Initial | LoadingText | Cards(cards: seq<Card>)

  /** The most documents a successful query under `limit(days * 2)`
      (history.js:48) can deliver, taken as none when `days <= 0`. Whether the
      store accepts such a cap at all is not modelled: a rejection is a failed
      query outcome. */
  function FetchLimit(days: int): int {
    if days > 0 then 2 * days else 0
  }

  /** The window's days `today - i` for `0 <= i < days` all print as
      four-digit years. */
  predicate WindowInRange(today: int, days: int) {
    InRange(today) && (days > 0 ==> InRange(today - days + 1))
  }

  /** The `records` object filled by `querySnapshot.forEach` (history.js:51-55):
      each fetched document under its id, a later one winning. */
  function IndexRecords(fetched: seq<(string, Doc)>): map<string, Doc>
  {
    if fetched == [] then map[]
    else
      var last := fetched[|fetched| - 1];
      IndexRecords(fetched[..|fetched| - 1])[last.0 := last.1]
  }

  predicate DistinctIds(fetched: seq<(string, Doc)>) {
    forall a, b :: 0 <= a < b < |fetched| ==> fetched[a].0 != fetched[b].0
  }

  /** An id is indexed exactly when some fetched document has it. */
  lemma {:induction false} IndexedIds(fetched: seq<(string, Doc)>, id: string)
    ensures id in IndexRecords(fetched) <==> exists k :: 0 <= k < |fetched| && fetched[k].0 == id
  {
    if fetched != [] {
      var init := fetched[..|fetched| - 1];
      IndexedIds(init, id);
      if id in IndexRecords(init) {
        var k :| 0 <= k < |init| && init[k].0 == id;
        assert fetched[k].0 == id;
      }
      if exists k :: 0 <= k < |fetched| && fetched[k].0 == id {
        var k :| 0 <= k < |fetched| && fetched[k].0 == id;
        if k < |init| {
          assert init[k].0 == id;
        }
      }
    }
  }

  /** Document ids within a collection are distinct, so each fetched document
      is found under its own id. */
  lemma {:induction false} IndexedValue(fetched: seq<(string, Doc)>, k: int)
    requires DistinctIds(fetched) && 0 <= k < |fetched|
    ensures fetched[k].0 in IndexRecords(fetched)
    ensures IndexRecords(fetched)[fetched[k].0] == fetched[k].1
  {
    var init := fetched[..|fetched| - 1];
    if k < |init| {
      assert DistinctIds(init) by {
        forall a, b | 0 <= a < b < |init| ensures init[a].0 != init[b].0 {
          assert init[a] == fetched[a] && init[b] == fetched[b];
        }
      }
      IndexedValue(init, k);
      assert fetched[k] == init[k];
    }
  }

  /** The five flags a card shows for a record: `prayerData[prayer]` read
      as a truth value, in the order fajr, dhuhr, asr, maghrib, isha. */
  function CardFlags(data: Doc): (f: seq<bool>)
    ensures |f| == |PrayerNames|
  {
    seq(|PrayerNames|, j requires 0 <= j < |PrayerNames| => FlagOf(data, PrayerNames[j]))
  }

  /** The card of day `day`: its record by id, or the all-missed defaults. */
  function CardFor(records: map<string, Doc>, day: int): (c: Card)
    requires InRange(day)
    ensures c.day == day && c.dateId == DateId(day) && |c.flags| == |PrayerNames|
  {
    var id := DateId(day);
    Card(day, id, CardFlags(if id in records then records[id] else Defaults()))
  }

  /** The day `i` days before `today`: `date.setDate(now.getDate() - i)`,
      taken on UTC days. */
  function WindowDay(today: int, i: int): int {
    today - i
  }

  /** The cards of the last `days` days, newest first (history.js:59-97). */
  function Window(records: map<string, Doc>, today: int, days: int): (w: seq<Card>)
    requires WindowInRange(today, days)
    ensures |w| == if days > 0 then days else 0
  {
    var n := if days > 0 then days else 0;
    seq(n, i requires 0 <= i < n && InRange(WindowDay(today, i)) => CardFor(records, WindowDay(today, i)))
  }

  /** Card `i` of the window is the card of the day `i` days before today. */
  lemma WindowCard(records: map<string, Doc>, today: int, days: int, i: int)
    requires WindowInRange(today, days) && 0 <= i < days
    ensures InRange(WindowDay(today, i))
    ensures Window(records, today, days)[i] == CardFor(records, WindowDay(today, i))
  {
  }

  /** One more day extends the window by the card of the next older day. */
  lemma WindowStep(records: map<string, Doc>, today: int, i: nat)
    requires WindowInRange(today, i + 1)
    ensures WindowInRange(today, i)
    ensures Window(records, today, i + 1) == Window(records, today, i) + [CardFor(records, WindowDay(today, i))]
  {
    var longer := Window(records, today, i + 1);
    var extended := Window(records, today, i) + [CardFor(records, WindowDay(today, i))];
    forall k | 0 <= k < i + 1
      ensures longer[k] == extended[k]
    {
      WindowCard(records, today, i + 1, k);
      if k < i {
        WindowCard(records, today, i, k);
      }
    }
    assert longer == extended;
  }

  /** The window has exactly `days` cards (none when `days <= 0`); card `i`
      is today minus `i` days, under that day's id. */
  lemma WindowShape(records: map<string, Doc>, today: int, days: int)
    requires WindowInRange(today, days)
    ensures |Window(records, today, days)| == if days > 0 then days else 0
    ensures forall i :: 0 <= i < |Window(records, today, days)| ==>
      && Window(records, today, days)[i].day == today - i
      && Window(records, today, days)[i].dateId == DateId(WindowDay(today, i))
      && |Window(records, today, days)[i].flags| == |PrayerNames|
  {
    forall i | 0 <= i < |Window(records, today, days)|
      ensures Window(records, today, days)[i].day == today - i
      ensures Window(records, today, days)[i].dateId == DateId(WindowDay(today, i))
      ensures |Window(records, today, days)[i].flags| == |PrayerNames|
    {
      WindowCard(records, today, days, i);
    }
  }

  /** No two cards of the window share an id. */
  lemma WindowIdsDistinct(records: map<string, Doc>, today: int, days: int, i: int, j: int)
    requires WindowInRange(today, days)
    requires 0 <= i < |Window(records, today, days)| && 0 <= j < |Window(records, today, days)|
    requires i != j
    ensures Window(records, today, days)[i].dateId != Window(records, today, days)[j].dateId
  {
    WindowCard(records, today, days, i);
    WindowCard(records, today, days, j);
    DateIdInjective(WindowDay(today, i), WindowDay(today, j));
  }

  /** A window day whose id is among no fetched document shows all five
      prayers missed, whatever the store holds for that day beyond the
      fetched subset. */
  lemma WindowUnfetchedAllMissed(fetched: seq<(string, Doc)>, today: int, days: int, i: int)
    requires WindowInRange(today, days)
    requires 0 <= i < |Window(IndexRecords(fetched), today, days)|
    requires forall k :: 0 <= k < |fetched| ==> fetched[k].0 != DateId(WindowDay(today, i))
    ensures forall j :: 0 <= j < |PrayerNames| ==> !Window(IndexRecords(fetched), today, days)[i].flags[j]
  {
    WindowCard(IndexRecords(fetched), today, days, i);
    IndexedIds(fetched, DateId(WindowDay(today, i)));
    forall j | 0 <= j < |PrayerNames| {
      DefaultsAllMissed(PrayerNames[j]);
    }
  }

  /** A fetched document supplies the flags of the card of its day; a prayer
      field the document lacks shows missed. */
  lemma WindowFetchedFlags(fetched: seq<(string, Doc)>, today: int, days: int, i: int, k: int)
    requires WindowInRange(today, days) && DistinctIds(fetched)
    requires 0 <= i < |Window(IndexRecords(fetched), today, days)|
    requires 0 <= k < |fetched| && fetched[k].0 == DateId(WindowDay(today, i))
    ensures forall j :: 0 <= j < |PrayerNames| ==>
      Window(IndexRecords(fetched), today, days)[i].flags[j] == FlagOf(fetched[k].1, PrayerNames[j])
    ensures forall j :: 0 <= j < |PrayerNames| && PrayerNames[j] !in fetched[k].1 ==>
      !Window(IndexRecords(fetched), today, days)[i].flags[j]
  {
    WindowCard(IndexRecords(fetched), today, days, i);
    IndexedValue(fetched, k);
  }

  const LoginToView: Notice := Notice("Please log in to view history.", Error)
  const LoginToUpdate: Notice := Notice("Please log in to update records.", Error)
  const NoRecords: Notice := Notice("No prayer records found for the selected period.", Info)

  function LoadedNotice(days: nat): Notice {
    Notice("History for last " + Decimal(days) + " days loaded.", Success)
  }

  function LoadFailed(message: string): Notice {
    Notice("Error loading history: " + message, Error)
  }

  /** The summary after the loop (history.js:99-103). `hasRecords` is set on
      every pass, so the "no records" notice appears exactly when the loop
      ran zero times. */
  function SummaryNotice(days: int): (n: Notice)
    ensures n == NoRecords <==> days <= 0
    ensures days > 0 ==> n.severity == Success
  {
    if days > 0 then LoadedNotice(days) else NoRecords
  }

  /** With nothing stored at all, a 7-day window shows seven all-missed cards
      and still reports success, not "no records". */
  lemma NothingStoredStillReportsLoaded(today: int)
    requires WindowInRange(today, 7)
    ensures |Window(IndexRecords([]), today, 7)| == 7
    ensures forall i, j :: 0 <= i < 7 && 0 <= j < |PrayerNames| ==> !Window(IndexRecords([]), today, 7)[i].flags[j]
    ensures SummaryNotice(7) == LoadedNotice(7) != NoRecords
  {
    forall i, j | 0 <= i < 7 && 0 <= j < |PrayerNames|
      ensures !Window(IndexRecords([]), today, 7)[i].flags[j]
    {
      WindowUnfetchedAllMissed([], today, 7, i);
    }
  }

  /** The merge write of the toggle (history.js:152-155): only the flag and
      the timestamp, the flag being the negation of the stored value. */
  function TogglePatch(current: Doc, name: string, now: int): Doc {
    map[name := Flag(!FlagOf(current, name))][TimestampField := ServerTime(now)]
  }

  /** The record of a day once the toggle write has gone through, `snap`
      being what the handler read. */
  function Toggled(snap: Option<Doc>, name: string, now: int): Doc {
    Merge(DataOr(snap), TogglePatch(DataOr(snap), name, now))
  }

  /** Merging a patch of one field and the timestamp is updating the two. */
  lemma MergeFieldAndTime(base: Doc, name: string, v: Field, now: int)
    ensures Merge(base, map[name := v][TimestampField := ServerTime(now)])
         == base[name := v][TimestampField := ServerTime(now)]
  {
    var patch := map[name := v][TimestampField := ServerTime(now)];
    var merged := Merge(base, patch);
    var updated := base[name := v][TimestampField := ServerTime(now)];
    assert merged.Keys == updated.Keys;
    forall k | k in merged
      ensures merged[k] == updated[k]
    {
      if k in patch {
        assert merged[k] == patch[k];
      } else {
        assert merged[k] == base[k];
      }
    }
  }

  /** The toggle stores the negation of the stored flag, absent counting as
      not done. */
  lemma ToggleNegates(snap: Option<Doc>, name: string, now: int)
    requires name != TimestampField
    ensures name in Toggled(snap, name, now)
    ensures Toggled(snap, name, now)[name] == Flag(!FlagOf(DataOr(snap), name))
    ensures FlagOf(Toggled(snap, name, now), name) == !FlagOf(DataOr(snap), name)
  {
  }

  /** The toggle changes only that prayer's field and the timestamp. */
  lemma ToggleKeepsOtherFields(snap: Option<Doc>, name: string, now: int, k: string)
    requires k != name && k != TimestampField
    ensures k in Toggled(snap, name, now) <==> k in DataOr(snap)
    ensures k in DataOr(snap) ==> Toggled(snap, name, now)[k] == DataOr(snap)[k]
  {
  }

  /** Toggling twice restores the flag: the record is the original one with
      the flag stored as a boolean and the second write's timestamp. */
  lemma ToggleInvolution(snap: Option<Doc>, name: string, t1: int, t2: int)
    requires name != TimestampField
    ensures FlagOf(Toggled(Some(Toggled(snap, name, t1)), name, t2), name) == FlagOf(DataOr(snap), name)
    ensures Toggled(Some(Toggled(snap, name, t1)), name, t2)
         == DataOr(snap)[name := Flag(FlagOf(DataOr(snap), name))][TimestampField := ServerTime(t2)]
  {
    var d := DataOr(snap);
    var f := FlagOf(d, name);
    MergeFieldAndTime(d, name, Flag(!f), t1);
    var once := d[name := Flag(!f)][TimestampField := ServerTime(t1)];
    assert Toggled(snap, name, t1) == once;
    assert FlagOf(once, name) == !f;
    MergeFieldAndTime(once, name, Flag(f), t2);
    assert Toggled(Some(once), name, t2) == once[name := Flag(f)][TimestampField := ServerTime(t2)];
    OverwriteFieldAndTime(d, name, Flag(!f), Flag(f), ServerTime(t1), ServerTime(t2));
  }

  /** Writing a field and the timestamp twice keeps only the second values. */
  lemma OverwriteFieldAndTime(d: Doc, name: string, a: Field, b: Field, x: Field, y: Field)
    requires name != TimestampField
    ensures d[name := a][TimestampField := x][name := b][TimestampField := y]
         == d[name := b][TimestampField := y]
  {
    var twice := d[name := a][TimestampField := x][name := b][TimestampField := y];
    var once := d[name := b][TimestampField := y];
    assert twice.Keys == once.Keys;
    forall k | k in twice
      ensures twice[k] == once[k]
    {
    }
  }

  function ToggledNotice(name: string, dateId: string): Notice {
    Notice(Capitalize(name) + " for " + dateId + " updated!", Success)
  }

  function ToggleFailed(message: string): Notice {
    Notice("Error updating history prayer: " + message, Error)
  }

  /** The `querySnapshot.forEach` of loadNamazHistory (history.js:51-55). */
  method IndexFetched(fetched: seq<(string, Doc)>) returns (records: map<string, Doc>)
    ensures records == IndexRecords(fetched)
  {
    records := map[];
    for k := 0 to |fetched|
      invariant records == IndexRecords(fetched[..k])
    {
      assert fetched[..k + 1][..k] == fetched[..k];
      records := records[fetched[k].0 := fetched[k].1];
    }
    assert fetched[..|fetched|] == fetched;
  }

  /** The history page: the list of cards and the message area. */
  class HistoryPage {
    var list: ListView
    var message: Option<Notice>

    ghost predicate Valid()
      reads this
    {
      list.Cards? ==> forall c :: 0 <= c < |list.cards| ==> |list.cards[c].flags| == |PrayerNames|
    }

    constructor ()
      ensures Valid() && list == Initial && message == None
    {
      list := Initial;
      message := None;
    }

    /** loadNamazHistory (history.js:32-115) for a window of `days` days ending
        on the UTC day `today`. `fetched` is what the query ordered by
        timestamp and capped at `limit(days * 2)` returned, and `query` whether
        it succeeded. The store itself is not read. */
    method Load(user: Option<User>, days: int, today: int, fetched: seq<(string, Doc)>, query: Outcome)
      requires Valid() && WindowInRange(today, days)
      requires |fetched| <= FetchLimit(days)
      modifies this
      ensures Valid()
      ensures user.None? ==> list == old(list) && message == Some(LoginToView)
      ensures user.Some? && query.Err? ==> list == LoadingText && message == Some(LoadFailed(query.message))
      ensures user.Some? && query.Ok? ==>
        && list == Cards(Window(IndexRecords(fetched), today, days))
        && message == Some(SummaryNotice(days))
    {
      if user.None? {
        message := Some(LoginToView);
        return;
      }
      list := LoadingText;
      if query.Err? {
        message := Some(LoadFailed(query.message));
        return;
      }
      var records := IndexFetched(fetched);
      list := Cards([]);
      var hasRecords := ShowWindow(records, today, days);
      WindowShape(records, today, days);
      if !hasRecords {
        message := Some(NoRecords);
      } else {
        message := Some(LoadedNotice(days));
      }
    }

    /** The `for (let i = 0; i < days; i++)` loop of loadNamazHistory
        (history.js:59-97): appends the card of each day, newest first, to
        the emptied list. `hasRecords` is set on every pass. */
    method ShowWindow(records: map<string, Doc>, today: int, days: int) returns (hasRecords: bool)
      requires WindowInRange(today, days) && list == Cards([])
      modifies this
      ensures list == Cards(Window(records, today, days)) && message == old(message)
      ensures hasRecords <==> days > 0
    {
      hasRecords := false;
      var i := 0;
      while i < days
        invariant 0 <= i <= (if days > 0 then days else 0)
        invariant WindowInRange(today, i)
        invariant list == Cards(Window(records, today, i)) && message == old(message)
        invariant hasRecords == (i > 0)
      {
        var card := CardFor(records, WindowDay(today, i));
        WindowStep(records, today, i);
        list := Cards(list.cards + [card]);
        hasRecords := true;
        i := i + 1;
      }
    }

    /** updateHistoryPrayerStatus (history.js:118-162) for prayer `p` on card
        `c`. The button flips at once from the value read; the write may
        still fail, and the button is not set back. */
    method Toggle(c: nat, p: nat, user: Option<User>, now: int, store: RecordStore,
                  read: Outcome, write: Outcome)
      requires Valid() && list.Cards? && c < |list.cards| && p < |PrayerNames|
      modifies this, store
      ensures Valid()
      ensures user.None? ==>
        store.docs == old(store.docs) && list == old(list) && message == Some(LoginToUpdate)
      ensures user.Some? && read.Err? ==>
        store.docs == old(store.docs) && list == old(list) && message == Some(ToggleFailed(read.message))
      ensures user.Some? && read.Ok? ==>
        var card := old(list).cards[c];
        var name := PrayerNames[p];
        var ref := DocRef(user.value.uid, card.dateId);
        var flipped := !FlagOf(DataOr(Snapshot(old(store.docs), ref)), name);
        && list == Cards(old(list).cards[c := card.(flags := card.flags[p := flipped])])
        && (write.Ok? ==>
              && store.docs == old(store.docs)[ref := Toggled(Snapshot(old(store.docs), ref), name, now)]
              && message == Some(ToggledNotice(name, card.dateId)))
        && (write.Err? ==> store.docs == old(store.docs) && message == Some(ToggleFailed(write.message)))
    {
      if user.None? {
        message := Some(LoginToUpdate);
        return;
      }
      var card := list.cards[c];
      var name := PrayerNames[p];
      var ref := DocRef(user.value.uid, card.dateId);
      if read.Err? {
        message := Some(ToggleFailed(read.message));
        return;
      }
      var snap := store.Get(ref);
      var currentPrayers := DataOr(snap);
      var newStatus := !FlagOf(currentPrayers, name);
      list := Cards(list.cards[c := card.(flags := card.flags[p := newStatus])]);
      if write.Err? {
        message := Some(ToggleFailed(write.message));
        return;
      }
      store.SetMerge(ref, map[name := Flag(newStatus)][TimestampField := ServerTime(now)]);
      message := Some(ToggledNotice(name, card.dateId));
    }
  }
}
