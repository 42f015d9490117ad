/** api.js: mapping a reply of the prayer-time service onto the five time
    elements of the page, in its two variants (fetchAndDisplayPrayerTimes and
    fetchPrayerTimesSimple). The request itself is not modelled: the reply
    (or the rejection of `fetch` / `response.json()`) is an input. */
module Api {
  import opened Wrappers
  import opened Utils

  /** What every time element shows when the times could not be had. */
  const Placeholder: string := "--:--"

  /** The response JSON as far as the code reads it; every part may be absent. */
  datatype Timings = Timings(fajr: Option<string>, dhuhr: Option<string>, asr: Option<string>,
                             maghrib: Option<string>, isha: Option<string>)
  datatype DateInfo = DateInfo(readable: Option<string>)
  datatype Payload = Payload(timings: Option<Timings>, date: Option<DateInfo>)
  datatype Body = Body(code: Option<int>, data: Option<Payload>)

  /** What `await fetch(url)` followed by `await response.json()` gives: the
      parsed body, or a rejection with its message. */
  datatype Reply = Rejected(message: string) | Parsed(body: Body)

  /** The `Fajr, Dhuhr, Asr, Maghrib, Isha` fields, in page order. */
  function Fields(t: Timings): (f: seq<Option<string>>)
    ensures |f| == 5
  {
    [t.fajr, t.dhuhr, t.asr, t.maghrib, t.isha]
  }

  /** `time.split(' ')[0]` (api.js:85): the text before the first space. */
  function FormatTime(time: string): string
    decreases |time|
  {
    if time == [] || time[0] == ' ' then [] else [time[0]] + FormatTime(time[1..])
  }

  /** The formatted time is a prefix of the time without a space, and it
      stops at a space or at the end. */
  lemma {:induction false} FormatTimeSpec(time: string)
    ensures |FormatTime(time)| <= |time| && FormatTime(time) == time[..|FormatTime(time)|]
    ensures forall i :: 0 <= i < |FormatTime(time)| ==> FormatTime(time)[i] != ' '
    ensures |FormatTime(time)| < |time| ==> time[|FormatTime(time)|] == ' '
    decreases |time|
  {
    if time != [] && time[0] != ' ' {
      FormatTimeSpec(time[1..]);
      var rest := FormatTime(time[1..]);
      assert FormatTime(time) == [time[0]] + rest;
      assert time[..|rest| + 1] == [time[0]] + time[1..][..|rest|];
    }
  }

  /** A time without a space is shown unchanged; formatting is idempotent. */
  lemma {:induction false} FormatTimeWithoutSpace(time: string)
    requires forall i :: 0 <= i < |time| ==> time[i] != ' '
    ensures FormatTime(time) == time
    decreases |time|
  {
    if time != [] {
      FormatTimeWithoutSpace(time[1..]);
      assert [time[0]] + time[1..] == time;
    }
  }

  lemma FormatTimeIdempotent(time: string)
    ensures FormatTime(FormatTime(time)) == FormatTime(time)
  {
    FormatTimeSpec(time);
    FormatTimeWithoutSpace(FormatTime(time));
  }

  /** `textContent = value` with `value` possibly undefined, which shows as empty. */
  function TextOf(value: Option<string>): string {
    if value.Some? then value.value else ""
  }

  /** The date label of fetchPrayerTimesSimple (api.js:93):
      `data.data.date.readable || new Date().toDateString()`. */
  function SimpleDateLabel(readable: Option<string>, fallback: string): (s: string)
    ensures readable.Some? && readable.value != "" ==> s == readable.value
    ensures readable.None? || readable.value == "" ==> s == fallback
  {
    if readable.Some? && readable.value != "" then readable.value else fallback
  }

  /** The structure fetchPrayerTimesSimple demands (api.js:78-80). */
  predicate HasTimings(b: Body) {
    b.code == Some(200) && b.data.Some? && b.data.value.timings.Some?
  }

  /** fetchPrayerTimesSimple's try block completes: the structure is there,
      all five times are strings (formatTime of a missing one throws), and
      when the date element exists the reply has a `date` object. */
  predicate SimpleSucceeds(reply: Reply, hasDateElement: bool) {
    && reply.Parsed? && HasTimings(reply.body)
    && (forall i :: 0 <= i < 5 ==> Fields(reply.body.data.value.timings.value)[i].Some?)
    && (hasDateElement ==> reply.body.data.value.date.Some?)
  }

  /** fetchAndDisplayPrayerTimes's try block completes: only the status is
      checked (api.js:30), but reading `data.data.timings` and, when the date
      element exists, `data.data.date.readable` throws on a missing object. */
  predicate DisplaySucceeds(reply: Reply, hasDateElement: bool) {
    && reply.Parsed? && reply.body.code == Some(200)
    && reply.body.data.Some? && reply.body.data.value.timings.Some?
    && (hasDateElement ==> reply.body.data.value.date.Some?)
  }

  /** Why fetchPrayerTimesSimple rejected. The engine's wording of a
      TypeError is not modelled. */
  datatype Failure = ElementsNotFound | InvalidStructure | TypeError | FetchFailed(message: string)

  datatype Settled = Resolved(body: Body) | Failed(failure: Failure)

  /** A page element: absent from the page, or present with its text. */
  datatype Element = Missing | Shown(text: string)

  const CouldNotFetch: Notice := Notice("Could not fetch prayer times.", Error)

  /** The five time elements, the city and date elements and the dashboard
      message area of the page the functions run on. */
  class PrayerPanel {
    var times: seq<Element>
    var city: Element
    var date: Element
    var message: Option<Notice>

    ghost predicate Valid()
      reads this
    {
      |times| == 5
    }

    predicate AllPresent()
      reads this
      requires Valid()
    {
      forall i :: 0 <= i < 5 ==> times[i].Shown?
    }

    constructor (times: seq<Element>, city: Element, date: Element)
      requires |times| == 5
      ensures Valid() && this.times == times && this.city == city && this.date == date
      ensures message == None
    {
      this.times := times;
      this.city := city;
      this.date := date;
      message := None;
    }

    /** `element.textContent = formatTime(value)`: throws when the element is
        missing or the value undefined. */
    method ShowFormatted(i: nat, value: Option<string>) returns (thrown: bool)
      requires Valid() && i < 5
      modifies this
      ensures Valid() && city == old(city) && date == old(date) && message == old(message)
      ensures thrown <==> old(times)[i].Missing? || value.None?
      ensures times == if thrown then old(times) else old(times)[i := Shown(FormatTime(value.value))]
    {
      thrown := times[i].Missing? || value.None?;
      if !thrown {
        times := times[i := Shown(FormatTime(value.value))];
      }
    }

    /** `element.textContent = '--:--'`: throws when the element is missing. */
    method ShowPlaceholder(i: nat) returns (thrown: bool)
      requires Valid() && i < 5
      modifies this
      ensures Valid() && city == old(city) && date == old(date) && message == old(message)
      ensures thrown <==> old(times)[i].Missing?
      ensures times == if thrown then old(times) else old(times)[i := Shown(Placeholder)]
    {
      thrown := times[i].Missing?;
      if !thrown {
        times := times[i := Shown(Placeholder)];
      }
    }

    /** The five `element.textContent = formatTime(timings.X)` statements
        (api.js:87-91): the first missing element or undefined time throws. */
    method ShowTimings(t: Timings) returns (thrown: bool)
      requires Valid()
      modifies this
      ensures Valid() && city == old(city) && date == old(date) && message == old(message)
      ensures forall i :: 0 <= i < 5 ==> times[i].Missing? == old(times)[i].Missing?
      ensures thrown <==> !(old(AllPresent()) && forall i :: 0 <= i < 5 ==> Fields(t)[i].Some?)
      ensures !thrown ==> forall i :: 0 <= i < 5 ==> times[i] == Shown(FormatTime(Fields(t)[i].value))
      ensures forall i :: 0 <= i < 5 ==>
        times[i] == if (forall k :: 0 <= k <= i ==> old(times)[k].Shown? && Fields(t)[k].Some?)
                    then Shown(FormatTime(Fields(t)[i].value)) else old(times)[i]
    {
      ghost var f := Fields(t);
      assert f == [t.fajr, t.dhuhr, t.asr, t.maghrib, t.isha];
      thrown := ShowFormatted(0, t.fajr);
      if thrown { assert old(times)[0].Missing? || f[0].None?; return; }
      thrown := ShowFormatted(1, t.dhuhr);
      if thrown { assert old(times)[1].Missing? || f[1].None?; return; }
      thrown := ShowFormatted(2, t.asr);
      if thrown { assert old(times)[2].Missing? || f[2].None?; return; }
      thrown := ShowFormatted(3, t.maghrib);
      if thrown { assert old(times)[3].Missing? || f[3].None?; return; }
      thrown := ShowFormatted(4, t.isha);
      if thrown {
        assert old(times)[4].Missing? || f[4].None?;
      } else {
        assert forall i :: 0 <= i < 5 ==> old(times)[i].Shown? && f[i].Some?;
      }
    }

    /** The catch block of fetchPrayerTimesSimple (api.js:101-105): each element
        in turn shows the placeholder, and a missing one throws a TypeError
        out of the catch block. */
    method ShowFallback() returns (thrown: bool)
      requires Valid()
      modifies this
      ensures Valid() && city == old(city) && date == old(date) && message == old(message)
      ensures forall i :: 0 <= i < 5 ==> times[i].Missing? == old(times)[i].Missing?
      ensures thrown <==> !old(AllPresent())
      ensures forall i :: 0 <= i < 5 && (forall k :: 0 <= k <= i ==> old(times)[k].Shown?) ==>
        times[i] == Shown(Placeholder)
      ensures forall i :: 0 <= i < 5 && (exists k :: 0 <= k <= i && old(times)[k].Missing?) ==>
        times[i] == old(times)[i]
    {
      thrown := ShowPlaceholder(0);
      if thrown { return; }
      thrown := ShowPlaceholder(1);
      if thrown { return; }
      thrown := ShowPlaceholder(2);
      if thrown { return; }
      thrown := ShowPlaceholder(3);
      if thrown { return; }
      thrown := ShowPlaceholder(4);
    }

    /** fetchAndDisplayPrayerTimes (api.js:6-55) for `cityName`, with or
        without a message area. */
    method FetchAndDisplay(cityName: string, reply: Reply, hasMessageArea: bool)
      requires Valid()
      modifies this
      ensures Valid()
      ensures !old(AllPresent()) ==> times == old(times) && city == old(city) && date == old(date) && message == old(message)
      ensures old(AllPresent()) && DisplaySucceeds(reply, old(date).Shown?) ==>
        var t := reply.body.data.value.timings.value;
        && (forall i :: 0 <= i < 5 ==> times[i] == Shown(TextOf(Fields(t)[i])))
        && city == (if old(city).Shown? then Shown("City: " + cityName) else Missing)
        && date == (if old(date).Shown? then Shown(TextOf(reply.body.data.value.date.value.readable)) else Missing)
        && message == old(message)
      ensures old(AllPresent()) && !DisplaySucceeds(reply, old(date).Shown?) ==>
        && (forall i :: 0 <= i < 5 ==> times[i] == Shown(Placeholder))
        && date == (if old(date).Shown? then Shown("") else Missing)
        && city == (if old(city).Shown? && DisplaySucceeds(reply, false) then Shown("City: " + cityName) else old(city))
        && message == (if hasMessageArea then Some(CouldNotFetch) else old(message))
    {
      if !AllPresent() {
        return;
      }
      label attempt: {
        if reply.Rejected? || reply.body.code != Some(200) || reply.body.data.None? {
          break attempt;
        }
        var payload := reply.body.data.value;
        if payload.timings.None? {
          break attempt;
        }
        var t := payload.timings.value;
        times := times[0 := Shown(TextOf(t.fajr))];
        times := times[1 := Shown(TextOf(t.dhuhr))];
        times := times[2 := Shown(TextOf(t.asr))];
        times := times[3 := Shown(TextOf(t.maghrib))];
        times := times[4 := Shown(TextOf(t.isha))];
        if city.Shown? {
          city := Shown("City: " + cityName);
        }
        if date.Shown? {
          if payload.date.None? {
            break attempt;
          }
          date := Shown(TextOf(payload.date.value.readable));
        }
        return;
      }
      times := times[0 := Shown(Placeholder)];
      times := times[1 := Shown(Placeholder)];
      times := times[2 := Shown(Placeholder)];
      times := times[3 := Shown(Placeholder)];
      times := times[4 := Shown(Placeholder)];
      if date.Shown? {
        date := Shown("");
      }
      if hasMessageArea {
        message := Some(CouldNotFetch);
      }
    }

    /** fetchPrayerTimesSimple (api.js:58-109); `today` is what
        `new Date().toDateString()` gives. A missing element other than
        fajr makes the try block throw and the catch block throw again. */
    method FetchSimple(reply: Reply, today: string) returns (settled: Settled)
      requires Valid()
      modifies this
      ensures Valid() && message == old(message)
      ensures forall i :: 0 <= i < 5 ==> times[i].Missing? == old(times)[i].Missing?
      ensures old(times)[0].Missing? ==>
        settled == Failed(ElementsNotFound) && times == old(times) && city == old(city) && date == old(date)
      ensures old(AllPresent()) && SimpleSucceeds(reply, old(date).Shown?) ==>
        var payload := reply.body.data.value;
        && settled == Resolved(reply.body)
        && (forall i :: 0 <= i < 5 ==> times[i] == Shown(FormatTime(Fields(payload.timings.value)[i].value)))
        && date == (if old(date).Shown? then Shown(SimpleDateLabel(payload.date.value.readable, today)) else Missing)
        && city == (if old(city).Shown? then Shown("City: Karachi") else Missing)
      ensures old(AllPresent()) && !SimpleSucceeds(reply, old(date).Shown?) ==>
        && settled == Failed(if reply.Rejected? then FetchFailed(reply.message)
                             else if !HasTimings(reply.body) then InvalidStructure
                             else TypeError)
        && (forall i :: 0 <= i < 5 ==> times[i] == Shown(Placeholder))
        && date == old(date) && city == old(city)
      ensures old(times)[0].Shown? && !old(AllPresent()) ==>
        && settled == Failed(TypeError)
        && (forall i :: 0 <= i < 5 && (forall k :: 0 <= k <= i ==> old(times)[k].Shown?) ==>
              times[i] == Shown(Placeholder))
        && (forall i :: 0 <= i < 5 && (exists k :: 0 <= k <= i && old(times)[k].Missing?) ==>
              times[i] == old(times)[i])
        && date == old(date) && city == old(city)
    {
      if times[0].Missing? {
        return Failed(ElementsNotFound);
      }
      var failure: Failure;
      label attempt: {
        if reply.Rejected? {
          failure := FetchFailed(reply.message);
          break attempt;
        }
        if !HasTimings(reply.body) {
          failure := InvalidStructure;
          break attempt;
        }
        var payload := reply.body.data.value;
        failure := TypeError;
        var thrown := ShowTimings(payload.timings.value);
        if thrown {
          break attempt;
        }
        if date.Shown? {
          if payload.date.None? {
            break attempt;
          }
          date := Shown(SimpleDateLabel(payload.date.value.readable, today));
        }
        if city.Shown? {
          city := Shown("City: Karachi");
        }
        return Resolved(reply.body);
      }
      var thrown := ShowFallback();
      if thrown {
        return Failed(TypeError);
      }
      return Failed(failure);
    }
  }
}
