/** The calendar event built from a complete draft and the text the bot
    sends back about it (`createCalendarEvent`, googleCalendar.js:34-57). */
module Calendar {
  import opened Wrappers
  import opened Js
  import opened Drafts

  const TimeZone: string := "America/Sao_Paulo"
  /** Appended to "<date>T<time>": zero seconds and the fixed UTC-3 offset. */
  const StartSuffix: string := ":00-03:00"
  const DescriptionPrefix: string := "Reunião agendada via WhatsApp. Convidado(s): "
  /** Minutes used when the draft has no (or a zero) duration. */
  const DefaultDuration: int := 60
  /** Milliseconds in a minute: the `60 * 1000` factor. */
  const MinuteMillis: int := 60000
  /** The largest distance from the epoch, in milliseconds, that a `Date`
      can hold (8.64e15, one hundred million days). */
  const MaxTime: int := 8_640_000_000_000_000

  datatype Attendee = Attendee(email: Value)

  /** The start as the local date-time string the event carries. */
  datatype StartTime = StartTime(dateTime: string, timeZone: string)

  /** The end, as the time value (milliseconds since the epoch) whose ISO
      string the event carries; the formatting itself is left to the date
      library. */
  datatype EndTime = EndTime(instant: int, timeZone: string)

  datatype Event = Event(
    summary: Option<Value>,
    description: string,
    start: StartTime,
    end: EndTime,
    attendees: seq<Attendee>)

  /** What `calendar.events.insert` does with the event. */
  datatype InsertOutcome = Inserted | Rejected(message: string)

  /** `details.guests || []`, as far as `.join` and `.map` can use it: a truthy
      value that is not an array has no such methods, so building the event
      throws a TypeError (None). */
  function GuestList(guests: Option<Value>): (r: Option<seq<Value>>)
    ensures Falsy(guests) ==> r == Some([])
    ensures !Falsy(guests) ==> (r.Some? <==> guests.value.Arr?)
    ensures r.Some? && !Falsy(guests) ==> r.value == guests.value.items
  {
    if Falsy(guests) then Some([])
    else if guests.value.Arr? then Some(guests.value.items)
    else None
  }

  /** `guests.map(email => ({ email }))`: one attendee per guest, in order. */
  function Attendees(guests: seq<Value>): (r: seq<Attendee>)
    ensures |r| == |guests|
    ensures forall i :: 0 <= i < |guests| ==> r[i].email == guests[i]
  {
    if guests == [] then [] else [Attendee(guests[0])] + Attendees(guests[1..])
  }

  /** `guests.join(', ')`: no guests give "", one guest is rendered alone. */
  function GuestText(guests: seq<Value>): (r: string)
    ensures guests == [] ==> r == ""
    ensures |guests| == 1 ==> r == ElementText(guests[0])
  {
    Join(seq(|guests|, i requires 0 <= i < |guests| => ElementText(guests[i])), ", ")
  }

  /** `details.duration || 60`, in minutes, as far as multiplying it by 60000
      gives a number: None when the product is NaN. A zero duration falls
      back to the default, so the result is never 0. */
  function DurationMinutes(duration: Option<Value>): (r: Option<int>)
    ensures Falsy(duration) ==> r == Some(DefaultDuration)
    ensures !Falsy(duration) ==> (r.Some? <==> duration.value.Num? || duration.value.Bool?)
    ensures !Falsy(duration) && duration.value.Num? ==> r == Some(duration.value.n)
    ensures r.Some? ==> r.value != 0
  {
    if Falsy(duration) then Some(DefaultDuration)
    else match duration.value
      case Num(n) => Some(n)
      case Bool(_) => Some(1)
      case _ => None
  }

  /** "<date>T<time>:00-03:00": the rendered date, a "T", and the rendered
      time followed by zero seconds and the UTC-3 offset. */
  function StartDateTime(d: Draft): (r: string)
    ensures TemplateText(Get(d, "date")) + "T" <= r
    ensures |r| == |TemplateText(Get(d, "date"))| + 1 + |TemplateText(Get(d, "time"))| + |StartSuffix|
    ensures r[|TemplateText(Get(d, "date"))| + 1..|r| - |StartSuffix|] == TemplateText(Get(d, "time"))
    ensures |r| >= |StartSuffix| && r[|r| - |StartSuffix|..] == StartSuffix
  {
    TemplateText(Get(d, "date")) + "T" + TemplateText(Get(d, "time")) + StartSuffix
  }

  /** `new Date(start + minutes * 60 * 1000)`, as far as `toISOString` can
      format it: a time value beyond 8.64e15 ms from the epoch is an invalid
      date, and `toISOString` throws a RangeError (None). */
  function EndInstant(start: int, minutes: int): (r: Option<int>)
    ensures r.Some? <==> -MaxTime <= start + minutes * MinuteMillis <= MaxTime
    ensures r.Some? ==> r.value - start == minutes * MinuteMillis
  {
    var t := start + minutes * MinuteMillis;
    if -MaxTime <= t <= MaxTime then Some(t) else None
  }

  /** The event object, or None when building it throws. `parseDate` is the
      time value `new Date(text).getTime()` gives, None for an invalid date. */
  function BuildEvent(d: Draft, parseDate: string -> Option<int>): (r: Option<Event>)
    ensures r.Some? ==>
      && r.value.start.timeZone == TimeZone == r.value.end.timeZone
      && parseDate(r.value.start.dateTime).Some?
      && -MaxTime <= r.value.end.instant <= MaxTime
  {
    var guests := GuestList(Get(d, "guests"));
    var minutes := DurationMinutes(Get(d, "duration"));
    var start := StartDateTime(d);
    if guests.None? || minutes.None? || parseDate(start).None? then None
    else match EndInstant(parseDate(start).value, minutes.value)
      case None => None
      case Some(end) =>
        Some(Event(
          Get(d, "title"),
          DescriptionPrefix + GuestText(guests.value),
          StartTime(start, TimeZone),
          EndTime(end, TimeZone),
          Attendees(guests.value)))
  }

  const SuccessOpen: string := "✅ Reunião \""
  const SuccessClose: string := "\" agendada com sucesso!"

  /** The confirmation, naming the meeting's title between quotes. */
  function SuccessText(d: Draft): (r: string)
    ensures Get(d, "title").Some? && Get(d, "title").value.Str? ==>
      r == SuccessOpen + Get(d, "title").value.s + SuccessClose
    ensures Get(d, "title").None? ==> r == SuccessOpen + "undefined" + SuccessClose
  {
    SuccessOpen + TemplateText(Get(d, "title")) + SuccessClose
  }

  /** The apology, ending with the message the calendar API gave. */
  function FailureText(message: string): (r: string)
    ensures |r| > |message| && r[|r| - |message|..] == message
  {
    "❌ Ops! Algo deu errado ao criar o evento no Google Calendar. Detalhe: " + message
  }

  /** The reply of `createCalendarEvent`, or None when it throws before the
      insert: the event cannot be built. Once the insert is attempted the
      reply is the confirmation or the failure text carrying the API's
      message. */
  function CreateCalendarEvent(d: Draft, parseDate: string -> Option<int>, insert: Event -> InsertOutcome): (r: Option<string>)
    ensures r.Some? <==> BuildEvent(d, parseDate).Some?
    ensures r.Some? && insert(BuildEvent(d, parseDate).value) == Inserted ==> r.value == SuccessText(d)
    ensures r.Some? && insert(BuildEvent(d, parseDate).value).Rejected? ==>
      r.value == FailureText(insert(BuildEvent(d, parseDate).value).message)
  {
    match BuildEvent(d, parseDate)
    case None => None
    case Some(event) =>
      match insert(event)
      case Inserted => Some(SuccessText(d))
      case Rejected(message) => Some(FailureText(message))
  }

  /** Building the event throws exactly when the guests are truthy but not an
      array, the duration is truthy but neither a number nor a boolean, the
      start is not a date, or the end lies beyond the range of dates. */
  lemma BuildEventFails(d: Draft, parseDate: string -> Option<int>)
    ensures var guests, duration, start := Get(d, "guests"), Get(d, "duration"), parseDate(StartDateTime(d));
      BuildEvent(d, parseDate).None? <==>
      || (!Falsy(guests) && !guests.value.Arr?)
      || (!Falsy(duration) && !duration.value.Num? && !duration.value.Bool?)
      || start.None?
      || (DurationMinutes(duration).Some? && start.Some?
          && !(-MaxTime <= start.value + DurationMinutes(duration).value * MinuteMillis <= MaxTime))
  {
  }

  /** A duration long enough to carry the end past the last representable
      date makes building the event throw, even with a valid start. */
  lemma FarEndThrows(d: Draft, parseDate: string -> Option<int>, start: int, minutes: int)
    requires GuestList(Get(d, "guests")).Some?
    requires Get(d, "duration") == Some(Num(minutes))
    requires parseDate(StartDateTime(d)) == Some(start) && -MaxTime <= start <= MaxTime
    requires minutes > 2 * MaxTime / MinuteMillis
    ensures BuildEvent(d, parseDate).None?
  {
  }

  /** The payload of a draft whose guests are an array: the summary is the
      title, there is one attendee per guest in the same order, and the
      description lists the guests separated by ", ". */
  lemma EventFromGuestArray(d: Draft, parseDate: string -> Option<int>, guests: seq<Value>)
    requires Get(d, "guests") == Some(Arr(guests))
    requires BuildEvent(d, parseDate).Some?
    ensures var e := BuildEvent(d, parseDate).value;
      && e.summary == Get(d, "title")
      && |e.attendees| == |guests|
      && (forall i :: 0 <= i < |guests| ==> e.attendees[i].email == guests[i])
      && e.description == DescriptionPrefix + GuestText(guests)
      && e.start.dateTime == StartDateTime(d)
      && e.start.timeZone == TimeZone == e.end.timeZone
  {
    assert GuestList(Get(d, "guests")) == Some(guests) by {
      if guests == [] {
        assert !Falsy(Some(Arr(guests)));
      }
    }
  }

  /** A complete draft whose event can be built invites at least one guest. */
  lemma CompleteDraftHasAttendees(d: Draft, parseDate: string -> Option<int>)
    requires Complete(d) && BuildEvent(d, parseDate).Some?
    ensures |BuildEvent(d, parseDate).value.attendees| > 0
  {
    assert !Lacks(d, Guests);
    assert Get(d, "guests").value.Arr?;
  }

  /** With no guests at all the event has no attendees. */
  lemma NoGuestsNoAttendees(d: Draft, parseDate: string -> Option<int>)
    requires Falsy(Get(d, "guests"))
    requires BuildEvent(d, parseDate).Some?
    ensures BuildEvent(d, parseDate).value.attendees == []
    ensures BuildEvent(d, parseDate).value.description == DescriptionPrefix
  {
  }

  /** Guest texts join piecewise: listing `a` then `b` is listing `a`, a
      comma and a space, then listing `b`. */
  lemma GuestTextAppend(a: seq<Value>, b: seq<Value>)
    requires |a| > 0 && |b| > 0
    ensures GuestText(a + b) == GuestText(a) + ", " + GuestText(b)
  {
    var pa := seq(|a|, i requires 0 <= i < |a| => ElementText(a[i]));
    var pb := seq(|b|, i requires 0 <= i < |b| => ElementText(b[i]));
    var ab := a + b;
    assert seq(|ab|, i requires 0 <= i < |ab| => ElementText(ab[i])) == pa + pb;
    JoinAppend(pa, pb, ", ");
  }

  /** The end lies `duration` minutes after the start, 60 minutes when the
      duration is falsy (the `||` default), one minute for `true`. */
  lemma EndOffset(d: Draft, parseDate: string -> Option<int>)
    requires BuildEvent(d, parseDate).Some?
    ensures var e := BuildEvent(d, parseDate).value;
      var start := parseDate(e.start.dateTime).value;
      var duration := Get(d, "duration");
      && (Falsy(duration) ==> e.end.instant == start + DefaultDuration * MinuteMillis)
      && (!Falsy(duration) && duration.value.Num? ==> e.end.instant == start + duration.value.n * MinuteMillis)
      && (duration == Some(Bool(true)) ==> e.end.instant == start + MinuteMillis)
  {
  }

  /** For string date and time the start is "<date>T<time>:00-03:00". */
  lemma StartFromStrings(d: Draft, date: string, time: string)
    requires Get(d, "date") == Some(Str(date)) && Get(d, "time") == Some(Str(time))
    ensures StartDateTime(d) == date + "T" + time + ":00-03:00"
  {
  }

  /** A successful insert is reported with the title between quotes. */
  lemma SuccessNamesTitle(d: Draft, title: string, parseDate: string -> Option<int>, insert: Event -> InsertOutcome)
    requires Get(d, "title") == Some(Str(title))
    requires BuildEvent(d, parseDate).Some?
    requires insert(BuildEvent(d, parseDate).value) == Inserted
    ensures CreateCalendarEvent(d, parseDate, insert) == Some("✅ Reunião \"" + title + "\" agendada com sucesso!")
  {
  }
}
