/** The booking draft a user is filling in over several messages: how a new
    extraction is merged over the stored draft (googleCalendar.js:90-92) and
    which required fields are still missing (googleCalendar.js:95-99). */
module Drafts {
  import opened Wrappers
  import opened Js

  /** A draft is the parsed JSON object, with keys such as "title", "date",
      "time", "duration" and "guests" (and whatever else the extractor sent). */
  type Draft = Object

  /** `{ ...stored, ...incoming }` when a draft is stored, else `incoming`
      itself: every key of the new extraction wins, every other stored key
      is kept. */
  function Merge(stored: Option<Draft>, incoming: Draft): (r: Draft)
    ensures forall k :: k in incoming ==> k in r && r[k] == incoming[k]
    ensures stored.Some? ==> forall k :: k in stored.value && k !in incoming ==> k in r && r[k] == stored.value[k]
    ensures r.Keys == incoming.Keys + (if stored.Some? then stored.value.Keys else {})
    ensures stored.None? ==> r == incoming
  {
    match stored
    case None => incoming
    case Some(s) => s + incoming
  }

  /** Merging twice in a row is merging once with the later extraction laid
      over the earlier one: the last write wins, key by key. */
  lemma MergeTwice(stored: Option<Draft>, first: Draft, second: Draft)
    ensures Merge(Some(Merge(stored, first)), second) == Merge(stored, first + second)
  {
    var lhs := Merge(Some(Merge(stored, first)), second);
    var rhs := Merge(stored, first + second);
    assert lhs.Keys == rhs.Keys;
    forall k | k in lhs ensures lhs[k] == rhs[k] {
      if k in second {
      } else if k in first {
      } else {
        assert stored.Some? && k in stored.value;
      }
    }
  }

  /** Sending the same extraction again changes nothing. */
  lemma MergeIdempotent(stored: Option<Draft>, incoming: Draft)
    ensures Merge(Some(Merge(stored, incoming)), incoming) == Merge(stored, incoming)
  {
    MergeTwice(stored, incoming, incoming);
    assert incoming + incoming == incoming;
  }

  /** `v.length === 0` for a truthy value: a string or array with no elements,
      or an object whose own "length" is the number 0. Other values have no
      length, and `undefined === 0` is false. */
  predicate LengthIsZero(v: Value)
    ensures v.Arr? ==> (LengthIsZero(v) <==> v.items == [])
    ensures v.Str? ==> (LengthIsZero(v) <==> v.s == "")
    ensures v.Null? || v.Bool? || v.Num? ==> !LengthIsZero(v)
  {
    match v
    case Str(s) => |s| == 0
    case Arr(items) => |items| == 0
    case Obj(props) => "length" in props && props["length"] == Num(0)
    case _ => false
  }

  /** `!details.guests || details.guests.length === 0`: an array or string
      of guests is missing exactly when it is empty, and a truthy value with
      no `length` (a number, `true`) passes as present. */
  predicate GuestsMissing(guests: Option<Value>)
    ensures guests.Some? && guests.value.Arr? ==> (GuestsMissing(guests) <==> guests.value.items == [])
    ensures guests.Some? && guests.value.Str? ==> (GuestsMissing(guests) <==> guests.value.s == "")
    ensures !Falsy(guests) && (guests.value.Num? || guests.value.Bool?) ==> !GuestsMissing(guests)
  {
    Falsy(guests) || LengthIsZero(guests.value)
  }

  /** The four required fields, in the fixed order in which they are checked. */
  datatype Field = Title | Date | Time | Guests

  /** The name the reply uses for a field. */
  function Label(f: Field): string
  {
    match f
    case Title => "título"
    case Date => "data"
    case Time => "hora"
    case Guests => "convidados"
  }

  /** Where a field stands in the checking order. */
  function Index(f: Field): nat
  {
    match f
    case Title => 0
    case Date => 1
    case Time => 2
    case Guests => 3
  }

  const Order: seq<Field> := [Title, Date, Time, Guests]

  /** The draft key a field is read from. */
  function Key(f: Field): string
  {
    match f
    case Title => "title"
    case Date => "date"
    case Time => "time"
    case Guests => "guests"
  }

  /** Whether a required field is missing from the draft: an absent key
      always is, a string value is exactly when it is empty. */
  predicate Lacks(d: Draft, f: Field)
    ensures Key(f) !in d ==> Lacks(d, f)
    ensures forall s :: Get(d, Key(f)) == Some(Str(s)) ==> (Lacks(d, f) <==> s == "")
  {
    if f == Guests then GuestsMissing(Get(d, Key(f))) else Falsy(Get(d, Key(f)))
  }

  /** The missing fields among the `i`-th and later ones of `Order`. */
  function MissingFrom(d: Draft, i: nat): seq<Field>
    requires i <= 4
    decreases 4 - i
  {
    if i == 4 then [] else Step(d, Order[i]) + MissingFrom(d, i + 1)
  }

  /** The contribution of one check: the field if it is missing. */
  function Step(d: Draft, f: Field): seq<Field>
  {
    if Lacks(d, f) then [f] else []
  }

  /** Strictly increasing in the checking order, so without repeats. */
  predicate InOrder(r: seq<Field>)
  {
    forall p, q :: 0 <= p < q < |r| ==> Index(r[p]) < Index(r[q])
  }

  lemma PrependInOrder(f: Field, rest: seq<Field>)
    requires InOrder(rest)
    requires forall g :: g in rest ==> Index(f) < Index(g)
    ensures InOrder([f] + rest)
  {
    var r := [f] + rest;
    forall p, q | 0 <= p < q < |r| ensures Index(r[p]) < Index(r[q]) {
      assert r[q] == rest[q - 1] && rest[q - 1] in rest;
      if p > 0 {
        assert r[p] == rest[p - 1];
      }
    }
  }

  lemma {:induction false} MissingFromExact(d: Draft, i: nat)
    requires i <= 4
    ensures forall f :: f in MissingFrom(d, i) <==> i <= Index(f) && Lacks(d, f)
    ensures InOrder(MissingFrom(d, i))
    decreases 4 - i
  {
    if i < 4 {
      MissingFromExact(d, i + 1);
      var f := Order[i];
      assert Index(f) == i && forall g :: Index(g) == i ==> g == f;
      var rest := MissingFrom(d, i + 1);
      assert MissingFrom(d, i) == Step(d, f) + rest;
      if Lacks(d, f) {
        PrependInOrder(f, rest);
      } else {
        assert MissingFrom(d, i) == rest;
      }
    } else {
      assert MissingFrom(d, i) == [];
    }
  }

  /** The fields the bot asks the user for: exactly the missing ones, each
      once, in the order title, date, time, guests. */
  function MissingFields(d: Draft): (r: seq<Field>)
    ensures forall f :: f in r <==> Lacks(d, f)
    ensures InOrder(r)
  {
    MissingFromExact(d, 0);
    MissingFrom(d, 0)
  }

  /** The draft holds everything needed to create the event. */
  predicate Complete(d: Draft)
  {
    !Falsy(Get(d, "title")) && !Falsy(Get(d, "date")) && !Falsy(Get(d, "time"))
    && !GuestsMissing(Get(d, "guests"))
  }

  /** Nothing is missing exactly when title, date and time are truthy and
      the guest list is present and not empty. */
  lemma NothingMissingIffComplete(d: Draft)
    ensures MissingFields(d) == [] <==> Complete(d)
  {
    var r := MissingFields(d);
    if r != [] {
      assert Lacks(d, r[0]);
    }
    if !Complete(d) {
      var f :| Lacks(d, f);
      assert f in r;
    }
  }

  /** For drafts whose fields are strings and an array, as the extractor is
      asked to produce: complete exactly when the three strings are non-empty
      and the guest array has an entry. */
  lemma CompleteForStringFields(title: string, date: string, time: string, guests: seq<Value>, rest: Draft)
    ensures var d := rest["title" := Str(title)]["date" := Str(date)]["time" := Str(time)]["guests" := Arr(guests)];
      MissingFields(d) == [] <==> title != "" && date != "" && time != "" && guests != []
  {
    var d := rest["title" := Str(title)]["date" := Str(date)]["time" := Str(time)]["guests" := Arr(guests)];
    assert "title" != "date" && "title" != "time" && "title" != "guests" by { assert "title"[0] != "date"[0]; }
    assert "date" != "time" && "date" != "guests" by { assert "date"[0] != "time"[0]; }
    assert "time" != "guests" by { assert "time"[0] != "guests"[0]; }
    assert Get(d, "title") == Some(Str(title));
    assert Get(d, "date") == Some(Str(date));
    assert Get(d, "time") == Some(Str(time));
    assert Get(d, "guests") == Some(Arr(guests));
    NothingMissingIffComplete(d);
  }

  /** A turn can only reopen a field the new extraction mentions: whatever
      was filled in the stored draft and is absent from the extraction stays
      filled after the merge. */
  lemma MergeKeepsFilledFields(stored: Draft, incoming: Draft, f: Field)
    requires !Lacks(stored, f) && Key(f) !in incoming
    ensures !Lacks(Merge(Some(stored), incoming), f)
  {
    assert Get(Merge(Some(stored), incoming), Key(f)) == Get(stored, Key(f));
  }

  lemma MissingFieldsUnfolded(d: Draft)
    ensures MissingFields(d) == Step(d, Title) + Step(d, Date) + Step(d, Time) + Step(d, Guests)
  {
    var t, a, h, g := Step(d, Title), Step(d, Date), Step(d, Time), Step(d, Guests);
    assert MissingFrom(d, 4) == [];
    assert MissingFrom(d, 3) == g + [] == g;
    assert MissingFrom(d, 2) == h + g;
    assert MissingFrom(d, 1) == a + (h + g);
    assert MissingFrom(d, 0) == t + (a + (h + g));
    assert t + (a + (h + g)) == t + a + h + g;
    assert MissingFields(d) == MissingFrom(d, 0);
  }

  /** Builds the list by one push per failed check, as the source does. */
  method CollectMissing(d: Draft) returns (missing: seq<Field>)
    ensures missing == MissingFields(d)
  {
    MissingFieldsUnfolded(d);
    missing := [];
    if Falsy(Get(d, "title")) { missing := missing + [Title]; }
    assert missing == Step(d, Title);
    if Falsy(Get(d, "date")) { missing := missing + [Date]; }
    assert missing == Step(d, Title) + Step(d, Date);
    if Falsy(Get(d, "time")) { missing := missing + [Time]; }
    assert missing == Step(d, Title) + Step(d, Date) + Step(d, Time);
    if GuestsMissing(Get(d, "guests")) { missing := missing + [Guests]; }
  }
}
