/** The conversation controller (`processMessage`, googleCalendar.js:60-116):
    one call per incoming WhatsApp message, keeping one booking draft per
    sender in a dictionary until every required field is known. */
module Dialogue {
  import opened Wrappers
  import opened Js
  import opened Fences
  import opened Drafts
  import opened Calendar

  /** The sender's number, e.g. "whatsapp:+5511...". */
  type UserId = string

  const RetryReply: string := "Tive um problema para processar seu pedido. Vamos tentar de novo. O que você gostaria de agendar?"
  const PromptPrefix: string := "Entendido! Para continuar, preciso que me informe: "

  /** The question for an incomplete draft: the missing names joined by ", ". */
  function Prompt(missing: seq<Field>): (r: string)
    ensures PromptPrefix <= r && r[|r| - 1] == '.'
    ensures |missing| == 1 ==> r == PromptPrefix + Label(missing[0]) + "."
    ensures |missing| > 1 ==> PromptPrefix + Label(missing[0]) + ", " <= r
  {
    PromptPrefix + Join(seq(|missing|, i requires 0 <= i < |missing| => Label(missing[i])), ", ") + "."
  }

  /** After its first name, a question about several fields reads as the
      question about the remaining ones: every missing name is listed, in
      order, separated by ", ". */
  lemma PromptRest(missing: seq<Field>)
    requires |missing| > 1
    ensures Prompt(missing) == PromptPrefix + Label(missing[0]) + ", " + Prompt(missing[1..])[|PromptPrefix|..]
  {
    var ps := seq(|missing|, i requires 0 <= i < |missing| => Label(missing[i]));
    var rest := missing[1..];
    var qs := seq(|rest|, i requires 0 <= i < |rest| => Label(rest[i]));
    assert ps[1..] == qs;
    assert (PromptPrefix + Join(qs, ", ") + ".")[|PromptPrefix|..] == Join(qs, ", ") + ".";
  }

  /** The outside services a complete turn consults: whether `authorize()`
      loads the credentials, the time value the date library gives a start
      string (None for an invalid date), and what the calendar API answers
      to an insert. */
  datatype Services = Services(
    authorizes: bool,
    parseDate: string -> Option<int>,
    insert: Event -> InsertOutcome)

  /** The object `JSON.parse` makes of the model's reply once its fences are
      stripped; None when the model call or the parse throws. */
  function Extract(reply: Option<string>, parse: string -> Option<Draft>): (r: Option<Draft>)
    ensures reply.None? ==> r.None?
    ensures reply.Some? && parse(StripFences(reply.value)).Some? ==> r.Some?
    ensures r.Some? ==> reply.Some? && parse(StripFences(reply.value)) == r
  {
    match reply
    case None => None
    case Some(text) => parse(StripFences(text))
  }

  /** The reply of a complete turn: whatever `authorize()` or
      `createCalendarEvent` throws ends in the retry reply. */
  function Finish(d: Draft, env: Services): (r: string)
    ensures !env.authorizes || BuildEvent(d, env.parseDate).None? ==> r == RetryReply
    ensures env.authorizes && BuildEvent(d, env.parseDate).Some? ==>
      var outcome := env.insert(BuildEvent(d, env.parseDate).value);
      r == if outcome == Inserted then SuccessText(d) else FailureText(outcome.message)
  {
    if !env.authorizes then RetryReply
    else match CreateCalendarEvent(d, env.parseDate, env.insert)
      case None => RetryReply
      case Some(text) => text
  }

  /** Every sender other than `from` has the same draft, or none, in both maps. */
  ghost predicate SameExceptAt(before: map<UserId, Draft>, after: map<UserId, Draft>, from: UserId)
  {
    forall u :: u != from ==> Get(after, u) == Get(before, u)
  }

  /** Writing or deleting the entry of `from` leaves every other entry alone. */
  lemma WritesStayAtKey(m: map<UserId, Draft>, from: UserId, d: Draft)
    ensures SameExceptAt(m, m[from := d], from)
    ensures SameExceptAt(m, m - {from}, from)
  {
  }

  class Assistant {
    /** The module-level `conversationStates`: the open draft of each sender. */
    var conversationStates: map<UserId, Draft>

    /** A draft is kept only while something is still missing from it. */
    ghost predicate Valid()
      reads this
    {
      AllIncomplete(conversationStates)
    }

    constructor ()
      ensures Valid() && conversationStates == map[]
    {
      conversationStates := map[];
    }

    /** One turn. `reply` is the language model's answer (None when the call
        throws) and `parse` stands for `JSON.parse`. */
    method ProcessMessage(from: UserId, reply: Option<string>, parse: string -> Option<Draft>, env: Services)
      returns (answer: string)
      requires Valid()
      modifies this
      ensures Valid()
      // the drafts of other senders are never touched
      ensures SameExceptAt(old(conversationStates), conversationStates, from)
      // a failed model call or parse changes nothing
      ensures Extract(reply, parse).None? ==>
        conversationStates == old(conversationStates) && answer == RetryReply
      // otherwise the merged draft is kept while incomplete, and dropped
      // before the event is attempted once complete
      ensures Extract(reply, parse).Some? ==>
        var d := Merge(Get(old(conversationStates), from), Extract(reply, parse).value);
        && (MissingFields(d) != [] ==>
              conversationStates == old(conversationStates)[from := d] && answer == Prompt(MissingFields(d)))
        && (MissingFields(d) == [] ==>
              conversationStates == old(conversationStates) - {from} && answer == Finish(d, env))
    {
      WritesStayAtKey(conversationStates, from, map[]);
      var extracted := Extract(reply, parse);
      if extracted.None? {
        answer := RetryReply;
        return;
      }
      var details := extracted.value;
      if from in conversationStates {
        details := Merge(Some(conversationStates[from]), details);
      }
      assert details == Merge(Get(conversationStates, from), extracted.value);
      var missing := CollectMissing(details);
      if |missing| > 0 {
        WritesStayAtKey(conversationStates, from, details);
        Remember(from, details);
        answer := Prompt(missing);
      } else {
        Forget(from);
        answer := Finish(details, env);
      }
    }

    /** `conversationStates[from] = details`. */
    method Remember(from: UserId, details: Draft)
      requires Valid() && MissingFields(details) != []
      modifies this
      ensures Valid() && conversationStates == old(conversationStates)[from := details]
    {
      WritesKeepIncomplete(conversationStates, from, details);
      conversationStates := conversationStates[from := details];
    }

    /** `delete conversationStates[from]`. */
    method Forget(from: UserId)
      requires Valid()
      modifies this
      ensures Valid() && conversationStates == old(conversationStates) - {from}
    {
      WritesKeepIncomplete(conversationStates, from, map[]);
      conversationStates := conversationStates - {from};
    }
  }

  /** Every stored draft still has a missing field. */
  predicate AllIncomplete(states: map<UserId, Draft>)
  {
    forall u :: u in states ==> MissingFields(states[u]) != []
  }

  /** Storing an incomplete draft or deleting an entry keeps every stored
      draft incomplete. */
  lemma WritesKeepIncomplete(states: map<UserId, Draft>, from: UserId, d: Draft)
    requires AllIncomplete(states)
    ensures MissingFields(d) != [] ==> AllIncomplete(states[from := d])
    ensures AllIncomplete(states - {from})
  {
    if MissingFields(d) != [] {
      var stored := states[from := d];
      forall u | u in stored ensures MissingFields(stored[u]) != [] {
        if u != from {
          assert stored[u] == states[u];
        }
      }
    }
    forall u | u in states - {from} ensures MissingFields((states - {from})[u]) != [] {
      assert (states - {from})[u] == states[u];
    }
  }

  /** A stored draft is never one the bot could already book. */
  lemma StoredDraftIncomplete(states: map<UserId, Draft>, u: UserId)
    requires AllIncomplete(states) && u in states
    ensures !Complete(states[u])
  {
    NothingMissingIffComplete(states[u]);
  }

  /** A first message that only names the meeting leaves date, time and
      guests to ask for. */
  lemma TitleOnlyAsksForRest(title: string)
    requires title != ""
    ensures MissingFields(map["title" := Str(title)]) == [Date, Time, Guests]
  {
    var d: Draft := map["title" := Str(title)];
    assert "date" != "title" && "time" != "title" && "guests" != "title" by {
      assert "date"[0] != "title"[0] && "time"[2] != "title"[2] && "guests"[0] != "title"[0];
    }
    MissingFieldsUnfolded(d);
  }

  /** A later message giving date, time and one guest completes a draft
      that already has its title. */
  lemma DetailsComplete(first: Draft, second: Draft, title: string, date: string, time: string, guest: Value)
    requires title != "" && date != "" && time != ""
    requires first == map["title" := Str(title)]
    requires second == map["date" := Str(date), "time" := Str(time), "guests" := Arr([guest])]
    ensures MissingFields(Merge(Some(first), second)) == []
  {
    var d := Merge(Some(first), second);
    assert d == map[]["title" := Str(title)]["date" := Str(date)]["time" := Str(time)]["guests" := Arr([guest])];
    CompleteForStringFields(title, date, time, [guest], map[]);
  }

  /** When every service succeeds, completing such a draft books the meeting
      and confirms it by its title. */
  lemma DetailsBooked(first: Draft, second: Draft, title: string, date: string, time: string, guest: Value, env: Services)
    requires first == map["title" := Str(title)]
    requires second == map["date" := Str(date), "time" := Str(time), "guests" := Arr([guest])]
    requires env.authorizes
    requires var start := env.parseDate(date + "T" + time + ":00-03:00");
      start.Some? && -MaxTime <= start.value <= MaxTime - DefaultDuration * MinuteMillis
    requires forall e :: env.insert(e) == Inserted
    ensures Finish(Merge(Some(first), second), env) == "✅ Reunião \"" + title + "\" agendada com sucesso!"
  {
    var d := Merge(Some(first), second);
    assert d == map[]["title" := Str(title)]["date" := Str(date)]["time" := Str(time)]["guests" := Arr([guest])];
    assert "duration" !in d;
    assert Get(d, "guests") == Some(Arr([guest]));
    assert Get(d, "title") == Some(Str(title));
    assert Get(d, "date") == Some(Str(date)) && Get(d, "time") == Some(Str(time));
    StartFromStrings(d, date, time);
    SuccessNamesTitle(d, title, env.parseDate, env.insert);
  }

  /** Two turns of one sender: the title first, then date, time and guest.
      The first turn asks for the rest and keeps the draft; the second one
      completes it, so the draft is dropped and the event is booked. */
  method TitleThenDetails(firstReply: string, secondReply: string)
  {
    var bot := new Assistant();
    var user := "whatsapp:+5511900000000";
    var first: Draft := map["title" := Str("Reunião")];
    var env := Services(true, _ => Some(0), _ => Inserted);
    var answer := bot.ProcessMessage(user, Some(firstReply), _ => Some(first), env);
    TitleOnlyAsksForRest("Reunião");
    assert answer == Prompt([Date, Time, Guests]);
    assert bot.conversationStates == map[user := first];

    var second: Draft := map["date" := Str("2025-07-01"), "time" := Str("15:00"), "guests" := Arr([Str("v@z.com")])];
    assert Get(bot.conversationStates, user) == Some(first);
    DetailsComplete(first, second, "Reunião", "2025-07-01", "15:00", Str("v@z.com"));
    DetailsBooked(first, second, "Reunião", "2025-07-01", "15:00", Str("v@z.com"), env);
    answer := bot.ProcessMessage(user, Some(secondReply), _ => Some(second), env);
    assert user !in bot.conversationStates;
    assert answer == Finish(Merge(Some(first), second), env);
    assert answer == "✅ Reunião \"" + "Reunião" + "\" agendada com sucesso!";
  }
}
