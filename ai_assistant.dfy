/**
 * The conversation assistant behind the messaging channel
 * (app/services/ai_assistant.py): the per-conversation history store, the
 * customer lines of the system prompt, and how a completed reservation is
 * recognised in the language model's reply, saved, and ends the conversation.
 *
 * The language model's reply is an input (`None` when the call fails), and so is
 * the JSON decoder: `parse` stands for `json.loads`, giving `None` where it
 * raises.
 */
module Assistant {
  import opened Wrappers
  import opened Text
  import opened Calendar
  import opened DateTimeUtils
  import opened Models

  datatype Message = Message(role: string, content: string)

  /** A stored transcript: a JSON list of messages, or anything else (NULL, empty,
      not JSON, not a list), which reads as no history. */
  datatype Transcript = Messages(messages: seq<Message>) | Unreadable

  /** The record a conversation's history lives in. */
  function Key(rid: int, cid: string): (int, string)
  {
    (rid, "history_" + cid)
  }

  /** Different conversations never share a record. */
  lemma KeyInjective(rid1: int, cid1: string, rid2: int, cid2: string)
    requires Key(rid1, cid1) == Key(rid2, cid2)
    ensures rid1 == rid2 && cid1 == cid2
  {
    var k := Key(rid1, cid1).1;
    assert cid1 == k[8..] && cid2 == Key(rid2, cid2).1[8..];
  }

  /** `get_conversation_history` over the stored records. */
  function HistoryIn(records: map<(int, string), Transcript>, rid: int, cid: string): (h: seq<Message>)
    ensures Key(rid, cid) !in records ==> h == []
  {
    var k := Key(rid, cid);
    if k in records && records[k].Messages? then records[k].messages else []
  }

  /** `history[-max:]` when the history is longer than `max`; Python reads a slice
      from `-0` as the whole list. */
  function Keep(h: seq<Message>, max: int): seq<Message>
  {
    if |h| <= max then h
    else if max > 0 then h[|h| - max..]
    else if max == 0 then h
    else h[if -max <= |h| then -max else |h|..]
  }

  /** With a positive bound, appending keeps at most `max` messages, ends with the
      new one, and the rest are the previous history's tail in order. */
  lemma KeepAppended(h: seq<Message>, m: Message, max: int)
    requires max >= 1
    ensures var r := Keep(h + [m], max);
      && |r| == (if |h| + 1 <= max then |h| + 1 else max)
      && r[|r| - 1] == m
      && r[..|r| - 1] == h[|h| - (|r| - 1)..]
  {
    var r := Keep(h + [m], max);
    assert r == (h + [m])[|h| + 1 - |r|..];
    assert r[..|r| - 1] == (h + [m])[|h| + 1 - |r|..|h|];
  }

  /** After a turn the last two messages are the customer's message and the reply. */
  lemma TurnEndsWithExchange(h: seq<Message>, user: Message, reply: Message)
    ensures var r := Keep(Keep(h + [user], 20) + [reply], 20);
      |r| <= 20 && |r| >= 2 && r[|r| - 1] == reply && r[|r| - 2] == user
  {
    var once := Keep(h + [user], 20);
    KeepAppended(h, user, 20);
    KeepAppended(once, reply, 20);
    var r := Keep(once + [reply], 20);
    assert r[..|r| - 1] == once[|once| - (|r| - 1)..];
    assert r[|r| - 2] == once[|once| - 1];
  }

  /** The `AIConversation` rows this assistant uses, by restaurant and conversation type. */
  class ConversationStore {
    var records: map<(int, string), Transcript>

    constructor()
      ensures records == map[]
    {
      records := map[];
    }

    function History(rid: int, cid: string): seq<Message>
      reads this
    {
      HistoryIn(records, rid, cid)
    }

    /** `save_conversation_history`: replace the record's transcript or create it. */
    method Save(rid: int, cid: string, history: seq<Message>)
      modifies this
      ensures records == old(records)[Key(rid, cid) := Messages(history)]
    {
      records := records[Key(rid, cid) := Messages(history)];
    }

    /** `clear_conversation_history`: delete the record. */
    method Clear(rid: int, cid: string)
      modifies this
      ensures records == old(records) - {Key(rid, cid)}
    {
      records := records - {Key(rid, cid)};
    }

    /** `add_to_conversation_history`. */
    method Add(rid: int, cid: string, role: string, content: string, max: int)
      modifies this
      ensures records == old(records)[Key(rid, cid) := Messages(Keep(old(History(rid, cid)) + [Message(role, content)], max))]
    {
      var history := History(rid, cid);
      history := history + [Message(role, content)];
      if |history| > max {
        if max > 0 {
          history := history[|history| - max..];
        } else if max < 0 {
          history := history[if -max <= |history| then -max else |history|..];
        }
      }
      Save(rid, cid, history);
    }
  }

  /** Saving, clearing or appending to one conversation leaves every other
      conversation's history as it was. */
  lemma OtherConversationsUnchanged(records: map<(int, string), Transcript>, rid: int, cid: string,
                                    t: Transcript, rid2: int, cid2: string)
    requires rid2 != rid || cid2 != cid
    ensures HistoryIn(records[Key(rid, cid) := t], rid2, cid2) == HistoryIn(records, rid2, cid2)
    ensures HistoryIn(records - {Key(rid, cid)}, rid2, cid2) == HistoryIn(records, rid2, cid2)
  {
    if Key(rid, cid) == Key(rid2, cid2) {
      KeyInjective(rid, cid, rid2, cid2);
    }
  }

  /** A saved history reads back as saved; a cleared one reads as empty. */
  lemma SaveThenLoad(records: map<(int, string), Transcript>, rid: int, cid: string, h: seq<Message>)
    ensures HistoryIn(records[Key(rid, cid) := Messages(h)], rid, cid) == h
    ensures HistoryIn(records - {Key(rid, cid)}, rid, cid) == []
  {
  }

  // ---------------------------------------------------------------------------
  // The system prompt's customer lines

  /** The known-customer lines: the name only when it is non-empty and not the
      phone number itself, the phone whenever it is non-empty. */
  function CustomerContext(name: Option<string>, phone: Option<string>): string
  {
    var named := if name.Some? && name.value != "" && name != phone
                 then "\nKNOWN CUSTOMER INFORMATION:\n- Name: " + name.value + "\n" else "";
    if phone.Some? && phone.value != "" then named + "- Phone: " + phone.value + "\n" else named
  }

  lemma CustomerContextLines(name: Option<string>, phone: Option<string>)
    ensures var c := CustomerContext(name, phone);
      && (StartsWith(c, "\nKNOWN CUSTOMER INFORMATION:\n- Name: ") <==>
            name.Some? && name.value != "" && name != phone)
      && (phone.Some? && phone.value != "" ==> EndsWith(c, "- Phone: " + phone.value + "\n"))
      && (phone.None? || phone.value == "" ==>
            c == "" || c == "\nKNOWN CUSTOMER INFORMATION:\n- Name: " + name.value + "\n")
  {
    var c := CustomerContext(name, phone);
    var head := "\nKNOWN CUSTOMER INFORMATION:\n- Name: ";
    if phone.Some? && phone.value != "" {
      var p := "- Phone: " + phone.value + "\n";
      if !(name.Some? && name.value != "" && name != phone) {
        assert c == p;
        assert c[0] != head[0];
      }
      assert c[|c| - |p|..] == p;
    }
  }

  // ---------------------------------------------------------------------------
  // Recognising a completed reservation

  /** A decoded JSON value (numbers are integers here). */
  datatype Json = JNull | JBool(b: bool) | JNum(n: int) | JStr(s: string) | JArr(items: seq<Json>)
                | JObj(fields: map<string, Json>)

  /** Python truthiness of a decoded value. */
  predicate Truthy(v: Json)
  {
    match v
    case JNull => false
    case JBool(b) => b
    case JNum(n) => n != 0
    case JStr(s) => s != ""
    case JArr(items) => items != []
    case JObj(fields) => fields != map[]
  }

  /** The reservation the assistant reports, as validated. */
  datatype TableReservation = TableReservation(date: string, time: string, guests: int, name: string,
                                               phone: string, specialRequests: Option<string>)

  /** A required string field: only a string validates. */
  function StrField(m: map<string, Json>, k: string): Option<string>
  {
    if k in m && m[k].JStr? then Some(m[k].s) else None
  }

  /** The guest count: an integer, a boolean, or a string holding an integer. */
  function IntField(m: map<string, Json>, k: string): Option<int>
  {
    if k !in m then None
    else match m[k]
      case JNum(n) => Some(n)
      case JBool(b) => Some(if b then 1 else 0)
      case JStr(s) => ParseInt(s)
      case _ => None
  }

  /** `TableReservation(**data)`: five required fields, optional special requests,
      other keys ignored. */
  function Validate(m: map<string, Json>): Option<TableReservation>
  {
    var special := if "special_requests" !in m || m["special_requests"].JNull? then Some(None)
                   else if m["special_requests"].JStr? then Some(Some(m["special_requests"].s)) else None;
    match (StrField(m, "date"), StrField(m, "time"), IntField(m, "guests"), StrField(m, "name"),
           StrField(m, "phone"), special)
    case (Some(d), Some(t), Some(g), Some(n), Some(p), Some(s)) => Some(TableReservation(d, t, g, n, p, s))
    case _ => None
  }

  /** The `data` object the prompt asks the model for. */
  function Dump(r: TableReservation): map<string, Json>
  {
    map["date" := JStr(r.date), "time" := JStr(r.time), "guests" := JNum(r.guests), "name" := JStr(r.name),
        "phone" := JStr(r.phone),
        "special_requests" := if r.specialRequests.Some? then JStr(r.specialRequests.value) else JNull]
  }

  /** Validation accepts exactly what it dumps. */
  lemma ValidateDump(r: TableReservation)
    ensures Validate(Dump(r)) == Some(r)
  {
  }

  /** Validation needs all five fields, with strings where strings are required. */
  lemma ValidateNeedsFields(m: map<string, Json>)
    requires Validate(m).Some?
    ensures forall k :: k in ["date", "time", "name", "phone"] ==> k in m && m[k].JStr?
    ensures "guests" in m
  {
  }

  /** The text from the first `{` to the last `}`, when there is such a span. */
  function JsonSlice(reply: string): (r: Option<string>)
    ensures r.Some? ==> |r.value| >= 2 && r.value[0] == '{' && r.value[|r.value| - 1] == '}'
  {
    var start := IndexOf(reply, '{');
    var end := LastIndexOf(reply, '}') + 1;
    if start != -1 && end > start then Some(reply[start..end]) else None
  }

  /** An object written between text without braces is what gets sliced out. */
  lemma JsonSliceEmbedded(before: string, body: string, after: string)
    requires '{' !in before && '}' !in after
    requires |body| >= 2 && body[0] == '{' && body[|body| - 1] == '}'
    ensures JsonSlice(before + body + after) == Some(body)
  {
    var s := before + body + after;
    assert s[..|before|] == before;
    IndexOfAt(s, '{', |before|);
    var e := |before| + |body| - 1;
    assert s[e + 1..] == after;
    LastIndexOfAt(s, '}', e);
    assert s[|before|..e + 1] == body;
  }

  datatype Extraction = NoReservation | Crashed | Complete(reservation: TableReservation)

  /** The reservation check in `chat`. Decoding, missing-key and validation errors are
      caught and leave the reply as it is; a `data` that is not an object, or a decoded
      value that is not an object, raises past the handler. */
  function Extract(reply: string, parse: string -> Option<Json>): Extraction
  {
    if !Contains(reply, "reservation_complete") then NoReservation
    else match JsonSlice(reply)
      case None => NoReservation
      case Some(text) =>
        match parse(text)
        case None => NoReservation
        case Some(v) =>
          if !v.JObj? then Crashed
          else if "reservation_complete" !in v.fields || !Truthy(v.fields["reservation_complete"]) then NoReservation
          else if "data" !in v.fields then NoReservation
          else if !v.fields["data"].JObj? then Crashed
          else match Validate(v.fields["data"].fields)
            case None => NoReservation
            case Some(r) => Complete(r)
  }

  /** A reservation is recognised only from a reply that mentions
      `reservation_complete`, whose braced span decodes to an object with a true flag
      and a valid `data` object. */
  lemma ExtractComplete(reply: string, parse: string -> Option<Json>)
    requires Extract(reply, parse).Complete?
    ensures Contains(reply, "reservation_complete") && JsonSlice(reply).Some?
    ensures var v := parse(JsonSlice(reply).value);
      && v.Some? && v.value.JObj? && "reservation_complete" in v.value.fields
      && Truthy(v.value.fields["reservation_complete"])
      && "data" in v.value.fields && v.value.fields["data"].JObj?
      && Validate(v.value.fields["data"].fields) == Some(Extract(reply, parse).reservation)
  {
  }

  /** The reply the prompt asks for, written between plain text, is recognised with
      the reservation it carries. */
  lemma ExtractInstructedReply(before: string, body: string, after: string, r: TableReservation,
                               parse: string -> Option<Json>)
    requires '{' !in before && '}' !in after
    requires |body| >= 2 && body[0] == '{' && body[|body| - 1] == '}'
    requires Contains(body, "reservation_complete")
    requires parse(body) == Some(JObj(map["reservation_complete" := JBool(true), "data" := JObj(Dump(r))]))
    ensures Extract(before + body + after, parse) == Complete(r)
  {
    var reply := before + body + after;
    JsonSliceEmbedded(before, body, after);
    ContainsAppend(before, body, "reservation_complete");
    ContainsAppend(before + body, after, "reservation_complete");
    var fields := map["reservation_complete" := JBool(true), "data" := JObj(Dump(r))];
    assert "reservation_complete" in fields && Truthy(fields["reservation_complete"]);
    assert "data" in fields && fields["data"] == JObj(Dump(r));
    ValidateDump(r);
  }

  // ---------------------------------------------------------------------------
  // Saving the reservation

  /** The attributes a `Reservation` can be constructed with. */
  const ReservationColumns: set<string> := {
    "id", "restaurant_id", "table_id", "customer_name", "customer_email", "customer_phone", "party_size",
    "reservation_date", "reservation_time", "duration_minutes", "status", "special_requests", "source",
    "is_trial_booking", "created_at", "updated_at"}

  /** The keywords `_save_reservation` passes. */
  const SaveKeywordsAsWritten: set<string> := {
    "restaurant_id", "customer_name", "customer_phone", "customer_email", "date", "time", "party_size",
    "special_requests", "status", "source", "created_at"}

  /** The keywords with the date and time under their column names. */
  const SaveKeywords: set<string> := {
    "restaurant_id", "customer_name", "customer_phone", "customer_email", "reservation_date",
    "reservation_time", "party_size", "special_requests", "status", "source", "created_at"}

  /** With the column names every keyword is an attribute. */
  lemma SaveKeywordsAccepted()
    ensures SaveKeywords <= ReservationColumns
  {
  }

  /** The new row for a reservation whose date and time parsed. */
  function ChannelRow(rid: int, r: TableReservation, d: Date, t: Time): NewReservation
  {
    NewReservation(rid, None, Some(r.name), None, Some(r.phone), Some(r.guests), Some(d), Some(t),
                   90, "confirmed", r.specialRequests, "whatsapp")
  }

  /** The row `_save_reservation` stores when it passes `keywords` to the constructor:
      a date or time that does not parse, or a keyword that is not an attribute of
      `Reservation` (SQLAlchemy's constructor raises TypeError), stores nothing. */
  function SavedRowUnder(keywords: set<string>, rid: int, r: TableReservation, id: int): (row: Option<Reservation>)
    ensures !(keywords <= ReservationColumns) ==> row.None?
    ensures row.Some? ==> Strptime(r.date, IsoDate).Some? && StrptimeTime(r.time).Some?
  {
    match (Strptime(r.date, IsoDate), StrptimeTime(r.time))
    case (Some(d), Some(t)) =>
      if keywords <= ReservationColumns then Insertable(ChannelRow(rid, r, d, t), id) else None
    case _ => None
  }

  /** The row stored by the corrected save, which passes the date and time under their
      column names. */
  function SavedRow(rid: int, r: TableReservation, id: int): Option<Reservation>
  {
    SavedRowUnder(SaveKeywords, rid, r, id)
  }

  /** As written, `date` is among the keywords and is no attribute of `Reservation`,
      so no reservation is ever stored, whatever the model reported. */
  lemma SaveAsWrittenStoresNothing(rid: int, r: TableReservation, id: int)
    ensures SavedRowUnder(SaveKeywordsAsWritten, rid, r, id).None?
  {
    assert "date" in SaveKeywordsAsWritten && "date" !in ReservationColumns;
  }

  /** With the column names, a reservation with a well-formed date and time is stored
      as reported. */
  lemma SavedRowStored(rid: int, r: TableReservation, id: int, d: Date, t: Time)
    requires InRange(d) && ValidTime(t)
    requires r.date == IsoFormat(d) && r.time == FormatTime24h(t.hour, t.minute)
    ensures var row := SavedRow(rid, r, id);
      && row.Some? && row.value.id == id && row.value.date == Some(d) && row.value.time == Some(t)
      && row.value.partySize == r.guests && row.value.customerName == r.name && row.value.customerPhone == r.phone
      && row.value.status == "confirmed" && row.value.source == "whatsapp" && row.value.tableId.None?
  {
    IsoRoundTrip(d);
    HourMinuteRoundTrip(t.hour, t.minute);
    assert Strptime(r.date, IsoDate) == Some(d) && StrptimeTime(r.time) == Some(t);
    SaveKeywordsAccepted();
    assert SavedRow(rid, r, id) == Row(ChannelRow(rid, r, d, t), id, true);
  }

  /** The body of `_save_reservation` for a given set of constructor keywords: parse,
      construct, commit; any failure rolls back and returns False. */
  method SaveUnder(db: Database, keywords: set<string>, rid: int, r: TableReservation) returns (saved: bool)
    requires db.Valid()
    modifies db`reservations, db`nextReservationId
    ensures db.Valid()
    ensures var row := SavedRowUnder(keywords, rid, r, old(db.nextReservationId));
      && (saved <==> row.Some?)
      && db.reservations == old(db.reservations) + (if row.Some? then [row.value] else [])
  {
    var date := Strptime(r.date, IsoDate);
    var time := StrptimeTime(r.time);
    if date.None? || time.None? || !(keywords <= ReservationColumns) {
      return false;
    }
    var row := db.AddReservation(ChannelRow(rid, r, date.value, time.value));
    saved := row.Some?;
  }

  /** `_save_reservation` as written: it passes `date=` and `time=`, so it returns False
      and stores nothing. */
  method SaveReservation(db: Database, rid: int, r: TableReservation) returns (saved: bool)
    requires db.Valid()
    modifies db`reservations, db`nextReservationId
    ensures db.Valid()
    ensures !saved && db.reservations == old(db.reservations)
  {
    SaveAsWrittenStoresNothing(rid, r, db.nextReservationId);
    saved := SaveUnder(db, SaveKeywordsAsWritten, rid, r);
  }

  /** `_save_reservation` corrected to pass the date and time under their column names:
      the row is stored exactly when it parses and the insert succeeds. */
  method SaveReservationWithColumns(db: Database, rid: int, r: TableReservation) returns (saved: bool)
    requires db.Valid()
    modifies db`reservations, db`nextReservationId
    ensures db.Valid()
    ensures var row := SavedRow(rid, r, old(db.nextReservationId));
      && (saved <==> row.Some?)
      && db.reservations == old(db.reservations) + (if row.Some? then [row.value] else [])
  {
    saved := SaveUnder(db, SaveKeywords, rid, r);
  }

  // ---------------------------------------------------------------------------
  // A conversation turn

  datatype ChatOutcome =
    | Answer(text: string, reservation: Option<TableReservation>, cleared: bool)
    | TurnCrashed

  const TroubleText := "I'm sorry, I'm having trouble processing your request. Please try again."

  /** The confirmation sent for a recognised reservation (decorations omitted). */
  function ConfirmationText(r: TableReservation): string
  {
    "Reservation Confirmed!\n\nDate: " + r.date + "\nTime: " + r.time + "\nGuests: " + IntToString(r.guests)
    + "\nName: " + r.name + "\nPhone: " + r.phone
    + (if r.specialRequests.Some? && r.specialRequests.value != "" then "\nSpecial Requests: " + r.specialRequests.value else "")
    + "\n\nThank you for your reservation! We look forward to welcoming you. You will receive a confirmation shortly."
  }

  /** The history after a turn that ends without a reservation. */
  function AfterTurn(records: map<(int, string), Transcript>, rid: int, cid: string, message: string, reply: string)
    : map<(int, string), Transcript>
  {
    var h := Keep(Keep(HistoryIn(records, rid, cid) + [Message("user", message)], 20) + [Message("assistant", reply)], 20);
    records[Key(rid, cid) := Messages(h)]
  }

  /** Deleting a record undoes a write to it. */
  lemma ClearAfterSave(records: map<(int, string), Transcript>, k: (int, string), t: Transcript)
    ensures records[k := t] - {k} == records - {k}
  {
  }

  /** What a turn answers once the model has replied. */
  function TurnOutcome(reply: string, e: Extraction): ChatOutcome
  {
    match e
    case NoReservation => Answer(reply, None, false)
    case Crashed => TurnCrashed
    case Complete(r) => Answer(ConfirmationText(r), Some(r), true)
  }

  /** `chat`: a failed model call changes nothing; otherwise both messages join the
      history, and for a recognised reservation the save is attempted, the history
      cleared and a confirmation returned, whether or not the save succeeded (as
      written it never does, so no row is stored). */
  method Chat(store: ConversationStore, db: Database, rid: int, cid: string, message: string,
              reply: Option<string>, parse: string -> Option<Json>) returns (outcome: ChatOutcome)
    requires db.Valid()
    modifies store, db`reservations, db`nextReservationId
    ensures db.Valid()
    ensures reply.None? ==>
              outcome == Answer(TroubleText, None, false) && store.records == old(store.records)
              && db.reservations == old(db.reservations)
    ensures reply.Some? ==>
              var e := Extract(reply.value, parse);
              && outcome == TurnOutcome(reply.value, e)
              && store.records == (if e.Complete? then old(store.records) - {Key(rid, cid)}
                                   else AfterTurn(old(store.records), rid, cid, message, reply.value))
              && db.reservations == old(db.reservations)
  {
    if reply.None? {
      return Answer(TroubleText, None, false);
    }
    outcome := Respond(store, db, rid, cid, message, reply.value, Extract(reply.value, parse));
  }

  /** `chat` once the model has replied with `text`, from which `e` was extracted. */
  method Respond(store: ConversationStore, db: Database, rid: int, cid: string, message: string,
                 text: string, e: Extraction) returns (outcome: ChatOutcome)
    requires db.Valid()
    modifies store, db`reservations, db`nextReservationId
    ensures db.Valid()
    ensures && outcome == TurnOutcome(text, e)
      && store.records == (if e.Complete? then old(store.records) - {Key(rid, cid)}
                           else AfterTurn(old(store.records), rid, cid, message, text))
      && db.reservations == old(db.reservations)
  {
    RecordTurn(store, rid, cid, message, text);
    match e
    case NoReservation =>
      outcome := Answer(text, None, false);
    case Crashed =>
      outcome := TurnCrashed;
    case Complete(r) =>
      ClearAfterSave(old(store.records), Key(rid, cid), store.records[Key(rid, cid)]);
      ConcludeReservation(store, db, rid, cid, r);
      outcome := Answer(ConfirmationText(r), Some(r), true);
  }

  /** A recognised reservation is handed to the save, and the conversation's history
      cleared whatever the save returned. */
  method ConcludeReservation(store: ConversationStore, db: Database, rid: int, cid: string, r: TableReservation)
    requires db.Valid()
    modifies store, db`reservations, db`nextReservationId
    ensures db.Valid()
    ensures store.records == old(store.records) - {Key(rid, cid)}
    ensures db.reservations == old(db.reservations)
  {
    var _ := SaveReservation(db, rid, r);
    store.Clear(rid, cid);
  }

  /** Both messages of a turn join the conversation's history. */
  method RecordTurn(store: ConversationStore, rid: int, cid: string, message: string, reply: string)
    modifies store
    ensures store.records == AfterTurn(old(store.records), rid, cid, message, reply)
  {
    store.Add(rid, cid, "user", message, 20);
    store.Add(rid, cid, "assistant", reply, 20);
  }
}
