/**
 * The customer memory layer (app/services/memory_service.py): how a customer
 * is identified towards the memory store, the guards that make every call a
 * no-op while the store is unavailable, the metadata attached to stored
 * memories, the aggregation of search results into a customer context, and the
 * bounded rendering of memories into the assistant's prompt.
 *
 * The memory store's client is foreign: its answers are parameters (`None`
 * where the call raises), and the requests the service sends it are recorded
 * in `MemoryService.requests`. Memory items arrive already converted to
 * `MemoryEntry` values.
 */
module MemoryService {
  import opened Wrappers
  import opened Text

  /** A metadata value: a string, an integer, or any other value (None, a boolean, a
      list, a dict), carried with the text Python's `str` gives it and its truthiness
      (None, False, [] and {} are falsy). */
  datatype MetaValue = Str(s: string) | Num(n: int) | Other(text: string, truthy: bool)

  /** How an f-string renders a value. */
  function Render(v: MetaValue): string
  {
    match v
    case Str(s) => s
    case Num(n) => IntToString(n)
    case Other(t, _) => t
  }

  /** Python truthiness of a value. */
  predicate TruthyValue(v: MetaValue)
  {
    match v
    case Str(s) => s != ""
    case Num(n) => n != 0
    case Other(_, truthy) => truthy
  }

  type Metadata = map<string, MetaValue>

  datatype MemoryEntry = MemoryEntry(id: string, memory: string, userId: string, createdAt: Option<string>,
                                     metadata: Metadata)

  datatype Message = Message(role: string, content: string)

  /** What the service asked the memory store to do. */
  datatype Request =
    | Add(messages: seq<Message>, userId: string, metadata: Option<Metadata>, agentId: Option<string>)
    | Search(query: string, userId: string, limit: int)
    | GetAll(userId: string, limit: int)
    | Delete(memoryId: string)
    | DeleteAll(userId: string)

  /** `ConversationMemory`: what is known about a customer. */
  datatype CustomerContext = CustomerContext(
    userId: string, restaurantId: int, customerName: Option<MetaValue>, customerPhone: Option<string>,
    preferences: seq<string>, pastReservations: seq<Metadata>, specialNotes: seq<string>,
    lastInteraction: Option<string>)

  // ---------------------------------------------------------------------------
  // Customer identity

  /** `_get_user_id`: the restaurant id and the digits of the phone number. */
  function UserId(phone: string, rid: int): string
  {
    "restaurant_" + (IntToString(rid) + ("_user_" + KeepDigits(phone)))
  }

  lemma {:induction false} KeepDigitsOfDigits(s: string)
    requires AllDigits(s)
    ensures KeepDigits(s) == s
  {
    if s != [] {
      assert AllDigits(s[1..]);
      KeepDigitsOfDigits(s[1..]);
      assert s == [s[0]] + s[1..];
    }
  }

  /** Only the digits of a phone number matter: a cleaned number names the same customer. */
  lemma CleanedPhoneSameUser(phone: string, rid: int)
    ensures UserId(KeepDigits(phone), rid) == UserId(phone, rid)
  {
    KeepDigitsOfDigits(KeepDigits(phone));
  }

  lemma IntToStringNoUnderscore(i: int)
    ensures '_' !in IntToString(i)
  {
    var s := IntToString(i);
    if i < 0 {
      assert s == "-" + NatToString(-i);
      assert forall k :: 1 <= k < |s| ==> s[k] == NatToString(-i)[k - 1];
    }
    assert forall k :: 0 <= k < |s| ==> s[k] != '_';
  }

  /** A separator that starts with a character absent from both heads splits uniquely. */
  lemma SplitUnique(a: string, b: string, sep: string, d: string, e: string)
    requires sep != [] && sep[0] !in a && sep[0] !in b
    requires a + (sep + d) == b + (sep + e)
    ensures a == b && d == e
  {
    var s1, s2 := a + (sep + d), b + (sep + e);
    var m := if |a| < |b| then |a| else |b|;
    assert s1[m] == s2[m];
    assert a == s1[..|a|] && b == s2[..|b|];
    assert d == s1[|a| + |sep|..] && e == s2[|b| + |sep|..];
  }

  /** Different restaurants, or phones with different digits, never share a memory owner. */
  lemma UserIdInjective(phone1: string, rid1: int, phone2: string, rid2: int)
    requires UserId(phone1, rid1) == UserId(phone2, rid2)
    ensures rid1 == rid2 && KeepDigits(phone1) == KeepDigits(phone2)
  {
    var a, b := IntToString(rid1), IntToString(rid2);
    var d, e := KeepDigits(phone1), KeepDigits(phone2);
    var p := "restaurant_";
    assert a + ("_user_" + d) == b + ("_user_" + e) by {
      assert UserId(phone1, rid1)[|p|..] == a + ("_user_" + d);
      assert UserId(phone2, rid2)[|p|..] == b + ("_user_" + e);
    }
    IntToStringNoUnderscore(rid1);
    IntToStringNoUnderscore(rid2);
    SplitUnique(a, b, "_user_", d, e);
    ParseIntRoundTrip(rid1);
    ParseIntRoundTrip(rid2);
  }

  // ---------------------------------------------------------------------------
  // Rendering memories into the prompt

  const Header := "Previous interactions and preferences:"

  function Line(m: MemoryEntry): string { "- " + m.memory }

  function Lines(ms: seq<MemoryEntry>): (r: seq<string>)
    ensures |r| == |ms|
    ensures forall i :: 0 <= i < |ms| ==> r[i] == Line(ms[i])
  {
    if ms == [] then [] else Lines(ms[..|ms| - 1]) + [Line(ms[|ms| - 1])]
  }

  function TotalLength(lines: seq<string>): nat
  {
    if lines == [] then 0 else TotalLength(lines[..|lines| - 1]) + |lines[|lines| - 1]|
  }

  /** `"\n".join(lines)`. */
  function JoinLines(lines: seq<string>): string
  {
    if lines == [] then ""
    else if |lines| == 1 then lines[0]
    else JoinLines(lines[..|lines| - 1]) + "\n" + lines[|lines| - 1]
  }

  /** How many memories, from the front, fit once `used` characters are taken. */
  function Fitting(ms: seq<MemoryEntry>, maxChars: int, used: int): nat
    ensures Fitting(ms, maxChars, used) <= |ms|
  {
    if ms == [] || used + |Line(ms[0])| > maxChars then 0
    else 1 + Fitting(ms[1..], maxChars, used + |Line(ms[0])|)
  }

  /** The text `format_memories_for_context` returns. */
  function FormattedContext(ms: seq<MemoryEntry>, maxChars: int): string
  {
    if ms == [] then "" else JoinLines([Header] + Lines(ms[..Fitting(ms, maxChars, |Header|)]))
  }

  /** `format_memories_for_context`: the header, then one line per memory while the
      running character count (separators not counted) stays within `maxChars`. */
  method FormatMemories(ms: seq<MemoryEntry>, maxChars: int) returns (text: string)
    ensures text == FormattedContext(ms, maxChars)
  {
    if |ms| == 0 {
      return "";
    }
    var lines := [Header];
    var total := |Header|;
    var i := 0;
    while i < |ms|
      invariant 0 <= i <= |ms|
      invariant lines == [Header] + Lines(ms[..i])
      invariant Fitting(ms, maxChars, |Header|) == i + Fitting(ms[i..], maxChars, total)
      decreases |ms| - i
    {
      var line := "- " + ms[i].memory;
      if total + |line| > maxChars {
        break;
      }
      assert ms[i..][1..] == ms[i + 1..];
      assert ms[..i + 1][..i] == ms[..i];
      lines := lines + [line];
      total := total + |line|;
      i := i + 1;
    }
    text := JoinLines(lines);
  }

  /** The characters the shown lines take, counted memory by memory from the front. */
  function ShownChars(ms: seq<MemoryEntry>, maxChars: int, used: int): nat
  {
    if ms == [] || used + |Line(ms[0])| > maxChars then 0
    else |Line(ms[0])| + ShownChars(ms[1..], maxChars, used + |Line(ms[0])|)
  }

  lemma {:induction false} ShownCharsBudget(ms: seq<MemoryEntry>, maxChars: int, used: int)
    requires used <= maxChars
    ensures used + ShownChars(ms, maxChars, used) <= maxChars
  {
    if ms != [] && used + |Line(ms[0])| <= maxChars {
      ShownCharsBudget(ms[1..], maxChars, used + |Line(ms[0])|);
    }
  }

  /** `ShownChars` is the total length of the lines shown. */
  lemma {:induction false} ShownCharsIsLength(ms: seq<MemoryEntry>, maxChars: int, used: int)
    ensures TotalLength(Lines(ms[..Fitting(ms, maxChars, used)])) == ShownChars(ms, maxChars, used)
  {
    var n := Fitting(ms, maxChars, used);
    if n > 0 {
      var next := used + |Line(ms[0])|;
      var k := Fitting(ms[1..], maxChars, next);
      assert n == k + 1;
      ShownCharsIsLength(ms[1..], maxChars, next);
      LinesShift(ms, n);
      assert ShownChars(ms, maxChars, used) == |Line(ms[0])| + ShownChars(ms[1..], maxChars, next);
    } else {
      assert ms[..n] == [];
    }
  }

  /** The memories shown, with the characters already used, stay within the budget. */
  lemma FittingWithinBudget(ms: seq<MemoryEntry>, maxChars: int, used: int)
    requires used <= maxChars
    ensures used + TotalLength(Lines(ms[..Fitting(ms, maxChars, used)])) <= maxChars
  {
    ShownCharsBudget(ms, maxChars, used);
    ShownCharsIsLength(ms, maxChars, used);
  }

  /** The first of the shown lines, then the rest. */
  lemma LinesShift(ms: seq<MemoryEntry>, n: nat)
    requires 0 < n <= |ms|
    ensures TotalLength(Lines(ms[..n])) == |Line(ms[0])| + TotalLength(Lines(ms[1..][..n - 1]))
  {
    TotalLengthCons(Line(ms[0]), Lines(ms[1..][..n - 1]));
    assert ms[..n] == [ms[0]] + ms[1..][..n - 1];
    LinesCons(ms[0], ms[1..][..n - 1]);
  }

  lemma LinesCons(m: MemoryEntry, ms: seq<MemoryEntry>)
    ensures Lines([m] + ms) == [Line(m)] + Lines(ms)
  {
  }

  lemma {:induction false} TotalLengthCons(l: string, lines: seq<string>)
    ensures TotalLength([l] + lines) == |l| + TotalLength(lines)
  {
    if lines != [] {
      var init := lines[..|lines| - 1];
      assert ([l] + lines)[..|lines|] == [l] + init;
      TotalLengthCons(l, init);
    }
  }

  /** Rendering stops at the first memory that does not fit: the next one would exceed the budget. */
  lemma {:induction false} FittingMaximal(ms: seq<MemoryEntry>, maxChars: int, used: int)
    requires Fitting(ms, maxChars, used) < |ms|
    ensures used + TotalLength(Lines(ms[..Fitting(ms, maxChars, used)]))
            + |Line(ms[Fitting(ms, maxChars, used)])| > maxChars
  {
    ShownCharsIsLength(ms, maxChars, used);
    ShownCharsMaximal(ms, maxChars, used);
  }

  lemma {:induction false} ShownCharsMaximal(ms: seq<MemoryEntry>, maxChars: int, used: int)
    requires Fitting(ms, maxChars, used) < |ms|
    ensures used + ShownChars(ms, maxChars, used) + |Line(ms[Fitting(ms, maxChars, used)])| > maxChars
  {
    if Fitting(ms, maxChars, used) > 0 {
      ShownCharsMaximal(ms[1..], maxChars, used + |Line(ms[0])|);
      assert ms[1..][Fitting(ms[1..], maxChars, used + |Line(ms[0])|)] == ms[Fitting(ms, maxChars, used)];
    }
  }

  /** No memories, no text; and a header longer than the budget is shown alone. */
  lemma FormattedEdges(ms: seq<MemoryEntry>, maxChars: int)
    ensures ms == [] ==> FormattedContext(ms, maxChars) == ""
    ensures ms != [] && |Header| > maxChars ==> FormattedContext(ms, maxChars) == Header
  {
    if ms != [] && |Header| > maxChars {
      assert Fitting(ms, maxChars, |Header|) == 0;
      assert Lines(ms[..0]) == [];
    }
  }

  /** The rendered text is the header and the fitting lines joined by newlines; the
      budget does not count those newlines. */
  lemma {:induction false} JoinedLength(lines: seq<string>)
    requires lines != []
    ensures |JoinLines(lines)| == TotalLength(lines) + |lines| - 1
  {
    if |lines| > 1 {
      JoinedLength(lines[..|lines| - 1]);
    }
  }

  // ---------------------------------------------------------------------------
  // The service and its availability guards

  class MemoryService {
    /** `is_available`: a key was given and the client started. */
    const available: bool
    var requests: seq<Request>

    /** `MemoryService(api_key)`: the key given, else the environment's; the client
        starts only when one of them is set and its construction does not raise. */
    constructor (apiKey: Option<string>, envKey: Option<string>, clientStarts: bool)
      ensures available <==> (Truthy(apiKey) || Truthy(envKey)) && clientStarts
      ensures requests == []
    {
      available := (Truthy(apiKey) || Truthy(envKey)) && clientStarts;
      requests := [];
    }

    /** `add_memory`; `raises` is whether the store's `add` raises. */
    method AddMemory(messages: seq<Message>, userId: string, metadata: Metadata, agentId: Option<string>,
                     raises: bool) returns (ok: bool)
      modifies this`requests
      ensures !available ==> !ok && requests == old(requests)
      ensures available ==> ok == !raises
      ensures available ==> requests == old(requests) + [Add(messages, userId,
                                                              if metadata != map[] then Some(metadata) else None,
                                                              if Truthy(agentId) then agentId else None)]
    {
      if !available {
        return false;
      }
      var md := if metadata != map[] then Some(metadata) else None;
      var agent := if Truthy(agentId) then agentId else None;
      requests := requests + [Add(messages, userId, md, agent)];
      ok := !raises;
    }

    /** `search_memories`; `response` is the store's answer, `None` where it raises. */
    method SearchMemories(query: string, phone: string, rid: int, limit: int, response: Option<seq<MemoryEntry>>)
      returns (found: seq<MemoryEntry>)
      modifies this`requests
      ensures !available ==> found == [] && requests == old(requests)
      ensures available ==> requests == old(requests) + [Search(query, UserId(phone, rid), limit)]
      ensures available ==> found == if response.Some? then response.value else []
    {
      if !available {
        return [];
      }
      requests := requests + [Search(query, UserId(phone, rid), limit)];
      found := if response.Some? then response.value else [];
    }

    /** `get_all_memories`. */
    method GetAllMemories(phone: string, rid: int, limit: int, response: Option<seq<MemoryEntry>>)
      returns (found: seq<MemoryEntry>)
      modifies this`requests
      ensures !available ==> found == [] && requests == old(requests)
      ensures available ==> requests == old(requests) + [GetAll(UserId(phone, rid), limit)]
      ensures available ==> found == if response.Some? then response.value else []
    {
      if !available {
        return [];
      }
      requests := requests + [GetAll(UserId(phone, rid), limit)];
      found := if response.Some? then response.value else [];
    }

    /** `delete_memory`. */
    method DeleteMemory(memoryId: string, raises: bool) returns (ok: bool)
      modifies this`requests
      ensures !available ==> !ok && requests == old(requests)
      ensures available ==> ok == !raises && requests == old(requests) + [Delete(memoryId)]
    {
      if !available {
        return false;
      }
      requests := requests + [Delete(memoryId)];
      ok := !raises;
    }

    /** `clear_user_memories`. */
    method ClearUserMemories(phone: string, rid: int, raises: bool) returns (ok: bool)
      modifies this`requests
      ensures !available ==> !ok && requests == old(requests)
      ensures available ==> ok == !raises && requests == old(requests) + [DeleteAll(UserId(phone, rid))]
    {
      if !available {
        return false;
      }
      requests := requests + [DeleteAll(UserId(phone, rid))];
      ok := !raises;
    }

    /** `add_conversation_memory`: the exchange, with the caller's metadata laid over
        the restaurant, phone and timestamp defaults. */
    method AddConversationMemory(userMessage: string, reply: string, phone: string, rid: int,
                                 metadata: Option<Metadata>, timestamp: string, raises: bool)
      returns (ok: bool)
      modifies this`requests
      ensures !available ==> !ok && requests == old(requests)
      ensures available ==> ok == !raises && requests == old(requests) + [Add(
                [Message("user", userMessage), Message("assistant", reply)], UserId(phone, rid),
                Some(ConversationMetadata(rid, phone, timestamp, metadata)), None)]
    {
      var messages := [Message("user", userMessage), Message("assistant", reply)];
      ConversationMetadataKeys(rid, phone, timestamp, metadata);
      ok := AddMemory(messages, UserId(phone, rid), ConversationMetadata(rid, phone, timestamp, metadata), None, raises);
    }

    /** `add_reservation_memory`: a summary exchange, tagged as a reservation with the
        details laid over the tag. */
    method AddReservationMemory(phone: string, rid: int, details: Metadata, raises: bool) returns (ok: bool)
      modifies this`requests
      ensures !available ==> !ok && requests == old(requests)
      ensures available ==> ok == !raises && requests == old(requests) + [Add(
                ReservationMessages(details), UserId(phone, rid), Some(ReservationMetadata(rid, details)), None)]
    {
      assert "type" in ReservationMetadata(rid, details);
      ok := AddMemory(ReservationMessages(details), UserId(phone, rid), ReservationMetadata(rid, details), None, raises);
    }

    /** `add_preference`: tagged as a preference of the given category. */
    method AddPreference(phone: string, rid: int, preference: string, category: string, raises: bool)
      returns (ok: bool)
      modifies this`requests
      ensures !available ==> !ok && requests == old(requests)
      ensures available ==> ok == !raises && requests == old(requests) + [Add(
                PreferenceMessages(preference), UserId(phone, rid), Some(PreferenceMetadata(rid, category)), None)]
    {
      assert "type" in PreferenceMetadata(rid, category);
      ok := AddMemory(PreferenceMessages(preference), UserId(phone, rid), PreferenceMetadata(rid, category), None, raises);
    }

    /** `get_customer_context`: the three searches and the last-interaction lookup are
        answered by the parameters; a raising `get_all` keeps what was gathered so far. */
    method GetCustomerContext(phone: string, rid: int, names: Option<seq<MemoryEntry>>,
                              prefs: Option<seq<MemoryEntry>>, reservations: Option<seq<MemoryEntry>>,
                              all: Option<seq<MemoryEntry>>) returns (ctx: CustomerContext)
      modifies this`requests
      ensures !available ==> ctx == Blank(phone, rid) && requests == old(requests)
      ensures available ==> ctx == Gathered(phone, rid, Answer(names), Answer(prefs), Answer(reservations), all)
      ensures available ==> requests == old(requests) + [
                Search("customer name", UserId(phone, rid), 3),
                Search("preferences seating dietary", UserId(phone, rid), 5),
                Search("reservation booking", UserId(phone, rid), 5),
                GetAll(UserId(phone, rid), 1)]
    {
      ctx := Blank(phone, rid);
      if !available {
        return;
      }
      var nameResults, prefResults, resResults := ContextSearches(phone, rid, names, prefs, reservations);
      var name := FirstName(nameResults);
      if name.Some? {
        ctx := ctx.(customerName := name);
      }
      var preferences := CollectPreferences(prefResults);
      ctx := ctx.(preferences := preferences);
      var past := CollectReservations(resResults);
      ctx := ctx.(pastReservations := past);
      requests := requests + [GetAll(UserId(phone, rid), 1)];
      if all.Some? && all.value != [] {
        ctx := ctx.(lastInteraction := all.value[0].createdAt);
      }
    }

    /** The three searches `get_customer_context` makes, in order. */
    method ContextSearches(phone: string, rid: int, names: Option<seq<MemoryEntry>>,
                           prefs: Option<seq<MemoryEntry>>, reservations: Option<seq<MemoryEntry>>)
      returns (nameResults: seq<MemoryEntry>, prefResults: seq<MemoryEntry>, resResults: seq<MemoryEntry>)
      requires available
      modifies this`requests
      ensures nameResults == Answer(names) && prefResults == Answer(prefs) && resResults == Answer(reservations)
      ensures requests == old(requests) + [
                Search("customer name", UserId(phone, rid), 3),
                Search("preferences seating dietary", UserId(phone, rid), 5),
                Search("reservation booking", UserId(phone, rid), 5)]
    {
      nameResults := SearchMemories("customer name", phone, rid, 3, names);
      prefResults := SearchMemories("preferences seating dietary", phone, rid, 5, prefs);
      resResults := SearchMemories("reservation booking", phone, rid, 5, reservations);
    }
  }

  /** The module-level slot behind `get_memory_service`. */
  class ServiceSlot {
    var service: MemoryService?

    constructor ()
      ensures service == null
    {
      service := null;
    }

    /** `get_memory_service`: the first call creates the service, later calls return it
        whatever key they pass. */
    method GetMemoryService(apiKey: Option<string>, envKey: Option<string>, clientStarts: bool)
      returns (m: MemoryService)
      modifies this
      ensures old(service) != null ==> m == old(service) && service == old(service)
      ensures old(service) == null ==> fresh(m) && service == m
      ensures old(service) == null ==> (m.available <==> (Truthy(apiKey) || Truthy(envKey)) && clientStarts)
    {
      if service == null {
        service := new MemoryService(apiKey, envKey, clientStarts);
      }
      m := service;
    }
  }

  /** Python truthiness of an optional string. */
  predicate Truthy(v: Option<string>) { v.Some? && v.value != "" }

  /** A search's result list: empty where the store raised. */
  function Answer(response: Option<seq<MemoryEntry>>): seq<MemoryEntry>
  {
    if response.Some? then response.value else []
  }

  function ConversationMetadata(rid: int, phone: string, timestamp: string, metadata: Option<Metadata>): Metadata
  {
    map["restaurant_id" := Num(rid), "phone" := Str(phone), "timestamp" := Str(timestamp)]
      + (if metadata.Some? then metadata.value else map[])
  }

  /** The caller's metadata wins over the defaults; a default survives only when the caller omits it. */
  lemma ConversationMetadataKeys(rid: int, phone: string, timestamp: string, metadata: Option<Metadata>)
    ensures var md := ConversationMetadata(rid, phone, timestamp, metadata);
            && {"restaurant_id", "phone", "timestamp"} <= md.Keys
            && (metadata.Some? ==> forall k :: k in metadata.value ==> k in md && md[k] == metadata.value[k])
            && ((metadata.None? || "restaurant_id" !in metadata.value) ==> md["restaurant_id"] == Num(rid))
            && ((metadata.None? || "phone" !in metadata.value) ==> md["phone"] == Str(phone))
            && ((metadata.None? || "timestamp" !in metadata.value) ==> md["timestamp"] == Str(timestamp))
            && forall k :: k in md ==> k in {"restaurant_id", "phone", "timestamp"} || (metadata.Some? && k in metadata.value)
  {
  }

  function ReservationMetadata(rid: int, details: Metadata): Metadata
  {
    map["type" := Str("reservation"), "restaurant_id" := Num(rid)] + details
  }

  /** `details.get(key, default)`, rendered. */
  function Field(details: Metadata, key: string, default: string): string
  {
    if key in details then Render(details[key]) else default
  }

  /** The natural-language summary of a reservation. */
  function ReservationSummary(details: Metadata): string
  {
    var middle := Field(details, "guests", "unknown number of") + " guests on " + Field(details, "date", "unknown date")
                  + " at " + Field(details, "time", "unknown time");
    var text := "Made a reservation for " + middle + ".";
    if "special_requests" in details && TruthyValue(details["special_requests"])
    then text + (" Special requests: " + Render(details["special_requests"]))
    else text
  }

  function ReservationMessages(details: Metadata): seq<Message>
  {
    var guests := Field(details, "guests", "unknown number of");
    var date := Field(details, "date", "unknown date");
    var time := Field(details, "time", "unknown time");
    [Message("user", "I made a reservation: " + ReservationSummary(details)),
     Message("assistant", "I've noted your reservation for " + date + " at " + time + " for " + guests + " guests.")]
  }

  lemma ConcatEnds(a: string, b: string)
    ensures StartsWith(a + b, a) && EndsWith(a + b, b)
  {
    assert (a + b)[..|a|] == a;
    assert (a + b)[|a|..] == b;
  }

  lemma StartsWithExtend(s: string, p: string, t: string)
    requires StartsWith(s, p)
    ensures StartsWith(s + t, p)
  {
    assert (s + t)[..|p|] == s[..|p|];
  }

  /** The summary names the special requests exactly when the details carry non-empty ones. */
  lemma SummaryMentionsSpecialRequests(details: Metadata)
    ensures "special_requests" in details && TruthyValue(details["special_requests"]) ==>
              EndsWith(ReservationSummary(details), " Special requests: " + Render(details["special_requests"]))
    ensures !("special_requests" in details && TruthyValue(details["special_requests"])) ==>
              EndsWith(ReservationSummary(details), ".")
    ensures StartsWith(ReservationSummary(details), "Made a reservation for ")
  {
    var middle := Field(details, "guests", "unknown number of") + " guests on " + Field(details, "date", "unknown date")
                  + " at " + Field(details, "time", "unknown time");
    var head := "Made a reservation for " + middle;
    var text := head + ".";
    ConcatEnds("Made a reservation for ", middle);
    StartsWithExtend(head, "Made a reservation for ", ".");
    ConcatEnds(head, ".");
    if "special_requests" in details && TruthyValue(details["special_requests"]) {
      var tail := " Special requests: " + Render(details["special_requests"]);
      ConcatEnds(text, tail);
      StartsWithExtend(text, "Made a reservation for ", tail);
    }
  }

  /** A reservation stored without requests carries `special_requests` as None, which is
      falsy: the summary then ends with the time and adds nothing. */
  lemma NoneRequestsOmitted(details: Metadata)
    requires "special_requests" in details && details["special_requests"] == Other("None", false)
    ensures EndsWith(ReservationSummary(details), ".")
  {
    SummaryMentionsSpecialRequests(details);
  }

  function PreferenceMetadata(rid: int, category: string): Metadata
  {
    map["type" := Str("preference"), "category" := Str(category), "restaurant_id" := Num(rid)]
  }

  function PreferenceMessages(preference: string): seq<Message>
  {
    [Message("user", "My preference: " + preference), Message("assistant", "I'll remember that you " + preference + ".")]
  }

  /** A reservation memory is tagged as such unless the details carry their own `type`. */
  lemma ReservationMetadataTagged(rid: int, details: Metadata)
    ensures "type" !in details ==> ReservationMetadata(rid, details)["type"] == Str("reservation")
    ensures forall k :: k in details ==> ReservationMetadata(rid, details)[k] == details[k]
  {
  }

  // ---------------------------------------------------------------------------
  // Customer context

  function Blank(phone: string, rid: int): CustomerContext
  {
    CustomerContext(UserId(phone, rid), rid, None, Some(phone), [], [], [], None)
  }

  /** The context gathered from the three searches and the `get_all` answer. */
  function Gathered(phone: string, rid: int, names: seq<MemoryEntry>, prefs: seq<MemoryEntry>,
                    reservations: seq<MemoryEntry>, all: Option<seq<MemoryEntry>>): CustomerContext
  {
    CustomerContext(UserId(phone, rid), rid, NameIn(names), Some(phone), Preferences(prefs),
                    ReservationsIn(reservations), [],
                    if all.Some? && all.value != [] then all.value[0].createdAt else None)
  }

  /** The `name` of the first memory whose metadata has one. */
  function NameIn(ms: seq<MemoryEntry>): (r: Option<MetaValue>)
    ensures r.Some? ==> (exists i :: 0 <= i < |ms| && "name" in ms[i].metadata && r.value == ms[i].metadata["name"]
                                 && forall j :: 0 <= j < i ==> "name" !in ms[j].metadata)
    ensures r.None? ==> forall i :: 0 <= i < |ms| ==> "name" !in ms[i].metadata
  {
    if ms == [] then None
    else if "name" in ms[0].metadata then Some(ms[0].metadata["name"])
    else
      var r := NameIn(ms[1..]);
      if r.Some? then
        var i :| 0 <= i < |ms[1..]| && "name" in ms[1..][i].metadata && r.value == ms[1..][i].metadata["name"]
                 && forall j :: 0 <= j < i ==> "name" !in ms[1..][j].metadata;
        assert forall j :: 0 <= j < i + 1 ==> "name" !in ms[j].metadata by {
          forall j | 0 <= j < i + 1 ensures "name" !in ms[j].metadata {
            if j > 0 { assert ms[j] == ms[1..][j - 1]; }
          }
        }
        r
      else r
  }

  method FirstName(ms: seq<MemoryEntry>) returns (name: Option<MetaValue>)
    ensures name == NameIn(ms)
  {
    name := None;
    var i := 0;
    while i < |ms|
      invariant 0 <= i <= |ms|
      invariant NameIn(ms) == NameIn(ms[i..])
      decreases |ms| - i
    {
      if "name" in ms[i].metadata {
        name := Some(ms[i].metadata["name"]);
        return;
      }
      assert ms[i..][1..] == ms[i + 1..];
      i := i + 1;
    }
  }

  /** The preferences a list of memories yields: each non-empty memory text once, in
      order of first appearance. */
  function Preferences(ms: seq<MemoryEntry>): seq<string>
  {
    if ms == [] then []
    else
      var p := Preferences(ms[..|ms| - 1]);
      var m := ms[|ms| - 1].memory;
      if m != "" && m !in p then p + [m] else p
  }

  method CollectPreferences(ms: seq<MemoryEntry>) returns (prefs: seq<string>)
    ensures prefs == Preferences(ms)
  {
    prefs := [];
    var i := 0;
    while i < |ms|
      invariant 0 <= i <= |ms|
      invariant prefs == Preferences(ms[..i])
    {
      assert ms[..i + 1][..i] == ms[..i];
      if ms[i].memory != "" && ms[i].memory !in prefs {
        prefs := prefs + [ms[i].memory];
      }
      i := i + 1;
    }
    assert ms[..|ms|] == ms;
  }

  predicate Distinct(p: seq<string>) { forall i, j :: 0 <= i < j < |p| ==> p[i] != p[j] }

  /** No preference is listed twice. */
  lemma {:induction false} PreferencesDistinct(ms: seq<MemoryEntry>)
    ensures Distinct(Preferences(ms))
  {
    if ms != [] {
      var p := Preferences(ms[..|ms| - 1]);
      PreferencesDistinct(ms[..|ms| - 1]);
      var m := ms[|ms| - 1].memory;
      if m != "" && m !in p {
        var q := p + [m];
        forall i, j | 0 <= i < j < |q| ensures q[i] != q[j] {
          assert q[i] == p[i] && p[i] in p;
          if j < |p| { assert q[j] == p[j]; } else { assert q[j] == m; }
        }
      }
    }
  }

  /** The preferences are exactly the non-empty memory texts. */
  lemma {:induction false} PreferencesAreMemories(ms: seq<MemoryEntry>)
    ensures forall x :: x in Preferences(ms) <==> x != "" && exists i :: 0 <= i < |ms| && ms[i].memory == x
  {
    if ms != [] {
      var init := ms[..|ms| - 1];
      PreferencesAreMemories(init);
      forall x | x != "" && (exists i :: 0 <= i < |ms| && ms[i].memory == x)
        ensures x in Preferences(ms)
      {
        var i :| 0 <= i < |ms| && ms[i].memory == x;
        if i < |ms| - 1 { assert init[i] == ms[i]; }
      }
      forall x | x in Preferences(ms)
        ensures x != "" && exists i :: 0 <= i < |ms| && ms[i].memory == x
      {
        if x in Preferences(init) {
          var i :| 0 <= i < |init| && init[i].memory == x;
          assert ms[i] == init[i];
        } else {
          assert ms[|ms| - 1].memory == x;
        }
      }
    }
  }

  predicate IsReservation(md: Metadata) { "type" in md && md["type"] == Str("reservation") }

  /** The metadata of the memories tagged as reservations, in order. */
  function ReservationsIn(ms: seq<MemoryEntry>): seq<Metadata>
  {
    if ms == [] then []
    else
      var r := ReservationsIn(ms[..|ms| - 1]);
      if IsReservation(ms[|ms| - 1].metadata) then r + [ms[|ms| - 1].metadata] else r
  }

  method CollectReservations(ms: seq<MemoryEntry>) returns (past: seq<Metadata>)
    ensures past == ReservationsIn(ms)
  {
    past := [];
    var i := 0;
    while i < |ms|
      invariant 0 <= i <= |ms|
      invariant past == ReservationsIn(ms[..i])
    {
      assert ms[..i + 1][..i] == ms[..i];
      if "type" in ms[i].metadata && ms[i].metadata["type"] == Str("reservation") {
        past := past + [ms[i].metadata];
      }
      i := i + 1;
    }
    assert ms[..|ms|] == ms;
  }

  /** Past reservations hold only reservation-tagged metadata, and all of it. */
  lemma {:induction false} ReservationsTagged(ms: seq<MemoryEntry>)
    ensures forall md :: md in ReservationsIn(ms) ==> IsReservation(md)
    ensures forall i :: 0 <= i < |ms| && IsReservation(ms[i].metadata) ==> ms[i].metadata in ReservationsIn(ms)
  {
    if ms != [] {
      var init := ms[..|ms| - 1];
      ReservationsTagged(init);
      forall i | 0 <= i < |ms| && IsReservation(ms[i].metadata)
        ensures ms[i].metadata in ReservationsIn(ms)
      {
        if i < |ms| - 1 { assert init[i] == ms[i]; }
      }
    }
  }
}
