# AppointMint reservation core in Dafny

AppointMint is a multi-tenant restaurant booking service. Each tenant (an organisation on a trial or a paid plan) owns restaurants, and each restaurant has tables and reservations. Guests book through:
- a chat assistant on the restaurant's website;
- a Chatwoot inbox;
- a REST API.

Staff manage the bookings from an admin panel and a staff assistant. Billing runs through Stripe.

This project models the deterministic core around the language-model calls, and proves what it promises:

- **Dates and times** (`datetime_utils.dfy`, module `DateTimeUtils`):
  - the natural-language time parser (`parse_time`);
  - relative-date resolution (`parse_relative_date`) against an explicit reference date;
  - the combined `parse_datetime`;
  - the 12-hour and 24-hour formatters.
  - The helper modules `Text` (ASCII string functions and `int()`), `Calendar` (a proleptic Gregorian date with Python's ordinal and weekday) and `Wrappers` (`Option`) support it.
- **Booking assistant tools** (`ai_assistant_fallback.dfy`, module `FallbackAssistant`):
  - the date and guest buttons;
  - `_check_availability` and `_make_reservation`, which pick the smallest active table that fits and has no pending or confirmed booking at the identical date and start time;
  - the large-party request, the confirmation card and `_execute_tool`;
  - the tool loop of `chat_sync`.
- **Structured-output assistant** (`ai_assistant.dfy`, module `Assistant`):
  - the conversation-history store (get, save, clear, bounded append);
  - the customer lines of the system prompt;
  - extraction of the `reservation_complete` JSON block, and `chat`.
- **Records** (`models.dfy`, module `Models`):
  - `Tenant` with its trial and payment properties, `increment_booking_count` and `activate_paid_subscription`;
  - `User` with its role predicates;
  - the reservation row and its NOT NULL columns;
  - a `Database` class standing for the SQLAlchemy session.
- **Billing** (`stripe_service.dfy`, module `StripeService`):
  - the price-key lookup;
  - `handle_webhook_event` with its event-id de-duplication;
  - the six handlers that move a tenant's subscription and payment state and switch its restaurants live.
- **Floor plans** (`floor_plan.dfy`, module `FloorPlan`):
  - `find_connected_cells` as a flood fill into 4-connected components;
  - cell classification by fill colour;
  - the derivation of tables from cell groups;
  - the field validators of `TableConfigInput` and `FloorPlanInput`.
- **Staff assistant** (`staff_assistant.dfy`, module `StaffAssistant`):
  - the listing queries and the statistics;
  - the guarded status and guest-count updates;
  - the first-match routing of `chat_sync`.
- **Customer memory** (`memory_service.dfy`, module `MemoryService`):
  - the user id;
  - the budgeted context text;
  - the availability guards and request log of every operation;
  - the aggregation in `get_customer_context`.
- **Admin panel** (`admin.dfy`, module `Admin`):
  - the three access decorators and the restaurant permission checks;
  - role and tenant coercion when users are added or edited;
  - the restaurant tenant rule, the reservation status whitelist and the knowledge-base download name.
- **Sign-in and registration** (`auth.dfy`, module `Auth`):
  - the registration checks and the trial account they create;
  - the sample tables;
  - the login guard for deactivated users.
- **Public API** (`api.dfy`, module `Api`):
  - availability, creation, update and cancellation of reservations;
  - the Chatwoot webhook: message classification, the reply text, the welcome message, and the guards and URL of `send_chatwoot_response`.
    As written the webhook never gets past its token lookup, because `Restaurant` does not map the Chatwoot columns; these rules are modelled with the columns mapped (see "## Findings").
- **Configuration** (`config.dfy`, module `AppConfig`):
  - the configuration name map;
  - the database URL of each configuration, including the production `postgres://` rewrite;
  - the production secret-key check.

Several things become parameters:
- the wall clock (a reference date and time);
- the language model, Mem0, Stripe and HTTP results;
- `json.loads` and password checking.

Rows of the database are datatypes kept in sequences of the `Database` class. Tenants, restaurants and users are classes whose fields the handlers update in place.

## Model

| member | source | states |
|---|---|---|
| DateTimeUtils.WeekdayNumber | app/services/datetime_utils.py:40-48 | A weekday name found in the table is a weekday number 0 (Monday) to 6 |
| DateTimeUtils.WeekdayName | app/services/datetime_utils.py:40-48 | Every weekday name is a lower-case word of at least three letters, none of them a fixed relative word |
| DateTimeUtils.TimeExpressionsValid | app/services/datetime_utils.py:51-67 | Every named time (noon, lunch, dinner, ...) is a valid clock time |
| DateTimeUtils.DayPartsOf | app/services/datetime_utils.py:108-111 | Exactly one of morning, afternoon, evening and night holds for each hour, and each is tied to its hour range |
| DateTimeUtils.CurrentDateTimeInfo | app/services/datetime_utils.py:86-112 | The reported current date and time read back as the reference date and time |
| DateTimeUtils.ParseTime | app/services/datetime_utils.py:219-347 | Every time parse_time returns has an hour of 0 to 23 and a minute of 0 to 59, for every input |
| DateTimeUtils.ApplyPeriod | app/services/datetime_utils.py:246-270 | pm adds 12 except at 12; 12 am is hour 0 |
| DateTimeUtils.ApplyOptionalPeriod | app/services/datetime_utils.py:260-270 | A 12-hour time without am/pm is read as pm, and the result is always a valid hour |
| DateTimeUtils.TwelveHourClock | app/services/datetime_utils.py:260-270 | "k am"/"k pm" for k of 1 to 12 is k%12 or k%12+12; any other hour is refused |
| DateTimeUtils.MinutesClock | app/services/datetime_utils.py:246-257 | "k:mm am/pm" reads as the 12-hour clock with those minutes, for every minute 00-59 |
| DateTimeUtils.BareHour | app/services/datetime_utils.py:273-280 | A bare number 1-9 is read as an evening hour (+12), 0 and 10-23 as themselves, and anything larger is refused |
| DateTimeUtils.HalfPast | app/services/datetime_utils.py:299-311 | "half past k" is thirty minutes past k, read as afternoon or evening, and k outside 1-12 is refused |
| DateTimeUtils.QuarterPast | app/services/datetime_utils.py:314-326 | "quarter past k" is fifteen minutes past k, read as afternoon or evening |
| DateTimeUtils.QuarterTo | app/services/datetime_utils.py:329-345 | "quarter to k" without am/pm is minute 45 of the hour before k read as afternoon or evening |
| DateTimeUtils.QuarterToPeriod | app/services/datetime_utils.py:329-345 | "quarter to k am/pm" is minute 45 of the hour before the 12-hour reading of k, wrapping hour -1 to 23 |
| DateTimeUtils.QuarterToMidnight | app/services/datetime_utils.py:334-343 | "quarter to 12 am" is 23:45 |
| DateTimeUtils.ParseTimeLower | app/services/datetime_utils.py:231 | Letter case never changes what parse_time reads |
| DateTimeUtils.HourMinuteRoundTrip | app/services/datetime_utils.py:422-424 | A time written by format_time_24h parses back with strptime %H:%M |
| DateTimeUtils.Format24hRoundTrip | app/services/datetime_utils.py:238-243 | parse_time(format_time_24h(h, m)) == (h, m) for every valid h and m |
| DateTimeUtils.Format12hRoundTrip | app/services/datetime_utils.py:411-419 | parse_time(format_time_12h(h, m)) == (h, m) for every valid h and m |
| DateTimeUtils.DisplayHour | app/services/datetime_utils.py:413-416 | The displayed 12-hour hour (0 and 12 shown as 12) and the period give the hour of the day back |
| DateTimeUtils.StrptimeTime | app/services/ai_assistant_fallback.py:388 | strptime with %H:%M only ever yields a valid clock time |
| DateTimeUtils.MonthNumber | app/services/datetime_utils.py:188-201 | A month name found is the name at that 1-based position |
| DateTimeUtils.Strptime | app/services/datetime_utils.py:188-214 | A parsed date names a real calendar date |
| DateTimeUtils.IsoRoundTrip | app/services/datetime_utils.py:188-214 | Every representable date, written YYYY-MM-DD, parses back to itself |
| DateTimeUtils.Rollover | app/services/datetime_utils.py:203-214 | A date parsed without a year keeps its month and day and lands on or after the reference date, in the next year exactly when the date has already passed in the reference year; a date with a year is kept as it is |
| DateTimeUtils.IsoRelativeDate | app/services/datetime_utils.py:203-214 | An ISO date is read as itself, except that year 1900 means no year and is rolled forward |
| DateTimeUtils.FirstFormat | app/services/datetime_utils.py:203-214 | The first matching format yields a valid date |
| DateTimeUtils.DaysAhead | app/services/datetime_utils.py:156-185 | The distance to the next given weekday strictly after today is 1 to 7 days, and lands on that weekday |
| DateTimeUtils.ParseRelativeDate | app/services/datetime_utils.py:115-216 | Every date parse_relative_date returns is a valid calendar date |
| DateTimeUtils.FixedWordDate | app/services/datetime_utils.py:134-144 | today/tonight/this evening are the reference date, tomorrow +1, day after tomorrow +2, yesterday -1 |
| DateTimeUtils.InDays | app/services/datetime_utils.py:147-150 | "in N days" is exactly N days after the reference date |
| DateTimeUtils.ThisWeekday | app/services/datetime_utils.py:156-164 | "this <weekday>" is the next such weekday 1-7 days after the reference date |
| DateTimeUtils.NextWeekday | app/services/datetime_utils.py:167-177 | "next <weekday>" is that weekday 8-14 days after the reference date |
| DateTimeUtils.BareWeekday | app/services/datetime_utils.py:180-185 | A bare weekday name is the next such weekday 1-7 days after the reference date |
| DateTimeUtils.RelativeDateNormal | app/services/datetime_utils.py:131 | Input is lower-cased and stripped before any branch |
| DateTimeUtils.DigitStartDate | app/services/datetime_utils.py:188-214 | An expression starting with a digit is decided by the strptime formats alone |
| DateTimeUtils.FindSeparator | app/services/datetime_utils.py:376-377 | The " at " / "@" separator found is the leftmost match |
| DateTimeUtils.ParseDateTime | app/services/datetime_utils.py:350-408 | success holds iff a date or a time was found; both are returned exactly when the halves of the leftmost "at"/"@" split parse as a date and a time, and then they are those halves; otherwise the whole input as a date, then as a time |
| FallbackAssistant.DateButtons | app/services/ai_assistant_fallback.py:78-99 | Exactly five date buttons, for today and the four following days |
| FallbackAssistant.NextFiveDates | app/services/ai_assistant_fallback.py:78-99 | The loop builds exactly those five buttons |
| FallbackAssistant.DateButtonValues | app/services/ai_assistant_fallback.py:83-99 | Each value is YYYY-MM-DD and reads back as the date that many days after today |
| FallbackAssistant.DateButtonLabels | app/services/ai_assistant_fallback.py:86-97 | The first two labels are "Today (...)" and "Tomorrow (...)" |
| FallbackAssistant.GuestButtons | app/services/ai_assistant_fallback.py:101-113 | Nine buttons: 1 to 8 guests in order, singular only for 1, then the large-party button |
| FallbackAssistant.Candidates | app/services/ai_assistant_fallback.py:458-463 | The rows the table query keeps are exactly this restaurant's active tables that seat the party |
| FallbackAssistant.SortByCapacity | app/services/ai_assistant_fallback.py:463 | Ordering by capacity yields a capacity-ordered permutation of the tables |
| FallbackAssistant.Suitable | app/services/ai_assistant_fallback.py:393-398 | The suitable tables are ordered by capacity and are exactly the eligible ones; a missing party size selects none |
| FallbackAssistant.FirstBlocking | app/services/ai_assistant_fallback.py:466-471 | The blocking reservation found is a pending or confirmed booking of that table at the identical date and time, and none is found iff the slot is free |
| FallbackAssistant.FreeTables | app/services/ai_assistant_fallback.py:400-411 | The free tables are exactly the given tables that no reservation holds at that slot |
| FallbackAssistant.FreeTablesSorted | app/services/ai_assistant_fallback.py:400-411 | Dropping taken tables keeps the smallest-first order |
| FallbackAssistant.SearchTables | app/services/ai_assistant_fallback.py:393-411 | The search lists exactly the eligible tables free at that slot, smallest first |
| FallbackAssistant.FreeAmong | app/services/ai_assistant_fallback.py:400-411 | The availability loop collects exactly the free tables in order |
| FallbackAssistant.CheckAvailability | app/services/ai_assistant_fallback.py:383-444 | The tool reports exactly the availability computed from the stored tables and reservations |
| FallbackAssistant.FirstFree | app/services/ai_assistant_fallback.py:465-475 | The booking loop selects the first free suitable table, and selects none iff no table is free |
| FallbackAssistant.MakeReservation | app/services/ai_assistant_fallback.py:446-520 | The reply and the new store are the booking function's; with no free table or a malformed date or time nothing is written |
| FallbackAssistant.CountTrialBooking | app/services/ai_assistant_fallback.py:499-503 | The owning tenant's trial count rises by one when it is set, and no other tenant changes |
| FallbackAssistant.CommitBooking | app/services/ai_assistant_fallback.py:481-505 | The booking row is appended under the next id and counted against the tenant's trial |
| FallbackAssistant.BookingTakesSmallestFreeTable | app/services/ai_assistant_fallback.py:458-503 | A booking is confirmed, comes from the assistant, and takes a free eligible table no other free eligible table is smaller than |
| FallbackAssistant.BookingAgreesWithAvailability | app/services/ai_assistant_fallback.py:393-478 | With a well-formed date and time, booking succeeds iff the availability check lists a table |
| FallbackAssistant.BookedTableIsTaken | app/services/ai_assistant_fallback.py:466-503 | Once booked, the table is no longer listed as available at that slot |
| FallbackAssistant.LargePartyRow | app/services/ai_assistant_fallback.py:545-569 | The large-party request is a pending row with no table, from the assistant |
| FallbackAssistant.RequestLargePartyBooking | app/services/ai_assistant_fallback.py:534-577 | As written: the insert needs a date and a time, so a missing or malformed preferred date loses the request |
| FallbackAssistant.LargePartyLostWithoutDate | app/services/ai_assistant_fallback.py:544-570 | A request whose preferred date does not parse stores nothing |
| FallbackAssistant.RequestLargePartyBookingNullable | app/services/ai_assistant_fallback.py:534-577 | Corrected: with nullable date and time columns the request is always recorded |
| FallbackAssistant.LargePartyRecorded | app/services/ai_assistant_fallback.py:544-570 | With nullable columns, the request is stored with its unparsed date or time as null |
| FallbackAssistant.ConfirmationShowsSlot | app/services/ai_assistant_fallback.py:336-375 | A well-formed date and time are shown in long form on the confirmation card |
| FallbackAssistant.TimeDisplayRaw | app/services/ai_assistant_fallback.py:351-356 | A time that is not hour:minute is shown as given |
| FallbackAssistant.TimeDisplayAnyIntegers | app/services/ai_assistant_fallback.py:351-356 | Any integer hour and minute are formatted; a negative hour shows as the morning hour it wraps to |
| DateTimeUtils.Format12hNegativeHour | app/services/datetime_utils.py:411-419 | format_time_12h shows a negative hour as its residue modulo 12, in the morning |
| DateTimeUtils.Format02d | app/services/datetime_utils.py:419 | `:02d` pads a non-negative minute to two digits and writes a negative one with its sign |
| FallbackAssistant.ReadToolButtons | app/services/ai_assistant_fallback.py:265-301 | Only the date, guest and confirmation tools produce buttons |
| FallbackAssistant.ExecuteTool | app/services/ai_assistant_fallback.py:265-301 | An unknown name yields "Unknown tool"; a failing tool yields its error result instead of raising; the result and the store it leaves (reservations, next id, trial count) are one `Step` of the turn's fold, so only make_reservation and the large-party request write |
| FallbackAssistant.ExecuteBooking | app/services/ai_assistant_fallback.py:284-293 | The make_reservation branch: its result and new store are the fold's step for that call |
| FallbackAssistant.ExecuteLargePartyRequest | app/services/ai_assistant_fallback.py:296-297 | The large-party branch: its result and new store are the fold's step for that call |
| FallbackAssistant.RunCall | app/services/ai_assistant_fallback.py:731-745 | One tool call: the result is the fold's step, and a button result replaces the kept buttons |
| FallbackAssistant.RunCalls | app/services/ai_assistant_fallback.py:731-745 | One round: the results appended and the store left are those of folding `Step` over the round's calls; an unknown name yields exactly an unknown-tool result |
| FallbackAssistant.RunAllLength | app/services/ai_assistant_fallback.py:731-745 | Every call of a turn yields one result |
| FallbackAssistant.RunAllUnknown | app/services/ai_assistant_fallback.py:298-299 | Result j of a turn reports an unknown tool iff call j names none of the tools |
| FallbackAssistant.RunAllConcat | app/services/ai_assistant_fallback.py:712-745 | Running two lists of calls one after the other is running them joined, so rounds compose |
| FallbackAssistant.RunAllOnlyAppends | app/services/ai_assistant_fallback.py:265-301 | A turn only appends reservations: the old ones stay as they were and the next id advances by one per reservation stored |
| FallbackAssistant.ReadOnlyTurn | app/services/ai_assistant_fallback.py:265-301 | A turn with no booking and no large-party request leaves the reservations, next id and trial count unchanged |
| FallbackAssistant.LastButtonsIsLast | app/services/ai_assistant_fallback.py:708-745 | The buttons kept are those of the last tool result that shows buttons |
| FallbackAssistant.FinalReply | app/services/ai_assistant_fallback.py:763-775 | The reply always has text, and carries buttons iff a tool showed some |
| FallbackAssistant.ChatSync | app/services/ai_assistant_fallback.py:651-778 | Every tool call of every round runs in order, one result each; the results and the final store equal the fold over all rounds' calls from the old store; the reply carries the last buttons shown. When a model request or a tool call's argument parsing raises, the reply is the apology with the error text, and the results and store equal the fold over exactly the calls run before the raise, so earlier bookings of the turn stay |
| FallbackAssistant.RunRounds | app/services/ai_assistant_fallback.py:713-757 | The tool-call loop over the first rounds: results and store equal the fold over those rounds' calls, and the kept buttons are the last shown |
| FallbackAssistant.FlattenPrefix | app/services/ai_assistant_fallback.py:713-757 | The calls of the first rounds are a prefix of the calls of the whole turn |
| FallbackAssistant.RaisedTurnIsPrefix | app/services/ai_assistant_fallback.py:731-778 | A turn cut short by a raise returns the first results of the uninterrupted turn |
| Assistant.KeyInjective | app/services/ai_assistant.py:78-81 | Different (restaurant, conversation) pairs never share a history record |
| Assistant.HistoryIn | app/services/ai_assistant.py:63-94 | A missing record reads as an empty history |
| Assistant.ConversationStore.Save | app/services/ai_assistant.py:97-131 | Save is an upsert of that one key |
| Assistant.ConversationStore.Clear | app/services/ai_assistant.py:134-146 | Clear deletes that one key |
| Assistant.ConversationStore.Add | app/services/ai_assistant.py:149-183 | The record becomes the last max messages of the old history plus the new message |
| Assistant.KeepAppended | app/services/ai_assistant.py:168-179 | After an append the history holds at most max messages, ends with the new one and is the old tail in order |
| Assistant.TurnEndsWithExchange | app/services/ai_assistant.py:473-474 | After a turn the last two messages are the customer's message and the reply |
| Assistant.OtherConversationsUnchanged | app/services/ai_assistant.py:109-141 | Saving, clearing or appending one conversation leaves every other conversation's history unchanged |
| Assistant.SaveThenLoad | app/services/ai_assistant.py:83-146 | A saved history reads back as saved, and a cleared one reads as empty |
| Assistant.ClearAfterSave | app/services/ai_assistant.py:134-146 | Clearing undoes any earlier save of that key |
| Assistant.CustomerContextLines | app/services/ai_assistant.py:260-264 | The name line appears iff the name is non-empty and differs from the phone; the phone line appears whenever a phone is known |
| Assistant.ValidateDump | app/services/ai_assistant.py:24-31 | Validation accepts exactly the reservation it serialises |
| Assistant.ValidateNeedsFields | app/services/ai_assistant.py:24-31 | Validation needs date, time, name, phone as strings and guests as an integer |
| Assistant.JsonSlice | app/services/ai_assistant.py:487-491 | The slice runs from a '{' to a '}' |
| Assistant.JsonSliceEmbedded | app/services/ai_assistant.py:487-491 | An object written between brace-free text is exactly what is sliced out |
| Assistant.ExtractComplete | app/services/ai_assistant.py:484-498 | A reservation is recognised only when the reply mentions reservation_complete, the slice parses, the flag is true and the fields validate |
| Assistant.ExtractInstructedReply | app/services/ai_assistant.py:484-498 | The reply format the prompt asks for is recognised and yields the reservation |
| Assistant.SaveKeywordsAccepted | app/services/ai_assistant.py:376-388 | Under the column names every constructor keyword is an attribute of the row |
| Assistant.SavedRowUnder | app/services/ai_assistant.py:368-398 | A keyword that is not a column stores nothing; a stored row carries the reservation's parsed date and time |
| Assistant.SaveAsWrittenStoresNothing | app/services/ai_assistant.py:367-396 | As written, passing date= and time= stores nothing |
| Assistant.SavedRowStored | app/services/ai_assistant.py:367-396 | Corrected: a reservation with a well-formed date and time is stored as given |
| Assistant.SaveReservation | app/services/ai_assistant.py:368-398 | As written the save returns False and stores nothing |
| Assistant.SaveReservationWithColumns | app/services/ai_assistant.py:368-398 | Corrected: the save appends the row with the reservation's fields |
| Assistant.Chat | app/services/ai_assistant.py:400-528 | A failed model call changes nothing; otherwise both messages join the history, or for a recognised reservation the history is cleared and the confirmation returned whatever the save did |
| Assistant.Respond | app/services/ai_assistant.py:472-528 | Once the model has replied: the outcome is the turn's outcome for what was extracted; a recognised reservation clears the conversation's history, otherwise both messages join it; no reservation is stored |
| Assistant.ConcludeReservation | app/services/ai_assistant.py:499-517 | A recognised reservation: the save is called, its result ignored, and the conversation's history is deleted; the stored reservations are unchanged |
| Assistant.RecordTurn | app/services/ai_assistant.py:472-474 | The customer's message and then the reply are appended to the conversation's bounded history |
| Models.Restaurant.constructor | app/models/models.py:229-263 | A new restaurant is active, not live and without a knowledge base |
| Models.Tenant.constructor | app/models/models.py:76-84 | A missing trial end becomes the trial start plus 14 days |
| Models.Tenant.IsTrialExpired | app/models/models.py:90-105 | Never expired outside a trial; expired past the end date or once the booking limit is reached; not expired exactly when outside a trial, or within the end date and under the limit |
| Models.Tenant.TrialDaysRemaining | app/models/models.py:106-114 | Never negative; 0 outside a trial |
| Models.Tenant.TrialBookingsRemaining | app/models/models.py:115-122 | max(0, limit - count) for a trial tenant, 0 otherwise, never negative |
| Models.Tenant.CanMakeBooking | app/models/models.py:123-135 | A paying tenant may always book; otherwise only a tenant on an unexpired trial |
| Models.Tenant.IncrementBookingCount | app/models/models.py:141-143 | The count rises by exactly one, a missing count counting as 0 |
| Models.Tenant.ActivatePaidSubscription | app/models/models.py:145-150 | The tenant is paid, active and out of the trial |
| Models.TrialAndPaid | app/models/models.py:85-139 | `is_trial` holds only with the free-trial plan and the trial status, so an active, past-due, cancelled or expired status or a paid plan is out of the trial; `is_paid` alone allows booking, and a tenant neither paying nor on trial cannot book |
| Models.User.constructor | app/models/models.py:156-170 | A new user account with the given role and tenant |
| Models.RolesExclusive | app/models/models.py:181-191 | `is_admin`, `is_tenant_superuser` and `is_tenant_user` hold for at most one role each; a tenant role is exactly one of the last two, and a role outside the three satisfies none |
| Models.User.CanViewTenant | app/models/models.py:201-205 | An admin sees every tenant; anyone else only their own |
| Models.User.CanManageTenant | app/models/models.py:193-199 | Managing implies viewing; an admin manages all; a tenant_user manages nothing |
| Models.User.CanViewRestaurant | app/models/models.py:215-219 | Viewing a restaurant is viewing its tenant |
| Models.User.CanManageRestaurant | app/models/models.py:207-213 | Managing a restaurant implies viewing it and is managing its tenant |
| Models.User.CanManageUsers | app/models/models.py:221-223 | Only admins and tenant superusers manage users |
| Models.Row | app/models/models.py:309-326 | A row exists iff the NOT NULL name, phone and party size are present, and it carries the column defaults |
| Models.Insertable | app/models/models.py:320-321 | An insert needs the NOT NULL date and time |
| Models.FindReservation | app/models/models.py:313 | The index found holds that id, and none is found iff no row has it |
| Models.OwnedApart | app/models/models.py:234 | Two different tenants share no restaurant |
| Models.Database.AddReservation | app/models/models.py:309-328 | A row the schema accepts is appended under the next id; otherwise nothing changes |
| Models.Database.AddRequest | app/models/models.py:309-328 | The same insert into a schema whose date and time are nullable |
| Models.Database.AddEvent | app/models/models.py:353-363 | The processed event is appended to the log |
| Models.Database.AddTable | app/models/models.py:269-280 | A new table takes the next id and is available and active |
| Models.Database.AddTenant | app/models/models.py:39-75 | The tenant is appended |
| Models.Database.AddRestaurant | app/models/models.py:229-263 | The restaurant is appended and listed under its tenant |
| Models.Database.AddUnownedRestaurant | app/models/models.py:234 | A restaurant whose tenant id names no stored tenant is appended (foreign keys are not enforced) |
| Models.Database.AddUser | app/models/models.py:156-170 | The user is appended |
| Models.Database.SetReservation | app/models/models.py:309-328 | Only the row at that index is replaced |
| StripeService.KeySplit | app/services/stripe_service.py:146 | The key plan_period is split back into its plan and period |
| StripeService.CheckoutPlans | app/services/stripe_service.py:23-28 | Only starter and professional, monthly or yearly, have a price |
| StripeService.PricedKeys | app/services/stripe_service.py:23-28 | The four keys of the price table are the only priced keys |
| StripeService.DefaultPrices | app/services/stripe_service.py:146-151 | With no environment override every one of the four combinations has a price |
| StripeService.ParseEventType | app/services/stripe_service.py:247-264 | A handled type is recognised by its exact name |
| StripeService.ParseTypeName | app/services/stripe_service.py:247-264 | Parsing a handled type's name gives that type back |
| StripeService.TenantIndex | app/services/stripe_service.py:288-290 | The tenant found has that id, and none is found iff no tenant has it |
| StripeService.CustomerIndex | app/services/stripe_service.py:308-311 | The tenant found has that Stripe customer id, and none is found iff no tenant has it |
| StripeService.CheckoutCompleted | app/services/stripe_service.py:282-303 | Checkout sets the plan (default starter), active, payment ok, the subscription id and every restaurant live |
| StripeService.SubscriptionCreated | app/services/stripe_service.py:306-314 | The tenant gets the subscription id and becomes active, nothing else |
| StripeService.SubscriptionUpdated | app/services/stripe_service.py:317-337 | active → active/ok; past_due → past_due/failed; canceled or unpaid → cancelled/failed with no restaurant live; any other status changes nothing |
| StripeService.SubscriptionDeleted | app/services/stripe_service.py:340-354 | cancelled, failed, no subscription id, no restaurant live, and nothing else |
| StripeService.InvoicePaid | app/services/stripe_service.py:357-372 | Payment ok and last payment now, without touching the subscription status |
| StripeService.InvoicePaymentFailed | app/services/stripe_service.py:375-383 | Payment failed and status past_due, nothing else |
| StripeService.Target | app/services/stripe_service.py:282-383 | The tenant an event names, and only a checkout with a malformed tenant id raises |
| StripeService.Dispatch | app/services/stripe_service.py:247-264 | The handler keeps the tenant list, and an unhandled type changes nothing |
| StripeService.Webhook | app/services/stripe_service.py:236-279 | A logged event id is acknowledged with nothing changed; a failure changes nothing |
| StripeService.WebhookIdempotent | app/services/stripe_service.py:241-244 | Delivering the same event twice changes nothing more, whatever the clock says |
| StripeService.UnknownEventOnlyLogged | app/services/stripe_service.py:246-271 | An event type no handler knows is only logged |
| StripeService.DispatchTouchesOne | app/services/stripe_service.py:282-383 | A handler changes at most the tenant the event names |
| StripeService.SetLive | app/services/stripe_service.py:299-300 | The loop sets every restaurant of the tenant live or not live, and nothing else |
| StripeService.CheckoutTenant | app/services/stripe_service.py:282-303 | The tenant objects change exactly as the checkout function says |
| StripeService.UpdateTenantSubscription | app/services/stripe_service.py:317-337 | The tenant objects change exactly as the subscription update says |
| StripeService.DeleteTenantSubscription | app/services/stripe_service.py:340-354 | The tenant objects change exactly as the deletion says |
| StripeService.InvoicePaidTenant | app/services/stripe_service.py:357-372 | The tenant objects change exactly as invoice.paid says |
| StripeService.CreateTenantSubscription | app/services/stripe_service.py:306-314 | The tenant objects change exactly as subscription creation says |
| StripeService.PaymentFailedTenant | app/services/stripe_service.py:375-383 | The tenant objects change exactly as the failed payment says |
| StripeService.HandleAt | app/services/stripe_service.py:247-264 | The named tenant is handled and every other tenant keeps its account |
| StripeService.DispatchEvent | app/services/stripe_service.py:247-264 | The objects change as Dispatch says, and not at all when it raises |
| StripeService.HandleWebhookEvent | app/services/stripe_service.py:216-280 | The method's result and store are those of the webhook function |
| StripeService.ProcessNewEvent | app/services/stripe_service.py:246-271 | A new event is dispatched and then logged as processed |
| FloorPlan.NeighboursAreAdjacent | app/routes/floor_plan_routes.py:353-356 | The four neighbours visited are exactly the 4-adjacent cells |
| FloorPlan.PartitionSize | app/routes/floor_plan_routes.py:341-364 | Disjoint duplicate-free groups hold as many cells as their union, and there are no more groups than cells |
| FloorPlan.NoTouchAcrossGroups | app/routes/floor_plan_routes.py:344-362 | Cells in different groups are never 4-neighbours |
| FloorPlan.Visit | app/routes/floor_plan_routes.py:358-362 | The neighbour loop adds exactly the unvisited neighbours to the group and the queue, and removes them from the unvisited set |
| FloorPlan.GrowGroup | app/routes/floor_plan_routes.py:344-362 | The flood fill from a cell gathers a closed, duplicate-free, connected group |
| FloorPlan.FindConnectedCells | app/routes/floor_plan_routes.py:336-367 | Empty input gives no groups; the groups partition the distinct cells into maximal 4-connected components |
| FloorPlan.MinIsLeast | app/routes/floor_plan_routes.py:305-308 | The minimum is one of the values and no value is below it |
| FloorPlan.MaxIsGreatest | app/routes/floor_plan_routes.py:305-308 | The maximum is one of the values and no value is above it |
| FloorPlan.TableBox | app/routes/floor_plan_routes.py:303-322 | A table's position and size are the smallest box around its cells, it seats one guest per cell, and it is square iff width equals height |
| FloorPlan.SeatsWithinBox | app/routes/floor_plan_routes.py:310-312 | A table never seats more than its bounding box has cells |
| FloorPlan.TableIdsDistinct | app/routes/floor_plan_routes.py:304-315 | Tables are named T1, T2, ..., so no two share a name |
| FloorPlan.ParseTables | app/routes/floor_plan_routes.py:303-322 | The i-th table derives from the i-th group |
| FloorPlan.SeatTotalOfGroups | app/routes/floor_plan_routes.py:303-322 | The tables seat as many guests as there are table cells |
| FloorPlan.ScanMember | app/routes/floor_plan_routes.py:283-298 | A cell is listed iff it lies in the used range and carries the theme colour, with coordinates relative to the sheet's minimum row and column |
| FloorPlan.TableAndFloorApart | app/routes/floor_plan_routes.py:291-298 | Table cells and floor cells never overlap |
| FloorPlan.ClassifyCells | app/routes/floor_plan_routes.py:283-298 | The double loop collects exactly the theme-9 table cells and the theme-1 floor cells |
| FloorPlan.UploadExcelLayout | app/routes/floor_plan_routes.py:249-334 | Missing or non-Excel files are refused; otherwise the tables are T1..Tn derived from the connected groups of table cells |
| FloorPlan.TableErrors | app/routes/floor_plan_routes.py:23-50 | A table is accepted iff the id is 1-20 long, seats 1-50, size 1-10, position ≥ 0, minimum guests ≥ 1, and shape and type are in their lists |
| FloorPlan.DefaultTableAccepted | app/routes/floor_plan_routes.py:23-37 | A table given only a well-sized id is accepted with its defaults |
| FloorPlan.ImportedTableAccepted | app/routes/floor_plan_routes.py:303-322 | A table derived from a small enough group passes validation |
| FloorPlan.FloorPlanErrors | app/routes/floor_plan_routes.py:53-69 | A floor plan is accepted iff rows and columns are 5-100, the cell size is 20-100 and every table is accepted |
| FloorPlan.DefaultFloorPlanAccepted | app/routes/floor_plan_routes.py:61-69 | An empty request body is a valid plan |
| StaffAssistant.Filter | app/services/staff_assistant.py:58-104 | A query keeps exactly the rows its filter selects |
| StaffAssistant.SortBy | app/services/staff_assistant.py:66 | Ordering is a permutation |
| StaffAssistant.SortBySorted | app/services/staff_assistant.py:66 | Ordering sorts by the key |
| StaffAssistant.QuerySelects | app/services/staff_assistant.py:58-178 | A listing holds exactly the selected rows, each as often as stored, in the query's order |
| StaffAssistant.Ids | app/services/staff_assistant.py:68-69 | last_results lists the ids of the listed rows in order |
| StaffAssistant.SearchSelects | app/services/staff_assistant.py:271-289 | A search lists only matching rows, latest date first, at most twenty, all of them when there are at most twenty, and no match left out is dated later than a listed row |
| StaffAssistant.WindowAgreesWithinDay | app/services/staff_assistant.py:84-94 | While the window stays within the day, the filter as written is the intended one |
| StaffAssistant.WrappedWindowEmpty | app/services/staff_assistant.py:84-94 | When the window passes midnight and wraps to before now, the listing as written is empty |
| StaffAssistant.LateEveningWindowMisses | app/services/staff_assistant.py:84-94 | At 23:00 a two-hour window as written misses a booking at 23:30 that the intended window holds |
| StaffAssistant.LateEveningListingMisses | app/services/staff_assistant.py:84-94 | The same booking is absent from the listing as written and present in the intended listing |
| StaffAssistant.UpcomingIntended | app/services/staff_assistant.py:78-104 | Corrected: the upcoming confirmed and pending bookings from now to now plus the hours, across midnight, ordered by date and time |
| StaffAssistant.UpcomingAgreesWithinDay | app/services/staff_assistant.py:84-94 | While the window stays within the day the listing as written equals the intended one |
| StaffAssistant.CountStatus | app/services/staff_assistant.py:116-120 | Each status count is at most the total |
| StaffAssistant.StatusesPartition | app/services/staff_assistant.py:116-122 | The counted statuses and the remaining rows partition the day's rows |
| StaffAssistant.GuestsSplit | app/services/staff_assistant.py:121-122 | The guest total is the confirmed, pending and completed guests only |
| StaffAssistant.TodaysStatsConsistent | app/services/staff_assistant.py:106-136 | The statistics count today's rows of this restaurant |
| StaffAssistant.FindOwn | app/services/staff_assistant.py:221-223 | The row found has that id and this restaurant; none is found iff there is no such row |
| StaffAssistant.StatusChange | app/services/staff_assistant.py:211-240 | An unknown status is refused before any lookup; a missing or foreign row is not found; otherwise only that row's status changes, lower-cased |
| StaffAssistant.GuestsChange | app/services/staff_assistant.py:242-269 | A count outside 1-50 is refused before any lookup; otherwise only that row's party size changes |
| StaffAssistant.UpdateTouchesOneRow | app/services/staff_assistant.py:211-269 | An update touches one row of this restaurant and no other row |
| StaffAssistant.StaffAssistant.constructor | app/services/staff_assistant.py:29-36 | No listing is remembered at the start |
| StaffAssistant.StaffAssistant.Remember | app/services/staff_assistant.py:68-69 | The state records the listing's kind and ids |
| StaffAssistant.StaffAssistant.GetTodaysReservations | app/services/staff_assistant.py:58-76 | Today's rows of this restaurant by time, remembered as the last listing |
| StaffAssistant.StaffAssistant.GetUpcomingReservations | app/services/staff_assistant.py:78-104 | As written: confirmed and pending rows dated today between now and the wrapped end time |
| StaffAssistant.StaffAssistant.GetPendingBookings | app/services/staff_assistant.py:138-157 | Pending rows from today on, by date and time |
| StaffAssistant.StaffAssistant.GetConfirmedBookings | app/services/staff_assistant.py:159-178 | Confirmed rows from today on, by date and time |
| StaffAssistant.StaffAssistant.SearchReservations | app/services/staff_assistant.py:271-289 | At most twenty matching rows, latest date first |
| StaffAssistant.StaffAssistant.GetTodaysStats | app/services/staff_assistant.py:106-136 | The statistics, with the state untouched |
| StaffAssistant.StaffAssistant.GetReservationDetails | app/services/staff_assistant.py:180-209 | A row is shown only when it has that id and belongs to this restaurant |
| StaffAssistant.StaffAssistant.UpdateReservationStatus | app/services/staff_assistant.py:211-240 | The store changes exactly as StatusChange says |
| StaffAssistant.StaffAssistant.UpdateReservationGuests | app/services/staff_assistant.py:242-269 | The store changes exactly as GuestsChange says |
| StaffAssistant.StaffAssistant.ChatSync | app/services/staff_assistant.py:291-361 | As written: the message is routed first-match in the source's order and the routed command is answered |
| StaffAssistant.RouteAsWritten | app/services/staff_assistant.py:299-361 | As written, first match: today's phrases win exactly when present; a status update is reached only with no quick phrase; a guest update only with no quick phrase and no status match; details, search and free text only when no earlier pattern matches. QuickPhrasesShadowStatus, ConfirmUpdateShadowed and GuestUpdateShadowed derive the consequences |
| StaffAssistant.StaffAssistant.Run | app/services/staff_assistant.py:299-361 | One routed command is answered; listings are remembered |
| StaffAssistant.StaffAssistant.Report | app/services/staff_assistant.py:299-324 | A read-only command changes no row |
| StaffAssistant.AnyInExists | app/services/staff_assistant.py:299-322 | A phrase test holds iff one phrase occurs in the message |
| StaffAssistant.SearchFinds | app/services/staff_assistant.py:331-357 | re.search finds a match iff the anchored pattern matches at some position, and finds the leftmost |
| StaffAssistant.QuickPhrasesShadowStatus | app/services/staff_assistant.py:322-334 | As written no message sets a status to confirmed or pending |
| StaffAssistant.ConfirmUpdateShadowed | app/services/staff_assistant.py:322-334 | As written "mark 5 as confirmed" lists confirmed bookings; the corrected routing sets the status |
| StaffAssistant.GuestUpdateShadowed | app/services/staff_assistant.py:327-343 | As written "update 5 to 4 guests" is read as status "4" and refused; the corrected routing updates the guests |
| StaffAssistant.DigitsNotStatus | app/services/staff_assistant.py:213-219 | A status word made of digits is never a valid status |
| MemoryService.CleanedPhoneSameUser | app/services/memory_service.py:76-80 | Only a phone's digits name the customer |
| MemoryService.UserIdInjective | app/services/memory_service.py:76-80 | Different restaurants or different phone digits never share a memory owner |
| MemoryService.Fitting | app/services/memory_service.py:438-443 | No more memories are shown than given |
| MemoryService.FormatMemories | app/services/memory_service.py:421-445 | The loop builds the budgeted context text |
| MemoryService.FittingWithinBudget | app/services/memory_service.py:435-443 | The header and the shown lines stay within max_chars |
| MemoryService.FittingMaximal | app/services/memory_service.py:438-443 | Rendering stops at the first memory that would exceed the budget |
| MemoryService.FormattedEdges | app/services/memory_service.py:432-445 | No memories give ""; a header longer than the budget is shown alone |
| MemoryService.JoinedLength | app/services/memory_service.py:445 | The text is the header and lines joined by newlines |
| MemoryService.MemoryService.constructor | app/services/memory_service.py:52-70 | The service is available iff a key is given or set in the environment and the client starts |
| MemoryService.MemoryService.AddMemory | app/services/memory_service.py:82-117 | Unavailable: False with no request; otherwise one add request, True iff it does not raise |
| MemoryService.MemoryService.SearchMemories | app/services/memory_service.py:228-275 | Unavailable: [] with no request; otherwise one search request and its answer |
| MemoryService.MemoryService.GetAllMemories | app/services/memory_service.py:337-376 | Unavailable: [] with no request; otherwise one get-all request |
| MemoryService.MemoryService.DeleteMemory | app/services/memory_service.py:378-389 | Unavailable: False with no request; otherwise one delete request |
| MemoryService.MemoryService.ClearUserMemories | app/services/memory_service.py:391-409 | Unavailable: False with no request; otherwise one delete-all for that user |
| MemoryService.MemoryService.AddConversationMemory | app/services/memory_service.py:119-155 | The exchange is added with the caller's metadata over the defaults |
| MemoryService.MemoryService.AddReservationMemory | app/services/memory_service.py:157-195 | A summary exchange tagged as a reservation is added |
| MemoryService.MemoryService.AddPreference | app/services/memory_service.py:197-226 | The preference is added tagged with its category |
| MemoryService.MemoryService.GetCustomerContext | app/services/memory_service.py:277-335 | Unavailable: a blank context; otherwise the three searches and the last-interaction lookup in order, and the aggregated name, preferences and reservations |
| MemoryService.MemoryService.ContextSearches | app/services/memory_service.py:305-318 | The three searches are requested in order and their answers returned |
| MemoryService.ServiceSlot.constructor | app/services/memory_service.py:408-409 | No service exists at the start |
| MemoryService.ServiceSlot.GetMemoryService | app/services/memory_service.py:411-418 | The first call creates the service, and later calls return that one |
| MemoryService.ConversationMetadataKeys | app/services/memory_service.py:148-153 | The caller's metadata wins; a default survives only when the caller omits it |
| MemoryService.SummaryMentionsSpecialRequests | app/services/memory_service.py:174-182 | The summary names special requests iff the details carry non-empty ones (truthy in Python's sense: a None, False, empty list or empty dict adds nothing) |
| MemoryService.NoneRequestsOmitted | app/services/memory_service.py:178-181 | A None `special_requests`, as a reservation without requests stores it, adds nothing to the summary |
| MemoryService.ReservationMetadataTagged | app/services/memory_service.py:189-193 | A reservation memory is tagged as such unless the details carry their own type |
| MemoryService.NameIn | app/services/memory_service.py:305-309 | The name is that of the first memory whose metadata has one |
| MemoryService.FirstName | app/services/memory_service.py:305-309 | The loop finds that name |
| MemoryService.CollectPreferences | app/services/memory_service.py:312-315 | The loop collects the preferences |
| MemoryService.PreferencesDistinct | app/services/memory_service.py:312-315 | No preference is listed twice |
| MemoryService.PreferencesAreMemories | app/services/memory_service.py:312-315 | The preferences are exactly the non-empty memory texts |
| MemoryService.CollectReservations | app/services/memory_service.py:318-321 | The loop collects the past reservations |
| MemoryService.ReservationsTagged | app/services/memory_service.py:318-321 | Past reservations hold all the reservation-tagged metadata and nothing else |
| Admin.AdminOnly | app/routes/admin.py:17-27 | Anonymous → login; only admins pass |
| Admin.TenantAccessRequired | app/routes/admin.py:30-44 | Anonymous → login; admins pass; others pass iff they have a tenant |
| Admin.TenantSuperuserRequired | app/routes/admin.py:47-59 | Anonymous → login; only admins and tenant superusers pass |
| Admin.GatesNest | app/routes/admin.py:17-59 | Whatever admin_only passes the other two pass; tenant users never pass the superuser gate |
| Admin.CanAccessRestaurant | app/routes/admin.py:80-84 | Admins access every restaurant; others only their tenant's |
| Admin.CanManageRestaurant | app/routes/admin.py:87-91 | Managing implies accessing; it needs admin, or the same tenant and the superuser role |
| Admin.CreatedRole | app/routes/admin.py:236-248 | An admin's role choice stands; a superuser's is kept only within the tenant roles, else tenant_user |
| Admin.FormTenantId | app/routes/admin.py:237-241 | An empty field is no tenant, digits are that tenant, and anything else fails |
| Admin.FormTenantIdRoundTrip | app/routes/admin.py:237-241 | A tenant id written out by the form reads back as itself |
| Admin.CreatedTenant | app/routes/admin.py:236-244 | A superuser's new user joins the creator's tenant |
| Admin.AddUser | app/routes/admin.py:217-265 | Blocked users change nothing; a taken email adds nothing; otherwise one user is added with the coerced role and tenant |
| Admin.EditedRole | app/routes/admin.py:305-309 | A role outside the tenant roles leaves a superuser's target unchanged |
| Admin.NoPromotionToAdmin | app/routes/admin.py:305-309 | A tenant superuser never makes anyone an admin |
| Admin.EditUser | app/routes/admin.py:268-315 | Users of other tenants and admins cannot be edited by a non-admin; names, active flag and the coerced role change |
| Admin.RestaurantTenant | app/routes/admin.py:348-355 | An admin must pick a tenant; a superuser's restaurant joins the creator's tenant |
| Admin.AddRestaurant | app/routes/admin.py:336-375 | A missing tenant is refused and changes nothing; otherwise one restaurant is added under that tenant |
| Admin.UpdateReservationStatus | app/routes/admin.py:589-606 | Only pending/confirmed/cancelled/completed/no_show are stored, and only on a reservation the user may access |
| Admin.KnowledgeBaseFilename | app/routes/admin.py:866 | The name is the lower-cased restaurant name with spaces as underscores, then the suffix |
| Admin.DownloadKnowledgeBase | app/routes/admin.py:849-873 | Only an accessible restaurant with a knowledge base is downloaded |
| Auth.ReadRegisterForm | app/routes/auth.py:68-80 | Fields are stripped, and a blank company name defaults to the restaurant name |
| Auth.Failing | app/routes/auth.py:83-100 | The failing checks are kept, in order |
| Auth.FailingKeepsOrder | app/routes/auth.py:83-100 | The messages appear in check order |
| Auth.Errors | app/routes/auth.py:83-100 | Each failing check contributes its message: name, email, password missing or short, mismatch, duplicate email |
| Auth.RegistrationAccepted | app/routes/auth.py:83-105 | Validation passes iff every check passes |
| Auth.FindUserByEmail | app/routes/auth.py:99 | The first user with that email, or none iff no user has it |
| Auth.SampleRows | app/routes/auth.py:9-27 | Five active tables with capacities 2, 4, 4, 6, 8 |
| Auth.CreateSampleTables | app/routes/auth.py:9-27 | Exactly the five sample tables are appended |
| Auth.HasTenantEmail | app/routes/auth.py:107-121 | Whether a stored tenant already has the email |
| Auth.Register | app/routes/auth.py:60-169 | A signed-in user is redirected; any error creates nothing; success creates one tenant, restaurant and owner plus the sample tables |
| Auth.Submit | app/routes/auth.py:83-167 | A submitted registration ends as the validation, the tenant unique constraint or success decides |
| Auth.TrialAccountManages | app/routes/auth.py:126-151 | The new owner manages the new restaurant and its users |
| Auth.CreateAccount | app/routes/auth.py:107-151 | The trial tenant (free_trial, trial, 14 days, 0 of 15, pending), a non-live restaurant and a superuser are created together |
| Auth.NewAccount | app/routes/auth.py:107-151 | The tenant, restaurant and owner carry the registration's fields |
| Auth.StoreAccount | app/routes/auth.py:122-153 | The account and its sample tables are stored |
| Auth.Login | app/routes/auth.py:30-57 | The first user with the email signs in iff the password matches and the account is active; an inactive account is refused even with the right password; a known email with no password field ends in the server error raised by `check_password(None)` (app/models/models.py:174-175), iff that is the case, changing nothing |
| Api.PartyArg | app/routes/api.py:42 | A missing or non-integer party size is absent |
| Api.CheckAvailability | app/routes/api.py:35-90 | Unknown restaurant → 404; a missing or malformed parameter → 400; otherwise exactly this restaurant's active tables that fit and are free at that slot, in store order |
| Api.FirstMissing | app/routes/api.py:98-103 | The first required field missing, in order; all present otherwise |
| Api.Requested | app/routes/api.py:105-118 | The new reservation is pending, with duration 90 and source "api" by default |
| Api.StoredRow | app/routes/api.py:93-130 | A stored row comes from a JSON object, under the next id, as requested |
| Api.CreateOutcome | app/routes/api.py:93-130 | Created iff a row is stored, with that row's id |
| Api.CreateReservation | app/routes/api.py:93-130 | The reply is the creation outcome; on success the row is appended under the next id and the id counter advances by one, otherwise neither changes |
| Api.CarriedFieldsPresent | app/routes/api.py:98-103 | A body carrying a reservation's fields passes the required-field check |
| Api.CreationRoundTrip | app/routes/api.py:93-130 | Posting a pending reservation's fields in the API's own format stores that reservation under the next id |
| Api.Assigned | app/routes/api.py:158-163 | A key's value is read only when the key is present |
| Api.Amend | app/routes/api.py:158-163 | Only status, table_id and special_requests present in the body change |
| Api.AmendIdempotent | app/routes/api.py:158-163 | The same update twice is the update once |
| Api.UpdateReservation | app/routes/api.py:152-170 | 404 for an unknown id; otherwise that row is amended and no other |
| Api.CancelReservation | app/routes/api.py:173-187 | The reservation stays, with status cancelled and nothing else changed |
| Api.CancelReleases | app/routes/api.py:176-177 | A cancellation only frees slots |
| Api.ChannelFor | app/routes/api.py:698 | Corrected half, with the Chatwoot columns mapped: the restaurant found has that webhook token, and none is found iff no restaurant has it |
| Api.Or | app/routes/api.py:759 | a or b is truthy iff one of them is |
| Api.ConversationIdFirstTruthy | app/routes/api.py:757-763 | The conversation id is the first truthy of conversation.id, conversation_id and message id |
| Api.TextToSend | app/routes/api.py:786-790 | As written: a JSON object reply sends its text, non-JSON text is sent whole, and a JSON value that is not an object fails |
| Api.TextToSendIntended | app/routes/api.py:786-790 | Corrected: a reply that is not a JSON object is sent as it is |
| Api.TextToSendAgrees | app/routes/api.py:786-790 | The corrected text agrees with the code wherever the code produces one |
| Api.HandleMessage | app/routes/api.py:726-820 | Corrected half, with the Chatwoot columns mapped: only incoming messages (incoming, 0, "0") with content and a conversation id are answered |
| Api.NumericReplyFails | app/routes/api.py:786-790 | A reply of "42" makes the handler fail |
| Api.WelcomeText | app/routes/api.py:832 | The configured welcome message when set, otherwise the default greeting naming the restaurant |
| Api.HandleConversationCreated | app/routes/api.py:823-845 | Corrected half, with the Chatwoot columns mapped: a new conversation is greeted with the welcome text |
| Api.Webhook | app/routes/api.py:683-723 | Corrected half, with the Chatwoot columns mapped: unknown token → invalid; no body → no data; otherwise dispatch on the event |
| Api.WebhookAsWrittenDiffers | app/routes/api.py:683-723 | As written (Api.WebhookAsWritten) every request fails at the token lookup on an attribute `Restaurant` does not map (app/models/models.py:229-262), and agrees with the corrected webhook only where that one fails too (a known token with a truthy non-object body) |
| Api.MessagesUrl | app/routes/api.py:869-870 | The URL is the base without trailing '/' followed by the messages path |
| Api.TrailingSlashIgnored | app/routes/api.py:869-870 | A base URL with or without a trailing slash gives the same endpoint |
| Api.PostFor | app/routes/api.py:862-887 | Corrected half, with the Chatwoot columns mapped: a request is made iff the key, base URL and account id are all set |
| Api.SendChatwootResponse | app/routes/api.py:848-902 | Corrected half, with the Chatwoot columns mapped: true iff the channel is configured and the POST answers 200 or 201 |
| AppConfig.ConfigNames | config.py:54-59 | Exactly development, production, testing and default, with default = development |
| AppConfig.FindFrom | config.py:37 | The first occurrence at or after a position |
| AppConfig.ReplaceFirstAtStart | config.py:37 | When the URL starts with the pattern, the replaced occurrence is that prefix |
| AppConfig.ProductionDatabaseUri | config.py:32-38 | An unset variable is ""; a postgres:// prefix becomes postgresql://; any other URL is unchanged |
| AppConfig.RewriteKeepsRest | config.py:36-37 | The rewrite keeps everything after the scheme |
| AppConfig.AcceptedSchemeUnchanged | config.py:36-38 | A postgresql:// URL is not touched |
| AppConfig.RewriteIdempotent | config.py:32-38 | Rewriting twice is rewriting once |
| AppConfig.NoLegacySchemeAfterRewrite | config.py:32-38 | No production URL keeps the postgres:// scheme |
| AppConfig.DatabaseUri | config.py:21-50 | Testing uses the in-memory database; development uses the variable or the local file |
| AppConfig.SecretKey | config.py:10-19 | The variable when set, else the development key |
| AppConfig.ProductionInitSucceeds | config.py:41-44 | `ProductionConfig.init_app` raises iff SECRET_KEY is unset or empty, that is iff the key would otherwise be the development key |

## Left out

- Language model, speech, Mem0, Stripe SDK and Chatwoot HTTP calls are foreign calls. Their results are parameters: the model's reply and tool calls, a search answer, a raising flag, the POST status.
- The wall clock, pytz and restaurant time zones are left out. Every operation takes the reference date and time as a parameter.
- SQLAlchemy sessions: commit and rollback atomicity are not modelled; each modelled commit is one assignment to the store.
- Auto-increment ids: the next id is a counter in the store.
- Foreign keys are not enforced, as in SQLite without the pragma.
- ORDER BY with equal keys: SQL leaves the order open, and the model fixes insertion order.
- StaffAssistant.SortBy, StaffAssistant.DateLt: NULL dates and times sort first as in SQLite (PostgreSQL puts them last); the schema declares these columns NOT NULL.
- Flask request, response, flash, template and login-session plumbing is left out. Outcomes are datatypes that name the page or status code.
- Prompt text, emoji wording and display strings are left out beyond what the contracts state (the button labels, the welcome text, the filename).
- Password hashing is a predicate parameter. Phone, address, cuisine and widget styling fields are not modelled.
- Api.ChannelFor, Api.Webhook, Api.HandleMessage, Api.HandleConversationCreated, Api.PostFor, Api.SendChatwootResponse: these model the Chatwoot path with the columns that migrate_chatwoot.py adds to the table mapped on a separate `Channel` record. `Restaurant` (app/models/models.py:229-262) maps none of them, so as written the token lookup raises on every request and none of this is reached (see "## Findings", Api.WebhookAsWritten).
- The AI voice, transcription, speech, widget, staff HTTP endpoints, health and get_reservation routes of api.py are outside the modelled core.
- AIConversation logging and its commit in the Chatwoot handler are left out, and the sender name is used only in logs.
- Excel loading through openpyxl is left out; the model starts from the sheet's cells and fills.
- Text.IsDigit, Text.IsSpace, Text.IsWordChar, Text.Lower: ASCII only. Python's Unicode digits, whitespace and case mappings are not modelled. This affects every parser built on them: the time and date parsers, the staff routing (StaffAssistant.Normal, StaffAssistant.Number), StaffAssistant.ILike and MemoryService.UserId. For example, "update id ٥ to cancelled" names reservation 5 in Python but is free text in the model.
- Text.ParseInt: accepts an optional sign and decimal digits with surrounding whitespace. The underscores and Unicode digits Python's int() also accepts are not modelled.
- DateTimeUtils.Strptime: a day or month field with a leading space and the full locale-dependent directive set are not modelled. The ISO form, the numeric forms and English month names are.
- DateTimeUtils.ParseRelativeDate, DateTimeUtils.RelativeDate: a result past year 9999 is not rejected, where Python raises OverflowError.
- Calendar.AddDays: dates past year 9999 are not rejected. Python raises OverflowError there; FallbackAssistant.NextFiveDates requires a date in range instead.
- StaffAssistant.ILike: the `%` and `_` wildcards inside the query text are treated as literal characters.
- StaffAssistant.EndTimeAsWritten: an OverflowError for a window running past year 9999 is not modelled.
- FallbackAssistant.StrOf, FallbackAssistant.IntOf: an argument of the wrong JSON type is treated as missing. In Python, a party size sent as the string "4" still passes the SQL capacity filter and is stored as 4, so it books a table where the model finds none.
- Api.Requested, Api.Amend: non-string or non-integer JSON values that SQLite would coerce and store are treated as failed commits. A JSON float is `JReal` and never an integer.
- Api.Amend: a JSON `null` status is refused (the reservation is left unchanged and the update fails), whereas the status column (app/models/models.py:323) is nullable and app/routes/api.py:157-163 would store NULL; the model keeps a reservation's status a non-null string.
- AppConfig.ProductionInitSucceeds: states what `ProductionConfig.init_app` does when called; neither `create_app` (app/__init__.py:14-61) nor run.py calls it, so a production start-up without SECRET_KEY is not refused and runs on the development key.
- Api.HandleMessage: a truthy content that is not a string (a list, an object) is treated as a failure, where Python would pass it on to the assistant.
- Api.CreateReservation: a missing or non-JSON body is one `NoJsonBody` outcome; whether Flask answers 415 or 500 depends on its version.
- Api.PostFor: the rendering of the conversation id with `str()` is a parameter, not modelled for every JSON value.
- Api.HandleConversationCreated: `sent` says whether the welcome POST is attempted (also with a missing conversation id, as in the source); whether the POST succeeds is not part of the reply, which always reports the welcome as sent.
- MemoryService.Render: a metadata value is a string, an integer, or any other value carried with the text `str()` gives it and its truthiness; floats and nested values are not modelled beyond that text and that flag.

## Findings

| source | as written | input that shows it | evidently intended | confidence | as-written member | corrected member |
|---|---|---|---|---|---|---|
| app/services/ai_assistant.py:367-396 | `_save_reservation` builds `Reservation(date=..., time=...)`, but the columns are `reservation_date` and `reservation_time`, so the constructor raises, the save returns False, and `chat` still confirms and clears the history | any complete reservation reply, e.g. date "2026-10-20", time "19:00", 2 guests | the reservation is stored under its column names | not executed | Assistant.SaveReservation, Assistant.SaveAsWrittenStoresNothing | Assistant.SaveReservationWithColumns, Assistant.SavedRowStored |
| app/services/ai_assistant_fallback.py:544-570 | `_request_large_party_booking` stores None for an unparseable preferred date or time into the NOT NULL columns (models.py:320-321), so the commit fails and the request is lost | preferred_date "sometime next month" | an unparsed date or time is recorded as null and the request kept | not executed | FallbackAssistant.RequestLargePartyBooking, FallbackAssistant.LargePartyLostWithoutDate | FallbackAssistant.RequestLargePartyBookingNullable, FallbackAssistant.LargePartyRecorded |
| app/services/staff_assistant.py:84-94 | the upcoming window compares against `end_datetime.time()`, which wraps past midnight, so late-evening windows are empty | now 23:00, hours 2, a confirmed booking today at 23:30 | bookings from now to now plus the hours are listed | not executed | StaffAssistant.StaffAssistant.GetUpcomingReservations, StaffAssistant.LateEveningListingMisses | StaffAssistant.UpcomingIntended, StaffAssistant.UpcomingAgreesWithinDay |
| app/services/staff_assistant.py:327-343 | the status pattern is tried before the guests pattern and also matches "to <n>", so a guest update is read as status "<n>" and refused | "update 5 to 4 guests" | the party size of reservation 5 becomes 4 | not executed | StaffAssistant.GuestUpdateShadowed | StaffAssistant.GuestUpdateShadowed, StaffAssistant.RouteAgreesWithoutUpdate |
| app/services/staff_assistant.py:322-334 | the "confirmed"/"pending" quick phrases are tested before the status pattern, so no status update to those values is reachable | "mark 5 as confirmed" | reservation 5 is confirmed | not executed | StaffAssistant.QuickPhrasesShadowStatus, StaffAssistant.ConfirmUpdateShadowed | StaffAssistant.ConfirmUpdateShadowed |
| app/routes/api.py:786-790 | a reply that parses as JSON but is not an object (a number, a list) reaches `.get('text', ...)` and raises, so the webhook answers 500 | assistant reply "42" | a reply that is not a JSON object is sent as it is | not executed | Api.TextToSend, Api.NumericReplyFails | Api.TextToSendIntended, Api.TextToSendAgrees |
| app/routes/api.py:698 | `Restaurant.query.filter_by(webhook_token=...)` names an attribute `Restaurant` does not map (app/models/models.py:229-262; only a migration adds the column), so the lookup raises and every Chatwoot webhook request answers 500 | any POST to /webhook/chatwoot/<token>, with a token stored by the migration | the restaurant with that token is found and the event dispatched | not executed | Api.WebhookAsWritten, Api.WebhookAsWrittenDiffers | Api.Webhook, Api.ChannelFor |
