# Weather, traffic, currency and events bot: the conversation core

The bot talks to users of a messaging platform through reply keyboards. It
remembers each user's city in a one-table database. It answers four queries:
the weather for today or tomorrow, the traffic congestion level, currency
rates, and the top local events for a day. All of it lives in the `App` class
of `main.py`.

This project models the conversation state machine of that class and the
logic around it:

- the handlers app.handle_message, handle_first_message, confirm_city,
  choose_city, handle_command, handle_weather, handle_events,
  handle_traffic_jams, handle_currency and switch_to_main_state, and the
  run loop's handling of events other than a new message;
- the user-table operations insert_into_db, get_from_db and update_city;
- the keyboard layout of get_keyboard;
- reading the city from the user's profile (get_city_from_user);
- choosing a forecast for a day (get_weather);
- shaping the events list (get_events);
- building the city catalog (fill_cities_dict);
- the lower clamp of get_jams_level.

The files:

- `wrappers.dfy`: `Option` and `Min`.
- `text.dfy`: Python's `strip`, `lower`, `split()[0]` and `replace("/", "")`
  as the bot uses them.
- `keyboards.dfy`: the keyboard builder of the messaging library, as a class.
  Also `GetKeyboard`, the loop of `get_keyboard`, proved equal to a pure
  layout function. The layout's properties are proved from that function.
- `providers.dfy`: the values the external services return and the pure
  decisions taken on them.
  - The services are the profile lookup, geocoding, the forecast, traffic,
    currency rates and the events page.
  - `Env` bundles their answers as functions of the request, together with
    today's and tomorrow's dates.
- `dialogue.dfy`: each handler as a function from the shared conversation
  fields to a `Step`. The fields are `state`, `city` and the user table. A
  `Step` holds the new fields and the replies sent.
- `dialogue_properties.dfy`: the properties of those transitions.
- `bot.dfy`: class `App`, with the fields the source updates in place. It has
  one method per handler, store operation, keyboard getter and data fetch of
  the source. The other source methods are modelled elsewhere:
  - `get_keyboard` is `Keyboards.GetKeyboard`;
  - `get_city_from_user` is `Providers.CityFromUser`;
  - `get_jams_level` is `Providers.JamsLevel`;
  - `get_json` and `get_city_coords` are the fields of `Env`.

  `handle_message` is split in three:
  `HandleMessage` normalizes the text, `Dispatch` applies the start gate and
  "назад", and `HandleInState` calls the state's handler.
  - Every handler's `ensures` states that its new fields and the messages it
    adds to `outbox` equal the matching `Dialogue` function.
  - So everything proved about the functions holds of the class.
  - `FillCitiesDict`, `ForecastsOn`, `GetEvents` and `GetKeyboard` keep the
    source's loops, with invariants.

External calls are parameters of the model:

- The requests made while handling a message become fields of `Env`: the
  messaging platform's profile lookup, the forecast, geocoding, traffic and
  currency services, and the events site.
- The city catalog page fetched when the app starts (main.py:28-30) becomes
  the constructor's `links` parameter: the city anchors, already parsed.
- The clock is `Env.today` and `Env.tomorrow`.
- The database is the field `App.users`, a map from user id to city.
- Sending a message appends to `App.outbox`.

Two of the source's exceptions are kept as preconditions, gathered in
`Dialogue.NoCrash`:

- "да" in `confirm_city` from a user who already has a row. The new row
  repeats the unique user id.
- The forecast list in `get_weather`. For "сегодня" it must not be empty,
  because `list[0]` is taken whatever its date (main.py:158). For "завтра"
  every record's `dt_txt` must hold a word, for `split()[0]` (main.py:154).
  Some record must also be dated tomorrow, for the index at main.py:156.

The missing-row failure is not a precondition; see "## Findings". The other
exceptions the source can raise are not modelled. Some arise inside the
services' answers, which `Env` delivers already decoded. Others come from
`requests.get` itself. "## Left out" lists both kinds.

A failed query in the model (`None` from `Env`) stands for what the source
turns into `None`:

- for the forecast, traffic and currency services, a response that is not
  OK (`get_json`, main.py:127-129);
- for `Env.geocode`, a response that is not OK, or an OK but empty answer,
  which `if json_data:` (main.py:135) treats as no coordinates. An empty
  answer is what a city the geocoder does not know gets, and `choose_city`
  stores any text.

The properties about failed queries hold in the source for these cases, and
only for these. Those properties are `QueryFailureReported`,
`DayChoiceReturnsToMain`, and the traffic and currency replies.

Behaviour of the code that the model keeps as it is:

- The state and the pending city are single fields shared by all users, not
  per-user contexts (`PendingCityIsShared`, `SharedStateExposesQueries`).
- "назад" does not clear the pending city (`BackOverride`).
- `choose_city` accepts any text, the empty text included.
  - The text is already stripped and lower-cased by `handle_message`.
  - So the city stored is the lower-cased text (`ChooseCityStoresTypedText`).
- A traffic, weather or events query from a user with no row is not
  reported as a failure: the code raises an exception. The model records
  this as a finding and uses the corrected behaviour.

## Model

| member | source | states |
|---|---|---|
| `Text.Strip` | main.py:304 | the result is trimmed, is the slice of the input between its leading and trailing whitespace (all removed characters are whitespace), and a trimmed input comes back unchanged |
| `Text.FirstWord` | main.py:154 | `split()[0]`: None exactly when the text is all whitespace (where Python raises). Otherwise it is the first word: a non-empty run of non-whitespace that starts right after the leading whitespace and ends at whitespace or at the end of the text |
| `Text.RemoveSlashes` | main.py:33 | the result holds no '/' and has the multiset of the input with every '/' removed; an input without '/' is unchanged |
| `Text.RemoveSlashesConcat` | main.py:33 | removing slashes from a concatenation removes them from each part, in order; `RemoveSlashesChar` gives the one-character case, so every other character is kept in place |
| `Text.NormalizeIsStripped` | main.py:304 | `strip().lower()` yields trimmed text, which a second strip leaves unchanged |
| `Text.NormalizeIdempotent` | main.py:304 | normalizing twice equals normalizing once |
| `Keyboards.GetKeyboard` | main.py:70-82 | the builder loop (a new line before every third button after the first) produces exactly `Layout(labels, colors)` |
| `Keyboards.LayoutShape` | main.py:70-82 | no labels give the empty keyboard; otherwise ceil(n/3) rows of one to three buttons, all full but the last, which read in order are the labels, coloured `colors[i]` when given and else primary first, secondary after |
| `Providers.CityFromUser` | main.py:61-68 | a city exactly when the answer is non-empty and its first record is an open profile with a city, and then it is that city |
| `Providers.JamsLevel` | main.py:201-210 | `max(figure, 1)`: the level is at least 1; a non-OK response gives 1; a figure of at least 1 is kept and a figure below 1 gives exactly 1 |
| `Providers.OnDateMembers` | main.py:150-155 | the filtered list holds exactly the records whose first `dt_txt` word is the date |
| `Providers.OnDateConcat` | main.py:150-155 | the filter is in order: the records of two consecutive parts of the list keep their order, duplicates included |
| `Providers.OnDateSingle` | main.py:154-155 | one record is selected exactly when its first `dt_txt` word is the date |
| `Providers.OnDateNonEmpty` | main.py:153-156 | the filtered list is non-empty exactly when some record carries the date (the index at line 156 is defined) |
| `Providers.PickForecastSpec` | main.py:149-158 | "завтра" picks element n/2 of the n records dated tomorrow, which is a record of the list dated tomorrow; any other day picks the first record |
| `Providers.FreeIffNoPrice` | main.py:238-239 | the price is "бесплатно" exactly when there is no price tag, and otherwise the stripped text followed by " p" |
| `Providers.TopEventsSpec` | main.py:234-241 | at most five events, the first blocks in listing order (all of them when fewer than five), each with stripped title, formatted price and absolute link |
| `Providers.CatalogKeys` | main.py:30-33 | a name is in the catalog exactly when some city anchor's stripped, lower-cased text is that name |
| `Providers.CatalogLastWins` | main.py:31-33 | each name maps to the href, slashes removed, of the last anchor with that name |
| `Providers.CatalogWellFormed` | main.py:33 | every catalog key is normalized text and no value contains '/' |
| `Bot.App.constructor` | main.py:21-24 | a new app is in state "start" with no pending city, no messages sent, the invariant holding and the catalog built from the city links |
| `Bot.App.FillCitiesDict` | main.py:26-33 | the loop over the anchors builds exactly `Catalog(links)` |
| `Bot.App.InsertIntoDb` | main.py:35-38 | requires that the user has no row (unique user id); afterwards the user's city reads back as inserted and every other user's row is as before |
| `Bot.App.GetFromDb` | main.py:40-42 | a city exactly for a user with a row, and then that row's city |
| `Bot.App.UpdateCity` | main.py:44-49 | requires a row; afterwards the user's city reads back as the new one, the other rows and the set of users are unchanged |
| `Bot.App.SendMessage` | main.py:51-59 | appends one message to the user carrying the given keyboard, or the empty keyboard when none is given |
| `Bot.App.GetMainKeyboard` | main.py:84-85 | the main menu keyboard |
| `Bot.App.GetStartKeyboard` | main.py:87-88 | the "Начать" keyboard |
| `Bot.App.GetConfirmKeyboard` | main.py:90-91 | the "Да"/"Нет" keyboard, positive and negative |
| `Bot.App.GetDaysKeyboard` | main.py:93-94 | the "Сегодня"/"Завтра"/"Назад" keyboard |
| `Bot.App.SwitchToMainState` | main.py:119-123 | sends the main menu and sets state "main", nothing else changed |
| `Bot.App.ConfirmCity` | main.py:96-107 | the new fields and sent messages are those of `ConfirmCityNext` (see `ConfirmCitySpec`) |
| `Bot.App.ChooseCity` | main.py:109-117 | the new fields and sent messages are those of `ChooseCityNext` (see `ChooseCitySpec`) |
| `Bot.App.ForecastsOn` | main.py:150-155 | the loop appending each record dated `date` collects exactly `OnDate(list, date)` |
| `Bot.App.GetWeather` | main.py:140-159 | the forecast the filtering loop selects is `WeatherQuery` of the user's city (see `PickForecastSpec`), and none for a user with no row |
| `Bot.App.HandleWeather` | main.py:161-179 | the new fields and sent messages are those of `WeatherNext` |
| `Bot.App.HandleCurrency` | main.py:181-199 | the rates reply or the failure reply, then the main menu, as `CurrencyNext` |
| `Bot.App.HandleTrafficJams` | main.py:212-222 | the congestion level or the failure reply, then the main menu, as `TrafficNext` |
| `Bot.App.GetEvents` | main.py:224-241 | the loop over the page for the day's URL yields `EventsFor` the city's slug (see `TopEventsSpec`) |
| `Bot.App.HandleEvents` | main.py:243-261 | the new fields and sent messages are those of `EventsNext` |
| `Bot.App.HandleCommand` | main.py:263-283 | the new fields and sent messages are those of `CommandNext` (see `MainDispatch`) |
| `Bot.App.HandleFirstMessage` | main.py:285-299 | the new fields and sent messages are those of `FirstMessageNext` (see `FirstMessageSpec`) |
| `Bot.App.HandleMessage` | main.py:301-325 | keeps the invariant, and the new fields and sent messages are those of `MessageNext`, the dispatch the lemmas below describe |
| `Bot.App.Dispatch` | main.py:305-325 | on the normalized text, keeps the invariant, and the new fields and sent messages are those of `HandleText` |
| `Bot.App.HandleInState` | main.py:316-325 | the new fields and sent messages are those of the current state's handler, `StateNext` |
| `Bot.App.HandleOtherEvent` | main.py:332-335 | the keyboard hint then the main menu, state "main" (see `OtherEventSkipsGate`) |
| `DialogueProperties.TextIsNormalized` | main.py:304 | the text matched is trimmed and normalizing it again changes nothing |
| `DialogueProperties.ButtonsAreCommands` | main.py:84-94 | every keyboard button's label, once stripped and lower-cased, is the command word its handler compares with |
| `DialogueProperties.FirstMessageLeavesStart` | main.py:285-299 | the first message leads to "confirm_city", "choose_city" or "main" and leaves the store unchanged |
| `DialogueProperties.StartGate` | main.py:305-313 | in "start" the state changes exactly on "начать"; any other text only repeats the prompt with the start keyboard |
| `DialogueProperties.BackOverride` | main.py:314-315 | in every state but "start", "назад" shows the main menu and sets "main", the pending city and the store unchanged |
| `DialogueProperties.ConfirmCitySpec` | main.py:96-107 | "нет" goes to "choose_city"; "да" stores the pending city for the sender and goes to "main"; anything else repeats the question with nothing changed |
| `DialogueProperties.ChooseCitySpec` | main.py:109-117 | the sender's row becomes the typed text (updated or inserted, and pending when inserted) and the state "main" |
| `DialogueProperties.ChooseCityStoresTypedText` | main.py:109-117 | the city stored is the message text stripped and lower-cased |
| `DialogueProperties.FirstMessageSpec` | main.py:285-299 | a registered user goes to "main"; otherwise a readable profile city becomes pending in "confirm_city", else "choose_city" |
| `DialogueProperties.MainDispatch` | main.py:263-283 | "погода" and "афиша" go to the day prompt states, "изменить город" to "choose_city", anything else ends in "main"; the store and pending city never change |
| `DialogueProperties.DayChoiceReturnsToMain` | main.py:161-179 | in the day prompt of the weather (and alike of the events, lines 243-261) a day always ends in "main" with nothing else changed; other text repeats the prompt with nothing changed |
| `DialogueProperties.QueryFailureReported` | main.py:174-176 | a failed forecast query, or a city missing from the events catalog (lines 256-258), is reported, and the main menu follows |
| `DialogueProperties.InvPreserved` | main.py:290-293 | every message keeps the invariant that "confirm_city" has a pending city |
| `DialogueProperties.StoreFrame` | main.py:96-117 | only the sender's row may change, no row is removed, and only the city confirmation and choice states write |
| `DialogueProperties.RepliesToSender` | main.py:301-325 | every message gets at least one reply, all to the sender, and ending in "main" means the main menu was the last reply |
| `DialogueProperties.PendingCityIsShared` | main.py:96-104 | the pending city read from one user's profile is registered for another user who answers "да" |
| `DialogueProperties.OtherEventSkipsGate` | main.py:332-335 | an event other than a new message sets "main" from any state, "start" included, and replies to the sender with the main menu last |
| `DialogueProperties.SharedStateExposesQueries` | main.py:212-215 | after a registered user's "начать", a user with no row is in "main" and reaches the traffic query's read of the missing row |
| `DialogueProperties.BackSkipsRegistration` | main.py:285-299 | a new user whose profile shows no city gets only the "Назад" button, which reaches "main" with no row, where traffic, weather and events queries read the missing row |
| `DialogueProperties.MissingProfileReported` | main.py:212-222 | corrected: a query from a user with no row gets the failure reply and the main menu, with nothing else changed |

## Findings

| source | as written | input that shows it | evidently intended | confidence | as-written member | corrected member |
|---|---|---|---|---|---|---|
| main.py:143, main.py:215, main.py:246 | `self.get_from_db(user_id).city` is read with no check that the user has a row, and raises when there is none | a new user whose profile shows no city sends "Начать", presses the only button offered, "Назад" (line 295), then "Пробки" | a query from a user with no row is reported as a failure and the main menu follows, as for a provider failure | not executed | `DialogueProperties.BackSkipsRegistration` | `DialogueProperties.MissingProfileReported` |

The as-written condition is `Dialogue.MissingProfile`. The corrected
behaviour is in `Dialogue.TrafficNext`, `Dialogue.WeatherNext`,
`Dialogue.EventsNext` and the matching `Bot.App` methods, which the rest of
the model uses.

## Left out

- Transport: the long-poll loop, the messaging API client and `random_id` are
  not modelled. The run loop is modelled only as one `HandleMessage` or
  `HandleOtherEvent` call per event.
- HTTP, JSON decoding and HTML parsing are not modelled. Their results arrive
  as `Env` values, and the catalog's as the constructor's `links`. `None`
  stands for a response that is not OK and, for `Env.geocode`, also for an
  empty answer (main.py:135). A parsed page is a list of records.
- Exceptions raised by `requests.get` (main.py:28, 127, 232) are not
  modelled. These are a connection or DNS failure, which nothing in the
  source catches, so `run` ends.
- No request in the source passes a time-out, so a stalled request blocks the
  bot for good. The model does not capture this: every `Env` answer is
  immediate.
- The coordinate lookup inside get_city_coords is not modelled, in particular
  its defaults of 0 for missing fields. `Env.geocode` gives its result: the
  coordinates, or `None` for a non-OK or empty answer.
- Providers.JamsLevel: the figure `round((1 - current / free) * 10)` works on
  floating point and is taken as an integer from `Env.jams`. The model covers
  the clamp `max(figure, 1)` exactly, but not how the figure is computed.
- Bot.App.HandleCurrency: the reply shows `1 / rate` to two decimals. This is
  floating-point formatting, so the reply carries the raw `Rates`.
- The wording of the weather, traffic, currency and events replies is not
  modelled. These replies are the structured bodies `WeatherReport`,
  `TrafficReport`, `CurrencyReport` and `EventsReport`, and the
  `capitalize()` calls inside them are left out.
- Text.LowerChar: `str.lower()` is modelled for Latin capitals and the basic
  Cyrillic block (U+0400 to U+042F) only. Other characters are kept as they
  are.
- The dates come from the clock, `datetime.now()` and the one-day delta, and
  are the parameters `Env.today` and `Env.tomorrow`.
- Concurrency and the database session are not modelled. The model is one
  sequential `App`, and the table commits each change at once.
- Keyboards.KeyboardBuilder: the messaging library's own limits on buttons
  and rows are not modelled.
- The exceptions that arise inside the services' answers are not modelled,
  because `Env` delivers every answer decoded and well formed:
  - a zero free-flow speed divides by zero (main.py:209);
  - a zero currency rate divides by zero (main.py:191-195);
  - a page without the events wrapper, where `soup.find` gives None
    (main.py:235);
  - an event block without a link or a title (main.py:236-237);
  - a missing JSON or HTML field raises KeyError (main.py:33, 68, 153, 154,
    158, 168-172, 187, 207-208, 240). `CityLink`, `VkUser` and `Forecast`
    give `href`, the city title and `dt_txt` as plain fields.
