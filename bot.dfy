/**
 * The bot's App class: the conversation fields it updates in place (the
 * state, the pending city, the user table, the events catalog and the
 * messages sent so far), and its handlers as methods, each proved to change
 * those fields exactly as the matching transition function of `Dialogue`
 * says, so that the properties proved there hold of the class.
 */
module Bot {

  import opened Wrappers
  import opened Text
  import opened Keyboards
  import opened Providers
  import opened Dialogue
  import DialogueProperties

  class App {
    /** `self.state`: one conversation state shared by every user. */
    var state: State
    /** `self.city`: the city awaiting confirmation, shared like the state. */
    var city: Option<string>
    /** The `user` table: user id to registered city. */
    var users: Store
    /** Every message `send_message` has sent, in order. */
    var outbox: seq<Message>
    /** `self.cities_names`: lower-cased city name to the events site's path segment. */
    var citiesNames: map<string, string>

    /** The fields a message may change. */
    function Fields(): Conf
      reads this
    {
      Conf(state, city, users)
    }

    /** The invariant every handler keeps. */
    predicate Valid()
      reads this
    {
      Inv(Fields())
    }

    /** `App.__init__`: state "start", no pending city, and the catalog read from the city links. */
    constructor (table: Store, links: seq<CityLink>)
      ensures state == Start && city == None && users == table && outbox == []
      ensures citiesNames == Catalog(links)
      ensures Valid()
    {
      state := Start;
      city := None;
      users := table;
      outbox := [];
      citiesNames := map[];
      new;
      FillCitiesDict(links);
    }

    /** `fill_cities_dict`: each link's stripped, lower-cased text maps to its href without slashes; a later link wins. */
    method FillCitiesDict(links: seq<CityLink>)
      modifies this`citiesNames
      ensures citiesNames == Catalog(links)
    {
      citiesNames := map[];
      for i := 0 to |links|
        invariant citiesNames == Catalog(links[..i])
      {
        var link := links[i];
        citiesNames := citiesNames[Normalize(link.text) := RemoveSlashes(link.href)];
        assert links[..i + 1][..i] == links[..i];
      }
      assert links[..|links|] == links;
    }

    // ---- The user table ----

    /** `insert_into_db`: a new row; the unique user id makes a second row for the same user fail. */
    method InsertIntoDb(userId: int, newCity: string)
      requires userId !in users
      modifies this`users
      ensures users == old(users)[userId := newCity]
      ensures GetFromDb(userId) == Some(newCity)
      ensures forall u :: u != userId ==> GetFromDb(u) == old(GetFromDb(u))
    {
      users := users[userId := newCity];
    }

    /** `get_from_db`: the user's city, or None for an unknown user. */
    function GetFromDb(userId: int): (r: Option<string>)
      reads this
      ensures r.Some? <==> userId in users
      ensures r.Some? ==> r.value == users[userId]
    {
      if userId in users then Some(users[userId]) else None
    }

    /** `update_city`: replaces a registered user's city; an unknown user fails on the missing row. */
    method UpdateCity(userId: int, newCity: string)
      requires userId in users
      modifies this`users
      ensures users == old(users)[userId := newCity]
      ensures GetFromDb(userId) == Some(newCity)
      ensures forall u :: u != userId ==> GetFromDb(u) == old(GetFromDb(u))
      ensures users.Keys == old(users.Keys)
    {
      users := users[userId := newCity];
    }

    // ---- Replies ----

    /** `send_message`: one message to the user, with the empty keyboard when none is given. */
    method SendMessage(userId: int, body: Body, keyboard: Option<Keyboard>)
      modifies this`outbox
      ensures outbox == old(outbox) + [Message(userId, body, keyboard.GetOr(EmptyKeyboard()))]
    {
      var kb;
      if keyboard.None? {
        kb := GetKeyboard([], []);
      } else {
        kb := keyboard.value;
      }
      outbox := outbox + [Message(userId, body, kb)];
    }

    method GetMainKeyboard() returns (kb: Keyboard)
      ensures kb == MainKeyboard()
    {
      kb := GetKeyboard(["Погода", "Пробки", "Афиша", "Валюта", "Изменить город"], []);
    }

    method GetStartKeyboard() returns (kb: Keyboard)
      ensures kb == StartKeyboard()
    {
      kb := GetKeyboard(["Начать"], []);
    }

    method GetConfirmKeyboard() returns (kb: Keyboard)
      ensures kb == ConfirmKeyboard()
    {
      kb := GetKeyboard(["Да", "Нет"], ["positive", "negative"]);
    }

    method GetDaysKeyboard() returns (kb: Keyboard)
      ensures kb == DaysKeyboard()
    {
      kb := GetKeyboard(["Сегодня", "Завтра", "Назад"], []);
    }

    // ---- Handlers ----

    /** `switch_to_main_state`. */
    method SwitchToMainState(userId: int)
      modifies this`state, this`outbox
      ensures var s := SwitchToMain(old(Fields()), userId);
        Fields() == s.conf && outbox == old(outbox) + s.sent
    {
      var kb := GetMainKeyboard();
      SendMessage(userId, Say(ChooseAction), Some(kb));
      state := Main;
    }

    /** `confirm_city`. */
    method ConfirmCity(userId: int, text: string)
      requires city.Some?
      requires text == CmdYes ==> userId !in users
      modifies this`state, this`users, this`outbox
      ensures var s := ConfirmCityNext(old(Fields()), userId, text);
        Fields() == s.conf && outbox == old(outbox) + s.sent
    {
      if text == CmdNo {
        SendMessage(userId, Say(AskCity), None);
        state := State.ChooseCity;
      } else if text == CmdYes {
        InsertIntoDb(userId, city.value);
        SendMessage(userId, Say(Registered), None);
        SwitchToMainState(userId);
      } else {
        var kb := GetConfirmKeyboard();
        SendMessage(userId, Say(AskConfirm(city.value)), Some(kb));
      }
    }

    /** `choose_city`. */
    method ChooseCity(userId: int, text: string)
      modifies this`state, this`city, this`users, this`outbox
      ensures var s := ChooseCityNext(old(Fields()), userId, text);
        Fields() == s.conf && outbox == old(outbox) + s.sent
    {
      if GetFromDb(userId).Some? {
        UpdateCity(userId, text);
      } else {
        InsertIntoDb(userId, Strip(text));
        city := Some(Strip(text));
      }
      SendMessage(userId, Say(Registered), None);
      SwitchToMainState(userId);
    }

    /** The loop of `get_weather` collecting, in order, the records whose `dt_txt` starts with `date`. */
    static method ForecastsOn(list: seq<Forecast>, date: string) returns (byHours: seq<Forecast>)
      requires Dateable(list)
      ensures byHours == OnDate(list, date)
    {
      byHours := [];
      for i := 0 to |list|
        invariant byHours == OnDate(list[..i], date)
      {
        var word := FirstWord(list[i].dtTxt);
        ghost var done := list[..i];
        assert list[..i + 1] == done + [list[i]];
        OnDateSnoc(done, list[i], date);
        assert DatedOn(list[i], date) <==> word.value == date;
        if word.value == date {
          byHours := byHours + [list[i]];
        }
      }
      assert list[..|list|] == list;
    }

    /**
     * `get_weather`: the first forecast for today, the middle one of those
     * dated tomorrow for tomorrow, and no forecast for a user with no row.
     */
    method GetWeather(userId: int, day: string, env: Env) returns (r: Option<Forecast>)
      requires userId in users ==> WeatherDefined(users[userId], day, env)
      ensures userId !in users ==> r.None?
      ensures userId in users ==> r == WeatherQuery(users[userId], day, env)
    {
      var entry := GetFromDb(userId);
      if entry.None? {
        return None;
      }
      var coords := env.geocode(entry.value);
      if coords.None? {
        return None;
      }
      var data := env.forecast(coords.value);
      if data.None? {
        return None;
      }
      var list := data.value;
      if day == Tomorrow {
        var byHours := ForecastsOn(list, env.tomorrow);
        r := Some(byHours[|byHours| / 2]);
      } else {
        r := Some(list[0]);
      }
    }

    /** `handle_weather`; a failed query, a user with no row included, gets the failure reply. */
    method HandleWeather(userId: int, text: string, env: Env)
      requires IsDay(text) && userId in users ==> WeatherDefined(users[userId], text, env)
      modifies this`state, this`outbox
      ensures var s := WeatherNext(old(Fields()), userId, text, env);
        Fields() == s.conf && outbox == old(outbox) + s.sent
    {
      if text == CmdToday || text == Tomorrow {
        var forecast := GetWeather(userId, text, env);
        if forecast.Some? {
          SendMessage(userId, WeatherReport(forecast.value), None);
        } else {
          SendMessage(userId, Say(Failure), None);
        }
        SwitchToMainState(userId);
      } else {
        var kb := GetDaysKeyboard();
        SendMessage(userId, Say(ChooseDay), Some(kb));
      }
    }

    /** `handle_currency`. */
    method HandleCurrency(userId: int, env: Env)
      modifies this`state, this`outbox
      ensures var s := CurrencyNext(old(Fields()), userId, env);
        Fields() == s.conf && outbox == old(outbox) + s.sent
    {
      if env.rates.Some? {
        SendMessage(userId, CurrencyReport(env.rates.value), None);
      } else {
        SendMessage(userId, Say(Failure), None);
      }
      SwitchToMainState(userId);
    }

    /** `handle_traffic_jams`; a user with no row gets the failure reply. */
    method HandleTrafficJams(userId: int, env: Env)
      modifies this`state, this`outbox
      ensures var s := TrafficNext(old(Fields()), userId, env);
        Fields() == s.conf && outbox == old(outbox) + s.sent
    {
      var entry := GetFromDb(userId);
      var coords := if entry.Some? then env.geocode(entry.value) else None;
      if coords.Some? {
        var level := JamsLevel(env.jams(coords.value));
        SendMessage(userId, TrafficReport(level), None);
      } else {
        SendMessage(userId, Say(Failure), None);
      }
      SwitchToMainState(userId);
    }

    /** `get_events`: the first five events listed on the city's page for the day, shaped. */
    method GetEvents(cityName: string, day: string, env: Env) returns (events: seq<Event>)
      requires cityName in citiesNames
      ensures events == EventsFor(citiesNames[cityName], day, env)
    {
      var date := if day == Tomorrow then env.tomorrow else env.today;
      var url := BaseUrl + "/" + citiesNames[cityName] + "/day" + date;
      assert url == EventsUrl(citiesNames[cityName], EventDate(day, env));
      var page := env.eventsPage(url);
      var all: seq<Event> := [];
      for i := 0 to |page|
        invariant |all| == i
        invariant forall k :: 0 <= k < i ==> all[k] == ShapeEvent(page[k])
      {
        all := all + [ShapeEvent(page[i])];
      }
      events := if |all| < 5 then all else all[..5];
      TakeFiveShaped(page, all);
    }

    /** `handle_events`; the stored city is lower-cased before the catalog lookup, and a user with no row gets the failure reply. */
    method HandleEvents(userId: int, text: string, env: Env)
      modifies this`state, this`outbox
      ensures var s := EventsNext(old(Fields()), userId, text, env, citiesNames);
        Fields() == s.conf && outbox == old(outbox) + s.sent
    {
      if text == CmdToday || text == Tomorrow {
        var entry := GetFromDb(userId);
        if entry.None? {
          SendMessage(userId, Say(Failure), None);
        } else {
          var cityName := Lower(entry.value);
          if cityName in citiesNames {
            var events := GetEvents(cityName, text, env);
            SendMessage(userId, EventsReport(cityName, text, events), None);
          } else {
            SendMessage(userId, Say(NoEvents), None);
          }
        }
        SwitchToMainState(userId);
      } else {
        var kb := GetDaysKeyboard();
        SendMessage(userId, Say(ChooseDay), Some(kb));
      }
    }

    /** `handle_command`: the main menu. */
    method HandleCommand(userId: int, text: string, env: Env)
      modifies this`state, this`outbox
      ensures var s := CommandNext(old(Fields()), userId, text, env);
        Fields() == s.conf && outbox == old(outbox) + s.sent
    {
      if text == CmdWeather {
        var kb := GetDaysKeyboard();
        SendMessage(userId, Say(ChooseDay), Some(kb));
        state := Weather;
      } else if text == CmdTraffic {
        HandleTrafficJams(userId, env);
      } else if text == CmdEvents {
        var kb := GetDaysKeyboard();
        SendMessage(userId, Say(ChooseDay), Some(kb));
        state := Events;
      } else if text == CmdCurrency {
        HandleCurrency(userId, env);
      } else if text == CmdChangeCity {
        var kb := GetKeyboard(["Назад"], ["negative"]);
        SendMessage(userId, Say(AskCity), Some(kb));
        state := State.ChooseCity;
      } else {
        SendMessage(userId, Say(UseKeyboard), None);
        SwitchToMainState(userId);
      }
    }

    /** `handle_first_message`. */
    method HandleFirstMessage(userId: int, env: Env)
      modifies this`state, this`city, this`outbox
      ensures var s := FirstMessageNext(old(Fields()), userId, env);
        Fields() == s.conf && outbox == old(outbox) + s.sent
    {
      if GetFromDb(userId).None? {
        var profileCity := CityFromUser(env.vkUsers(userId));
        if profileCity.Some? {
          var kb := GetConfirmKeyboard();
          SendMessage(userId, Say(AskConfirm(profileCity.value)), Some(kb));
          state := State.ConfirmCity;
          city := profileCity;
        } else {
          var kb := GetKeyboard(["Назад"], ["negative"]);
          SendMessage(userId, Say(AskCity), Some(kb));
          state := State.ChooseCity;
        }
      } else {
        SwitchToMainState(userId);
      }
    }

    /** `handle_message`: the text stripped and lower-cased, then `Dispatch`. */
    method HandleMessage(userId: int, raw: Option<string>, env: Env)
      requires Valid() && NoCrash(Fields(), userId, MessageText(raw), env)
      modifies this`state, this`city, this`users, this`outbox
      ensures Valid()
      ensures var s := MessageNext(old(Fields()), userId, raw, env, citiesNames);
        Fields() == s.conf && outbox == old(outbox) + s.sent
    {
      var text := Lower(Strip(raw.GetOr("")));
      Dispatch(userId, text, env);
    }

    /** The branches of `handle_message` on the normalized text: the start gate, "назад" in any other state, the state's handler. */
    method Dispatch(userId: int, text: string, env: Env)
      requires Valid() && NoCrash(Fields(), userId, text, env)
      modifies this`state, this`city, this`users, this`outbox
      ensures Valid()
      ensures var s := HandleText(old(Fields()), userId, text, env, citiesNames);
        Fields() == s.conf && outbox == old(outbox) + s.sent
    {
      DialogueProperties.InvPreserved(Fields(), userId, text, env, citiesNames);
      if state == Start {
        if text == CmdStart {
          HandleFirstMessage(userId, env);
        } else {
          var kb := GetStartKeyboard();
          SendMessage(userId, Say(PressStart), Some(kb));
        }
      } else if text == CmdBack {
        SwitchToMainState(userId);
      } else {
        HandleInState(userId, text, env);
      }
    }

    /** The branches of `handle_message` that hand the text to the current state's handler. */
    method HandleInState(userId: int, text: string, env: Env)
      requires Valid() && NoCrash(Fields(), userId, text, env)
      modifies this`state, this`city, this`users, this`outbox
      ensures var s := StateNext(old(Fields()), userId, text, env, citiesNames);
        Fields() == s.conf && outbox == old(outbox) + s.sent
    {
      if state == State.ConfirmCity {
        ConfirmCity(userId, text);
      } else if state == State.ChooseCity {
        ChooseCity(userId, text);
      } else if state == Main {
        HandleCommand(userId, text, env);
      } else if state == Weather {
        HandleWeather(userId, text, env);
      } else {
        HandleEvents(userId, text, env);
      }
    }

    /** `run`, for an event other than a new message that carries a message from `userId`. */
    method HandleOtherEvent(userId: int)
      modifies this`state, this`outbox
      ensures var s := OtherEventNext(old(Fields()), userId);
        Fields() == s.conf && outbox == old(outbox) + s.sent
    {
      SendMessage(userId, Say(UseKeyboard), None);
      SwitchToMainState(userId);
    }
  }
}
