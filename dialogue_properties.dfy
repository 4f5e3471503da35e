/**
 * Properties of the conversation's transition function: the start gate, the
 * "назад" override, city confirmation and choice, the first message, the main
 * menu's dispatch, the return to the main menu after a day is chosen, the
 * invariant of the shared fields and what a message may change in the store.
 */
module DialogueProperties {

  import opened Wrappers
  import opened Text
  import opened Keyboards
  import opened Providers
  import opened Dialogue

  /** Matching sees normalized text: normalizing it again changes nothing, so any spelling with the same normal form is handled alike. */
  lemma TextIsNormalized(raw: Option<string>)
    ensures Trimmed(MessageText(raw))
    ensures MessageText(Some(MessageText(raw))) == MessageText(raw)
  {
    NormalizeIsStripped(raw.GetOr(""));
    NormalizeIdempotent(raw.GetOr(""));
  }

  /** A trimmed label arrives as its lower-case form. */
  lemma Arrives(caption: string, word: string)
    requires Trimmed(caption) && Lower(caption) == word
    ensures MessageText(Some(caption)) == word
  {
  }

  // One lemma per button keeps each literal's proof apart from the others'.

  lemma StartButton()
    ensures MessageText(Some("Начать")) == CmdStart
  {
    Arrives("Начать", CmdStart);
  }

  lemma BackButton()
    ensures MessageText(Some("Назад")) == CmdBack
  {
    Arrives("Назад", CmdBack);
  }

  lemma YesButton()
    ensures MessageText(Some("Да")) == CmdYes
  {
    Arrives("Да", CmdYes);
  }

  lemma NoButton()
    ensures MessageText(Some("Нет")) == CmdNo
  {
    Arrives("Нет", CmdNo);
  }

  lemma WeatherButton()
    ensures MessageText(Some("Погода")) == CmdWeather
  {
    Arrives("Погода", CmdWeather);
  }

  lemma TrafficButton()
    ensures MessageText(Some("Пробки")) == CmdTraffic
  {
    Arrives("Пробки", CmdTraffic);
  }

  lemma EventsButton()
    ensures MessageText(Some("Афиша")) == CmdEvents
  {
    Arrives("Афиша", CmdEvents);
  }

  lemma CurrencyButton()
    ensures MessageText(Some("Валюта")) == CmdCurrency
  {
    Arrives("Валюта", CmdCurrency);
  }

  lemma ChangeCityButton()
    ensures MessageText(Some("Изменить город")) == CmdChangeCity
  {
    Arrives("Изменить город", CmdChangeCity);
  }

  lemma TodayButton()
    ensures MessageText(Some("Сегодня")) == CmdToday
  {
    Arrives("Сегодня", CmdToday);
  }

  lemma TomorrowButton()
    ensures MessageText(Some("Завтра")) == Tomorrow
  {
    Arrives("Завтра", Tomorrow);
  }

  /** Every keyboard button, pressed, arrives as the command word its handler compares against. */
  lemma ButtonsAreCommands()
    ensures MessageText(Some("Начать")) == CmdStart
    ensures MessageText(Some("Назад")) == CmdBack
    ensures MessageText(Some("Да")) == CmdYes
    ensures MessageText(Some("Нет")) == CmdNo
    ensures MessageText(Some("Погода")) == CmdWeather
    ensures MessageText(Some("Пробки")) == CmdTraffic
    ensures MessageText(Some("Афиша")) == CmdEvents
    ensures MessageText(Some("Валюта")) == CmdCurrency
    ensures MessageText(Some("Изменить город")) == CmdChangeCity
    ensures MessageText(Some("Сегодня")) == CmdToday
    ensures MessageText(Some("Завтра")) == Tomorrow
  {
    StartButton();
    BackButton();
    YesButton();
    NoButton();
    WeatherButton();
    TrafficButton();
    EventsButton();
    CurrencyButton();
    ChangeCityButton();
    TodayButton();
    TomorrowButton();
  }

  /** The first message only ever leaves "start". */
  lemma FirstMessageLeavesStart(c: Conf, user: int, env: Env)
    ensures FirstMessageNext(c, user, env).conf.state in {ConfirmCity, ChooseCity, Main}
    ensures FirstMessageNext(c, user, env).conf.store == c.store
  {
  }

  /**
   * In "start" only "начать" leaves the state; any other text changes
   * neither the state, nor the pending city, nor the store, and asks for
   * "Начать" again.
   */
  lemma StartGate(c: Conf, user: int, text: string, env: Env, catalog: map<string, string>)
    requires Inv(c) && NoCrash(c, user, text, env)
    requires c.state == Start
    ensures HandleText(c, user, text, env, catalog).conf.state != Start <==> text == CmdStart
    ensures text != CmdStart ==>
      HandleText(c, user, text, env, catalog) == Step(c, [Message(user, Say(PressStart), StartKeyboard())])
  {
    if text == CmdStart {
      FirstMessageLeavesStart(c, user, env);
    }
  }

  /**
   * In every other state "назад" comes before the state's own handler: it
   * shows the main menu and sets state "main", with the pending city and the
   * store unchanged.
   */
  lemma BackOverride(c: Conf, user: int, text: string, env: Env, catalog: map<string, string>)
    requires Inv(c) && NoCrash(c, user, text, env)
    requires c.state != Start && text == CmdBack
    ensures HandleText(c, user, text, env, catalog) == SwitchToMain(c, user)
    ensures HandleText(c, user, text, env, catalog).conf == c.(state := Main)
  {
  }

  /**
   * Confirming the pending city: "нет" asks for the city by name and changes
   * nothing else; "да" registers the pending city for the sender and goes to
   * the main menu; any other text (but "назад") repeats the question with
   * nothing changed.
   */
  lemma ConfirmCitySpec(c: Conf, user: int, text: string, env: Env, catalog: map<string, string>)
    requires Inv(c) && NoCrash(c, user, text, env)
    requires c.state == ConfirmCity
    ensures var r := HandleText(c, user, text, env, catalog);
      && (text == CmdNo ==> r.conf == c.(state := ChooseCity))
      && (text == CmdYes ==> r.conf == c.(state := Main, store := c.store[user := c.city.value]))
      && (text !in {CmdNo, CmdYes, CmdBack} ==>
            r.conf == c && r.sent == [Message(user, Say(AskConfirm(c.city.value)), ConfirmKeyboard())])
  {
  }

  /**
   * Choosing a city: the sender's entry becomes the text typed (stripped and
   * lower-cased), updated when the sender is registered and inserted (and
   * made the pending city) otherwise; the state becomes "main".
   */
  lemma ChooseCitySpec(c: Conf, user: int, text: string, env: Env, catalog: map<string, string>)
    requires Inv(c) && NoCrash(c, user, text, env)
    requires c.state == ChooseCity && text != CmdBack && Trimmed(text)
    ensures var r := HandleText(c, user, text, env, catalog);
      && r.conf.state == Main
      && r.conf.store == c.store[user := text]
      && r.conf.city == (if user in c.store then c.city else Some(text))
  {
  }

  /** The city a message names, as the store keeps it: the message text stripped and lower-cased. */
  lemma ChooseCityStoresTypedText(c: Conf, user: int, raw: Option<string>, env: Env, catalog: map<string, string>)
    requires Inv(c) && NoCrash(c, user, MessageText(raw), env)
    requires c.state == ChooseCity && MessageText(raw) != CmdBack
    ensures MessageNext(c, user, raw, env, catalog).conf.store == c.store[user := MessageText(raw)]
  {
    TextIsNormalized(raw);
    ChooseCitySpec(c, user, MessageText(raw), env, catalog);
  }

  /**
   * "начать": a registered user goes straight to the main menu; otherwise the
   * city on the profile page, when it can be read, becomes the pending city to
   * confirm, and else the user is asked to name the city.
   */
  lemma FirstMessageSpec(c: Conf, user: int, text: string, env: Env, catalog: map<string, string>)
    requires Inv(c) && NoCrash(c, user, text, env)
    requires c.state == Start && text == CmdStart
    ensures var r := HandleText(c, user, text, env, catalog);
      var users := env.vkUsers(user);
      && (user in c.store ==> r.conf == c.(state := Main))
      && (user !in c.store && |users| > 0 && users[0].canAccessClosed && users[0].cityTitle.Some? ==>
            r.conf == c.(state := ConfirmCity, city := users[0].cityTitle))
      && (user !in c.store && !(|users| > 0 && users[0].canAccessClosed && users[0].cityTitle.Some?) ==>
            r.conf == c.(state := ChooseCity))
  {
  }

  /**
   * The main menu: "погода" and "афиша" ask for a day, "изменить город" asks
   * for a city, and "пробки", "валюта" and any other text end back in "main";
   * the pending city and the store never change here.
   */
  lemma MainDispatch(c: Conf, user: int, text: string, env: Env, catalog: map<string, string>)
    requires Inv(c) && NoCrash(c, user, text, env)
    requires c.state == Main
    ensures var r := HandleText(c, user, text, env, catalog);
      && r.conf.city == c.city && r.conf.store == c.store
      && (text == CmdWeather ==> r.conf.state == Weather)
      && (text == CmdEvents ==> r.conf.state == Events)
      && (text == CmdChangeCity ==> r.conf.state == ChooseCity)
      && (text !in {CmdWeather, CmdEvents, CmdChangeCity} ==> r.conf.state == Main)
  {
  }

  /**
   * Waiting for a day: "сегодня" and "завтра" always end in "main", whether
   * the query succeeded or failed and whether or not the city is in the
   * catalog; any other text (but "назад") repeats the day prompt and changes
   * nothing.
   */
  lemma DayChoiceReturnsToMain(c: Conf, user: int, text: string, env: Env, catalog: map<string, string>)
    requires Inv(c) && NoCrash(c, user, text, env)
    requires c.state == Weather || c.state == Events
    ensures var r := HandleText(c, user, text, env, catalog);
      && (IsDay(text) ==> r.conf == c.(state := Main))
      && (!IsDay(text) && text != CmdBack ==>
            r == Step(c, [Message(user, Say(ChooseDay), DaysKeyboard())]))
  {
  }

  /**
   * A failed forecast request, or a city missing from the events catalog,
   * is reported as such, and the main menu follows.
   */
  lemma QueryFailureReported(c: Conf, user: int, text: string, env: Env, catalog: map<string, string>)
    requires Inv(c) && NoCrash(c, user, text, env)
    requires (c.state == Weather || c.state == Events) && IsDay(text)
    ensures var r := HandleText(c, user, text, env, catalog);
      && (c.state == Weather && user in c.store && WeatherQuery(c.store[user], text, env).None? ==>
            r.sent == [Plain(user, Failure), Message(user, Say(ChooseAction), MainKeyboard())])
      && (c.state == Events && user in c.store && Lower(c.store[user]) !in catalog ==>
            r.sent == [Plain(user, NoEvents), Message(user, Say(ChooseAction), MainKeyboard())])
  {
  }

  /** Every message keeps the shared fields' invariant: "confirm_city" always has a pending city. */
  lemma InvPreserved(c: Conf, user: int, text: string, env: Env, catalog: map<string, string>)
    requires Inv(c) && NoCrash(c, user, text, env)
    ensures Inv(HandleText(c, user, text, env, catalog).conf)
  {
  }

  /**
   * The store: only the sender's entry may change, no entry is ever removed,
   * and only the city-confirming and city-choosing states write to it.
   */
  lemma StoreFrame(c: Conf, user: int, text: string, env: Env, catalog: map<string, string>)
    requires Inv(c) && NoCrash(c, user, text, env)
    ensures var s := HandleText(c, user, text, env, catalog).conf.store;
      && c.store.Keys <= s.Keys
      && (forall u :: u != user ==> (u in s <==> u in c.store))
      && (forall u :: u != user && u in c.store ==> s[u] == c.store[u])
      && (c.state !in {ConfirmCity, ChooseCity} ==> s == c.store)
  {
    var s := HandleText(c, user, text, env, catalog).conf.store;
    if c.state in {ConfirmCity, ChooseCity} && text != CmdBack {
      assert s == c.store || (user in s && s == c.store[user := s[user]]);
    } else if c.state == Main {
      MainDispatch(c, user, text, env, catalog);
    } else {
      assert s == c.store;
    }
  }

  /**
   * The replies of a step all go to `user`, there is at least one, and a step
   * that ends in "main" ends with the main menu.
   */
  predicate RepliesTo(r: Step, user: int) {
    && |r.sent| >= 1
    && (forall i :: 0 <= i < |r.sent| ==> r.sent[i].user == user)
    && (r.conf.state == Main ==> r.sent[|r.sent| - 1] == Message(user, Say(ChooseAction), MainKeyboard()))
  }

  // The same property handler by handler, so that each proof sees one handler.

  lemma FirstMessageRepliesToSender(c: Conf, user: int, env: Env)
    ensures RepliesTo(FirstMessageNext(c, user, env), user)
  {
  }

  lemma ConfirmRepliesToSender(c: Conf, user: int, text: string)
    requires c.state == ConfirmCity && c.city.Some? && (text == CmdYes ==> user !in c.store)
    ensures RepliesTo(ConfirmCityNext(c, user, text), user)
  {
  }

  lemma MainMenuRepliesToSender(c: Conf, user: int, text: string, env: Env)
    ensures RepliesTo(CommandNext(c, user, text, env), user)
  {
  }

  lemma WeatherRepliesToSender(c: Conf, user: int, text: string, env: Env)
    requires c.state == Weather
    requires IsDay(text) && user in c.store ==> WeatherDefined(c.store[user], text, env)
    ensures RepliesTo(WeatherNext(c, user, text, env), user)
  {
  }

  lemma EventsRepliesToSender(c: Conf, user: int, text: string, env: Env, catalog: map<string, string>)
    requires c.state == Events
    ensures RepliesTo(EventsNext(c, user, text, env, catalog), user)
  {
  }

  /**
   * Every message gets at least one reply, all to the sender, and whenever the
   * conversation ends in "main" the last reply is the main menu.
   */
  lemma RepliesToSender(c: Conf, user: int, text: string, env: Env, catalog: map<string, string>)
    requires Inv(c) && NoCrash(c, user, text, env)
    ensures RepliesTo(HandleText(c, user, text, env, catalog), user)
  {
    var r := HandleText(c, user, text, env, catalog);
    if c.state == Start {
      if text == CmdStart {
        assert r == FirstMessageNext(c, user, env);
        FirstMessageRepliesToSender(c, user, env);
      }
    } else if text == CmdBack {
    } else if c.state == ConfirmCity {
      assert r == ConfirmCityNext(c, user, text);
      ConfirmRepliesToSender(c, user, text);
    } else if c.state == ChooseCity {
      assert r == ChooseCityNext(c, user, text);
      assert RepliesTo(r, user);
    } else if c.state == Main {
      assert r == CommandNext(c, user, text, env);
      MainMenuRepliesToSender(c, user, text, env);
    } else if c.state == Weather {
      assert r == WeatherNext(c, user, text, env);
      WeatherRepliesToSender(c, user, text, env);
    } else {
      assert r == EventsNext(c, user, text, env, catalog);
      EventsRepliesToSender(c, user, text, env, catalog);
    }
  }

  /**
   * The state and the pending city are shared by all users: a city read from
   * one user's profile and awaiting that user's confirmation is registered
   * for whichever user answers "да" first.
   */
  lemma PendingCityIsShared(env: Env, catalog: map<string, string>)
    requires env.vkUsers(1) == [VkUser(true, Some("Москва"))]
    ensures var first := HandleText(Conf(Start, None, map[]), 1, CmdStart, env, catalog).conf;
      && first == Conf(ConfirmCity, Some("Москва"), map[])
      && HandleText(first, 2, CmdYes, env, catalog).conf.store == map[2 := "Москва"]
  {
  }

  /**
   * An event other than a new message ends in "main" from any state, "start"
   * included, with the pending city and the store unchanged, and its replies
   * go to the sender, the main menu last.
   */
  lemma OtherEventSkipsGate(c: Conf, user: int)
    ensures OtherEventNext(c, user).conf == c.(state := Main)
    ensures RepliesTo(OtherEventNext(c, user), user)
  {
  }

  /**
   * Because the state is shared, a registered user's "начать" puts the bot in
   * "main" for everyone, and a user with no stored city who then asks for
   * "пробки" reaches the failing store read.
   */
  lemma SharedStateExposesQueries(env: Env, catalog: map<string, string>)
    ensures var c := Conf(Start, None, map[1 := "москва"]);
      var next := HandleText(c, 1, CmdStart, env, catalog).conf;
      && next == c.(state := Main)
      && MissingProfile(next, 2, CmdTraffic)
  {
  }

  /**
   * The source as written: a new user whose profile shows no city is asked
   * for one with only a "Назад" button, and pressing it reaches "main" with
   * no row in the store, where "пробки", or a day for the weather or the
   * events, reads the city of the missing row.
   */
  lemma BackSkipsRegistration(env: Env, catalog: map<string, string>)
    requires env.vkUsers(1) == []
    ensures var c0 := Conf(Start, None, map[]);
      var s1 := HandleText(c0, 1, CmdStart, env, catalog);
      var s2 := HandleText(s1.conf, 1, CmdBack, env, catalog);
      && s1.conf == Conf(ChooseCity, None, map[])
      && s1.sent == [Message(1, Say(AskCity), BackKeyboard())]
      && s2.conf == Conf(Main, None, map[])
      && MissingProfile(s2.conf, 1, CmdTraffic)
      && MissingProfile(s2.conf.(state := Weather), 1, CmdToday)
      && MissingProfile(s2.conf.(state := Events), 1, Tomorrow)
  {
  }

  /**
   * Corrected: where the source fails on the missing row, the sender gets the
   * failure reply and the main menu, and nothing else changes.
   */
  lemma MissingProfileReported(c: Conf, user: int, text: string, env: Env, catalog: map<string, string>)
    requires Inv(c) && NoCrash(c, user, text, env)
    requires MissingProfile(c, user, text)
    ensures HandleText(c, user, text, env, catalog) ==
      Step(c.(state := Main), [Plain(user, Failure), Message(user, Say(ChooseAction), MainKeyboard())])
  {
  }
}
