/**
 * The conversation as a transition function: each handler of the bot's App
 * class as a function from the shared conversation fields (the state, the
 * pending city and the user store) and one message to the new fields and
 * the replies sent, and the properties of those transitions.
 */
module Dialogue {

  import opened Wrappers
  import opened Text
  import opened Keyboards
  import opened Providers

  /** The values `App.state` takes. */
  datatype State = Start | ConfirmCity | ChooseCity | Main | Weather | Events

  /** The user store: the registered city of each user id (user ids are unique). */
  type Store = map<int, string>

  /** The fields a message may change: `App.state`, `App.city` and the store. One pair serves every user. */
  datatype Conf = Conf(state: State, city: Option<string>, store: Store)

  /** The body of a reply: fixed or composed text, or one of the reports whose wording is not modelled. */
  datatype Body =
    | Say(text: string)
    | WeatherReport(forecast: Forecast)
    | TrafficReport(level: int)
    | CurrencyReport(rates: Rates)
    | EventsReport(city: string, day: string, events: seq<Event>)

  /** One reply: the user it goes to, what it says and the keyboard it carries. */
  datatype Message = Message(user: int, body: Body, keyboard: Keyboard)

  /** The outcome of handling a message: the new fields and the replies, in sending order. */
  datatype Step = Step(conf: Conf, sent: seq<Message>)

  // ---- Command words (compared after strip and lower) ----

  const CmdStart := "начать"
  const CmdBack := "назад"
  const CmdYes := "да"
  const CmdNo := "нет"
  const CmdWeather := "погода"
  const CmdTraffic := "пробки"
  const CmdEvents := "афиша"
  const CmdCurrency := "валюта"
  const CmdChangeCity := "изменить город"
  const CmdToday := "сегодня"
  // the word for tomorrow is Providers.Tomorrow

  // ---- Reply texts ----

  const AskCity := "Пожалуйста, укажите ваш город"
  const Registered := "Город успешно зарегистрирован"
  const ChooseAction := "Выберите действие:"
  const ChooseDay := "Выберите день:"
  const Failure := "Что-то пошло не так..."
  const NoEvents := "К сожалению, для этого города события недоступны"
  const UseKeyboard := "Пожалуйста, используйте команды с клавиатуры"
  const PressStart := "Напишите \"Начать\" для начала работы"

  function AskConfirm(city: string): string {
    "Ваш город - " + city + ", верно?"
  }

  // ---- Keyboards ----

  function MainKeyboard(): Keyboard {
    Layout(["Погода", "Пробки", "Афиша", "Валюта", "Изменить город"], [])
  }

  function StartKeyboard(): Keyboard {
    Layout(["Начать"], [])
  }

  function ConfirmKeyboard(): Keyboard {
    Layout(["Да", "Нет"], ["positive", "negative"])
  }

  function DaysKeyboard(): Keyboard {
    Layout(["Сегодня", "Завтра", "Назад"], [])
  }

  function BackKeyboard(): Keyboard {
    Layout(["Назад"], ["negative"])
  }

  // ---- The invariant of the shared fields ----

  /** While a city awaits confirmation there is a pending city. */
  predicate Inv(c: Conf) {
    c.state == ConfirmCity ==> c.city.Some?
  }

  // ---- Handlers ----

  /** A reply without a keyboard of its own carries the empty keyboard (App.send_message). */
  function Plain(user: int, text: string): Message {
    Message(user, Say(text), EmptyKeyboard())
  }

  /** `m`, then whatever `s` sends. */
  function Then(m: Message, s: Step): Step {
    Step(s.conf, [m] + s.sent)
  }

  /** App.switch_to_main_state: the main menu, and state "main". */
  function SwitchToMain(c: Conf, user: int): Step {
    Step(c.(state := Main), [Message(user, Say(ChooseAction), MainKeyboard())])
  }

  /** App.handle_first_message. */
  function FirstMessageNext(c: Conf, user: int, env: Env): Step {
    if user !in c.store then
      match CityFromUser(env.vkUsers(user))
      case Some(city) =>
        Step(c.(state := ConfirmCity, city := Some(city)), [Message(user, Say(AskConfirm(city)), ConfirmKeyboard())])
      case None =>
        Step(c.(state := ChooseCity), [Message(user, Say(AskCity), BackKeyboard())])
    else SwitchToMain(c, user)
  }

  /** App.confirm_city; "да" inserts a new row, which the unique user id forbids for a registered user. */
  function ConfirmCityNext(c: Conf, user: int, text: string): Step
    requires c.city.Some?
    requires text == CmdYes ==> user !in c.store
  {
    if text == CmdNo then
      Step(c.(state := ChooseCity), [Plain(user, AskCity)])
    else if text == CmdYes then
      Then(Plain(user, Registered), SwitchToMain(c.(store := c.store[user := c.city.value]), user))
    else
      Step(c, [Message(user, Say(AskConfirm(c.city.value)), ConfirmKeyboard())])
  }

  /** App.choose_city: a registered user's city is updated, otherwise the stripped text is inserted and pending. */
  function ChooseCityNext(c: Conf, user: int, text: string): Step {
    var c' :=
      if user in c.store then c.(store := c.store[user := text])
      else c.(store := c.store[user := Strip(text)], city := Some(Strip(text)));
    Then(Plain(user, Registered), SwitchToMain(c', user))
  }

  /**
   * App.handle_traffic_jams. The source reads the city of a user with no row
   * and fails there; here that user gets the failure reply (see
   * `MissingProfile`).
   */
  function TrafficNext(c: Conf, user: int, env: Env): Step {
    var reply :=
      if user !in c.store then Plain(user, Failure)
      else
        match env.geocode(c.store[user])
        case Some(coords) => Message(user, TrafficReport(JamsLevel(env.jams(coords))), EmptyKeyboard())
        case None => Plain(user, Failure);
    Then(reply, SwitchToMain(c, user))
  }

  /** App.handle_currency. */
  function CurrencyNext(c: Conf, user: int, env: Env): Step {
    var reply :=
      match env.rates
      case Some(rates) => Message(user, CurrencyReport(rates), EmptyKeyboard())
      case None => Plain(user, Failure);
    Then(reply, SwitchToMain(c, user))
  }

  /** App.handle_command: the main menu. */
  function CommandNext(c: Conf, user: int, text: string, env: Env): Step {
    if text == CmdWeather then
      Step(c.(state := Weather), [Message(user, Say(ChooseDay), DaysKeyboard())])
    else if text == CmdTraffic then
      TrafficNext(c, user, env)
    else if text == CmdEvents then
      Step(c.(state := Events), [Message(user, Say(ChooseDay), DaysKeyboard())])
    else if text == CmdCurrency then
      CurrencyNext(c, user, env)
    else if text == CmdChangeCity then
      Step(c.(state := ChooseCity), [Message(user, Say(AskCity), BackKeyboard())])
    else
      Then(Plain(user, UseKeyboard), SwitchToMain(c, user))
  }

  /** The two words that answer the day prompt. */
  predicate IsDay(text: string) {
    text == CmdToday || text == Tomorrow
  }

  /** App.handle_weather; a user with no row gets the failure reply (see `MissingProfile`). */
  function WeatherNext(c: Conf, user: int, text: string, env: Env): Step
    requires IsDay(text) && user in c.store ==> WeatherDefined(c.store[user], text, env)
  {
    if IsDay(text) then
      var reply :=
        if user !in c.store then Plain(user, Failure)
        else
          match WeatherQuery(c.store[user], text, env)
          case Some(forecast) => Message(user, WeatherReport(forecast), EmptyKeyboard())
          case None => Plain(user, Failure);
      Then(reply, SwitchToMain(c, user))
    else
      Step(c, [Message(user, Say(ChooseDay), DaysKeyboard())])
  }

  /**
   * App.handle_events; the stored city is lower-cased before the catalog
   * lookup, and a user with no row gets the failure reply (see `MissingProfile`).
   */
  function EventsNext(c: Conf, user: int, text: string, env: Env, catalog: map<string, string>): Step {
    if IsDay(text) then
      var reply :=
        if user !in c.store then Plain(user, Failure)
        else
          var city := Lower(c.store[user]);
          if city in catalog then Message(user, EventsReport(city, text, EventsFor(catalog[city], text, env)), EmptyKeyboard())
          else Plain(user, NoEvents);
      Then(reply, SwitchToMain(c, user))
    else
      Step(c, [Message(user, Say(ChooseDay), DaysKeyboard())])
  }

  /** App.run, for an event other than a new message that carries a message: the keyboard hint, then the main menu, whatever the state. */
  function OtherEventNext(c: Conf, user: int): Step {
    Then(Plain(user, UseKeyboard), SwitchToMain(c, user))
  }

  /** The text the bot matches: the message text (empty when absent), stripped and lower-cased. */
  function MessageText(raw: Option<string>): string {
    Normalize(raw.GetOr(""))
  }

  /**
   * The source, as written, reads the city of the sender's row for a traffic
   * query and for a day chosen for weather or events, and fails with an
   * attribute error when the sender has no row.
   */
  predicate MissingProfile(c: Conf, user: int, text: string) {
    && user !in c.store
    && ((c.state == Main && text == CmdTraffic) || (c.state in {Weather, Events} && IsDay(text)))
  }

  /**
   * The inputs on which App.handle_message does not raise, as far as the
   * model tracks exceptions. It excludes a registered user confirming a city
   * (the new row repeats a unique user id), and a forecast list that is too
   * short or holds a blank time stamp.
   */
  predicate NoCrash(c: Conf, user: int, text: string, env: Env) {
    && (c.state == ConfirmCity && text == CmdYes ==> user !in c.store)
    && (c.state == Weather && IsDay(text) && user in c.store ==> WeatherDefined(c.store[user], text, env))
  }

  /** App.handle_message once the text is normalized: the start gate, then "назад" in any other state, then the state's handler. */
  function HandleText(c: Conf, user: int, text: string, env: Env, catalog: map<string, string>): Step
    requires Inv(c)
    requires NoCrash(c, user, text, env)
  {
    if c.state == Start then
      if text == CmdStart then FirstMessageNext(c, user, env)
      else Step(c, [Message(user, Say(PressStart), StartKeyboard())])
    else if text == CmdBack then
      SwitchToMain(c, user)
    else
      StateNext(c, user, text, env, catalog)
  }

  /** The handler of each state but "start", as App.handle_message picks it. */
  function StateNext(c: Conf, user: int, text: string, env: Env, catalog: map<string, string>): Step
    requires Inv(c)
    requires NoCrash(c, user, text, env)
  {
    if c.state == ConfirmCity then ConfirmCityNext(c, user, text)
    else if c.state == ChooseCity then ChooseCityNext(c, user, text)
    else if c.state == Main then CommandNext(c, user, text, env)
    else if c.state == Weather then WeatherNext(c, user, text, env)
    else EventsNext(c, user, text, env, catalog)
  }

  /** App.handle_message: the message text is stripped and lower-cased before anything is matched. */
  function MessageNext(c: Conf, user: int, raw: Option<string>, env: Env, catalog: map<string, string>): Step
    requires Inv(c)
    requires NoCrash(c, user, MessageText(raw), env)
  {
    HandleText(c, user, MessageText(raw), env, catalog)
  }
}
