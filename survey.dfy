/** The entities of the DnD survey bot: conversation states, the per-user
    session kept by the in-memory FSM storage, the rows of the `users` and
    `dnd_answers` tables, inbound events and what a handler answers. */
module Survey {
  import opened Wrappers

  /** A Telegram user id (a BIGINT column in the database). */
  type UserId = int

  /** `Idle` is "no FSM state"; the other three are the `DndSurvey` states. */
  datatype State = Idle | WantPlay | FavClass | Style

  /** The FSM data dictionary: the keys `want_play` and `fav_class`, each
      possibly absent. */
  datatype SurveyData = SurveyData(wantPlay: Option<bool>, favClass: Option<string>)

  const NoData := SurveyData(None, None)

  datatype Session = Session(state: State, data: SurveyData)

  /** What the storage holds for a user it has never seen, and what
      `state.clear()` leaves behind. */
  const Cleared := Session(Idle, NoData)

  /** Looking a user up in the storage. */
  function SessionOf(sessions: map<UserId, Session>, u: UserId): Session {
    if u in sessions then sessions[u] else Cleared
  }

  /** A row of `users`, keyed by the user id. */
  datatype UserRow = UserRow(fullName: string, username: Option<string>)

  /** A row of `dnd_answers` without its generated id and timestamp; the
      two fields read back from the FSM data are nullable. */
  datatype AnswerRow = AnswerRow(userId: UserId, wantPlay: Option<bool>, favClass: Option<string>, style: string)

  /** The content of an inbound message, as classified by the transport:
      the two commands, any other text (unknown commands included), or a
      message without text (a sticker, a photo, ...). The command filters
      also read a media caption, so a photo captioned `/start` or `/help`
      arrives as that command; any other caption is `NonText`, because the
      `F.text` filter ignores captions. */
  datatype Content = StartCommand | HelpCommand | Text(body: string) | NonText

  datatype Event = Event(sender: UserId, fullName: string, username: Option<string>, content: Content)

  /** `message.text or ""`. */
  function TextOf(c: Content): string {
    match c
    case StartCommand => "/start"
    case HelpCommand => "/help"
    case Text(body) => body
    case NonText => ""
  }

  /** The `F.text` filter: the message has non-empty text. */
  predicate HasText(c: Content) {
    TextOf(c) != []
  }

  /** The six registered handlers. */
  datatype Handler = OnStart | OnHelp | OnWantPlay | OnFavClass | OnStyle | OnText

  /** What kind of reply a handler sends; the wording and the keyboards are
      presentational. */
  datatype Reply =
    | Greeting         // first question, with the yes/no keyboard
    | HelpText
    | RepromptYesNo
    | AskFavClass
    | RepromptClass
    | AskStyle
    | RepromptStyle
    | Summary(row: AnswerRow)
    | Guidance         // the fallback's hint to send /start or /help

  /** The `RuntimeError` raised when `db_pool` is `None`, and the error the
      database raises when an answer refers to an unknown user. */
  datatype Error = PoolMissing | ForeignKeyViolation

  datatype Outcome = Replied(reply: Reply) | Raised(error: Error) | Unhandled

  /** Everything a dispatch can change: the FSM storage and the two tables. */
  datatype World = World(sessions: map<UserId, Session>, users: map<UserId, UserRow>, answers: seq<AnswerRow>)
}
