/** The survey as a transition table: what each handler does to the FSM
    storage and the two tables, and the dispatch that picks the handler.
    The imperative handlers of module Bot are proved to do exactly this. */
module Conversation {
  import opened Wrappers
  import opened TextNorm
  import opened Survey
  import opened Routing

  datatype Transition = Transition(world: World, outcome: Outcome)

  /** The `users` row written for the sender of `e`. */
  function UserOf(e: Event): UserRow {
    UserRow(e.fullName, e.username)
  }

  /** `cmd_start`: without a pool it raises before touching anything;
      otherwise it upserts the sender, clears the session and asks the
      first question. */
  function Restart(w: World, db: bool, e: Event): Transition {
    if !db then Transition(w, Raised(PoolMissing))
    else
      Transition(
        World(w.sessions[e.sender := Session(WantPlay, NoData)], w.users[e.sender := UserOf(e)], w.answers),
        Replied(Greeting))
  }

  /** `cmd_help`: replies only. */
  function ShowHelp(w: World): Transition {
    Transition(w, Replied(HelpText))
  }

  /** `q_want_play`: re-prompts on anything but the two words, otherwise
      records the answer and moves to the second question. */
  function AnswerWantPlay(w: World, e: Event): Transition {
    match YesNo(TextOf(e.content))
    case None => Transition(w, Replied(RepromptYesNo))
    case Some(b) =>
      var data := SessionOf(w.sessions, e.sender).data.(wantPlay := Some(b));
      Transition(w.(sessions := w.sessions[e.sender := Session(FavClass, data)]), Replied(AskFavClass))
  }

  /** `q_fav_class`: re-prompts on blank text, otherwise records the
      trimmed text and moves to the last question. */
  function AnswerFavClass(w: World, e: Event): Transition {
    var favClass := Strip(TextOf(e.content));
    if favClass == [] then Transition(w, Replied(RepromptClass))
    else
      var data := SessionOf(w.sessions, e.sender).data.(favClass := Some(favClass));
      Transition(w.(sessions := w.sessions[e.sender := Session(Style, data)]), Replied(AskStyle))
  }

  /** `q_style`: re-prompts on blank text; otherwise raises without a pool,
      raises if the database rejects the row (no `users` row for the
      sender), and else appends the answer row and clears the session. */
  function AnswerStyle(w: World, db: bool, e: Event): Transition {
    var style := Strip(TextOf(e.content));
    var data := SessionOf(w.sessions, e.sender).data;
    if style == [] then Transition(w, Replied(RepromptStyle))
    else if !db then Transition(w, Raised(PoolMissing))
    else if e.sender !in w.users then Transition(w, Raised(ForeignKeyViolation))
    else
      var row := AnswerRow(e.sender, data.wantPlay, data.favClass, style);
      Transition(World(w.sessions[e.sender := Cleared], w.users, w.answers + [row]), Replied(Summary(row)))
  }

  /** `fallback`: replies only. */
  function Guide(w: World): Transition {
    Transition(w, Replied(Guidance))
  }

  function Apply(h: Handler, w: World, db: bool, e: Event): Transition {
    match h
    case OnStart => Restart(w, db, e)
    case OnHelp => ShowHelp(w)
    case OnWantPlay => AnswerWantPlay(w, e)
    case OnFavClass => AnswerFavClass(w, e)
    case OnStyle => AnswerStyle(w, db, e)
    case OnText => Guide(w)
  }

  /** One inbound event, handled atomically: route on the sender's state,
      then apply the chosen handler. A message no handler accepts changes
      nothing. */
  function Step(w: World, db: bool, e: Event): Transition {
    match Route(SessionOf(w.sessions, e.sender).state, e.content)
    case None => Transition(w, Unhandled)
    case Some(h) => Apply(h, w, db, e)
  }

  /** A sequence of events, handled one after the other. */
  function Run(w: World, db: bool, events: seq<Event>): World
    decreases |events|
  {
    if events == [] then w else Run(Step(w, db, events[0]).world, db, events[1..])
  }

  // ---------------------------------------------------------------------
  // Consistency of the storage and the tables

  /** What the FSM data holds in each state. */
  ghost predicate DataFits(s: Session) {
    match s.state
    case Idle => s.data == NoData
    case WantPlay => s.data == NoData
    case FavClass => s.data.wantPlay.Some? && s.data.favClass.None?
    case Style => s.data.wantPlay.Some? && s.data.favClass.Some? && s.data.favClass.value != []
  }

  /** An answer row with all three answers present. */
  ghost predicate Complete(row: AnswerRow) {
    row.wantPlay.Some? && row.favClass.Some? && row.favClass.value != [] && row.style != []
  }

  /** Every session's data fits its state; everyone in the middle of the
      survey has a `users` row; every answer row is complete and satisfies
      the foreign key of `dnd_answers.user_id`. */
  ghost predicate Inv(w: World) {
    && (forall u :: u in w.sessions ==> DataFits(w.sessions[u]))
    && (forall u :: u in w.sessions && w.sessions[u].state != Idle ==> u in w.users)
    && (forall i :: 0 <= i < |w.answers| ==> w.answers[i].userId in w.users && Complete(w.answers[i]))
  }

  /** Every dispatch keeps the storage and the tables consistent. */
  lemma StepPreservesInv(w: World, db: bool, e: Event)
    requires Inv(w)
    ensures Inv(Step(w, db, e).world)
  {
    var st := SessionOf(w.sessions, e.sender).state;
    match Route(st, e.content)
    case None =>
    case Some(OnStart) => RestartPreservesInv(w, db, e);
    case Some(OnHelp) =>
    case Some(OnWantPlay) => WantPlayPreservesInv(w, e);
    case Some(OnFavClass) => FavClassPreservesInv(w, e);
    case Some(OnStyle) => StylePreservesInv(w, db, e);
    case Some(OnText) =>
  }

  lemma SessionFits(w: World, u: UserId)
    requires Inv(w)
    ensures DataFits(SessionOf(w.sessions, u))
    ensures SessionOf(w.sessions, u).state != Idle ==> u in w.users
  {
  }

  lemma RestartPreservesInv(w: World, db: bool, e: Event)
    requires Inv(w)
    ensures Inv(Restart(w, db, e).world)
  {
    var w' := Restart(w, db, e).world;
    assert forall i :: 0 <= i < |w.answers| ==> w.answers[i].userId in w'.users;
  }

  lemma WantPlayPreservesInv(w: World, e: Event)
    requires Inv(w) && SessionOf(w.sessions, e.sender).state == WantPlay
    ensures Inv(AnswerWantPlay(w, e).world)
  {
    SessionFits(w, e.sender);
  }

  lemma FavClassPreservesInv(w: World, e: Event)
    requires Inv(w) && SessionOf(w.sessions, e.sender).state == FavClass
    ensures Inv(AnswerFavClass(w, e).world)
  {
    SessionFits(w, e.sender);
  }

  lemma StylePreservesInv(w: World, db: bool, e: Event)
    requires Inv(w) && SessionOf(w.sessions, e.sender).state == Style
    ensures Inv(AnswerStyle(w, db, e).world)
  {
    SessionFits(w, e.sender);
    var w' := AnswerStyle(w, db, e).world;
    if w' != w {
      assert Complete(w'.answers[|w.answers|]);
    }
  }
}
