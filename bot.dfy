/** The running bot: the in-memory FSM storage and the handlers, which
    update the storage and the two tables in place. Every handler is proved
    to do what the transition table of module Conversation says, and the
    dispatcher to keep the storage and the tables consistent. */
module Bot {
  import opened Wrappers
  import opened TextNorm
  import opened Survey
  import opened Routing
  import opened Conversation

  /** The FSM storage: one record per user, absent records reading as
      `Idle` with no data. */
  class SessionStore {
    var sessions: map<UserId, Session>

    constructor ()
      ensures sessions == map[]
    {
      sessions := map[];
    }

    function Get(u: UserId): Session
      reads this
    {
      SessionOf(sessions, u)
    }

    /** `state.set_state(st)`: the data is kept. */
    method SetState(u: UserId, st: State)
      modifies this
      ensures sessions == old(sessions)[u := Session(st, old(Get(u)).data)]
    {
      sessions := sessions[u := Session(st, Get(u).data)];
    }

    /** The write half of `state.update_data(...)`: the handler reads the
        current data with `Get`, merges its key into it, and stores the
        result here; the state is kept. */
    method SetData(u: UserId, d: SurveyData)
      modifies this
      ensures sessions == old(sessions)[u := Session(old(Get(u)).state, d)]
    {
      sessions := sessions[u := Session(Get(u).state, d)];
    }

    /** `state.clear()`: no state, empty data. */
    method Clear(u: UserId)
      modifies this
      ensures sessions == old(sessions)[u := Cleared]
    {
      sessions := sessions[u := Cleared];
    }
  }

  class SurveyBot {
    /** Whether `db_pool` was created. */
    const dbAvailable: bool
    const store: SessionStore
    var users: map<UserId, UserRow>
    var answers: seq<AnswerRow>

    function Snapshot(): World
      reads this, store
    {
      World(store.sessions, users, answers)
    }

    ghost predicate Valid()
      reads this, store
    {
      Inv(Snapshot())
    }

    /** A bot starting over tables that may already hold rows: `CREATE
        TABLE IF NOT EXISTS` keeps them across restarts. The FSM storage is
        in memory and always starts empty. Tables written only by this bot
        are consistent (`RunPreservesInv`). */
    constructor (dbAvailable: bool, users: map<UserId, UserRow>, answers: seq<AnswerRow>)
      requires Inv(World(map[], users, answers))
      ensures Valid() && fresh(store)
      ensures this.dbAvailable == dbAvailable
      ensures Snapshot() == World(map[], users, answers)
    {
      this.dbAvailable := dbAvailable;
      store := new SessionStore();
      this.users := users;
      this.answers := answers;
    }

    /** `cmd_start`, registered for `/start` in every state. */
    method CmdStart(e: Event) returns (out: Outcome)
      requires Valid()
      modifies this, store
      ensures Valid()
      ensures Transition(Snapshot(), out) == Restart(old(Snapshot()), dbAvailable, e)
    {
      RestartPreservesInv(Snapshot(), dbAvailable, e);
      if !dbAvailable {
        return Raised(PoolMissing);
      }
      users := users[e.sender := UserRow(e.fullName, e.username)];
      store.Clear(e.sender);
      store.SetState(e.sender, WantPlay);
      out := Replied(Greeting);
    }

    method CmdHelp(e: Event) returns (out: Outcome)
      ensures Transition(Snapshot(), out) == ShowHelp(Snapshot())
    {
      out := Replied(HelpText);
    }

    /** `q_want_play`, registered for text in `WantPlay`. */
    method QWantPlay(e: Event) returns (out: Outcome)
      requires Valid() && store.Get(e.sender).state == WantPlay && HasText(e.content)
      modifies store
      ensures Valid()
      ensures Transition(Snapshot(), out) == AnswerWantPlay(old(Snapshot()), e)
    {
      WantPlayPreservesInv(Snapshot(), e);
      var text := Lower(Strip(TextOf(e.content)));
      if text != Yes && text != No {
        return Replied(RepromptYesNo);
      }
      var wantPlay := text == Yes;
      var data := store.Get(e.sender).data;
      store.SetData(e.sender, data.(wantPlay := Some(wantPlay)));
      store.SetState(e.sender, FavClass);
      out := Replied(AskFavClass);
    }

    /** `q_fav_class`, registered for text in `FavClass`. */
    method QFavClass(e: Event) returns (out: Outcome)
      requires Valid() && store.Get(e.sender).state == FavClass && HasText(e.content)
      modifies store
      ensures Valid()
      ensures Transition(Snapshot(), out) == AnswerFavClass(old(Snapshot()), e)
    {
      FavClassPreservesInv(Snapshot(), e);
      var favClass := Strip(TextOf(e.content));
      if favClass == [] {
        return Replied(RepromptClass);
      }
      var data := store.Get(e.sender).data;
      store.SetData(e.sender, data.(favClass := Some(favClass)));
      store.SetState(e.sender, Style);
      assert store.sessions == old(store.sessions)[e.sender := Session(Style, data.(favClass := Some(favClass)))];
      out := Replied(AskStyle);
    }

    /** `q_style`, registered for text in `Style`. */
    method QStyle(e: Event) returns (out: Outcome)
      requires Valid() && store.Get(e.sender).state == Style && HasText(e.content)
      modifies this, store
      ensures Valid()
      ensures Transition(Snapshot(), out) == AnswerStyle(old(Snapshot()), dbAvailable, e)
    {
      StylePreservesInv(Snapshot(), dbAvailable, e);
      var style := Strip(TextOf(e.content));
      if style == [] {
        return Replied(RepromptStyle);
      }
      var data := store.Get(e.sender).data;
      if !dbAvailable {
        return Raised(PoolMissing);
      }
      if e.sender !in users {
        return Raised(ForeignKeyViolation);
      }
      var row := AnswerRow(e.sender, data.wantPlay, data.favClass, style);
      answers := answers + [row];
      store.Clear(e.sender);
      out := Replied(Summary(row));
    }

    method Fallback(e: Event) returns (out: Outcome)
      ensures Transition(Snapshot(), out) == Guide(Snapshot())
    {
      out := Replied(Guidance);
    }

    /** Handles one inbound message: the first registered handler whose
        filters pass receives it. */
    method Dispatch(e: Event) returns (out: Outcome)
      requires Valid()
      modifies this, store
      ensures Valid()
      ensures Transition(Snapshot(), out) == Step(old(Snapshot()), dbAvailable, e)
    {
      RouteTable(store.Get(e.sender).state, e.content);
      var handler := Route(store.Get(e.sender).state, e.content);
      match handler {
        case None => out := Unhandled;
        case Some(OnStart) => out := CmdStart(e);
        case Some(OnHelp) => out := CmdHelp(e);
        case Some(OnWantPlay) => out := QWantPlay(e);
        case Some(OnFavClass) => out := QFavClass(e);
        case Some(OnStyle) => out := QStyle(e);
        case Some(OnText) => out := Fallback(e);
      }
    }
  }
}
