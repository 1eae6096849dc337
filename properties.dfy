/** What the survey promises, stated over the transition table: restart,
    upsert, the three questions, the commit, routing, and isolation
    between users. */
module SurveyProperties {
  import opened Wrappers
  import opened TextNorm
  import opened Survey
  import opened Routing
  import opened Conversation

  // ---------------------------------------------------------------------
  // /start

  /** `/start` in any state upserts the sender, empties the session data,
      asks the first question, and leaves the answers alone. */
  lemma RestartFromAnyState(w: World, e: Event)
    requires e.content == StartCommand
    ensures Step(w, true, e).outcome == Replied(Greeting)
    ensures SessionOf(Step(w, true, e).world.sessions, e.sender) == Session(WantPlay, NoData)
    ensures Step(w, true, e).world.users == w.users[e.sender := UserOf(e)]
    ensures Step(w, true, e).world.answers == w.answers
  {
    RouteTable(SessionOf(w.sessions, e.sender).state, e.content);
  }

  /** Without a database pool `/start` raises and changes nothing. */
  lemma RestartWithoutPool(w: World, e: Event)
    requires e.content == StartCommand
    ensures Step(w, false, e) == Transition(w, Raised(PoolMissing))
  {
    RouteTable(SessionOf(w.sessions, e.sender).state, e.content);
  }

  /** Sending `/start` twice is the same as sending it once. */
  lemma RestartIdempotent(w: World, db: bool, e: Event)
    requires e.content == StartCommand
    ensures Step(Step(w, db, e).world, db, e) == Step(w, db, e)
  {
    var w' := Step(w, db, e).world;
    RouteTable(SessionOf(w.sessions, e.sender).state, e.content);
    RouteTable(SessionOf(w'.sessions, e.sender).state, e.content);
  }

  /** The `users` upsert: after `/start` from the same id twice there is
      one row for that id, holding the later name and handle; the other
      rows are as they were and no other id appears. */
  lemma UpsertLatestWins(w: World, e1: Event, e2: Event)
    requires e1.content == StartCommand && e2.content == StartCommand
    requires e1.sender == e2.sender
    ensures var users := Step(Step(w, true, e1).world, true, e2).world.users;
      && users.Keys == w.users.Keys + {e1.sender}
      && users[e1.sender] == UserOf(e2)
      && (forall v :: v in w.users && v != e1.sender ==> users[v] == w.users[v])
  {
    RestartFromAnyState(w, e1);
    RestartFromAnyState(Step(w, true, e1).world, e2);
  }

  // ---------------------------------------------------------------------
  // The three questions

  /** In `WantPlay`, text that does not normalise to "да" or "нет" leaves
      the session and the tables as they are and only re-prompts. */
  lemma InvalidYesNoChangesNothing(w: World, db: bool, e: Event)
    requires SessionOf(w.sessions, e.sender).state == WantPlay
    requires e.content.Text? && e.content.body != []
    requires Normalize(e.content.body) != Yes && Normalize(e.content.body) != No
    ensures Step(w, db, e) == Transition(w, Replied(RepromptYesNo))
  {
    RouteTable(WantPlay, e.content);
  }

  /** In `WantPlay`, an accepted answer records `want_play` as "the text is
      да", keeps the rest of the data, and moves to `FavClass`. */
  lemma ValidYesNoAdvances(w: World, db: bool, e: Event)
    requires SessionOf(w.sessions, e.sender).state == WantPlay
    requires e.content.Text? && e.content.body != []
    requires Normalize(e.content.body) == Yes || Normalize(e.content.body) == No
    ensures var data := SessionOf(w.sessions, e.sender).data;
      Step(w, db, e) == Transition(
        w.(sessions := w.sessions[e.sender := Session(FavClass, data.(wantPlay := Some(Normalize(e.content.body) == Yes)))]),
        Replied(AskFavClass))
  {
    RouteTable(WantPlay, e.content);
  }

  /** In `FavClass` or `Style`, text that is blank once stripped leaves the
      session and the tables as they are and only re-prompts. */
  lemma BlankAnswerChangesNothing(w: World, db: bool, e: Event)
    requires SessionOf(w.sessions, e.sender).state in {FavClass, Style}
    requires e.content.Text? && e.content.body != [] && AllSpace(e.content.body)
    ensures Step(w, db, e).world == w
    ensures Step(w, db, e).outcome ==
      Replied(if SessionOf(w.sessions, e.sender).state == FavClass then RepromptClass else RepromptStyle)
  {
    StripShape(e.content.body);
    RouteTable(SessionOf(w.sessions, e.sender).state, e.content);
  }

  /** In `FavClass`, non-blank text is stored trimmed and the state moves
      to `Style`. */
  lemma FavClassAdvances(w: World, db: bool, e: Event)
    requires SessionOf(w.sessions, e.sender).state == FavClass
    requires e.content.Text? && !AllSpace(e.content.body)
    ensures var data := SessionOf(w.sessions, e.sender).data;
      Step(w, db, e) == Transition(
        w.(sessions := w.sessions[e.sender := Session(Style, data.(favClass := Some(Strip(e.content.body))))]),
        Replied(AskStyle))
  {
    StripShape(e.content.body);
    RouteTable(FavClass, e.content);
  }

  // ---------------------------------------------------------------------
  // The commit

  /** In `Style` with a consistent store, non-blank text appends exactly one
      row (sender, stored want_play, stored fav_class, trimmed style), with
      both stored answers present, and clears the session to `Idle`. */
  lemma CommitAppendsOneRow(w: World, e: Event)
    requires Inv(w)
    requires SessionOf(w.sessions, e.sender).state == Style
    requires e.content.Text? && !AllSpace(e.content.body)
    ensures var data := SessionOf(w.sessions, e.sender).data;
      var row := AnswerRow(e.sender, data.wantPlay, data.favClass, Strip(e.content.body));
      && data.wantPlay.Some? && data.favClass.Some?
      && Step(w, true, e) == Transition(World(w.sessions[e.sender := Cleared], w.users, w.answers + [row]), Replied(Summary(row)))
  {
    StripShape(e.content.body);
    RouteTable(Style, e.content);
    assert e.sender in w.sessions && DataFits(w.sessions[e.sender]);
    assert e.sender in w.users;
    assert Step(w, true, e) == AnswerStyle(w, true, e);
  }

  /** Without a database pool the last answer raises: nothing is appended
      and the session stays in `Style` with its data. */
  lemma CommitWithoutPool(w: World, e: Event)
    requires SessionOf(w.sessions, e.sender).state == Style
    requires e.content.Text? && !AllSpace(e.content.body)
    ensures Step(w, false, e) == Transition(w, Raised(PoolMissing))
  {
    StripShape(e.content.body);
    RouteTable(Style, e.content);
  }

  /** An answer row is only ever written by the last question, after both
      earlier answers were collected, and the session is cleared with it. */
  lemma CommitOnlyWhenComplete(w: World, db: bool, e: Event)
    requires Inv(w)
    requires Step(w, db, e).world.answers != w.answers
    ensures var s := SessionOf(w.sessions, e.sender);
      && s.state == Style && s.data.wantPlay.Some? && s.data.favClass.Some?
      && Step(w, db, e).world.answers == w.answers + [AnswerRow(e.sender, s.data.wantPlay, s.data.favClass, Strip(TextOf(e.content)))]
      && SessionOf(Step(w, db, e).world.sessions, e.sender) == Cleared
  {
    var s := SessionOf(w.sessions, e.sender);
    RouteTable(s.state, e.content);
    assert DataFits(s) by {
      if e.sender in w.sessions {
      }
    }
  }

  /** With a consistent store the database never rejects an answer row. */
  lemma NoForeignKeyViolation(w: World, db: bool, e: Event)
    requires Inv(w)
    ensures Step(w, db, e).outcome != Raised(ForeignKeyViolation)
  {
    var s := SessionOf(w.sessions, e.sender);
    RouteTable(s.state, e.content);
  }

  // ---------------------------------------------------------------------
  // Routing

  /** `/help` in any state changes nothing. */
  lemma HelpChangesNothing(w: World, db: bool, e: Event)
    requires e.content == HelpCommand
    ensures Step(w, db, e) == Transition(w, Replied(HelpText))
  {
    RouteTable(SessionOf(w.sessions, e.sender).state, e.content);
  }

  /** Outside the survey, any text other than the two commands reaches the
      fallback and changes nothing. */
  lemma IdleTextFallsBack(w: World, db: bool, e: Event)
    requires SessionOf(w.sessions, e.sender).state == Idle
    requires e.content.Text? && e.content.body != []
    ensures Step(w, db, e) == Transition(w, Replied(Guidance))
  {
    RouteTable(Idle, e.content);
  }

  /** Inside the survey, any text other than the two commands (unknown
      commands included) is an answer to the current question. */
  lemma SurveyStateOwnsText(w: World, db: bool, e: Event)
    requires SessionOf(w.sessions, e.sender).state != Idle
    requires e.content.Text? && e.content.body != []
    ensures Step(w, db, e) == Apply(StateHandler(SessionOf(w.sessions, e.sender).state), w, db, e)
  {
    RouteTable(SessionOf(w.sessions, e.sender).state, e.content);
  }

  /** A message without text reaches no handler and changes nothing. */
  lemma NoTextIgnored(w: World, db: bool, e: Event)
    requires !HasText(e.content)
    ensures Step(w, db, e) == Transition(w, Unhandled)
  {
    RouteTable(SessionOf(w.sessions, e.sender).state, e.content);
  }

  // ---------------------------------------------------------------------
  // Isolation between users

  /** The answer rows of one user, in order. */
  function AnswersOf(answers: seq<AnswerRow>, u: UserId): (r: seq<AnswerRow>)
    ensures forall x :: x in r <==> x in answers && x.userId == u
    ensures |r| <= |answers|
  {
    if answers == [] then []
    else
      var last := answers[|answers| - 1];
      AnswersOf(answers[..|answers| - 1], u) + (if last.userId == u then [last] else [])
  }

  /** A user's rows keep every one of that user's rows as many times as the
      table holds it, and no row of anyone else. */
  lemma {:induction false} AnswersOfCounts(answers: seq<AnswerRow>, u: UserId, x: AnswerRow)
    ensures multiset(AnswersOf(answers, u))[x] == if x.userId == u then multiset(answers)[x] else 0
  {
    if answers != [] {
      var init := answers[..|answers| - 1];
      var last := answers[|answers| - 1];
      AnswersOfCounts(init, u, x);
      assert answers == init + [last];
    }
  }

  /** Everything about one user that the store and the tables hold. */
  datatype View = View(session: Session, user: Option<UserRow>, answers: seq<AnswerRow>)

  function ViewOf(w: World, u: UserId): View {
    View(SessionOf(w.sessions, u), if u in w.users then Some(w.users[u]) else None, AnswersOf(w.answers, u))
  }

  /** The events of one user, in arrival order. */
  function EventsOf(events: seq<Event>, u: UserId): (r: seq<Event>)
    ensures forall x :: x in r <==> x in events && x.sender == u
  {
    if events == [] then []
    else (if events[0].sender == u then [events[0]] else []) + EventsOf(events[1..], u)
  }

  /** The answers only grow, and only by rows of the sender. */
  lemma AnswersAppendOnly(w: World, db: bool, e: Event)
    ensures var a := Step(w, db, e).world.answers;
      a == w.answers || (|a| == |w.answers| + 1 && a[..|w.answers|] == w.answers && a[|w.answers|].userId == e.sender)
  {
    RouteTable(SessionOf(w.sessions, e.sender).state, e.content);
  }

  /** A dispatch for one user leaves everything about every other user as
      it was. */
  lemma StepLeavesOthersAlone(w: World, db: bool, e: Event, u: UserId)
    requires u != e.sender
    ensures ViewOf(Step(w, db, e).world, u) == ViewOf(w, u)
  {
    AnswersAppendOnly(w, db, e);
    var a := Step(w, db, e).world.answers;
    if a != w.answers {
      assert a[..|a| - 1] == w.answers;
    }
  }

  lemma AnswersOfAppend(a: seq<AnswerRow>, row: AnswerRow, u: UserId)
    ensures AnswersOf(a + [row], u) == AnswersOf(a, u) + (if row.userId == u then [row] else [])
  {
    assert (a + [row])[..|a|] == a;
  }

  /** A dispatch for one user depends on nothing but what the store and the
      tables hold about that user. */
  lemma StepDependsOnlyOnSender(w1: World, w2: World, db: bool, e: Event)
    requires ViewOf(w1, e.sender) == ViewOf(w2, e.sender)
    ensures ViewOf(Step(w1, db, e).world, e.sender) == ViewOf(Step(w2, db, e).world, e.sender)
    ensures Step(w1, db, e).outcome == Step(w2, db, e).outcome
  {
    var u := e.sender;
    match Route(SessionOf(w1.sessions, u).state, e.content)
    case None =>
    case Some(OnStart) =>
    case Some(OnHelp) =>
    case Some(OnWantPlay) =>
    case Some(OnFavClass) =>
    case Some(OnStyle) => StyleDependsOnlyOnSender(w1, w2, db, e);
    case Some(OnText) =>
  }

  lemma StyleDependsOnlyOnSender(w1: World, w2: World, db: bool, e: Event)
    requires ViewOf(w1, e.sender) == ViewOf(w2, e.sender)
    ensures ViewOf(AnswerStyle(w1, db, e).world, e.sender) == ViewOf(AnswerStyle(w2, db, e).world, e.sender)
    ensures AnswerStyle(w1, db, e).outcome == AnswerStyle(w2, db, e).outcome
  {
    var t1 := AnswerStyle(w1, db, e);
    var t2 := AnswerStyle(w2, db, e);
    if t1.world != w1 {
      AnswersOfAppend(w1.answers, t1.world.answers[|w1.answers|], e.sender);
      AnswersOfAppend(w2.answers, t2.world.answers[|w2.answers|], e.sender);
    }
  }

  /** Interleaving other users' events changes nothing about a user: after
      any sequence of events, everything about `u` is what `u`'s own events,
      handled alone and in the same order, would have produced. */
  lemma {:induction false} RunIsolation(w1: World, w2: World, db: bool, events: seq<Event>, u: UserId)
    requires ViewOf(w1, u) == ViewOf(w2, u)
    ensures ViewOf(Run(w1, db, events), u) == ViewOf(Run(w2, db, EventsOf(events, u)), u)
    decreases |events|
  {
    if events != [] {
      var e := events[0];
      var w1' := Step(w1, db, e).world;
      if e.sender == u {
        StepDependsOnlyOnSender(w1, w2, db, e);
        var w2' := Step(w2, db, e).world;
        assert EventsOf(events, u) == [e] + EventsOf(events[1..], u);
        assert ([e] + EventsOf(events[1..], u))[1..] == EventsOf(events[1..], u);
        RunIsolation(w1', w2', db, events[1..], u);
      } else {
        StepLeavesOthersAlone(w1, db, e, u);
        assert EventsOf(events, u) == EventsOf(events[1..], u);
        RunIsolation(w1', w2, db, events[1..], u);
      }
    }
  }

  /** Consistency holds after any sequence of events from any consistent
      world, the empty one included. */
  lemma {:induction false} RunPreservesInv(w: World, db: bool, events: seq<Event>)
    requires Inv(w)
    ensures Inv(Run(w, db, events))
    decreases |events|
  {
    if events != [] {
      StepPreservesInv(w, db, events[0]);
      RunPreservesInv(Step(w, db, events[0]).world, db, events[1..]);
    }
  }

  // ---------------------------------------------------------------------
  // Scenarios

  /** A non-empty answer without surrounding whitespace. */
  predicate Trimmed(s: string) {
    s != [] && !IsSpace(s[0]) && !IsSpace(s[|s| - 1])
  }

  /** The worlds a complete survey by user `u` passes through, from an
      empty start. */
  function AfterStart(u: UserId, user: UserRow): World {
    World(map[u := Session(WantPlay, NoData)], map[u := user], [])
  }

  function AfterWantPlay(u: UserId, user: UserRow, wantPlay: bool): World {
    AfterStart(u, user).(sessions := map[u := Session(FavClass, SurveyData(Some(wantPlay), None))])
  }

  function AfterFavClass(u: UserId, user: UserRow, wantPlay: bool, favClass: string): World {
    AfterStart(u, user).(sessions := map[u := Session(Style, SurveyData(Some(wantPlay), Some(favClass)))])
  }

  lemma ScenarioWantPlay(u: UserId, user: UserRow, yesNo: string, word: string)
    requires word == Yes || word == No
    requires yesNo != [] && Normalize(yesNo) == word
    ensures Step(AfterStart(u, user), true, Event(u, user.fullName, user.username, Text(yesNo))).world
      == AfterWantPlay(u, user, word == Yes)
  {
    var w := AfterStart(u, user);
    var s' := Session(FavClass, SurveyData(Some(word == Yes), None));
    if word == Yes {
      ValidYesNoAdvances(w, true, Event(u, user.fullName, user.username, Text(yesNo)));
    } else {
      assert |Normalize(yesNo)| != |Yes|;
      ValidYesNoAdvances(w, true, Event(u, user.fullName, user.username, Text(yesNo)));
    }
    assert w.sessions[u := s'] == map[u := s'];
  }

  lemma ScenarioFavClass(u: UserId, user: UserRow, wantPlay: bool, favClass: string)
    requires Trimmed(favClass)
    ensures Step(AfterWantPlay(u, user, wantPlay), true, Event(u, user.fullName, user.username, Text(favClass))).world
      == AfterFavClass(u, user, wantPlay, favClass)
  {
    StripPadded([], favClass, []);
    assert [] + favClass + [] == favClass;
    FavClassAdvances(AfterWantPlay(u, user, wantPlay), true, Event(u, user.fullName, user.username, Text(favClass)));
  }

  lemma ScenarioStyle(u: UserId, user: UserRow, wantPlay: bool, favClass: string, style: string)
    requires Trimmed(favClass) && Trimmed(style)
    ensures Step(AfterFavClass(u, user, wantPlay, favClass), true, Event(u, user.fullName, user.username, Text(style))).world
      == World(map[u := Cleared], map[u := user], [AnswerRow(u, Some(wantPlay), Some(favClass), style)])
  {
    StripPadded([], style, []);
    assert [] + style + [] == style;
    var w := AfterFavClass(u, user, wantPlay, favClass);
    assert Inv(w) by {
      assert DataFits(w.sessions[u]);
    }
    CommitAppendsOneRow(w, Event(u, user.fullName, user.username, Text(style)));
  }

  /** A user who sends `/start`, then "Да" or "Нет" in any letter case, then a
      class, then a style, from an empty start, leaves exactly one answer
      row (their id, the yes/no answer, the class, the style), one `users`
      row, and an idle session. With "Да", "Маг", "Смешанное" this is the
      row (u, true, "Маг", "Смешанное"). */
  lemma SurveyEndToEnd(u: UserId, user: UserRow, yesNo: string, word: string, favClass: string, style: string)
    requires word == Yes || word == No
    requires SpellsCaseless(yesNo, word)
    requires Trimmed(favClass) && Trimmed(style)
    ensures var events := [
        Event(u, user.fullName, user.username, StartCommand), Event(u, user.fullName, user.username, Text(yesNo)),
        Event(u, user.fullName, user.username, Text(favClass)), Event(u, user.fullName, user.username, Text(style))];
      var w := Run(World(map[], map[], []), true, events);
      && w.answers == [AnswerRow(u, Some(word == Yes), Some(favClass), style)]
      && SessionOf(w.sessions, u) == Cleared
      && w.users == map[u := user]
  {
    var e1 := Event(u, user.fullName, user.username, StartCommand);
    var e2 := Event(u, user.fullName, user.username, Text(yesNo));
    var e3 := Event(u, user.fullName, user.username, Text(favClass));
    var e4 := Event(u, user.fullName, user.username, Text(style));
    var w0 := World(map[], map[], []);
    var w1 := AfterStart(u, user);
    var w2 := AfterWantPlay(u, user, word == Yes);
    var w3 := AfterFavClass(u, user, word == Yes, favClass);
    var w4 := World(map[u := Cleared], map[u := user], [AnswerRow(u, Some(word == Yes), Some(favClass), style)]);
    assert Step(w0, true, e1).world == w1 by {
      RestartFromAnyState(w0, e1);
    }
    assert Step(w1, true, e2).world == w2 by {
      assert yesNo != [] && Normalize(yesNo) == word by {
        PaddedAnswer([], yesNo, [], word);
        assert [] + yesNo + [] == yesNo;
      }
      ScenarioWantPlay(u, user, yesNo, word);
    }
    assert Step(w2, true, e3).world == w3 by {
      ScenarioFavClass(u, user, word == Yes, favClass);
    }
    assert Step(w3, true, e4).world == w4 by {
      ScenarioStyle(u, user, word == Yes, favClass, style);
    }
    assert Run(w3, true, [e4]) == w4 by {
      assert [e4][1..] == [];
    }
    assert Run(w2, true, [e3, e4]) == w4 by {
      assert [e3, e4][1..] == [e4];
    }
    assert Run(w1, true, [e2, e3, e4]) == w4 by {
      assert [e2, e3, e4][1..] == [e3, e4];
    }
    assert Run(w0, true, [e1, e2, e3, e4]) == w4 by {
      assert [e1, e2, e3, e4][1..] == [e2, e3, e4];
    }
  }
}
