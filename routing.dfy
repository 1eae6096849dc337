/** The dispatcher's choice of handler: the handlers are tried in the order
    they are registered, and the first whose filters all pass receives the
    message. */
module Routing {
  import opened Wrappers
  import opened Survey

  /** The filters each handler is registered with. Handlers without a state
      filter match in every state. */
  predicate Matches(h: Handler, st: State, c: Content) {
    match h
    case OnStart => c == StartCommand
    case OnHelp => c == HelpCommand
    case OnWantPlay => st == WantPlay && HasText(c)
    case OnFavClass => st == FavClass && HasText(c)
    case OnStyle => st == Style && HasText(c)
    case OnText => HasText(c)
  }

  /** Registration order. */
  const Registration: seq<Handler> := [OnStart, OnHelp, OnWantPlay, OnFavClass, OnStyle, OnText]

  /** The index of the first rule that matches, if any. */
  function FirstMatch(rules: seq<Handler>, st: State, c: Content): (r: Option<nat>)
    ensures r.Some? ==> r.value < |rules| && Matches(rules[r.value], st, c)
    ensures r.Some? ==> forall j :: 0 <= j < r.value ==> !Matches(rules[j], st, c)
    ensures r.None? ==> forall j :: 0 <= j < |rules| ==> !Matches(rules[j], st, c)
  {
    if rules == [] then None
    else if Matches(rules[0], st, c) then Some(0)
    else match FirstMatch(rules[1..], st, c)
      case None => None
      case Some(k) => Some(k + 1)
  }

  /** The handler that receives a message with content `c` from a user in
      state `st`, or `None` when no filter passes and the message is dropped. */
  function Route(st: State, c: Content): (r: Option<Handler>)
    ensures r.Some? ==> Matches(r.value, st, c)
  {
    match FirstMatch(Registration, st, c)
    case None => None
    case Some(k) => Some(Registration[k])
  }

  /** The handler a survey state owns; the fallback stands for `Idle`. */
  function StateHandler(st: State): Handler {
    match st
    case Idle => OnText
    case WantPlay => OnWantPlay
    case FavClass => OnFavClass
    case Style => OnStyle
  }

  /** The routing table that first-match over the registration order
      produces: the two commands win in every state; any other text goes to
      the current state's handler, or to the fallback when idle; a message
      without text reaches nobody. */
  lemma RouteTable(st: State, c: Content)
    ensures c == StartCommand ==> Route(st, c) == Some(OnStart)
    ensures c == HelpCommand ==> Route(st, c) == Some(OnHelp)
    ensures c.Text? && c.body != [] ==> Route(st, c) == Some(StateHandler(st))
    ensures Route(st, c) == None <==> !HasText(c)
  {
    var r := FirstMatch(Registration, st, c);
    if HasText(c) {
      assert Matches(Registration[5], st, c);
    }
    if c.Text? && c.body != [] {
      assert !Matches(Registration[0], st, c) && !Matches(Registration[1], st, c);
      var k := match st case Idle => 5 case WantPlay => 2 case FavClass => 3 case Style => 4;
      assert Matches(Registration[k], st, c);
      assert forall j :: 0 <= j < k ==> !Matches(Registration[j], st, c);
    }
  }
}
