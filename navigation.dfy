/**
 * Screen navigation (App.tsx): the current screen, the selected character and
 * the optional selected behavior, changed by four handlers, and the rule that
 * decides which screen component is rendered.
 *
 * Each handler is first a function on `AppState` (`Apply`); class App holds
 * the three state variables and its handler methods are proved to agree with
 * `Apply`. The character catalog is any non-empty sequence.
 */
module Navigation {
  import opened Wrappers
  import opened Types

  datatype AppState = AppState(screen: Screen, character: Character, behavior: Option<Behavior>)

  /** The handlers, as the events that invoke them. */
  datatype Event =
    | SelectCharacter(character: Character)   // handleCharacterSelect
    | SelectBehavior(behavior: Behavior)      // handleBehaviorSelect
    | Back                                    // handleBack
    | EndSession                              // handleEndSession

  /** A rendered screen component with the props that decide it. */
  datatype View = HomeView | SetupView(character: Character) | ChatView(character: Character, behavior: Behavior)

  /** The state the app starts in: the home screen, the first character, no behavior. */
  function InitialState(characters: seq<Character>): (st: AppState)
    requires |characters| > 0
    ensures st.screen == Home && st.character == characters[0] && st.behavior.None?
  {
    AppState(Home, characters[0], None)
  }

  /** What each handler does to the state. */
  function Apply(st: AppState, e: Event): (r: AppState)
    ensures e.SelectCharacter? ==> r == st.(screen := Setup, character := e.character)
    ensures e.SelectBehavior? ==> r == st.(screen := Chat, behavior := Some(e.behavior))
    ensures e.Back? ==> r.character == st.character && r.behavior == st.behavior
    ensures e.Back? ==> r.screen == match st.screen case Chat => Setup case Setup => Home case Home => Home
    ensures e.EndSession? ==> r == st.(screen := Home, behavior := None)
  {
    match e
    case SelectCharacter(c) => st.(screen := Setup, character := c)
    case SelectBehavior(b) => st.(screen := Chat, behavior := Some(b))
    case Back =>
      if st.screen == Chat then st.(screen := Setup)
      else if st.screen == Setup then st.(screen := Home)
      else st
    case EndSession => st.(screen := Home, behavior := None)
  }

  /** The state after a sequence of handler calls. */
  function Run(st: AppState, events: seq<Event>): AppState
    decreases |events|
  {
    if events == [] then st else Run(Apply(st, events[0]), events[1..])
  }

  /**
   * The three conditional renders of App, in order: the home screen on HOME,
   * the setup screen on SETUP, the chat screen on CHAT when a behavior is selected.
   */
  function Rendered(st: AppState): (r: seq<View>)
    ensures |r| <= 1
    ensures |r| == 0 <==> st.screen == Chat && st.behavior.None?
    ensures st.screen == Home ==> r == [HomeView]
    ensures st.screen == Setup ==> r == [SetupView(st.character)]
    ensures st.screen == Chat && st.behavior.Some? ==> r == [ChatView(st.character, st.behavior.value)]
  {
    (if st.screen == Home then [HomeView] else []) +
    (if st.screen == Setup then [SetupView(st.character)] else []) +
    (if st.screen == Chat && st.behavior.Some? then [ChatView(st.character, st.behavior.value)] else [])
  }

  /** The invariant of every reachable state: the chat screen always has a behavior. */
  predicate ChatHasBehavior(st: AppState)
  {
    st.screen == Chat ==> st.behavior.Some?
  }

  lemma ApplyKeeps(st: AppState, e: Event)
    requires ChatHasBehavior(st)
    ensures ChatHasBehavior(Apply(st, e))
  {
  }

  /** Every state reachable from the initial one by the handlers renders exactly one screen. */
  lemma {:induction false} ReachableRendersOne(characters: seq<Character>, events: seq<Event>)
    requires |characters| > 0
    ensures ChatHasBehavior(Run(InitialState(characters), events))
    ensures |Rendered(Run(InitialState(characters), events))| == 1
  {
    RunKeeps(InitialState(characters), events);
  }

  lemma {:induction false} RunKeeps(st: AppState, events: seq<Event>)
    requires ChatHasBehavior(st)
    ensures ChatHasBehavior(Run(st, events))
    decreases |events|
  {
    if events != [] {
      ApplyKeeps(st, events[0]);
      RunKeeps(Apply(st, events[0]), events[1..]);
    }
  }

  /** The handlers a rendered screen offers: HomeScreen selects a character; SetupScreen goes back or selects a behavior; ChatScreen ends the session. */
  predicate Offered(st: AppState, e: Event)
  {
    match e
    case SelectCharacter(_) => st.screen == Home
    case SelectBehavior(_) => st.screen == Setup
    case Back => st.screen == Setup
    case EndSession => st.screen == Chat && st.behavior.Some?
  }

  /** Through the handlers the screens offer, the chat screen is only ever left for the home screen. */
  lemma ChatLeadsHome(st: AppState, e: Event)
    requires st.screen == Chat && Offered(st, e)
    ensures Apply(st, e).screen == Home && Apply(st, e).behavior.None? && Apply(st, e).character == st.character
  {
  }

  /** The full round: pick a character, pick a behavior, end the session; the character is kept, the behavior dropped. */
  lemma FullRound(characters: seq<Character>, c: Character, b: Behavior)
    requires |characters| > 0
    ensures Run(InitialState(characters), [SelectCharacter(c), SelectBehavior(b), EndSession]) == AppState(Home, c, None)
    ensures Run(InitialState(characters), [SelectCharacter(c), SelectBehavior(b)]) == AppState(Chat, c, Some(b))
  {
    var st0 := InitialState(characters);
    var st1 := Apply(st0, SelectCharacter(c));
    var st2 := Apply(st1, SelectBehavior(b));
    var st3 := Apply(st2, EndSession);
    assert Run(st2, [EndSession]) == st3 by { assert [EndSession][1..] == []; }
    assert [SelectCharacter(c), SelectBehavior(b), EndSession][1..] == [SelectBehavior(b), EndSession];
    assert [SelectBehavior(b), EndSession][1..] == [EndSession];
    assert Run(st1, [SelectBehavior(b)]) == st2 by { assert [SelectBehavior(b)][1..] == []; }
    assert [SelectCharacter(c), SelectBehavior(b)][1..] == [SelectBehavior(b)];
  }

  /** The App component's state variables and handlers. */
  class App {
    var currentScreen: Screen
    var selectedCharacter: Character
    var selectedBehavior: Option<Behavior>

    function State(): AppState
      reads this
    {
      AppState(currentScreen, selectedCharacter, selectedBehavior)
    }

    ghost predicate Valid()
      reads this
    {
      ChatHasBehavior(State())
    }

    constructor (characters: seq<Character>)
      requires |characters| > 0
      ensures State() == InitialState(characters) && Valid()
    {
      currentScreen := Home;
      selectedCharacter := characters[0];
      selectedBehavior := None;
    }

    method HandleCharacterSelect(character: Character)
      requires Valid()
      modifies this
      ensures Valid() && State() == Apply(old(State()), SelectCharacter(character))
    {
      selectedCharacter := character;
      currentScreen := Setup;
    }

    method HandleBehaviorSelect(behavior: Behavior)
      requires Valid()
      modifies this
      ensures Valid() && State() == Apply(old(State()), SelectBehavior(behavior))
    {
      selectedBehavior := Some(behavior);
      currentScreen := Chat;
    }

    method HandleBack()
      requires Valid()
      modifies this
      ensures Valid() && State() == Apply(old(State()), Back)
    {
      if currentScreen == Chat {
        currentScreen := Setup;
      } else if currentScreen == Setup {
        currentScreen := Home;
      }
    }

    method HandleEndSession()
      requires Valid()
      modifies this
      ensures Valid() && State() == Apply(old(State()), EndSession)
    {
      currentScreen := Home;
      selectedBehavior := None;
    }

    /** The screen component App renders now; there is exactly one. */
    method Render() returns (view: View)
      requires Valid()
      ensures [view] == Rendered(State())
    {
      match currentScreen
      case Home => view := HomeView;
      case Setup => view := SetupView(selectedCharacter);
      case Chat => view := ChatView(selectedCharacter, selectedBehavior.value);
    }
  }
}
