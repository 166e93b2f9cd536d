/** The searchable drop-down of `src/components/menus/select-menu.tsx`: which
    options are listed, and how `isOpen`, `searchQuery` and `focusedIndex` react
    to the keyboard, to a click on an option, to typing and to opening and
    closing. */
module SelectMenu {
  import opened Common
  import opened JsString

  datatype SelectOption = SelectOption(value: string, labelText: string, disabled: bool)

  /** The props that decide what the menu lists and whether it can open. */
  datatype MenuProps = MenuProps(options: seq<SelectOption>, searchable: bool, disabled: bool, value: string)

  /** The component's three state variables. */
  datatype MenuState = MenuState(isOpen: bool, searchQuery: string, focusedIndex: int)

  /** The state on mount, and after every close. */
  const Closed := MenuState(false, "", -1)

  datatype Key = ArrowDown | ArrowUp | Enter | Escape | OtherKey

  /** The next state, and the value passed to `onChange` if it was called. */
  datatype Step = Step(state: MenuState, emitted: Option<string>)

  /** `option.label.toLowerCase().includes(searchQuery.toLowerCase())`. */
  function LabelMatches(o: SelectOption, query: string): (b: bool)
    ensures b <==> exists i :: OccursAt(ToLower(o.labelText), ToLower(query), i)
    ensures query == [] ==> b
  {
    Includes(ToLower(o.labelText), ToLower(query))
  }

  /** `filteredOptions`. */
  function FilteredOptions(options: seq<SelectOption>, searchable: bool, query: string): (r: seq<SelectOption>)
    ensures |r| <= |options|
    ensures !searchable || query == [] ==> r == options
    ensures searchable && query != [] ==> forall o :: o in r <==> o in options && LabelMatches(o, query)
  {
    if searchable && query != [] then Filter((o: SelectOption) => LabelMatches(o, query), options)
    else options
  }

  /** The filtered list keeps the options' order. */
  lemma FilteredKeepsOrder(a: seq<SelectOption>, b: seq<SelectOption>, searchable: bool, query: string)
    ensures FilteredOptions(a + b, searchable, query) ==
              FilteredOptions(a, searchable, query) + FilteredOptions(b, searchable, query)
  {
    if searchable && query != [] {
      FilterConcat((o: SelectOption) => LabelMatches(o, query), a, b);
    }
  }

  /** The search ignores the case of ASCII letters: two queries that lower-case
      alike list the same options. */
  lemma SearchIgnoresCase(options: seq<SelectOption>, searchable: bool, q1: string, q2: string)
    requires ToLower(q1) == ToLower(q2)
    ensures FilteredOptions(options, searchable, q1) == FilteredOptions(options, searchable, q2)
  {
    assert |q1| == |q2|;
    FilterExtensional((o: SelectOption) => LabelMatches(o, q1), (o: SelectOption) => LabelMatches(o, q2), options);
  }

  /** `selectedOption`: the first option whose value is the current `value`. */
  function SelectedOption(p: MenuProps): (r: Option<SelectOption>)
    ensures r.None? <==> forall o :: o in p.options ==> o.value != p.value
    ensures r.Some? ==> exists i :: 0 <= i < |p.options| && p.options[i] == r.value && r.value.value == p.value &&
                          forall j :: 0 <= j < i ==> p.options[j].value != p.value
  {
    Find((o: SelectOption) => o.value == p.value, p.options)
  }

  /** `focusedIndex` after ArrowDown over `n` listed options. */
  function NextFocusDown(prev: int, n: nat): (r: int)
    ensures n > 0 && -1 <= prev < n ==> 0 <= r < n
    ensures prev >= n - 1 ==> r == 0
    ensures -1 <= prev < n - 1 ==> r == prev + 1
  {
    if prev < n - 1 then prev + 1 else 0
  }

  /** `focusedIndex` after ArrowUp over `n` listed options. */
  function NextFocusUp(prev: int, n: nat): (r: int)
    ensures n > 0 && -1 <= prev < n ==> 0 <= r < n
    ensures prev == -1 || prev == 0 ==> r == n - 1
    ensures 0 < prev ==> r == prev - 1
  {
    if prev > 0 then prev - 1 else n - 1
  }

  /** ArrowUp undoes ArrowDown, and ArrowDown undoes ArrowUp, on a focused option. */
  lemma ArrowKeysAreInverse(i: int, n: nat)
    requires 0 <= i < n
    ensures NextFocusUp(NextFocusDown(i, n), n) == i
    ensures NextFocusDown(NextFocusUp(i, n), n) == i
  {
  }

  /** `k` ArrowDown presses in a row. */
  function PressDown(prev: int, n: nat, k: nat): int {
    if k == 0 then prev else NextFocusDown(PressDown(prev, n, k - 1), n)
  }

  /** Pressing ArrowDown `a` times and then `b` times is pressing it `a + b` times. */
  lemma {:induction false} PressDownAdds(i: int, n: nat, a: nat, b: nat)
    ensures PressDown(i, n, a + b) == PressDown(PressDown(i, n, a), n, b)
  {
    if b > 0 {
      PressDownAdds(i, n, a, b - 1);
    }
  }

  /** Below the last option, `k` presses of ArrowDown move the focus down by `k`. */
  lemma {:induction false} PressDownAdvances(i: int, n: nat, k: nat)
    requires -1 <= i && i + k < n
    ensures PressDown(i, n, k) == i + k
  {
    if k > 0 {
      PressDownAdvances(i, n, k - 1);
    }
  }

  /** ArrowDown cycles through the listed options: `n` presses from a focused
      option come back to it. */
  lemma PressDownCycles(i: int, n: nat)
    requires 0 <= i < n
    ensures PressDown(i, n, n) == i
  {
    PressDownAdvances(i, n, n - 1 - i);
    PressDownAdds(i, n, n - 1 - i, i + 1);
    PressDownAdds(n - 1, n, 1, i);
    assert PressDown(n - 1, n, 1) == 0;
    PressDownAdvances(0, n, i);
  }

  /** The listed options for a state. */
  function Filtered(p: MenuProps, s: MenuState): seq<SelectOption> {
    FilteredOptions(p.options, p.searchable, s.searchQuery)
  }

  /** The `handleKeyDown` listener. It is attached only while the menu is open.
      While a text input (the search input) has the focus, ArrowDown and ArrowUp jump to the
      first and last option and every other key is left to the input. */
  function OnKeyDown(p: MenuProps, s: MenuState, key: Key, inSearchInput: bool): (o: Step)
    ensures !s.isOpen ==> o == Step(s, None)
    ensures o.emitted.Some? <==>
              s.isOpen && !inSearchInput && key == Enter &&
              0 <= s.focusedIndex < |Filtered(p, s)| && !Filtered(p, s)[s.focusedIndex].disabled
    ensures o.emitted.Some? ==>
              o.state == Closed && o.emitted.value == Filtered(p, s)[s.focusedIndex].value
    ensures key == Enter && o.emitted.None? ==> o.state == s
    ensures s.isOpen && !inSearchInput && key == Escape ==> o == Step(Closed, None)
    ensures (inSearchInput && key in {Enter, Escape}) || key == OtherKey ==> o == Step(s, None)
    ensures key in {ArrowDown, ArrowUp} ==> o.emitted.None? && o.state == s.(focusedIndex := o.state.focusedIndex)
    ensures s.isOpen && key == ArrowDown ==>
              o.state.focusedIndex == if inSearchInput then 0 else NextFocusDown(s.focusedIndex, |Filtered(p, s)|)
    ensures s.isOpen && key == ArrowUp ==>
              o.state.focusedIndex == if inSearchInput then |Filtered(p, s)| - 1 else NextFocusUp(s.focusedIndex, |Filtered(p, s)|)
  {
    var filtered := Filtered(p, s);
    var n := |filtered|;
    if !s.isOpen then Step(s, None)
    else if inSearchInput then
      match key
      case ArrowDown => Step(s.(focusedIndex := 0), None)
      case ArrowUp => Step(s.(focusedIndex := n - 1), None)
      case _ => Step(s, None)
    else
      match key
      case ArrowDown => Step(s.(focusedIndex := NextFocusDown(s.focusedIndex, n)), None)
      case ArrowUp => Step(s.(focusedIndex := NextFocusUp(s.focusedIndex, n)), None)
      case Enter =>
        if 0 <= s.focusedIndex < n && !filtered[s.focusedIndex].disabled
        then Step(Closed, Some(filtered[s.focusedIndex].value))
        else Step(s, None)
      case Escape => Step(Closed, None)
      case OtherKey => Step(s, None)
  }

  /** `handleSelect(option)`: a click on an option. */
  function OnSelect(s: MenuState, option: SelectOption): (o: Step)
    ensures option.disabled ==> o == Step(s, None)
    ensures !option.disabled ==> o == Step(Closed, Some(option.value))
  {
    if option.disabled then Step(s, None) else Step(Closed, Some(option.value))
  }

  /** `handleSearchChange`: typing replaces the query and drops the focus. */
  function OnSearchChange(s: MenuState, text: string): (r: MenuState)
    ensures r.isOpen == s.isOpen && r.searchQuery == text && r.focusedIndex == -1
  {
    s.(searchQuery := text, focusedIndex := -1)
  }

  /** `clearSearch`: the query is emptied; the focus is left alone. */
  function OnClearSearch(s: MenuState): (r: MenuState)
    ensures r.isOpen == s.isOpen && r.searchQuery == "" && r.focusedIndex == s.focusedIndex
  {
    s.(searchQuery := "")
  }

  /** `setIsOpen(open)` followed by the effect that runs when `isOpen` becomes
      false: closing always clears the query and the focus. */
  function SetOpen(s: MenuState, open: bool): (r: MenuState)
    ensures r.isOpen == open
    ensures !open ==> r == Closed
    ensures open ==> r.searchQuery == s.searchQuery && r.focusedIndex == s.focusedIndex
  {
    if open then s.(isOpen := true) else Closed
  }

  /** The toggle button: `!disabled && setIsOpen(!isOpen)`. */
  function OnToggle(p: MenuProps, s: MenuState): (r: MenuState)
    ensures p.disabled ==> r == s
    ensures !p.disabled ==> r == SetOpen(s, !s.isOpen)
  {
    if p.disabled then s else SetOpen(s, !s.isOpen)
  }

  /** The states the menu can be in: closed means no query and no focus, and
      the focus is -1, a listed option, or 0 over an empty list (where an
      ArrowDown from -1 leaves it). */
  predicate MenuValid(p: MenuProps, s: MenuState) {
    && (!s.isOpen ==> s.searchQuery == "" && s.focusedIndex == -1)
    && -1 <= s.focusedIndex
    && (s.focusedIndex < |Filtered(p, s)| || s.focusedIndex == 0)
  }

  /** Every transition keeps the menu in a valid state; a disabled menu never opens. */
  lemma TransitionsPreserveValid(p: MenuProps, s: MenuState, key: Key, inSearchInput: bool,
                                 option: SelectOption, text: string)
    requires MenuValid(p, s)
    ensures MenuValid(p, Closed)
    ensures MenuValid(p, OnKeyDown(p, s, key, inSearchInput).state)
    ensures MenuValid(p, OnSelect(s, option).state)
    ensures s.isOpen ==> MenuValid(p, OnSearchChange(s, text))
    ensures s.isOpen ==> MenuValid(p, OnClearSearch(s))
    ensures MenuValid(p, OnToggle(p, s))
    ensures p.disabled && !s.isOpen ==> !OnToggle(p, s).isOpen
  {
    assert |Filtered(p, OnClearSearch(s))| == |p.options| >= |Filtered(p, s)|;
  }

  /** The component: the props are fixed, the three state variables change. */
  class Menu {
    const props: MenuProps
    var isOpen: bool
    var searchQuery: string
    var focusedIndex: int

    function State(): MenuState
      reads this
    {
      MenuState(isOpen, searchQuery, focusedIndex)
    }

    ghost predicate Valid()
      reads this
    {
      MenuValid(props, State())
    }

    constructor (props: MenuProps)
      ensures this.props == props && State() == Closed && Valid()
    {
      this.props := props;
      isOpen := false;
      searchQuery := "";
      focusedIndex := -1;
    }

    /** The keyboard listener; `onChange` receives `emitted` when it is `Some`. */
    method KeyDown(key: Key, inSearchInput: bool) returns (emitted: Option<string>)
      requires Valid()
      modifies this
      ensures Valid()
      ensures State() == OnKeyDown(props, old(State()), key, inSearchInput).state
      ensures emitted == OnKeyDown(props, old(State()), key, inSearchInput).emitted
    {
      TransitionsPreserveValid(props, State(), key, inSearchInput, SelectOption("", "", true), "");
      emitted := None;
      if !isOpen {
        return;
      }
      var filtered := FilteredOptions(props.options, props.searchable, searchQuery);
      if inSearchInput {
        if key == ArrowDown {
          focusedIndex := 0;
        } else if key == ArrowUp {
          focusedIndex := |filtered| - 1;
        }
        return;
      }
      match key {
        case ArrowDown =>
          focusedIndex := if focusedIndex < |filtered| - 1 then focusedIndex + 1 else 0;
        case ArrowUp =>
          focusedIndex := if focusedIndex > 0 then focusedIndex - 1 else |filtered| - 1;
        case Enter =>
          if 0 <= focusedIndex < |filtered| {
            var option := filtered[focusedIndex];
            if !option.disabled {
              emitted := Some(option.value);
              isOpen, searchQuery, focusedIndex := false, "", -1;
            }
          }
        case Escape =>
          isOpen, searchQuery, focusedIndex := false, "", -1;
        case OtherKey =>
      }
    }

    /** A click on a listed option. */
    method Select(option: SelectOption) returns (emitted: Option<string>)
      requires Valid()
      modifies this
      ensures Valid()
      ensures State() == OnSelect(old(State()), option).state
      ensures emitted == OnSelect(old(State()), option).emitted
    {
      emitted := None;
      if option.disabled {
        return;
      }
      emitted := Some(option.value);
      isOpen, searchQuery, focusedIndex := false, "", -1;
    }

    /** Typing in the search input, which is shown only while the menu is open. */
    method SearchChange(text: string)
      requires Valid() && isOpen
      modifies this
      ensures Valid()
      ensures State() == OnSearchChange(old(State()), text)
    {
      TransitionsPreserveValid(props, State(), OtherKey, false, SelectOption("", "", true), text);
      searchQuery := text;
      focusedIndex := -1;
    }

    /** The clear button inside the search input. */
    method ClearSearch()
      requires Valid() && isOpen
      modifies this
      ensures Valid()
      ensures State() == OnClearSearch(old(State()))
    {
      TransitionsPreserveValid(props, State(), OtherKey, false, SelectOption("", "", true), "");
      searchQuery := "";
    }

    /** The toggle button, followed by the close effect when it closes the menu. */
    method Toggle()
      requires Valid()
      modifies this
      ensures Valid()
      ensures State() == OnToggle(props, old(State()))
    {
      if props.disabled {
        return;
      }
      isOpen := !isOpen;
      if !isOpen {
        searchQuery := "";
        focusedIndex := -1;
      }
    }

    /** A click on the backdrop or outside the menu. */
    method Close()
      requires Valid()
      modifies this
      ensures Valid()
      ensures State() == SetOpen(old(State()), false)
    {
      isOpen := false;
      searchQuery := "";
      focusedIndex := -1;
    }
  }
}
