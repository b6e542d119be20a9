/** What a key means in each mode. */
module Keys {
  import opened Prelude

  datatype Mode = Normal | Focused | Search | ConfirmQuit | Quitting

  datatype Code =
    | Char(c: char)
    | Enter | Esc | Tab | BackTab | Backspace
    | Left | Right | Up | Down | PageUp | PageDown | Home | End
    | OtherCode

  /** `others` stands for any modifier besides shift and control. */
  datatype Mods = Mods(shift: bool, control: bool, others: bool)

  const NONE := Mods(false, false, false)
  const SHIFT := Mods(true, false, false)
  const CONTROL := Mods(false, true, false)

  datatype Key = Key(code: Code, mods: Mods)

  datatype UnfocusKey = UnfocusEsc | UnfocusChar(c: char) | UnfocusCtrl(c: char)

  datatype Amount = Line | FullPage

  datatype Action =
    | SelectTab(idx: nat) | NextTab | PrevTab
    | Focus | Unfocus
    | StartProcess | StopProcess | RestartProcess
    | ScrollUp(amount: Amount) | ScrollDown(amount: Amount) | ScrollToTop | ScrollToBottom
    | EnterSearch | SearchAccept | SearchCancel | SearchInput(c: char) | SearchBackspace | SearchFillPlaceholder
    | SearchNext | SearchPrev
    | ToggleHelp
    | Detach | Quit | ForceQuit | CancelQuit
    | ForwardKey(key: Key)

  function Resolve(key: Key, mode: Mode, unfocus: UnfocusKey): Option<Action> {
    match mode
    case Focused => Some(if IsUnfocus(key, unfocus) then Unfocus else ForwardKey(key))
    case Normal => ResolveNormal(key)
    case Search => ResolveSearch(key)
    case ConfirmQuit => Some(if key == Key(Char('y'), NONE) || key.code.Enter? then Quit else CancelQuit)
    case Quitting => if key == Key(Char('c'), CONTROL) then Some(ForceQuit) else None
  }

  predicate IsUnfocus(key: Key, unfocus: UnfocusKey) {
    match unfocus
    case UnfocusEsc => key == Key(Esc, NONE)
    case UnfocusChar(c) => key == Key(Char(c), NONE)
    case UnfocusCtrl(c) => key == Key(Char(c), CONTROL)
  }

  function ResolveSearch(key: Key): Option<Action> {
    if key == Key(Char('c'), CONTROL) then Some(SearchCancel)
    else if key.mods.(shift := false) != NONE then None
    else match key.code
      case Enter => Some(SearchAccept)
      case Esc => Some(SearchCancel)
      case Tab => Some(SearchFillPlaceholder)
      case Backspace => Some(SearchBackspace)
      case Char(c) => Some(SearchInput(c))
      case _ => None
  }

  function ResolveNormal(key: Key): Option<Action> {
    if key.mods != NONE then ResolveModified(key)
    else match key.code
      case Char(c) =>
        if '1' <= c <= '9' then Some(SelectTab((c - '1') as nat))
        else if c == 'l' then Some(NextTab)
        else if c == 'h' then Some(PrevTab)
        else if c == 'i' then Some(Focus)
        else if c == 's' then Some(StartProcess)
        else if c == 'x' then Some(StopProcess)
        else if c == 'r' then Some(RestartProcess)
        else if c == 'j' then Some(ScrollDown(Line))
        else if c == 'k' then Some(ScrollUp(Line))
        else if c == '/' then Some(EnterSearch)
        else if c == 'n' then Some(SearchNext)
        else if c == 'd' then Some(Detach)
        else if c == 'q' then Some(Quit)
        else if c == '?' then Some(ToggleHelp)
        else None
      case Right => Some(NextTab)
      case Tab => Some(NextTab)
      case Left => Some(PrevTab)
      case Enter => Some(Focus)
      case Down => Some(ScrollDown(Line))
      case Up => Some(ScrollUp(Line))
      case PageUp => Some(ScrollUp(FullPage))
      case PageDown => Some(ScrollDown(FullPage))
      case Home => Some(ScrollToTop)
      case End => Some(ScrollToBottom)
      case Esc => Some(SearchCancel)
      case _ => None
  }

  function ResolveModified(key: Key): Option<Action> {
    match key.code
    case Char(c) =>
      if key.mods == SHIFT then
        if c == 'Q' then Some(ForceQuit)
        else if c == 'N' then Some(SearchPrev)
        // Some terminals report ? with SHIFT, others without.
        else if c == '?' then Some(ToggleHelp)
        else None
      else if key.mods == CONTROL then
        if c == 'b' then Some(ScrollUp(FullPage))
        else if c == 'c' then Some(Quit)
        else if c == 'f' then Some(ScrollDown(FullPage))
        else None
      else None
    case BackTab => if key.mods == SHIFT then Some(PrevTab) else None
    case _ => None
  }

  /** The actions each mode's keys can lead to. */
  predicate Allowed(mode: Mode, action: Action) {
    match mode
    case Focused => action.Unfocus? || action.ForwardKey?
    case Search =>
      action.SearchAccept? || action.SearchCancel? || action.SearchInput?
      || action.SearchBackspace? || action.SearchFillPlaceholder?
    case ConfirmQuit => action.Quit? || action.CancelQuit?
    case Quitting => action.ForceQuit?
    case Normal =>
      !(action.Unfocus? || action.ForwardKey? || action.SearchAccept? || action.SearchInput?
        || action.SearchBackspace? || action.SearchFillPlaceholder? || action.CancelQuit?)
  }

  /**
   * No key leads out of its mode's actions: a search is accepted only in search
   * mode, processes are started and stopped only in normal mode, only a focused
   * process gets keys, and while quitting every key but ctrl-c is dead.
   */
  lemma KeysStayInMode(key: Key, mode: Mode, unfocus: UnfocusKey)
    ensures var r := Resolve(key, mode, unfocus);
      && (r.Some? ==> Allowed(mode, r.value))
      && (mode.Quitting? ==> (r.Some? <==> key == Key(Char('c'), CONTROL)))
      && (mode.Focused? || mode.ConfirmQuit? ==> r.Some?)
  {}

  function Plain(code: Code): Key { Key(code, NONE) }

  function Ctrl(c: char): Key { Key(Char(c), CONTROL) }

  function Shift(c: char): Key { Key(Char(c), SHIFT) }

  /**
   * The keys for each action of normal mode, as the help panel and the status bar
   * list them, and those they leave out: tab and shift-tab, escape to clear a
   * search, and ctrl-c.
   */
  function NormalKeys(action: Action): set<Key> {
    match action
    case NextTab => {Plain(Char('l')), Plain(Right), Plain(Tab)}
    case PrevTab => {Plain(Char('h')), Plain(Left), Key(BackTab, SHIFT)}
    case SelectTab(idx) => if idx < 9 then {Plain(Char('1' + idx as char))} else {}
    case ScrollDown(amount) =>
      if amount.Line? then {Plain(Char('j')), Plain(Down)} else {Ctrl('f'), Plain(PageDown)}
    case ScrollUp(amount) =>
      if amount.Line? then {Plain(Char('k')), Plain(Up)} else {Ctrl('b'), Plain(PageUp)}
    case ScrollToTop => {Plain(Home)}
    case ScrollToBottom => {Plain(End)}
    case Focus => {Plain(Char('i')), Plain(Enter)}
    case StartProcess => {Plain(Char('s'))}
    case StopProcess => {Plain(Char('x'))}
    case RestartProcess => {Plain(Char('r'))}
    case EnterSearch => {Plain(Char('/'))}
    case SearchNext => {Plain(Char('n'))}
    case SearchPrev => {Shift('N')}
    case SearchCancel => {Plain(Esc)}
    case Detach => {Plain(Char('d'))}
    case Quit => {Plain(Char('q')), Ctrl('c')}
    case ForceQuit => {Shift('Q')}
    case ToggleHelp => {Plain(Char('?')), Shift('?')}
    case _ => {}
  }

  /** Each action of normal mode has exactly the keys listed for it. */
  lemma NormalKeysIff(key: Key, action: Action, unfocus: UnfocusKey)
    ensures Resolve(key, Normal, unfocus) == Some(action) <==> key in NormalKeys(action)
  {
    if key.mods == NONE {
      PlainKeysIff(key.code, action);
    } else {
      ModifiedKeysIff(key, action);
    }
  }

  lemma PlainKeysIff(code: Code, action: Action)
    ensures ResolveNormal(Plain(code)) == Some(action) <==> Plain(code) in NormalKeys(action)
  {
    hide ResolveModified;
  }

  lemma ModifiedKeysIff(key: Key, action: Action)
    requires key.mods != NONE
    ensures ResolveModified(key) == Some(action) <==> key in NormalKeys(action)
  {}

  /** While a query is typed, shift makes no difference and other modifiers silence a key, but for ctrl-c. */
  lemma SearchKeysIff(key: Key, action: Action, unfocus: UnfocusKey)
    ensures Resolve(key, Search, unfocus) == Some(action) <==>
      if key == Ctrl('c') then action.SearchCancel?
      else
        (key.mods == NONE || key.mods == SHIFT) &&
        match action
        case SearchAccept => key.code.Enter?
        case SearchCancel => key.code.Esc?
        case SearchFillPlaceholder => key.code.Tab?
        case SearchBackspace => key.code.Backspace?
        case SearchInput(c) => key.code == Char(c)
        case _ => false
  {}

  /** To confirm quitting takes y or enter; every other key calls it off. */
  lemma ConfirmKeysIff(key: Key, unfocus: UnfocusKey)
    ensures Resolve(key, ConfirmQuit, unfocus)
      == Some(if key == Plain(Char('y')) || key.code.Enter? then Quit else CancelQuit)
  {}

  /** A focused process gets every key but its unfocus key, which by itself is escape, a letter, or ctrl and a letter. */
  lemma FocusedKeysIff(key: Key, unfocus: UnfocusKey)
    ensures Resolve(key, Focused, unfocus) == Some(Unfocus) <==>
      match unfocus
      case UnfocusEsc => key == Plain(Esc)
      case UnfocusChar(c) => key == Plain(Char(c))
      case UnfocusCtrl(c) => key == Ctrl(c)
    ensures Resolve(key, Focused, unfocus) != Some(Unfocus) ==> Resolve(key, Focused, unfocus) == Some(ForwardKey(key))
  {}
}
