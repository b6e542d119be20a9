/**
 * The App as the program has it: an object that owns its processes and changes
 * its fields in place. Every handler is proved to change the state as the
 * function of the same name says.
 */
module AppObject {
  import opened Prelude
  import opened Machine = App
  import opened Emulation
  import opened Search
  import opened Keys
  import Delivery
  import Process
  import Tabs
  import Terminal

  predicate IsTabAction(action: Action) {
    action.SelectTab? || action.NextTab? || action.PrevTab? || action.Unfocus? || action.CancelQuit?
  }

  predicate IsQueryAction(action: Action) {
    action.EnterSearch? || action.SearchInput? || action.SearchBackspace? || action.SearchFillPlaceholder?
  }

  predicate IsProcessAction(action: Action) {
    action.Focus? || action.StartProcess? || action.StopProcess? || action.RestartProcess? || action.ForwardKey?
  }

  predicate IsScrollAction(action: Action) {
    action.ScrollUp? || action.ScrollDown? || action.ScrollToTop? || action.ScrollToBottom?
  }

  predicate IsSearchAction(action: Action) {
    action.SearchAccept? || action.SearchCancel? || action.SearchNext? || action.SearchPrev?
  }

  function Widths(configs: seq<Process.Config>): seq<nat> {
    seq(|configs|, i requires 0 <= i < |configs| => configs[i].nameWidth)
  }

  class App {
    const env: Env
    const processes: seq<Process.Process>
    var selected: nat
    var mode: Mode
    var showHelp: bool
    var size: Delivery.Size
    var shouldQuit: bool
    var dirty: bool
    var search: SearchState
    var focused: bool
    var client: Option<Attached>
    var goodbyes: seq<Goodbye>

    function Procs(): (procs: seq<Proc>)
      reads processes
      ensures |procs| == |processes|
      ensures forall i :: 0 <= i < |processes| ==> procs[i] == processes[i].State()
    {
      seq(|processes|, i requires 0 <= i < |processes| reads processes => processes[i].State())
    }

    function State(): Machine.State
      reads this, processes
    {
      Machine.State.State(Procs(), selected, mode, showHelp, size, shouldQuit, dirty, search, focused, client, goodbyes)
    }

    function NameWidths(): (w: seq<nat>)
      ensures |w| == |processes|
    {
      seq(|processes|, i requires 0 <= i < |processes| => processes[i].config.nameWidth)
    }

    /** The processes are different objects, and the tab bar's width fits 16 bits. */
    ghost predicate Ready() {
      && (forall i, j :: 0 <= i < j < |processes| ==> processes[i] != processes[j])
      && Tabs.Sum(Tabs.Widths(NameWidths())) + 2 * Tabs.OVERFLOW_WIDTH <= Tabs.U16_MAX
    }

    ghost predicate Valid()
      reads this`selected
    {
      selected < |processes| && Ready()
    }

    /** Only process i changed. */
    twostate lemma OnlyProcess(i: nat)
      requires Valid() && i < |processes|
      requires forall j :: 0 <= j < |processes| && j != i ==> unchanged(processes[j])
      ensures Procs() == old(Procs())[i := processes[i].State()]
    {}

    constructor (configs: seq<Process.Config>, scrollback: seq<nat>, env: Env)
      requires 0 < |configs| == |scrollback|
      requires Tabs.Sum(Tabs.Widths(Widths(configs))) + 2 * Tabs.OVERFLOW_WIDTH <= Tabs.U16_MAX
      ensures Valid() && this.env == env && (forall p :: p in processes ==> fresh(p))
      ensures State() == NewState(configs, scrollback)
    {
      var created: seq<Process.Process> := [];
      for i := 0 to |configs|
        invariant |created| == i && (forall p :: p in created ==> fresh(p))
        invariant forall j, k :: 0 <= j < k < i ==> created[j] != created[k]
        invariant forall j :: 0 <= j < i ==> created[j].State() == Process.NewProc(configs[j], scrollback[j])
      {
        var p := new Process.Process(configs[i], scrollback[i]);
        created := created + [p];
      }
      this.env, processes := env, created;
      selected, mode, showHelp, size := 0, Normal, false, Delivery.Size(80, 24);
      shouldQuit, dirty, focused := false, true, true;
      search := SearchState([], [], [], None, 0);
      client, goodbyes := None, [];
      new;
      assert NameWidths() == Widths(configs);
    }

    /** The first thing a server does: it starts what is configured to start by itself. */
    method Start(moments: seq<Moment>)
      requires Valid() && |moments| == |processes|
      modifies processes
      ensures var a := ResizeProcs(old(State()), env); State() == a.(procs := Autostart(a.procs, moments, env))
    {
      hide ResizeProcs, Process.Proc.StartIfConfigured, Process.Process.State, Wf;
      ResizeProcesses();
      ghost var resized := State();
      for i := 0 to |processes|
        invariant forall j :: 0 <= j < i ==>
          processes[j].State() == resized.procs[j].StartIfConfigured(env.emulator, moments[j])
        invariant forall j :: i <= j < |processes| ==> processes[j].State() == resized.procs[j]
      {
        processes[i].StartIfConfigured(env.emulator, moments[i]);
      }
      assert Procs() == Autostart(resized.procs, moments, env);
    }

    /** Puts the selected process's terminal in another state. */
    method ChangeTerm(t: Process.Term)
      requires Valid()
      modifies processes[selected]
      ensures Valid() && State() == SetTerm(old(State()), t)
    {
      processes[selected].term := t;
      OnlyProcess(selected);
    }

    method ResizeProcesses()
      requires Valid()
      modifies processes
      ensures State() == Machine.ResizeProcs(old(State()), env)
    {
      hide Process.Proc.Resize;
      var bottom := if showHelp then env.helpHeight(size.cols) else 1;
      var viewportRows := SatSub(size.rows, 1 + bottom);
      for i := 0 to |processes|
        invariant forall j :: 0 <= j < i ==>
          processes[j].State() == old(processes[j].State()).Resize(env.emulator, viewportRows, size.cols)
        invariant forall j :: i <= j < |processes| ==> processes[j].State() == old(processes[j].State())
      {
        processes[i].Resize(env.emulator, viewportRows, size.cols);
      }
    }

    method SetSize(to: Delivery.Size)
      requires Valid()
      modifies this`size, processes
      ensures State() == Machine.SetSize(old(State()), env, to)
    {
      hide Ready, Procs, Wf, ResizeProcs, Process.Process.State;
      size := to;
      ResizeProcesses();
    }

    /** Drops what belongs to one client's view, so that the next one starts clean. */
    method ResetView()
      requires Valid()
      modifies this, processes
      ensures Valid() && State() == Machine.ResetView(old(State()))
    {
      hide Ready, Wf, SearchState.Clear, Terminal.Term.ScrollToBottom, Process.Proc.SyncPaused;
      if !mode.Quitting? {
        mode := Normal;
      }
      showHelp := false;
      search := search.Clear();
      focused := true;
      ScrollAllToBottom();
    }

    method ScrollAllToBottom()
      requires Valid()
      modifies processes
      ensures forall j :: 0 <= j < |processes| ==>
        var p := old(processes[j].State());
        processes[j].State() == p.(term := p.term.ScrollToBottom()).SyncPaused()
    {
      hide Terminal.Term.ScrollToBottom, Process.Proc.SyncPaused;
      for i := 0 to |processes|
        invariant forall j :: 0 <= j < i ==>
          var p := old(processes[j].State());
          processes[j].State() == p.(term := p.term.ScrollToBottom()).SyncPaused()
        invariant forall j :: i <= j < |processes| ==> processes[j].State() == old(processes[j].State())
      {
        processes[i].term := processes[i].term.ScrollToBottom();
        processes[i].SyncPaused();
      }
    }

    method DropClient()
      requires Valid()
      modifies this, processes
      ensures Valid() && State() == Machine.DropClient(old(State()))
    {
      hide Ready, Procs, Wf, Machine.ResetView, Process.Process.State;
      client := None;
      ResetView();
    }

    method RetainUnfinished()
      modifies this`goodbyes
      ensures goodbyes == Unfinished(old(goodbyes))
    {
      var kept: seq<Goodbye> := [];
      for i := 0 to |goodbyes|
        invariant kept == Unfinished(goodbyes[..i])
      {
        assert goodbyes[..i + 1][..i] == goodbyes[..i];
        if !goodbyes[i].session.sender.closed {
          kept := kept + [goodbyes[i]];
        }
      }
      assert goodbyes[..|goodbyes|] == goodbyes;
      goodbyes := kept;
    }

    method Detach()
      requires Valid()
      modifies this, processes
      ensures Valid() && State() == DetachClient(old(State()))
    {
      hide Ready, Machine.ResetView, Unfinished, Wf, Procs, Process.Process.State;
      if client.Some? {
        var leaving := client.value;
        client := None;
        RetainUnfinished();
        goodbyes := goodbyes + [Farewell(leaving, Delivery.Detached)];
      }
      ResetView();
    }

    method AllStopped() returns (all: bool)
      ensures all <==> Machine.AllStopped(State())
    {
      for i := 0 to |processes|
        invariant forall j :: 0 <= j < i ==> !processes[j].State().Live()
      {
        if processes[i].lifecycle.Running? || processes[i].lifecycle.Stopping? {
          return false;
        }
      }
      all := true;
    }

    method BeginQuit()
      requires Valid()
      modifies this, processes
      ensures Valid() && State() == Machine.BeginQuit(old(State()), env)
    {
      hide Machine.AllStopped, StopEverything;
      var stopped := AllStopped();
      if stopped {
        shouldQuit := true;
        return;
      }
      LeaveRunning();
    }

    method LeaveRunning()
      requires Valid()
      modifies this, processes
      ensures Valid() && State() == StopEverything(old(State()), env)
    {
      hide Ready, Machine.ResizeProcs, Machine.AllStopped, Machine.StopAll, Wf, Procs, Process.Process.State;
      mode := Quitting;
      showHelp := false;
      dirty := true;
      ghost var leaving := State();
      ResizeProcesses();
      ghost var resized := State();
      assert resized == Machine.ResizeProcs(leaving, env);
      StopAll();
      assert State() == resized.(procs := Machine.StopAll(resized.procs));
    }

    method StopAll()
      requires Valid()
      modifies processes
      ensures Procs() == Machine.StopAll(old(Procs()))
    {
      hide Process.Proc.Stop;
      for i := 0 to |processes|
        invariant forall j :: 0 <= j < i ==> processes[j].State() == old(processes[j].State()).Stop()
        invariant forall j :: i <= j < |processes| ==> processes[j].State() == old(processes[j].State())
      {
        processes[i].Stop();
      }
    }

    /** How many processes have not ended, for the status bar. */
    method RemainingCount() returns (n: nat)
      ensures n == LiveCount(State().procs)
    {
      n := 0;
      for i := 0 to |processes|
        invariant n == LiveCount(Procs()[..i])
      {
        assert Procs()[..i + 1][..i] == Procs()[..i];
        if processes[i].lifecycle.Running? || processes[i].lifecycle.Stopping? {
          n := n + 1;
        }
      }
      assert Procs()[..|processes|] == Procs();
    }

    method Select(idx: nat)
      requires Valid() && idx < |processes|
      modifies this`selected, this`search
      ensures Valid() && State() == Machine.SelectTab(old(State()), idx)
    {
      selected := idx;
      search := search.Clear();
    }

    method FillPlaceholder()
      modifies this`search
      ensures search == Placeholder(old(search))
    {
      if search.query == [] && search.lastQuery != [] {
        search := search.(query := search.lastQuery);
      }
    }

    /** Keeps the matches found and jumps to the last one not below the row after the view's last one. */
    method StoreMatches(matches: seq<MatchSpan>, totalRows: nat)
      requires Valid()
      modifies this`search, processes[selected]
      ensures Valid()
      ensures State() == Machine.StoreMatches(old(State()), matches, totalRows)
    {
      hide Ready, Terminal.Term.ScrollToRow, Terminal.Previous, Wf, Procs;
      var p := processes[selected];
      search := search.(matches := matches);
      if matches != [] {
        var visibleTop := SatSub(totalRows, p.term.vt.rows + Offset(p.term.vt));
        var visibleBottom := visibleTop + p.term.vt.rows;
        var last := LastAbove(visibleBottom + 1);
        var idx := if last.Some? then last.value else |matches| - 1;
        search := search.(current := Some(idx), from := selected);
        ChangeTerm(p.term.ScrollToRow(matches[idx].row));
      }
    }

    /** Searches everything for the query, if a program has not taken over the screen. */
    method FindEverywhere()
      requires Valid()
      modifies this`search, processes[selected]
      ensures Valid() && State() == Machine.FindEverywhere(old(State()), env)
    {
      hide Ready, Machine.StoreMatches, Terminal.Term.FindAll;
      var p := processes[selected];
      if p.term.vt.alt.None? {
        var (t, matches, totalRows) := p.term.FindAll(search.query, env.lower);
        ChangeTerm(t);
        StoreMatches(matches, totalRows);
      }
    }

    method AcceptSearch()
      requires Valid()
      modifies this, processes[selected]
      ensures Valid() && State() == Machine.AcceptSearch(old(State()), env)
    {
      hide Ready, Machine.FindEverywhere, Wf, Procs, Process.Process.State;
      FillPlaceholder();
      FindEverywhere();
      if search.query != [] {
        search := search.(lastQuery := search.query);
      }
      mode := Normal;
    }

    /** The first stored match strictly below a row. */
    method FirstBelow(row: nat) returns (r: Option<nat>)
      ensures r == Terminal.Next(search.matches, row)
    {
      hide Terminal.Next;
      for i := 0 to |search.matches|
        invariant forall j :: 0 <= j < i ==> search.matches[j].row <= row
      {
        if search.matches[i].row > row {
          return Some(i);
        }
      }
      r := None;
    }

    /** The last stored match strictly above a row. */
    method LastAbove(row: nat) returns (r: Option<nat>)
      ensures r == Terminal.Previous(search.matches, row)
    {
      hide Terminal.Previous;
      for i := |search.matches| downto 0
        invariant forall j :: i <= j < |search.matches| ==> search.matches[j].row >= row
      {
        if search.matches[i].row < row {
          return Some(i);
        }
      }
      r := None;
    }

    function VisibleCenter(): (row: nat)
      requires selected < |processes|
      reads this`selected, processes[selected]
      ensures row == Terminal.Center(processes[selected].State().term)
    {
      var t := processes[selected].term;
      SatSub(t.TotalRows(), Offset(t.vt) + t.vt.rows / 2)
    }

    method MatchFrom(row: nat, forward: bool) returns (r: Option<nat>)
      ensures r == if forward then Terminal.Next(search.matches, row) else Terminal.Previous(search.matches, row)
    {
      if forward {
        r := FirstBelow(row);
      } else {
        r := LastAbove(row);
      }
    }

    /** Goes to the next or previous match from the middle of the view, without wrapping around. */
    method SearchNavigate(forward: bool)
      requires Valid()
      modifies this`search, processes[selected]
      ensures Valid() && State() == Navigate(old(State()), forward)
    {
      hide Ready, Terminal.Term.ScrollToRow, Terminal.Next, Terminal.Previous, Terminal.Center, VisibleCenter, Wf, Procs;
      var p := processes[selected];
      if search.matches == [] || p.term.vt.alt.Some? {
        return;
      }
      var idx := MatchFrom(VisibleCenter(), forward);
      if idx.None? {
        return;
      }
      search := search.(current := idx);
      ChangeTerm(p.term.ScrollToRow(search.matches[idx.value].row));
    }

    method ScrollLines(amount: Amount) returns (n: nat)
      requires Valid()
      ensures n == Lines(State(), amount)
    {
      n := if amount.Line? then 1 else processes[selected].term.vt.rows;
    }

    method SyncSelected()
      requires Valid()
      modifies processes[selected]
      ensures Valid() && State() == SetSel(old(State()), Sel(old(State())).SyncPaused())
    {
      processes[selected].SyncPaused();
      OnlyProcess(selected);
    }

    /** Actions on tabs and the mode; they leave the processes alone. */
    method HandleTabAction(action: Action, m: Moment)
      requires Valid() && IsTabAction(action)
      modifies this
      ensures Valid() && State() == Machine.HandleAction(old(State()), action, env, m)
    {
      hide Ready, Procs, SearchState.Clear, Process.Process.State, Wf, ResizeProcs, DetachClient, Machine.BeginQuit;
      match action
      case SelectTab(idx) =>
        if idx < |processes| { Select(idx); }
      case NextTab => Select((selected + 1) % |processes|);
      case PrevTab => Select((selected + |processes| - 1) % |processes|);
      case Unfocus => mode := Normal;
      case CancelQuit => mode := Normal;
    }

    /** Actions on the query that is being typed. */
    method HandleQueryAction(action: Action, m: Moment)
      requires Valid() && IsQueryAction(action)
      modifies this
      ensures Valid() && State() == Machine.HandleAction(old(State()), action, env, m)
    {
      hide Ready, Procs, SearchState.Clear, Placeholder, Process.Process.State, Wf, ResizeProcs, DetachClient;
      match action
      case EnterSearch =>
        mode := Search;
        search := search.Clear();
      case SearchInput(c) => search := search.(query := search.query + [c]);
      case SearchBackspace =>
        if search.query != [] { search := search.(query := search.query[..|search.query| - 1]); }
      case SearchFillPlaceholder => FillPlaceholder();
    }

    /** Actions on the selected process. */
    method HandleProcessAction(action: Action, m: Moment)
      requires Valid() && IsProcessAction(action)
      modifies this, processes[selected]
      ensures Valid() && State() == Machine.HandleAction(old(State()), action, env, m)
    {
      hide Tabs.Sum, Procs, Process.Proc.Start, Process.Proc.Stop, Process.Proc.Restart, Process.Proc.Write;
      var p := processes[selected];
      match action {
        case Focus =>
          if p.lifecycle.Running? { mode := Focused; }
        case StartProcess => p.Start(env.emulator, m);
        case StopProcess => p.Stop();
        case RestartProcess =>
          var startNow := p.Restart();
          if startNow { p.Start(env.emulator, m); }
        case ForwardKey(key) => p.Write(env.emulator, env.keyBytes(key));
      }
      OnlyProcess(selected);
    }

    /** Actions that scroll the selected process's terminal. */
    method HandleScrollAction(action: Action, m: Moment)
      requires Valid() && IsScrollAction(action)
      modifies processes[selected]
      ensures Valid() && State() == Machine.HandleAction(old(State()), action, env, m)
    {
      hide Ready, Procs, SetTerm, Wf, Machine.AcceptSearch, Navigate;
      hide Terminal.Term.ScrollUp, Terminal.Term.ScrollDown, Terminal.Term.ScrollToBottom, Terminal.Term.ScrollToTop;
      var term := processes[selected].term;
      match action
      case ScrollUp(amount) =>
        var lines := ScrollLines(amount);
        ChangeTerm(term.ScrollUp(lines));
      case ScrollDown(amount) =>
        var lines := ScrollLines(amount);
        ChangeTerm(term.ScrollDown(lines));
      case ScrollToTop => ChangeTerm(term.ScrollToTop());
      case ScrollToBottom => ChangeTerm(term.ScrollToBottom());
    }

    /** Actions that search, or leave the search. */
    method HandleSearchAction(action: Action, m: Moment)
      requires Valid() && IsSearchAction(action)
      modifies this, processes[selected]
      ensures Valid() && State() == Machine.HandleAction(old(State()), action, env, m)
    {
      hide Ready, Procs, Machine.AcceptSearch, Navigate, SearchState.Clear, SetTerm, Wf, Terminal.Term.ScrollToBottom;
      hide Process.Process.State;
      match action
      case SearchAccept => AcceptSearch();
      case SearchCancel => CancelSearch();
      case SearchNext => SearchNavigate(true);
      case SearchPrev => SearchNavigate(false);
    }

    method CancelSearch()
      requires Valid()
      modifies this, processes[selected]
      ensures Valid()
      ensures var a := old(State());
        State() == SetTerm(a, Sel(a).term.ScrollToBottom()).(search := a.search.Clear(), mode := Normal)
    {
      hide Ready, Procs, SearchState.Clear, Terminal.Term.ScrollToBottom;
      search := search.Clear();
      ChangeTerm(processes[selected].term.ScrollToBottom());
      mode := Normal;
    }

    method HandleQuit()
      requires Valid()
      modifies this, processes
      ensures Valid()
      ensures var a := old(State());
        State() == if !Machine.AllStopped(a) && !a.mode.ConfirmQuit? then a.(mode := ConfirmQuit)
                   else Machine.BeginQuit(a, env)
    {
      hide Ready, Procs, Machine.BeginQuit, Machine.AllStopped, Process.Process.State, Wf;
      var stopped := AllStopped();
      if !stopped && !mode.ConfirmQuit? {
        mode := ConfirmQuit;
      } else {
        BeginQuit();
      }
    }

    method HandleForceQuit()
      requires Valid()
      modifies this, processes
      ensures Valid()
      ensures var a := old(State());
        State() == if a.mode.Quitting? then a.(shouldQuit := true) else Machine.BeginQuit(a, env)
    {
      hide Ready, Procs, Machine.BeginQuit, Process.Process.State, Wf;
      if mode.Quitting? {
        shouldQuit := true;
      } else {
        BeginQuit();
      }
    }

    /** Actions on the whole server. */
    method HandleServerAction(action: Action, m: Moment)
      requires Valid() && (action.Quit? || action.ForceQuit? || action.Detach? || action.ToggleHelp?)
      modifies this, processes
      ensures Valid() && State() == Machine.HandleAction(old(State()), action, env, m)
    {
      hide Ready, Procs, Machine.BeginQuit, DetachClient, ResizeProcs, Machine.AllStopped, Process.Process.State;
      hide Machine.AcceptSearch, Navigate, Machine.SelectTab, SetTerm, SetSel, Wf;
      match action
      case Quit => HandleQuit();
      case ForceQuit => HandleForceQuit();
      case Detach => Detach();
      case ToggleHelp => ToggleHelp();
    }

    method ToggleHelp()
      requires Valid()
      modifies this`showHelp, processes
      ensures Valid() && State() == ResizeProcs(old(State()).(showHelp := !old(showHelp)), env)
    {
      hide Ready, Procs, ResizeProcs, Process.Process.State;
      showHelp := !showHelp;
      ResizeProcesses();
    }

    method HandleAction(action: Action, m: Moment)
      requires Valid()
      modifies this, processes
      ensures Valid() && State() == Machine.HandleAction(old(State()), action, env, m)
    {
      hide Ready, Procs, Machine.HandleAction, Process.Process.State;
      if IsTabAction(action) {
        HandleTabAction(action, m);
      } else if IsQueryAction(action) {
        HandleQueryAction(action, m);
      } else if IsProcessAction(action) {
        HandleProcessAction(action, m);
      } else if IsScrollAction(action) {
        HandleScrollAction(action, m);
      } else if IsSearchAction(action) {
        HandleSearchAction(action, m);
      } else {
        HandleServerAction(action, m);
      }
    }

    /** A click on the tab bar selects the tab it hits. */
    method ClickTabBar(col: nat)
      requires Valid()
      modifies this
      ensures Valid()
      ensures var a := old(State());
        State() == match TabAt(a, col)
                   case Some(idx) => Machine.SelectTab(a, idx).(mode := if a.mode.Focused? then Normal else a.mode)
                   case None => a
    {
      assert Names(Procs()) == NameWidths();
      var hit := Tabs.TabIndexAtCol(NameWidths(), selected, size.cols, col);
      if hit.Some? {
        Select(hit.value);
        if mode.Focused? {
          mode := Normal;
        }
      }
    }

    method HandleCrosstermEvent(event: CtEvent, m: Moment)
      requires Valid()
      modifies this, processes
      ensures Valid() && State() == HandleCtEvent(old(State()), event, env, m)
    {
      hide Ready, Machine.HandleAction, TabAt, Resolve, Terminal.Term.ScrollUp, Terminal.Term.ScrollDown, Procs, Wf;
      var p := processes[selected];
      match event
      case KeyPress(key) =>
        var action := Resolve(key, mode, p.config.unfocus);
        if action.Some? {
          HandleAction(action.value, m);
        }
      case WheelUp => ChangeTerm(p.term.ScrollUp(MOUSE_SCROLL_LINES));
      case WheelDown => ChangeTerm(p.term.ScrollDown(MOUSE_SCROLL_LINES));
      case Click(row, col) =>
        if row == 0 {
          ClickTabBar(col);
        }
      case FocusGained => focused := true;
      case FocusLost => focused := false;
      case OtherEvent =>
    }

    method HandleClientMsg(msg: ClientMsg, m: Moment)
      requires Valid() && client.Some? && !client.value.session.said
      modifies this, processes
      ensures Valid() && State() == Machine.HandleClientMsg(old(State()), msg, env, m)
    {
      hide Ready, HandleCtEvent, Machine.SetSize, Delivery.Next, Process.Proc.SyncPaused, Process.Process.State, Procs, Wf;
      match msg {
        case Event(event) =>
          HandleCrosstermEvent(event, m);
          SyncSelected();
        case Resize(cols, rows) =>
          var to := Delivery.Size(cols, rows);
          client := Some(client.value.(session := Delivery.Next(client.value.session, Delivery.ResizeStep(to))));
          SetSize(to);
      }
      dirty := true;
    }

    method Attach(id: nat, to: Delivery.Size, screen: Delivery.Picture)
      requires Valid()
      modifies this, processes
      ensures Valid() && State() == AttachClient(old(State()), id, to, screen, env)
    {
      hide Ready, DetachClient, Machine.SetSize, Procs, Process.Process.State, Wf;
      Detach();
      SetSize(to);
      client := Some(Attached(id, Delivery.Start(to, screen)));
      dirty := true;
    }

    method HandleOutput(id: nat, data: Process.Bytes)
      requires Valid()
      modifies this, processes
      ensures Valid() && State() == Machine.HandleOutput(old(State()), id, data, env)
    {
      hide Tabs.Sum, Wf, Process.Process.State, Process.Proc.HandleOutput, Procs;
      var needsRender := id == selected;
      if id < |processes| {
        processes[id].HandleOutput(env.emulator, data);
        OnlyProcess(id);
      }
      dirty := dirty || needsRender;
    }

    method ExitProcess(p: Process.Process, status: Process.Status, m: Moment)
      modifies p
      ensures p.State() == old(p.State()).Exited(env.emulator, status, m)
    {
      hide Process.Proc.HandleExit, Process.Proc.Start, Process.Process.State;
      var again := p.HandleExit(status, m.now);
      if again {
        p.Start(env.emulator, m);
      }
    }

    method HandleExit(id: nat, status: Process.Status, m: Moment)
      requires Valid()
      modifies this, processes
      ensures Valid() && State() == Machine.HandleExit(old(State()), id, status, env, m)
    {
      hide Tabs.Sum, Wf, Process.Process.State, Process.Proc.Exited, Procs;
      if id < |processes| {
        ExitProcess(processes[id], status, m);
        OnlyProcess(id);
      }
      dirty := true;
    }

    /** Finds the visible matches to highlight. No tab changes, nor what the terminal shows. */
    method LookUpHighlights() returns (visible: seq<MatchSpan>)
      requires Valid() && Wf(State())
      modifies processes[selected]
      ensures Valid()
      ensures var (t, found) := Highlights(old(State()), env); State() == SetTerm(old(State()), t) && visible == found
    {
      hide Ready, Terminal.Term.FindVisible, Procs;
      visible := [];
      if search.query != [] && !mode.Search? {
        var (t, found) := processes[selected].term.FindVisible(search.query, env.lower);
        ChangeTerm(t);
        visible := found;
      }
    }

    /** Everything the frame is drawn from. */
    method RenderContext(visible: seq<MatchSpan>) returns (view: View)
      requires Valid()
      ensures var a := State();
        view == View(States(a.procs), Names(a.procs), selected, mode, showHelp, search.query, search.lastQuery,
                     search.current, |search.matches|, LiveCount(a.procs), Sel(a).term.vt, visible)
    {
      var remaining := RemainingCount();
      view := View(States(Procs()), Names(Procs()), selected, mode, showHelp, search.query, search.lastQuery,
                   search.current, |search.matches|, remaining, processes[selected].term.vt, visible);
    }

    /** Renders a frame, looking for matches only if the client is ready for one. */
    method Draw()
      requires Valid() && Wf(State()) && client.Some? && !client.value.session.said
      modifies this, processes
      ensures Valid() && State() == Machine.Draw(old(State()), env)
    {
      hide SetSession, Ready, Highlights, States, Names, LiveCount, Process.Process.State, Machine.DropClient, Delivery.Fill, Delivery.Next, Procs, Wf;
      var s := client.value.session;
      if |s.sender.queue| > 0 {
        return;
      }
      var visible := LookUpHighlights();
      var view := RenderContext(visible);
      SameTabs(old(State()), Highlights(old(State()), env).0, env);
      SendFrame(env.paint(view, s.sender.size));
    }

    /** Sends what was drawn; a client whose writer has ended is dropped. */
    method SendFrame(view: Delivery.Picture)
      requires Valid() && client.Some? && !client.value.session.said
      modifies this, processes
      ensures Valid()
      ensures var a := old(State()); var s := a.client.value.session;
        var b := SetSession(a, Delivery.Next(s, Delivery.DrawStep(view)));
        State() == if s.sender.Draw(view).1.Sent? then b.(dirty := false) else Machine.DropClient(b)
    {
      hide Ready, Procs, Wf, Machine.DropClient, Delivery.Next, Delivery.Sender.Draw, Process.Process.State;
      var s := client.value.session;
      client := Some(client.value.(session := Delivery.Next(s, Delivery.DrawStep(view))));
      if s.sender.Draw(view).1.Sent? {
        dirty := false;
      } else {
        DropClient();
      }
    }
  }

  /** Caching the highlights changes nothing that the rest of a view shows. */
  lemma SameTabs(a: Machine.State, t: Process.Term, env: Env)
    requires Wf(a)
    ensures var b := SetTerm(a, t);
      States(b.procs) == States(a.procs) && Names(b.procs) == Names(a.procs) && LiveCount(b.procs) == LiveCount(a.procs)
  {
    LiveCountUpdate(a.procs, a.selected, Sel(a).(term := t));
  }
}
