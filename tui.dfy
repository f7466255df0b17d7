/** The `tui` package: the containers table (table.go) and the controller
    that owns the current query and view and turns key events into provider
    calls and redraws (tui.go). Widgets are reduced to what the controller
    reads back: the table is a map from (row, column) to a cell, and the
    layout of the main flex is the `Mode`. */
module Tui {
  import opened Docker

  // ---------------------------------------------------------------------
  // table.go
  // ---------------------------------------------------------------------

  /** Text colours; `DefaultColour` is the toolkit's primary text colour. */
  datatype Colour = DefaultColour | Green | Red | Yellow

  datatype Cell = Cell(text: string, colour: Colour, selectable: bool)

  type Grid = map<(nat, nat), Cell>

  const Headings: seq<string> := ["Image", "Names", "Status", "Ports", "ID"]
  const Columns := 5
  /** The column the controller reads a container's id back from. */
  const IdColumn := 4

  /** `getColour` (tui.go): green for running, red for exited, yellow for
      everything else. */
  function GetColour(c: Container): (col: Colour)
    ensures col == Green <==> c.state == Running
    ensures col == Red <==> c.state == Exited
    ensures col == Yellow <==> c.state != Running && c.state != Exited
  {
    match c.state
    case Running => Green
    case Exited => Red
    case _ => Yellow
  }

  /** The state a row's colour stands for. */
  function ColourState(col: Colour): State
  {
    match col
    case Red => Exited
    case Yellow => Restarting
    case _ => Running
  }

  /** The colour tells the state apart: nothing about it is lost on screen. */
  lemma ColourShowsState(c: Container)
    ensures ColourState(GetColour(c)) == c.state
  {
  }

  /** The texts of a container's row, in column order. */
  function Fields(c: Container): seq<string>
  {
    [c.image, c.names, c.status, c.ports, c.id]
  }

  /** The cell `DrawTable` puts at (row, col): a non-selectable heading in
      row 0, the container's field in its own colour below. */
  function CellAt(cs: seq<Container>, row: nat, col: nat): Cell
    requires row <= |cs| && col < Columns
  {
    if row == 0 then Cell(Headings[col], DefaultColour, false)
    else Cell(Fields(cs[row - 1])[col], GetColour(cs[row - 1]), true)
  }

  /** The table after drawing `cs`: a heading row and one row per
      container, five columns, nothing else. */
  function Layout(cs: seq<Container>): Grid
  {
    map row: nat, col: nat | row <= |cs| && col < Columns :: (row, col) := CellAt(cs, row, col)
  }

  /** `GetCell(row, col).Text`: an absent cell reads as the empty text. */
  function TextAt(g: Grid, row: nat, col: nat): (t: string)
    ensures (row, col) in g ==> t == g[(row, col)].text
    ensures (row, col) !in g ==> t == ""
  {
    if (row, col) in g then g[(row, col)].text else ""
  }

  /** The heading row: Image, Names, Status, Ports, ID, none selectable. */
  lemma LayoutHeader(cs: seq<Container>, col: nat)
    requires col < Columns
    ensures (0, col) in Layout(cs)
    ensures Layout(cs)[(0, col)] == Cell(Headings[col], DefaultColour, false)
  {
  }

  /** Container i fills row i + 1, in column order, every cell selectable and
      in the container's colour; its id is in the id column. */
  lemma LayoutRow(cs: seq<Container>, i: nat, col: nat)
    requires i < |cs| && col < Columns
    ensures (i + 1, col) in Layout(cs)
    ensures Layout(cs)[(i + 1, col)] == Cell(Fields(cs[i])[col], GetColour(cs[i]), true)
    ensures TextAt(Layout(cs), i + 1, IdColumn) == cs[i].id
  {
  }

  /** Exactly rows 0..|cs| and columns 0..4 are populated. */
  lemma LayoutDomain(cs: seq<Container>, row: nat, col: nat)
    ensures (row, col) in Layout(cs) <==> row <= |cs| && col < Columns
  {
  }

  /** The record a table row displays, read back from its cells. */
  function ReadRow(g: Grid, row: nat): Container
  {
    var state := if (row, 0) in g then ColourState(g[(row, 0)].colour) else Running;
    Container(state, TextAt(g, row, 0), TextAt(g, row, 1), TextAt(g, row, 2),
              TextAt(g, row, 3), TextAt(g, row, 4))
  }

  /** Every drawn record can be read back from its row: the table shows all
      of it, in list order. */
  lemma LayoutReadBack(cs: seq<Container>, i: nat)
    requires i < |cs|
    ensures ReadRow(Layout(cs), i + 1) == cs[i]
  {
    var g := Layout(cs);
    forall col | 0 <= col < Columns
      ensures TextAt(g, i + 1, col) == Fields(cs[i])[col]
    {
      LayoutRow(cs, i, col);
    }
    LayoutRow(cs, i, 0);
    ColourShowsState(cs[i]);
  }

  /** Below the last container there is nothing: the id column reads as "". */
  lemma LayoutBelowIsEmpty(cs: seq<Container>, row: nat)
    requires row > |cs|
    ensures TextAt(Layout(cs), row, IdColumn) == ""
  {
    LayoutDomain(cs, row, IdColumn);
  }

  /** Whether `DrawTable` has reached cell k when it is about to set
      (row, col): all rows before `row`, and the first `col` cells of `row`. */
  predicate Before(k: (nat, nat), row: nat, col: nat)
  {
    k.0 < row || (k.0 == row && k.1 < col)
  }

  /** The cells of `g` that come before (row, col) in drawing order. */
  ghost function Restrict(g: Grid, row: nat, col: nat): Grid
  {
    map k | k in g && Before(k, row, col) :: g[k]
  }

  /** The cells drawn so far. */
  ghost function Drawn(cs: seq<Container>, row: nat, col: nat): Grid
  {
    Restrict(Layout(cs), row, col)
  }

  /** Setting the next cell of a grid extends the prefix by one cell. */
  lemma RestrictStep(g: Grid, row: nat, col: nat)
    requires (row, col) in g
    ensures Restrict(g, row, col)[(row, col) := g[(row, col)]] == Restrict(g, row, col + 1)
  {
    var a := Restrict(g, row, col)[(row, col) := g[(row, col)]];
    var b := Restrict(g, row, col + 1);
    assert a.Keys == b.Keys;
  }

  /** Setting cell (row, col) to its final content advances the drawn
      prefix by one cell. */
  lemma DrawnStep(cs: seq<Container>, row: nat, col: nat)
    requires row <= |cs| && col < Columns
    ensures Drawn(cs, row, col)[(row, col) := CellAt(cs, row, col)] == Drawn(cs, row, col + 1)
  {
    LayoutDomain(cs, row, col);
    RestrictStep(Layout(cs), row, col);
  }

  lemma DrawnNextRow(cs: seq<Container>, row: nat)
    ensures Drawn(cs, row, Columns) == Drawn(cs, row + 1, 0)
  {
    var a := Drawn(cs, row, Columns);
    var b := Drawn(cs, row + 1, 0);
    forall k | k in b
      ensures k in a
    {
      LayoutDomain(cs, k.0, k.1);
    }
  }

  lemma DrawnAll(cs: seq<Container>)
    ensures Drawn(cs, |cs| + 1, 0) == Layout(cs)
    ensures Drawn(cs, 0, 0) == map[]
  {
    var g := Layout(cs);
    forall k | k in g
      ensures Before(k, |cs| + 1, 0)
    {
      LayoutDomain(cs, k.0, k.1);
    }
    assert Drawn(cs, 0, 0).Keys == {};
  }

  /** The containers table widget. */
  class Table {
    var cells: Grid

    /** `NewContainersTable`: an empty table (styling is not modelled). */
    constructor ()
      ensures cells == map[]
    {
      cells := map[];
    }

    /** `GetCell(row, col).Text`. */
    function Text(row: nat, col: nat): (t: string)
      reads this
      ensures (row, col) in cells ==> t == cells[(row, col)].text
      ensures (row, col) !in cells ==> t == ""
    {
      TextAt(cells, row, col)
    }

    /** `Clear`: every cell is removed. */
    method Clear()
      modifies this
      ensures cells == map[]
    {
      cells := map[];
    }

    /** `SetCell`: one cell replaced or added, the others kept. */
    method SetCell(row: nat, col: nat, cell: Cell)
      modifies this
      ensures cells == old(cells)[(row, col) := cell]
    {
      cells := cells[(row, col) := cell];
    }

    /** `DrawTable`: clear, then the heading row, then one row per
      container. The result depends on `containers` alone, so no earlier
      cell survives and drawing the same list twice is drawing it once. */
    method DrawTable(containers: seq<Container>)
      modifies this
      ensures cells == Layout(containers)
    {
      Clear();
      DrawnAll(containers);
      var headings := Headings;
      for j := 0 to |headings|
        invariant cells == Drawn(containers, 0, j)
      {
        DrawnStep(containers, 0, j);
        SetCell(0, j, Cell(headings[j], DefaultColour, false));
      }
      DrawnNextRow(containers, 0);
      for i := 0 to |containers|
        invariant cells == Drawn(containers, i + 1, 0)
      {
        DrawRow(containers, i);
      }
    }

    /** The body of `DrawTable`'s container loop: row i + 1 gets the
      container's texts, in its colour. */
    method DrawRow(containers: seq<Container>, i: nat)
      requires i < |containers|
      requires cells == Drawn(containers, i + 1, 0)
      modifies this
      ensures cells == Drawn(containers, i + 2, 0)
    {
      var ctr := containers[i];
      var colour := GetColour(ctr);
      var data := [ctr.image, ctr.names, ctr.status, ctr.ports, ctr.id];
      for j := 0 to |data|
        invariant cells == Drawn(containers, i + 1, j)
      {
        DrawnStep(containers, i + 1, j);
        SetCell(i + 1, j, Cell(data[j], colour, true));
      }
      DrawnNextRow(containers, i + 1);
    }
  }

  // ---------------------------------------------------------------------
  // tui.go
  // ---------------------------------------------------------------------

  datatype Outcome = Pass | Fail(error: string)

  /** What the main flex holds and which widget has the focus:
      `Blank` nothing (cleared), `Listing` the table alone, `Searching` the
      search box (focused) over the table, `SearchResults` the same layout
      with the focus on the table, `ViewingLogs` a container's log view. */
  datatype Mode = Blank | Listing | Searching | SearchResults | ViewingLogs(id: string)

  /** A key event: a printable rune, or one of the keys the core reacts to. */
  datatype Key = Rune(ch: char) | Esc | Enter | CtrlL | OtherKey

  /** The start/stop decision on a freshly read state: running is stopped,
      exited is started, any other state is left alone. */
  function ToggleCalls(s: State, id: string): (calls: seq<Call>)
    ensures |calls| <= 1
    ensures calls == [Stop(id)] <==> s == Running
    ensures calls == [Start(id)] <==> s == Exited
    ensures calls == [] <==> s != Running && s != Exited
  {
    match s
    case Running => [Stop(id)]
    case Exited => [Start(id)]
    case _ => []
  }

  /** The zero value of `docker.Query`, which the global holds before the
      first `drawDefault`. */
  function ZeroQuery(): Query
  {
    Query(false, false, false, "", "", 0, "", "")
  }

  /** The application: the provider client, the results table, and the
      package globals `query` and (as `mode`) `mainFlex`. `pendingRefreshes`
      counts the delayed refreshes scheduled after a toggle and not yet run. */
  class Application {
    const cli: Client
    const table: Table
    var query: Query
    var mode: Mode
    var pendingRefreshes: nat

    /** Once drawn, the current query is always a search by name, the empty
        name standing for all containers. */
    ghost predicate Valid()
      reads this
    {
      query == QueryByName(query.name)
    }

    /** The application literal and `createUI`'s widgets, before the first
        draw. */
    constructor (cli: Client)
      ensures this.cli == cli && fresh(table) && table.cells == map[]
      ensures query == ZeroQuery() && mode == Blank && pendingRefreshes == 0
    {
      this.cli := cli;
      table := new Table();
      query := ZeroQuery();
      mode := Blank;
      pendingRefreshes := 0;
    }

    /** `NewTui`: build the application and draw the default view; an
        unreachable engine is reported as an error. */
    static method NewTui(cli: Client) returns (app: Application, out: Outcome)
      ensures fresh(app) && fresh(app.table) && app.cli == cli
      ensures out.Pass? <==> cli.reachable
      ensures out.Pass? ==> app.Valid() && app.query == QueryAll() && app.mode == Listing
      ensures out.Pass? ==> app.table.cells == Layout(cli.Shown(QueryAll()))
      ensures app.pendingRefreshes == 0
    {
      app := new Application(cli);
      out := app.DrawDefault();
    }

    /** `drawDefault`: clear the flex and the table, reset the query to all
        containers, list, then show the table. A provider error is returned
        with the flex and table already cleared and the query already reset. */
    method DrawDefault() returns (out: Outcome)
      modifies this`mode, this`query, table
      ensures query == QueryAll() && Valid()
      ensures out.Pass? <==> cli.reachable
      ensures out.Pass? ==> mode == Listing && table.cells == Layout(cli.Shown(QueryAll()))
      ensures out.Fail? ==> mode == Blank && table.cells == map[]
    {
      mode := Blank;
      table.Clear();
      query := QueryAll();
      var r := cli.GetAllByQuery(query);
      if r.Err? {
        return Fail(r.error);
      }
      mode := Listing;
      table.DrawTable(r.value);
      return Pass;
    }

    /** `drawSearch`: an empty search box above the table, with the focus. */
    method DrawSearch()
      modifies this`mode
      ensures mode == Searching
    {
      mode := Searching;
    }

    /** The search box's Enter handler: the query becomes a search by the
        box's text, and the table is redrawn from it. */
    method SubmitSearch(text: string) returns (out: Outcome)
      modifies this`mode, this`query, table
      ensures query == QueryByName(text) && Valid()
      ensures out.Pass? <==> cli.reachable
      ensures out.Pass? ==> mode == SearchResults && table.cells == Layout(cli.Shown(QueryByName(text)))
      ensures out.Fail? ==> mode == old(mode) && table.cells == old(table.cells)
    {
      query := QueryByName(text);
      var r := cli.GetAllByQuery(query);
      if r.Err? {
        return Fail(r.error);
      }
      table.DrawTable(r.value);
      mode := SearchResults;
      return Pass;
    }

    /** The table's Enter handler: read the id from the selected row, re-read
        that container from the provider, stop it if running, start it if
        exited, and schedule one delayed refresh. A failed lookup is
        returned before anything is sent or scheduled. */
    method Toggle(row: nat) returns (out: Outcome)
      modifies this`pendingRefreshes, cli`calls
      ensures var id := table.Text(row, IdColumn);
        var current := cli.Single(QueryById(id));
        && (out.Pass? <==> current.Ok?)
        && (current.Ok? ==>
              cli.calls == old(cli.calls) + ToggleCalls(current.value.state, id)
              && pendingRefreshes == old(pendingRefreshes) + 1)
        && (current.Err? ==>
              cli.calls == old(cli.calls) && pendingRefreshes == old(pendingRefreshes))
    {
      var id := table.Text(row, IdColumn);
      var r := cli.GetSingle(QueryById(id));
      if r.Err? {
        return Fail(r.error);
      }
      match r.value.state {
        case Running => cli.StopContainer(id);
        case Exited => cli.StartContainer(id);
        case Restarting =>
      }
      pendingRefreshes := pendingRefreshes + 1;
      return Pass;
    }

    /** The delayed refresh scheduled by `Toggle`, when it runs: it lists
        with the query current at that moment, not the one of the toggle. */
    method RunPendingRefresh() returns (out: Outcome)
      requires pendingRefreshes > 0
      modifies this`pendingRefreshes, table
      ensures pendingRefreshes == old(pendingRefreshes) - 1
      ensures out.Pass? <==> cli.reachable
      ensures out.Pass? ==> table.cells == Layout(cli.Shown(query))
      ensures out.Fail? ==> table.cells == old(table.cells)
    {
      pendingRefreshes := pendingRefreshes - 1;
      var r := cli.GetAllByQuery(query);
      if r.Err? {
        return Fail(r.error);
      }
      table.DrawTable(r.value);
      return Pass;
    }

    /** The table's Ctrl-L handler: the log view for the id in the selected
        row. */
    method ShowLogs(row: nat)
      modifies this`mode
      ensures mode == ViewingLogs(table.Text(row, IdColumn))
    {
      var id := table.Text(row, IdColumn);
      mode := ViewingLogs(id);
    }

    /** `Close`: the provider connection is released. */
    method Close()
      modifies cli`closed
      ensures cli.closed
    {
      cli.Close();
    }

    /** One key event. The flex's capture sees it first: '/' opens the search
        box and consumes the event; Esc draws the default view and lets the
        event through. The event then reaches the focused widget: the table
        in `Listing` and `SearchResults` (Enter toggles, Ctrl-L shows logs),
        the search box in `Searching` (Enter submits `text`). `row` is the
        table's selected row and `text` the search box's contents. */
    method HandleKey(key: Key, row: nat, text: string) returns (out: Outcome)
      requires Valid()
      modifies this, table, cli`calls
      ensures Valid()
      ensures key == Rune('/') ==>
        mode == Searching && out == Pass && query == old(query)
        && table.cells == old(table.cells) && cli.calls == old(cli.calls)
      ensures key == Esc ==>
        query == QueryAll() && (out.Pass? <==> cli.reachable) && cli.calls == old(cli.calls)
        && (out.Pass? ==> mode == Listing && table.cells == Layout(cli.Shown(QueryAll())))
        && (out.Fail? ==> mode == Blank && table.cells == map[])
      ensures key == Enter && old(mode) == Searching ==>
        query == QueryByName(text) && (out.Pass? <==> cli.reachable) && cli.calls == old(cli.calls)
        && (out.Pass? ==> mode == SearchResults && table.cells == Layout(cli.Shown(query)))
        && (out.Fail? ==> mode == old(mode) && table.cells == old(table.cells))
      ensures key == Enter && (old(mode) == Listing || old(mode) == SearchResults) ==>
        var id := old(table.Text(row, IdColumn));
        var current := cli.Single(QueryById(id));
        && query == old(query) && mode == old(mode) && table.cells == old(table.cells)
        && (out.Pass? <==> current.Ok?)
        && (current.Ok? ==>
              cli.calls == old(cli.calls) + ToggleCalls(current.value.state, id)
              && pendingRefreshes == old(pendingRefreshes) + 1)
        && (current.Err? ==> cli.calls == old(cli.calls) && pendingRefreshes == old(pendingRefreshes))
      ensures key == CtrlL && (old(mode) == Listing || old(mode) == SearchResults) ==>
        mode == ViewingLogs(old(table.Text(row, IdColumn))) && out == Pass
        && query == old(query) && table.cells == old(table.cells) && cli.calls == old(cli.calls)
      ensures !(key == Enter && (old(mode) == Listing || old(mode) == SearchResults)) ==>
        pendingRefreshes == old(pendingRefreshes) && cli.calls == old(cli.calls)
      ensures (key != Rune('/') && key != Esc
        && !(key == Enter && old(mode) != Blank && !old(mode).ViewingLogs?)
        && !(key == CtrlL && (old(mode) == Listing || old(mode) == SearchResults))) ==>
        out == Pass && mode == old(mode) && query == old(query)
        && table.cells == old(table.cells) && cli.calls == old(cli.calls)
      ensures key != Esc && !(key == Enter && old(mode) == Searching) ==> query == old(query)
    {
      if key == Rune('/') {
        DrawSearch();
        return Pass;
      }
      if key == Esc {
        out := DrawDefault();
        if out.Fail? {
          return;
        }
      }
      out := Pass;
      match mode {
        case Listing =>
          if key == Enter {
            out := Toggle(row);
          } else if key == CtrlL {
            ShowLogs(row);
          }
        case SearchResults =>
          if key == Enter {
            out := Toggle(row);
          } else if key == CtrlL {
            ShowLogs(row);
          }
        case Searching =>
          if key == Enter {
            out := SubmitSearch(text);
          }
        case Blank =>
        case ViewingLogs(_) =>
      }
    }
  }

  /** The id a toggle reads from row `row` of a table showing `cs`: the id of
      the container drawn there, and "" below the last row, where the lookup
      `QueryById("")` carries no filter at all and so finds the engine's
      first container. */
  lemma ToggleTarget(cs: seq<Container>, row: nat)
    ensures 1 <= row <= |cs| ==> TextAt(Layout(cs), row, IdColumn) == cs[row - 1].id
    ensures row > |cs| ==> QueryById(TextAt(Layout(cs), row, IdColumn)) == QueryAll()
  {
    if 1 <= row <= |cs| {
      LayoutRow(cs, row - 1, IdColumn);
    } else if row > |cs| {
      LayoutBelowIsEmpty(cs, row);
    }
  }
}
