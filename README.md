# wharf: a Dafny model of the container dashboard core

wharf is a terminal dashboard for the containers of a local Docker engine.
It lists every container in a table coloured by run state. It can search by
name, toggle a container between running and stopped, and show a
container's logs. This project models the parts of it that hold logic:

- `gostrings.dfy`, module `GoStrings`: the two Go library routines the
  display text is built with. These are `strings.Join` and `%d` on unsigned
  values.
- `docker.dfy`, module `Docker` (Go package `docker`):
  - the `Query` description and its translation `ParseQuery` into list
    options, whose filter arguments are a set of (key, value) pairs
    (query.go);
  - the display record `Container` and `parseContainer` with its port loop
    (docker.go);
  - the provider `Client` with the result-shaping loops of `GetAll`,
    `GetById` and `SearchByName`, plus the `GetAll(query)` and
    `GetSingle(query)` calls made by the controller.
- `tui.dfy`, module `Tui` (Go package `tui`):
  - the results table as a map from (row, column) to (text, colour,
    selectable), and `DrawTable` (table.go);
  - the application controller (tui.go). It owns the `query` global, the
    contents of the main flex (`mode`) and the table. It handles the key
    events, decides start or stop on a freshly re-read state, and records
    the delayed refresh it schedules.

The Docker engine is modelled by two fields of `Client`. `daemon` holds the
engine's containers in the order it lists them. `reachable` says whether
calls to the engine succeed. Listing keeps the containers the options
admit, in engine order:

- created, exited and dead containers only when `all` is set (paused and
  restarting containers count as running, as in the engine's default
  listing);
- a name filter when its value occurs in one of the names;
- an id filter when its value occurs in the id.

The engine matches filters as regular expressions; the model uses literal
substrings. Start and stop requests are recorded in the ghost log
`Client.calls`. A Go panic on a provider error becomes an error result
(`Result.Err` or `Outcome.Fail`). Side effects already made before the panic
stay in place.

Where one might expect otherwise, the model follows the code:

- **Unknown states.** An unrecognised state string, such as "created",
  "paused" or "dead", does not map to a separate "other" state. It leaves
  `State` at its zero value, and since the enum is declared with `iota` that
  value is `Running`. Such a container is shown green, and Enter on it sends
  a stop request.
- **Esc.** Esc from the search view resets the query to all containers
  (`drawDefault`). It does not keep the search query.
- **Provider errors.** A provider error in `drawDefault` comes after the
  flex and the table have already been cleared and the query reset.
- **Delayed refresh.** The refresh scheduled by a toggle reads the `query`
  global when it runs, after the delay. It does not use the query in force
  at the toggle.
- **Key routing.** The main flex's input capture sees every key first,
  including keys typed into the search box. So '/' typed while searching
  reopens an empty search box.

## Model

| member | source | states |
|---|---|---|
| GoStrings.JoinSnoc | internal/providers/docker/docker.go:117 | joining one more part adds the separator and that part at the end |
| GoStrings.JoinLength | internal/providers/docker/docker.go:136 | the joined text is as long as all parts plus one separator per neighbouring pair: nothing is dropped |
| GoStrings.Decimal | internal/providers/docker/docker.go:124-126 | `%d` of a port number is a non-empty string of decimal digits |
| GoStrings.DecimalRoundTrip | internal/providers/docker/docker.go:124-126 | reading the rendered digits back gives the port number |
| GoStrings.DecimalInjective | internal/providers/docker/docker.go:124-126 | distinct port numbers render differently |
| GoStrings.DecimalNoLeadingZero | internal/providers/docker/docker.go:124-126 | the rendering starts with '0' exactly when the number is zero |
| Docker.ParseQuery | internal/providers/docker/query.go:19-37 | a `("name", Name)` filter iff Name is non-empty and an `("id", Id)` filter iff Id is non-empty, both together possible, no other filter; Size, All, Latest, Since, Before and Limit copied |
| Docker.ParseQueryRoundTrip | internal/providers/docker/query.go:19-37 | the query can be read back from its list options: the translation loses nothing |
| Docker.ParseQueryInjective | internal/providers/docker/query.go:19-37 | two queries with the same options are the same query |
| Docker.QueryAll | internal/providers/docker/query.go:39-41 | All is set, no name or id, so the parsed filter set is empty |
| Docker.QueryById | internal/providers/docker/query.go:43-45 | All is set, Id is the argument, Name empty; for a non-empty id the filter set is exactly {("id", id)}; the empty id gives `QueryAll()` |
| Docker.QueryByName | internal/providers/docker/query.go:47-49 | All is set, Name is the argument, Id empty; for a non-empty name the filter set is exactly {("name", name)}; `QueryByName("")` is `QueryAll()` |
| Docker.ParseState | internal/providers/docker/docker.go:106-114 | "exited" gives Exited and "restarting" gives Restarting, both iff; every other string, "running" included, gives Running, the zero value of the `iota` enum; never fails |
| Docker.ParseStateRoundTrip | internal/providers/docker/docker.go:17-21 | each of the three states is recovered from the engine's word for it |
| Docker.FormatPort | internal/providers/docker/docker.go:122-127 | with a host IP the text is `IP:Public->Private/Type`, without one `Private/Type`, numbers in decimal; it always ends in `/Type` |
| Docker.FormatPortPrivateInjective | internal/providers/docker/docker.go:125-126 | two IP-less ports of one protocol are shown alike only when their private ports are equal |
| Docker.FormatPortIsNotElision | internal/providers/docker/docker.go:122-132 | a formatted port is never the elision marker "..." |
| Docker.PortSummary | internal/providers/docker/docker.go:120-133 | the closed form of the port loop: the first min(n, 3) entries are the ports formatted in order; n entries when n <= 3, else four with "..." last |
| Docker.FormatAll | internal/providers/docker/docker.go:121-128 | one formatted entry per port, in encounter order |
| Docker.PortSummaryElided | internal/providers/docker/docker.go:128-133 | the port list has at most four entries; it contains "..." iff there were more than three ports, and then "..." is the fourth entry |
| Docker.PortSummaryStep | internal/providers/docker/docker.go:128-133 | one loop step (append, then cut back to three plus "..." once over three) extends the summary of the ports read so far by the next port |
| Docker.ParseContainer | internal/providers/docker/docker.go:105-140 | the record is `Normalise(ctr)`: parsed state, Image, Status and ID copied, names joined with ", ", and ports joined with ", " from all formatted ports when at most three, else the first three and "..."; the loop keeps at most four entries |
| Docker.Normalise | internal/providers/docker/docker.go:105-140 | the closed form of `parseContainer`: state parsed, Image, Status and ID copied; no names give "" and no ports give "" |
| Docker.NormaliseNamesLength | internal/providers/docker/docker.go:117 | the names column is every name plus one ", " between neighbours, nothing more |
| Docker.NormalisePortsElided | internal/providers/docker/docker.go:128-136 | with more than three ports the column is the first three formatted ports joined, then ", ..." |
| Docker.NormaliseAll | internal/providers/docker/docker.go:50-55 | one record per raw container |
| Docker.NormaliseAllAt | internal/providers/docker/docker.go:50-55 | the record at position i is the normalisation of the raw container at position i |
| Docker.NormaliseAllSnoc | internal/providers/docker/docker.go:50-55 | normalising one more container appends exactly its record after the others |
| Docker.ParseAll | internal/providers/docker/docker.go:85-90 | the appending loop yields `NormaliseAll(listed)`: one record per listed container, in engine order |
| Docker.Admits | internal/providers/docker/docker.go:45 | what the engine's `ContainerList` admits: a listing without `all` never admits an exited container; with `all` and no filters it admits every container |
| Docker.ListedMembers | internal/providers/docker/docker.go:45 | a container is listed iff the engine holds it and the options admit it |
| Docker.Listed | internal/providers/docker/docker.go:45 | the engine lists only containers it holds that the options admit, never more than it holds |
| Docker.ListedComplete | internal/providers/docker/docker.go:45 | every container the options admit is listed |
| Docker.ListedCongruent | internal/providers/docker/docker.go:45 | options that admit the same containers give the same listing |
| Docker.AllOptionsIsQueryAll | internal/providers/docker/docker.go:45 | the options `GetAll()` lists with are what `QueryAll()` parses to |
| Docker.IdOptionsAgree | internal/providers/docker/docker.go:59-63 | `GetById(id)` and `GetSingle(QueryById(id))` list the same containers, also for the empty id |
| Docker.NameOptionsAgree | internal/providers/docker/docker.go:75-80 | `SearchByName(t)` and `GetAll(QueryByName(t))` list the same containers when every container has a name, also for the empty term |
| Docker.First | internal/providers/docker/docker.go:64-71 | a lookup succeeds iff the listing succeeded and is non-empty, and gives the first listed container normalised; a failed listing passes its own error on; a successful but empty listing fails with "no container found by that id" |
| Docker.Client.constructor | internal/providers/docker/docker.go:36-42 | a client for the given engine, with no start or stop request sent yet |
| Docker.Client.ContainerList | internal/providers/docker/docker.go:45 | the SDK's `ContainerList`: fails iff the engine is unreachable; otherwise lists exactly the held containers the options admit |
| Docker.Client.GetAll | internal/providers/docker/docker.go:44-56 | succeeds iff the engine is reachable; then gives one record per container, stopped ones included, in engine order |
| Docker.Client.GetById | internal/providers/docker/docker.go:58-72 | the first container the id filter admits, the not-found error when none does, the engine's "cannot connect" error when unreachable |
| Docker.Client.SearchByName | internal/providers/docker/docker.go:74-91 | succeeds iff the engine is reachable; then gives the containers whose names match the term, stopped ones included, in engine order |
| Docker.Client.GetAllByQuery | internal/tui/tui.go:122 | succeeds iff the engine is reachable; then gives the normalised containers the parsed query admits, in engine order |
| Docker.Client.GetSingle | internal/tui/tui.go:80 | the first container the parsed query admits, normalised, or the not-found error, with the shape of `GetById` |
| Docker.Client.StartContainer | internal/providers/docker/docker.go:93-95 | exactly one start request for the id is sent; nothing else changes |
| Docker.Client.StopContainer | internal/providers/docker/docker.go:97-99 | exactly one stop request for the id is sent; nothing else changes |
| Docker.Client.Close | internal/providers/docker/docker.go:101-103 | the connection to the engine is marked released |
| Tui.GetColour | internal/tui/tui.go:189-198 | green iff running, red iff exited, yellow iff any other state |
| Tui.ColourShowsState | internal/tui/tui.go:189-198 | the colour of a row determines the container's state |
| Tui.TextAt | internal/tui/tui.go:79 | `GetCell(row, col).Text`: the text of the cell when it exists, the empty text for an absent cell |
| Tui.LayoutHeader | internal/tui/table.go:25-28 | row 0 holds Image, Names, Status, Ports and ID in columns 0-4, none selectable |
| Tui.LayoutRow | internal/tui/table.go:30-35 | container i fills row i+1 with Image, Names, Status, Ports, ID in that order, every cell selectable and in the container's colour; cell (i+1, 4) holds its id |
| Tui.LayoutDomain | internal/tui/table.go:23-35 | exactly rows 0..len(containers) and columns 0..4 are populated |
| Tui.LayoutReadBack | internal/tui/table.go:30-35 | every drawn record can be read back from its row (texts and, through the colour, the state) |
| Tui.LayoutBelowIsEmpty | internal/tui/table.go:23 | below the last container row the id column reads as the empty text |
| Tui.Table.constructor | internal/tui/table.go:12-20 | a new table has no cells |
| Tui.Table.Text | internal/tui/tui.go:101 | the table's `GetCell(row, col).Text`: the cell's text, or "" when the cell is absent |
| Tui.Table.Clear | internal/tui/table.go:23 | every cell is removed |
| Tui.Table.SetCell | internal/tui/table.go:27 | one cell is set and all others are kept |
| Tui.Table.DrawTable | internal/tui/table.go:22-37 | the cells afterwards are exactly `Layout(containers)`: independent of the earlier cells, so none survives and drawing twice equals drawing once |
| Tui.Table.DrawRow | internal/tui/table.go:30-35 | one pass of the container loop adds exactly row i+1 |
| Tui.ToggleCalls | internal/tui/tui.go:84-89 | running gives exactly a stop, exited exactly a start, any other state neither |
| Tui.ToggleTarget | internal/tui/tui.go:78-80 | the id read from row r is the id of container r-1; below the last row it is "", and `QueryById("")` carries no filter at all |
| Tui.Application.constructor | internal/tui/tui.go:36-40 | before the first draw the query is the zero `Query`, the flex is empty and no refresh is pending |
| Tui.Application.NewTui | internal/tui/tui.go:25-47 | fails iff the engine is unreachable; otherwise the query is `QueryAll()` and the table shows every container |
| Tui.Application.DrawDefault | internal/tui/tui.go:117-132 | the query becomes `QueryAll()` in every case; on success the table shows all containers; on a provider error the flex and table are left cleared |
| Tui.Application.DrawSearch | internal/tui/tui.go:134-167 | the search box is shown with the focus; query and table unchanged |
| Tui.Application.SubmitSearch | internal/tui/tui.go:146-156 | the query becomes `QueryByName(text)`; on success the table shows what that query lists and the focus moves to the table; on error the table is unchanged |
| Tui.Application.Toggle | internal/tui/tui.go:77-98 | the container whose id is in column 4 of the selected row is re-read from the provider; the start/stop decision is `ToggleCalls` on that fresh state; exactly one refresh is scheduled; a failed lookup sends nothing and schedules nothing |
| Tui.Application.RunPendingRefresh | internal/tui/tui.go:90-98 | one pending refresh is consumed and the table shows what the query current at that moment lists |
| Tui.Application.ShowLogs | internal/tui/tui.go:99-102 | the log view opens for the id in column 4 of the selected row |
| Tui.Application.HandleKey | internal/tui/tui.go:56-105 | '/' opens the search box; Esc resets to all containers; Enter submits a search or toggles the selected row, depending on the focus; Ctrl-L opens the logs; only a toggle sends a start or stop request or schedules a refresh; a failed Esc leaves the flex and table cleared; a failed search submit keeps the mode and the table; any other key changes nothing; the query stays a search by name |
| Tui.Application.Close | internal/tui/tui.go:49-51 | the provider connection is closed |

## Left out

- The log text. `drawLogs` reads the engine's log stream and demultiplexes
  stdout and stderr (internal/tui/tui.go:169-187). That is I/O and a
  foreign library. The model records only that the log view shows the
  given id. `GetContainerLogs` and its error are not modelled.
- The delayed refresh's concurrency. The goroutine sleeps 500 ms and then
  redraws from a second thread. The model keeps a counter of scheduled
  refreshes, and `RunPendingRefresh` runs one of them. Timing, interleaving
  with key handling, and races between concurrent redraws are not modelled.
- Widget geometry, focus order beyond which widget receives keys, mouse
  support, themes and styles. Colours are an enum. The table's selected row
  and the search box's text are toolkit state: they are passed to the
  handlers as parameters.
- How the engine reacts to start and stop requests. Requests are only
  recorded, and the engine's containers do not change state.
- Filter matching. The engine's regular-expression matching is modelled as
  literal substring matching. The pagination fields Latest, Since, Before,
  Limit and Size are passed through `ParseQuery`, but the engine model
  ignores them when listing.
- Process start-up and shutdown in cmd/cli/main.go. Creating the SDK client
  (`NewClient`) is reduced to constructing `Client` from an engine state.
