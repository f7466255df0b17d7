/** The `docker` provider package: the query description and its translation
    into list options (query.go), and the normalisation of the engine's raw
    container records into display records (docker.go). The Docker engine
    itself is modelled by the fields of `Client`. */
module Docker {
  import opened GoStrings

  datatype Result<T> = Ok(value: T) | Err(error: string)

  // ---------------------------------------------------------------------
  // query.go
  // ---------------------------------------------------------------------

  /** A list request. The Go zero value of every field is `false`, `""` or 0. */
  datatype Query = Query(
    size: bool, all: bool, latest: bool,
    since: string, before: string, limit: int,
    name: string, id: string)

  /** One (key, value) entry of the engine's filter arguments. */
  type Filter = (string, string)

  /** The engine's list options; the filter arguments are a set of pairs. */
  datatype ListOptions = ListOptions(
    size: bool, all: bool, latest: bool,
    since: string, before: string, limit: int,
    filters: set<Filter>)

  /** Translates a query: a name filter when a name is set, an id filter when
      an id is set (both when both are), every other field copied. */
  function ParseQuery(q: Query): (o: ListOptions)
    ensures ("name", q.name) in o.filters <==> q.name != ""
    ensures ("id", q.id) in o.filters <==> q.id != ""
    ensures forall f | f in o.filters :: f == ("name", q.name) || f == ("id", q.id)
    ensures o.size == q.size && o.all == q.all && o.latest == q.latest
    ensures o.since == q.since && o.before == q.before && o.limit == q.limit
  {
    var byName: set<Filter> := if q.name != "" then {("name", q.name)} else {};
    var byId: set<Filter> := if q.id != "" then {("id", q.id)} else {};
    ListOptions(q.size, q.all, q.latest, q.since, q.before, q.limit, byName + byId)
  }

  /** The name a filter set asks for, "" when it has no name filter. */
  ghost function FilterValue(filters: set<Filter>, key: string): string
  {
    if exists v :: (key, v) in filters then var v :| (key, v) in filters; v else ""
  }

  /** The query that list options came from: the inverse of ParseQuery. */
  ghost function QueryOf(o: ListOptions): Query
  {
    Query(o.size, o.all, o.latest, o.since, o.before, o.limit,
          FilterValue(o.filters, "name"), FilterValue(o.filters, "id"))
  }

  /** ParseQuery loses nothing: the query can be read back from its options. */
  lemma ParseQueryRoundTrip(q: Query)
    ensures QueryOf(ParseQuery(q)) == q
  {
    var o := ParseQuery(q);
    forall key | key == "name" || key == "id"
      ensures FilterValue(o.filters, key) == if key == "name" then q.name else q.id
    {
      var want := if key == "name" then q.name else q.id;
      if want != "" {
        assert (key, want) in o.filters;
      }
    }
  }

  /** Two queries with the same options are the same query. */
  lemma ParseQueryInjective(q1: Query, q2: Query)
    requires ParseQuery(q1) == ParseQuery(q2)
    ensures q1 == q2
  {
    ParseQueryRoundTrip(q1);
    ParseQueryRoundTrip(q2);
  }

  /** All containers, stopped ones included. */
  function QueryAll(): (q: Query)
    ensures q.all && q.name == "" && q.id == ""
    ensures ParseQuery(q).filters == {}
  {
    Query(false, true, false, "", "", 0, "", "")
  }

  /** Containers with the given id, stopped ones included. */
  function QueryById(id: string): (q: Query)
    ensures q.all && q.id == id && q.name == ""
    ensures id != "" ==> ParseQuery(q).filters == {("id", id)}
    ensures id == "" ==> q == QueryAll()
  {
    Query(false, true, false, "", "", 0, "", id)
  }

  /** Containers whose name matches, stopped ones included. */
  function QueryByName(name: string): (q: Query)
    ensures q.all && q.name == name && q.id == ""
    ensures name != "" ==> ParseQuery(q).filters == {("name", name)}
    ensures name == "" ==> q == QueryAll()
  {
    Query(false, true, false, "", "", 0, name, "")
  }

  // ---------------------------------------------------------------------
  // docker.go: the display record
  // ---------------------------------------------------------------------

  /** Declared with `iota`, so `Running` is also the zero value. */
  datatype State = Running | Exited | Restarting

  newtype uint16 = x: int | 0 <= x < 0x1_0000

  /** A raw port mapping as the engine reports it. */
  datatype Port = Port(ip: string, privatePort: uint16, publicPort: uint16, kind: string)

  /** A raw container as the engine reports it (the fields the core reads). */
  datatype RawContainer = RawContainer(
    id: string, names: seq<string>, image: string,
    state: string, status: string, ports: seq<Port>)

  /** The display record. */
  datatype Container = Container(
    state: State, image: string, names: string,
    status: string, ports: string, id: string)

  /** The engine's word for a state. */
  function StateName(s: State): string
  {
    match s
    case Running => "running"
    case Exited => "exited"
    case Restarting => "restarting"
  }

  /** The `switch` on the raw state. A string no case names leaves the field
      at its zero value, which is `Running`. Never fails. */
  function ParseState(raw: string): (s: State)
    ensures s == Exited <==> raw == "exited"
    ensures s == Restarting <==> raw == "restarting"
    ensures s == Running <==> raw != "exited" && raw != "restarting"
  {
    match raw
    case "running" => Running
    case "exited" => Exited
    case "restarting" => Restarting
    case _ => Running
  }

  /** Every state survives the trip through the engine's word for it. */
  lemma ParseStateRoundTrip(s: State)
    ensures ParseState(StateName(s)) == s
  {
  }

  const Elision := "..."
  const MaxPorts := 3
  const Separator := ", "

  /** `IP:Public->Private/Type` when the mapping has a host IP, otherwise
      `Private/Type`. */
  function FormatPort(p: Port): (s: string)
    ensures p.ip != "" ==>
      s == p.ip + ":" + Decimal(p.publicPort as nat) + "->" + Decimal(p.privatePort as nat) + "/" + p.kind
    ensures p.ip == "" ==> s == Decimal(p.privatePort as nat) + "/" + p.kind
    ensures |s| > |p.kind| && s[|s| - |p.kind| - 1..] == "/" + p.kind
  {
    if p.ip != "" then
      p.ip + ":" + Decimal(p.publicPort as nat) + "->" + Decimal(p.privatePort as nat) + "/" + p.kind
    else
      Decimal(p.privatePort as nat) + "/" + p.kind
  }

  /** A formatted port always contains '/', so it is never the elision
      marker. */
  lemma FormatPortIsNotElision(p: Port)
    ensures FormatPort(p) != Elision
  {
    var s := FormatPort(p);
    assert s[|s| - |p.kind| - 1] == '/';
  }

  /** Two ports without a host IP and of the same protocol are shown alike
      only when their private ports agree: the text identifies the port. */
  lemma FormatPortPrivateInjective(p: Port, q: Port)
    requires p.ip == "" && q.ip == "" && p.kind == q.kind
    requires FormatPort(p) == FormatPort(q)
    ensures p.privatePort == q.privatePort
  {
    var s := FormatPort(p);
    var n := |s| - |p.kind| - 1;
    assert s[..n] == Decimal(p.privatePort as nat);
    assert s[..n] == Decimal(q.privatePort as nat);
    DecimalInjective(p.privatePort as nat, q.privatePort as nat);
  }

  /** Every port formatted, in order. */
  function FormatAll(ps: seq<Port>): (r: seq<string>)
    ensures |r| == |ps|
    ensures forall i | 0 <= i < |ps| :: r[i] == FormatPort(ps[i])
  {
    seq(|ps|, i requires 0 <= i < |ps| => FormatPort(ps[i]))
  }

  /** The displayed port list: all formatted ports when there are at most
      three, otherwise the first three followed by the elision marker. */
  function PortSummary(ps: seq<Port>): (r: seq<string>)
    ensures |r| == if |ps| <= MaxPorts then |ps| else MaxPorts + 1
    ensures forall i | 0 <= i < |ps| && i < MaxPorts :: r[i] == FormatPort(ps[i])
    ensures |ps| > MaxPorts ==> r[MaxPorts] == Elision
  {
    if |ps| <= MaxPorts then FormatAll(ps) else FormatAll(ps[..MaxPorts]) + [Elision]
  }

  /** The summary has at most four entries, and it ends in the elision marker
      exactly when ports were dropped; the marker never stands for a port. */
  lemma PortSummaryElided(ps: seq<Port>)
    ensures |PortSummary(ps)| <= MaxPorts + 1
    ensures Elision in PortSummary(ps) <==> |ps| > MaxPorts
    ensures |ps| > MaxPorts ==> PortSummary(ps)[MaxPorts] == Elision
  {
    var shown := if |ps| <= MaxPorts then ps else ps[..MaxPorts];
    forall i | 0 <= i < |shown|
      ensures PortSummary(ps)[i] != Elision
    {
      FormatPortIsNotElision(shown[i]);
    }
  }

  /** One step of the loop: append the next formatted port and, once the
      list holds more than three, cut it back to three plus the marker. */
  function Truncate(ports: seq<string>): seq<string>
  {
    if |ports| > MaxPorts then ports[..MaxPorts] + [Elision] else ports
  }

  /** The loop step keeps the summary of the prefix read so far. */
  lemma PortSummaryStep(ps: seq<Port>, p: Port)
    ensures PortSummary(ps + [p]) == Truncate(PortSummary(ps) + [FormatPort(p)])
  {
    var next := ps + [p];
    if |ps| < MaxPorts {
      assert FormatAll(next) == FormatAll(ps) + [FormatPort(p)];
    } else {
      assert next[..MaxPorts] == ps[..MaxPorts];
      if |ps| == MaxPorts {
        assert ps[..MaxPorts] == ps;
      }
    }
  }

  /** The loop step on the i-th port of a container. */
  lemma PortLoopStep(ps: seq<Port>, i: nat)
    requires i < |ps|
    ensures PortSummary(ps[..i + 1]) == Truncate(PortSummary(ps[..i]) + [FormatPort(ps[i])])
    ensures |PortSummary(ps[..i + 1])| <= MaxPorts + 1
  {
    assert ps[..i + 1] == ps[..i] + [ps[i]];
    PortSummaryStep(ps[..i], ps[i]);
  }

  /** The record a raw container is displayed as. */
  function Normalise(ctr: RawContainer): (r: Container)
    ensures r.state == ParseState(ctr.state)
    ensures r.image == ctr.image && r.status == ctr.status && r.id == ctr.id
    ensures ctr.names == [] ==> r.names == ""
    ensures ctr.ports == [] ==> r.ports == ""
  {
    Container(
      ParseState(ctr.state), ctr.image, Join(ctr.names, Separator),
      ctr.status, Join(PortSummary(ctr.ports), Separator), ctr.id)
  }

  /** The names column holds every name and one separator between each
      neighbouring pair, nothing more. */
  lemma NormaliseNamesLength(ctr: RawContainer)
    requires ctr.names != []
    ensures |Normalise(ctr).names| == TotalLength(ctr.names) + (|ctr.names| - 1) * |Separator|
  {
    JoinLength(ctr.names, Separator);
  }

  /** With more than three ports the ports column is the first three
      formatted ports, then the separator and the elision marker. */
  lemma NormalisePortsElided(ctr: RawContainer)
    requires |ctr.ports| > MaxPorts
    ensures Normalise(ctr).ports
      == Join(FormatAll(ctr.ports[..MaxPorts]), Separator) + Separator + Elision
  {
    JoinSnoc(FormatAll(ctr.ports[..MaxPorts]), Elision, Separator);
  }

  lemma NormaliseFields(ctr: RawContainer, ports: seq<string>)
    requires ports == PortSummary(ctr.ports)
    ensures Normalise(ctr) == Container(ParseState(ctr.state), ctr.image, Join(ctr.names, Separator),
                                        ctr.status, Join(ports, Separator), ctr.id)
  {
  }

  /** One record per raw container, in the engine's order. */
  function NormaliseAll(cs: seq<RawContainer>): (r: seq<Container>)
    ensures |r| == |cs|
  {
    if cs == [] then [] else [Normalise(cs[0])] + NormaliseAll(cs[1..])
  }

  /** The record at position i is the normalisation of container i. */
  lemma {:induction false} NormaliseAllAt(cs: seq<RawContainer>, i: nat)
    requires i < |cs|
    ensures NormaliseAll(cs)[i] == Normalise(cs[i])
  {
    if i > 0 {
      NormaliseAllAt(cs[1..], i - 1);
    }
  }

  /** Normalising one more container appends its record. */
  lemma {:induction false} NormaliseAllSnoc(cs: seq<RawContainer>, c: RawContainer)
    ensures NormaliseAll(cs + [c]) == NormaliseAll(cs) + [Normalise(c)]
  {
    if cs == [] {
      assert [c][1..] == [];
    } else {
      assert (cs + [c])[1..] == cs[1..] + [c];
      NormaliseAllSnoc(cs[1..], c);
    }
  }

  /** `parseContainer`: the state switch, the joined names, and the port
      loop that grows the list and truncates it in place. */
  method ParseContainer(ctr: RawContainer) returns (out: Container)
    ensures out == Normalise(ctr)
  {
    var ports: seq<string> := [];
    var i := 0;
    while i < |ctr.ports|
      invariant 0 <= i <= |ctr.ports|
      invariant |ports| <= MaxPorts + 1
      invariant ports == PortSummary(ctr.ports[..i])
    {
      var p := ctr.ports[i];
      var port := FormatPort(p);
      ports := ports + [port];
      if |ports| > MaxPorts {
        ports := ports[..MaxPorts];
        ports := ports + [Elision];
      }
      PortLoopStep(ctr.ports, i);
      i := i + 1;
    }
    assert ctr.ports[..i] == ctr.ports;
    out := Container(ParseState(ctr.state), ctr.image, Join(ctr.names, Separator),
                     ctr.status, Join(ports, Separator), ctr.id);
    NormaliseFields(ctr, ports);
  }

  // ---------------------------------------------------------------------
  // The engine, as the provider sees it
  // ---------------------------------------------------------------------

  /** `needle` occurs somewhere in `hay`. */
  predicate IsSubstring(needle: string, hay: string)
    decreases |hay|
  {
    needle <= hay || (hay != [] && IsSubstring(needle, hay[1..]))
  }

  /** The engine states whose containers count as running for a listing
      without `all`: paused and restarting containers are still running. */
  const ActiveStates: set<string> := {"running", "restarting", "paused"}

  /** Whether the engine lists a container for the options: created, exited
      and dead ones only when `all` is set; a name filter matches when its value occurs in
      one of the names, an id filter when its value occurs in the id. */
  predicate Admits(o: ListOptions, c: RawContainer)
    ensures Admits(o, c) && !o.all ==> ParseState(c.state) != Exited
    ensures o.all && o.filters == {} ==> Admits(o, c)
  {
    && (o.all || c.state in ActiveStates)
    && (forall f | f in o.filters && f.0 == "name" :: exists n | n in c.names :: IsSubstring(f.1, n))
    && (forall f | f in o.filters && f.0 == "id" :: IsSubstring(f.1, c.id))
  }

  /** `ContainerList`: the admitted containers, in the engine's order. */
  function Listed(daemon: seq<RawContainer>, o: ListOptions): (r: seq<RawContainer>)
    ensures |r| <= |daemon|
    ensures forall c | c in r :: c in daemon && Admits(o, c)
  {
    if daemon == [] then []
    else if Admits(o, daemon[0]) then [daemon[0]] + Listed(daemon[1..], o)
    else Listed(daemon[1..], o)
  }

  /** Everything the engine holds that the options admit is listed. */
  lemma {:induction false} ListedComplete(daemon: seq<RawContainer>, o: ListOptions, c: RawContainer)
    requires c in daemon && Admits(o, c)
    ensures c in Listed(daemon, o)
  {
    if daemon[0] != c {
      ListedComplete(daemon[1..], o, c);
    }
  }

  /** A container is listed exactly when the engine holds it and the
      options admit it. */
  lemma ListedMembers(daemon: seq<RawContainer>, o: ListOptions)
    ensures forall c :: c in Listed(daemon, o) <==> c in daemon && Admits(o, c)
  {
    forall c | c in daemon && Admits(o, c)
      ensures c in Listed(daemon, o)
    {
      ListedComplete(daemon, o, c);
    }
  }

  /** Options that admit the same containers list the same sequence. */
  lemma {:induction false} ListedCongruent(daemon: seq<RawContainer>, o1: ListOptions, o2: ListOptions)
    requires forall c | c in daemon :: Admits(o1, c) == Admits(o2, c)
    ensures Listed(daemon, o1) == Listed(daemon, o2)
  {
    if daemon != [] {
      ListedCongruent(daemon[1..], o1, o2);
    }
  }

  /** The empty string occurs in every string. */
  lemma EmptyIsSubstring(hay: string)
    ensures IsSubstring("", hay)
  {
  }

  /** Extending a prefix of a listing by one container extends its
      normalised form by that container's normal form. */
  lemma NormalisePrefixStep(cs: seq<RawContainer>, i: nat)
    requires i < |cs|
    ensures NormaliseAll(cs[..i + 1]) == NormaliseAll(cs[..i]) + [Normalise(cs[i])]
  {
    assert cs[..i + 1] == cs[..i] + [cs[i]];
    NormaliseAllSnoc(cs[..i], cs[i]);
  }

  /** Normalises a listing one container at a time, appending to `out`. */
  method ParseAll(listed: seq<RawContainer>) returns (out: seq<Container>)
    ensures out == NormaliseAll(listed)
  {
    out := [];
    for i := 0 to |listed|
      invariant out == NormaliseAll(listed[..i])
    {
      var ctr := ParseContainer(listed[i]);
      NormalisePrefixStep(listed, i);
      out := out + [ctr];
    }
    assert listed[..|listed|] == listed;
  }

  datatype Call = Start(id: string) | Stop(id: string)

  const NotFound := "no container found by that id"
  const Unreachable := "cannot connect to the Docker daemon"

  /** The options `GetAll` lists with. */
  function AllOptions(): ListOptions
  {
    ListOptions(false, true, false, "", "", 0, {})
  }

  /** The options `GetById` lists with: the id filter even when `id` is empty. */
  function IdOptions(id: string): ListOptions
  {
    ListOptions(false, true, false, "", "", 0, {("id", id)})
  }

  /** The options `SearchByName` lists with: the name filter even when `term`
      is empty. */
  function NameOptions(term: string): ListOptions
  {
    ListOptions(false, true, false, "", "", 0, {("name", term)})
  }

  /** `GetAll` lists with what `QueryAll` parses to. */
  lemma AllOptionsIsQueryAll()
    ensures AllOptions() == ParseQuery(QueryAll())
  {
  }

  /** `GetById(id)` and `GetSingle(QueryById(id))` list the same containers,
      also for the empty id, where only the former sends a filter. */
  lemma IdOptionsAgree(daemon: seq<RawContainer>, id: string)
    ensures Listed(daemon, IdOptions(id)) == Listed(daemon, ParseQuery(QueryById(id)))
  {
    if id == "" {
      forall c | c in daemon
        ensures Admits(IdOptions(id), c) == Admits(ParseQuery(QueryById(id)), c)
      {
        EmptyIsSubstring(c.id);
      }
      ListedCongruent(daemon, IdOptions(id), ParseQuery(QueryById(id)));
    }
  }

  /** `SearchByName(t)` and `GetAll(QueryByName(t))` list the same
      containers, also for the empty term, given that every container has a
      name (the engine always assigns one). */
  lemma NameOptionsAgree(daemon: seq<RawContainer>, term: string)
    requires forall c | c in daemon :: c.names != []
    ensures Listed(daemon, NameOptions(term)) == Listed(daemon, ParseQuery(QueryByName(term)))
  {
    if term == "" {
      forall c | c in daemon
        ensures Admits(NameOptions(term), c) == Admits(ParseQuery(QueryByName(term)), c)
      {
        EmptyIsSubstring(c.names[0]);
        assert IsSubstring(term, c.names[0]);
      }
      ListedCongruent(daemon, NameOptions(term), ParseQuery(QueryByName(term)));
    }
  }

  /** The result a single-container lookup gives: the first listed
      container, or the not-found error. */
  function First(listed: Result<seq<RawContainer>>): (r: Result<Container>)
    ensures r.Ok? <==> listed.Ok? && listed.value != []
    ensures r.Ok? ==> r.value == Normalise(listed.value[0])
    ensures listed.Ok? && listed.value == [] ==> r == Err(NotFound)
    ensures listed.Err? ==> r == Err(listed.error)
  {
    if listed.Err? then Err(listed.error)
    else if listed.value != [] then Ok(Normalise(listed.value[0]))
    else Err(NotFound)
  }

  /** The provider client. The engine it talks to is modelled by `daemon`
      (its containers, in the order it lists them) and `reachable` (whether
      calls to it succeed); `calls` records the start and stop requests and
      `closed` whether the connection has been released. */
  class Client {
    var daemon: seq<RawContainer>
    var reachable: bool
    var closed: bool
    ghost var calls: seq<Call>

    constructor (daemon: seq<RawContainer>, reachable: bool)
      ensures this.daemon == daemon && this.reachable == reachable
      ensures calls == [] && !closed
    {
      this.daemon := daemon;
      this.reachable := reachable;
      closed := false;
      calls := [];
    }

    /** The engine's `ContainerList`. */
    function ContainerList(o: ListOptions): (r: Result<seq<RawContainer>>)
      reads this
      ensures r.Ok? <==> reachable
      ensures r.Err? ==> r.error == Unreachable
      ensures r.Ok? ==> forall c :: c in r.value <==> c in daemon && Admits(o, c)
    {
      if reachable then ListedMembers(daemon, o); Ok(Listed(daemon, o)) else Err(Unreachable)
    }

    /** `GetAll`: every container, stopped ones included, in engine order. */
    method GetAll() returns (r: Result<seq<Container>>)
      ensures r.Ok? <==> reachable
      ensures r.Ok? ==> r.value == NormaliseAll(Listed(daemon, AllOptions()))
    {
      var listed := ContainerList(AllOptions());
      if listed.Err? {
        return Err(listed.error);
      }
      var out := ParseAll(listed.value);
      return Ok(out);
    }

    /** `GetById`: the first container the id filter admits, or the
      not-found error. */
    method GetById(id: string) returns (r: Result<Container>)
      ensures r.Ok? <==> reachable && Listed(daemon, IdOptions(id)) != []
      ensures r.Ok? ==> r.value == Normalise(Listed(daemon, IdOptions(id))[0])
      ensures reachable && Listed(daemon, IdOptions(id)) == [] ==> r == Err(NotFound)
      ensures !reachable ==> r == Err(Unreachable)
    {
      var listed := ContainerList(IdOptions(id));
      if listed.Err? {
        return Err(listed.error);
      }
      if |listed.value| > 0 {
        var ctr := ParseContainer(listed.value[0]);
        return Ok(ctr);
      }
      return Err(NotFound);
    }

    /** `SearchByName`: every container the name filter admits, in engine
      order. */
    method SearchByName(term: string) returns (r: Result<seq<Container>>)
      ensures r.Ok? <==> reachable
      ensures r.Ok? ==> r.value == NormaliseAll(Listed(daemon, NameOptions(term)))
    {
      var listed := ContainerList(NameOptions(term));
      if listed.Err? {
        return Err(listed.error);
      }
      var out := ParseAll(listed.value);
      return Ok(out);
    }

    /** What `GetAll(q)` shows, when the engine is reachable. */
    ghost function Shown(q: Query): seq<Container>
      reads this
    {
      NormaliseAll(Listed(daemon, ParseQuery(q)))
    }

    /** `GetAll(q)` as the controller calls it: the containers the parsed
      query admits, in engine order. */
    method GetAllByQuery(q: Query) returns (r: Result<seq<Container>>)
      ensures r.Ok? <==> reachable
      ensures r.Ok? ==> r.value == Shown(q)
    {
      var listed := ContainerList(ParseQuery(q));
      if listed.Err? {
        return Err(listed.error);
      }
      var out := ParseAll(listed.value);
      return Ok(out);
    }

    /** What `GetSingle(q)` gives: the first container the parsed query
      admits, or the not-found error. */
    ghost function Single(q: Query): Result<Container>
      reads this
    {
      First(ContainerList(ParseQuery(q)))
    }

    /** `GetSingle(q)`, with the first-match-or-error shape of `GetById`. */
    method GetSingle(q: Query) returns (r: Result<Container>)
      ensures r.Ok? <==> reachable && Listed(daemon, ParseQuery(q)) != []
      ensures r == Single(q)
    {
      var listed := ContainerList(ParseQuery(q));
      if listed.Err? {
        return Err(listed.error);
      }
      if |listed.value| > 0 {
        var ctr := ParseContainer(listed.value[0]);
        return Ok(ctr);
      }
      return Err(NotFound);
    }

    /** `StartContainer`: the request is sent; its outcome is ignored. */
    method StartContainer(id: string)
      modifies this`calls
      ensures calls == old(calls) + [Start(id)]
    {
      calls := calls + [Start(id)];
    }

    /** `StopContainer`: the request is sent; its outcome is ignored. */
    method StopContainer(id: string)
      modifies this`calls
      ensures calls == old(calls) + [Stop(id)]
    {
      calls := calls + [Stop(id)];
    }

    /** `Close`: the connection to the engine is released. */
    method Close()
      modifies this`closed
      ensures closed
    {
      closed := true;
    }
  }
}
