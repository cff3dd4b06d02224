/**
 * `mcp.Manager.Reload`: start the configured servers, name their tools, and publish all of them in one
 * registry update. A failed reload leaves the published tools as they were.
 */
module McpReload {
  import opened Text
  import opened ToolNames
  import opened ToolCatalog
  import opened ToolRegistry
  import opened TurnLeases

  datatype Server = Server(name: string, command: string, disabled: bool, required: bool)

  /** What starting a server and listing its tools comes to. `client` identifies the started process. */
  datatype Outcome = StartFailed | ListFailed(client: nat) | Started(client: nat, tools: seq<string>)

  /** A server that is to be published, and the tool names it announced. */
  datatype Wanted = Wanted(source: string, client: nat, server: string, tools: seq<string>)

  datatype Runtime = Runtime(source: string, client: nat, tools: seq<Tool>)

  // ---- What a configuration asks for ----

  function Visible(tools: seq<string>): seq<string> {
    if tools == [] then []
    else
      var last := tools[|tools| - 1];
      Visible(tools[..|tools| - 1]) + if TrimSpace(last) == "" then [] else [last]
  }

  function WantedOf(prefix: string, servers: seq<Server>, outcomes: seq<Outcome>): seq<Wanted>
    requires |servers| == |outcomes|
  {
    if servers == [] then []
    else
      var n := |servers| - 1;
      WantedOf(prefix, servers[..n], outcomes[..n]) +
      if servers[n].disabled || !outcomes[n].Started? then []
      else [Wanted(prefix + TrimSpace(servers[n].name), outcomes[n].client, servers[n].name, Visible(outcomes[n].tools))]
  }

  /** A server that makes the whole reload fail. Optional servers may fail only while nothing is running yet. */
  predicate Blocks(server: Server, outcome: Outcome, reloading: bool) {
    !server.disabled && (TrimSpace(server.command) == "" || (!outcome.Started? && (server.required || reloading)))
  }

  predicate GoodNames(servers: seq<Server>) {
    && (forall i :: 0 <= i < |servers| ==> TrimSpace(servers[i].name) != "")
    && (forall i, j :: 0 <= i < j < |servers| ==> TrimSpace(servers[i].name) != TrimSpace(servers[j].name))
  }

  function Total(outcomes: seq<Outcome>): nat {
    if outcomes == [] then 0 else (if outcomes[0].Started? then |outcomes[0].tools| else 0) + Total(outcomes[1..])
  }

  // ---- What has been prepared ----

  function NameSet(tools: seq<Tool>): set<string> {
    set t | t in tools :: t.name
  }

  ghost predicate NoTwoNamesAlike(tools: seq<Tool>) {
    forall i, j :: 0 <= i < j < |tools| ==> tools[i].name != tools[j].name
  }

  /** The tools have names of their own, not taken before and taken now. */
  ghost predicate Extends(used: set<string>, tools: seq<Tool>, used': set<string>) {
    NoTwoNamesAlike(tools) && NameSet(tools) !! used && used' == used + NameSet(tools)
  }

  /** `name` is `base`, or `base` with a number from 2 behind it. */
  ghost predicate IsNameFor(base: string, name: string) {
    name == base || exists k :: 2 <= k < INT_LIMIT && name == Candidate(base, k)
  }

  /** The announced tools of a server, in order, under names for them. */
  ghost predicate AreNamed(server: string, client: nat, announced: seq<string>, tools: seq<Tool>) {
    && |tools| == |announced|
    && forall j :: 0 <= j < |tools| ==>
         tools[j].client == Some(client) && IsNameFor(ExposedToolName(server, announced[j]), tools[j].name)
  }

  ghost predicate Serves(r: Runtime, w: Wanted) {
    r.source == w.source && r.client == w.client && AreNamed(w.server, w.client, w.tools, r.tools)
  }

  /** Every served name is one that model APIs accept. */
  lemma ServedNamesFit(r: Runtime, w: Wanted)
    requires Serves(r, w)
    ensures forall j :: 0 <= j < |r.tools| ==> IsToolName(r.tools[j].name)
  {
    hide ExposedToolName, Candidate, IsToolName;
    forall j | 0 <= j < |r.tools| ensures IsToolName(r.tools[j].name) {
      var base := ExposedToolName(w.server, w.tools[j]);
      ExposedIsToolName(w.server, w.tools[j]);
      if r.tools[j].name != base {
        var k :| 2 <= k < INT_LIMIT && r.tools[j].name == Candidate(base, k);
        CandidateIsToolName(base, k);
      }
    }
  }

  ghost predicate AllServe(rs: seq<Runtime>, ws: seq<Wanted>) {
    |rs| == |ws| && forall i :: 0 <= i < |rs| ==> Serves(rs[i], ws[i])
  }

  /** No name is used twice or taken already. */
  ghost predicate AllFresh(rs: seq<Runtime>, taken: set<string>) {
    && (forall i :: 0 <= i < |rs| ==> NoTwoNamesAlike(rs[i].tools) && NameSet(rs[i].tools) !! taken)
    && (forall i, j :: 0 <= i < j < |rs| ==> NameSet(rs[i].tools) !! NameSet(rs[j].tools))
  }

  function NamesOf(rs: seq<Runtime>): set<string> {
    set r, t | r in rs && t in r.tools :: t.name
  }

  function ClientsOf(rs: seq<Runtime>): seq<nat> {
    if rs == [] then [] else ClientsOf(rs[..|rs| - 1]) + [rs[|rs| - 1].client]
  }

  function SourcesOf(rs: seq<Runtime>): seq<string> {
    if rs == [] then [] else SourcesOf(rs[..|rs| - 1]) + [rs[|rs| - 1].source]
  }

  method CheckNames(servers: seq<Server>) returns (good: bool)
    ensures good <==> GoodNames(servers)
  {
    var names: set<string> := {};
    var i := 0;
    while i < |servers|
      invariant 0 <= i <= |servers|
      invariant GoodNames(servers[..i])
      invariant forall n :: n in names <==> exists j :: 0 <= j < i && n == TrimSpace(servers[j].name)
    {
      hide TrimSpace;
      var name := TrimSpace(servers[i].name);
      if name == "" || name in names {
        return false;
      }
      names := names + {name};
      i := i + 1;
    }
    assert servers[..i] == servers;
    return true;
  }

  /** Gives every tool with a non-blank name a name of its own. */
  method Wrap(server: string, client: nat, infos: seq<string>, used: map<string, nat>)
    returns (tools: seq<Tool>, used': map<string, nat>)
    requires Dense(used) && |used| + |infos| + 2 < INT_LIMIT
    ensures AreNamed(server, client, Visible(infos), tools)
    ensures Extends(used.Keys, tools, used'.Keys)
    ensures Dense(used') && |used'| <= |used| + |infos|
  {
    hide *;
    tools, used' := [], used;
    NothingNamed(server, client, used.Keys);
    var i := 0;
    assert infos[..0] == [];
    while i < |infos|
      invariant 0 <= i <= |infos|
      invariant AreNamed(server, client, Visible(infos[..i]), tools)
      invariant Extends(used.Keys, tools, used'.Keys)
      invariant Dense(used') && |used'| <= |used| + i
    {
      VisibleStep(infos, i);
      if TrimSpace(infos[i]) != "" {
        var base := ExposedToolName(server, infos[i]);
        ghost var before := used';
        var exposed: string;
        exposed, used' := UniqueToolName(base, used');
        OneMoreNamed(server, client, Visible(infos[..i]), tools, infos[i], exposed);
        OneMoreName(used.Keys, tools, before.Keys, Tool(exposed, Some(client)));
        KeyCount(before, used', exposed);
        tools := tools + [Tool(exposed, Some(client))];
      }
      i := i + 1;
    }
    assert infos[..i] == infos;
  }

  lemma KeyCount(used: map<string, nat>, used': map<string, nat>, name: string)
    requires used'.Keys == used.Keys + {name}
    ensures |used'| <= |used| + 1
  {
  }

  lemma NothingNamed(server: string, client: nat, used: set<string>)
    ensures AreNamed(server, client, Visible([]), []) && Extends(used, [], used)
  {
  }

  /** Tools with a blank name are left out, and only those. */
  lemma {:induction false} VisibleAre(infos: seq<string>)
    ensures forall info :: info in Visible(infos) <==> info in infos && TrimSpace(info) != ""
    ensures |Visible(infos)| == |Named(infos)|
  {
    hide TrimSpace, Named;
    if infos != [] {
      var n := |infos| - 1;
      VisibleAre(infos[..n]);
      assert infos == infos[..n] + [infos[n]];
      NamedStep(infos);
    } else {
      NobodyNamed();
    }
  }

  ghost function Named(infos: seq<string>): set<int> {
    set i | 0 <= i < |infos| && TrimSpace(infos[i]) != ""
  }

  lemma NobodyNamed()
    ensures Named([]) == {}
  {
  }

  lemma NamedStep(infos: seq<string>)
    requires infos != []
    ensures var n := |infos| - 1;
            |Named(infos)| == |Named(infos[..n])| + if TrimSpace(infos[n]) != "" then 1 else 0
  {
    hide TrimSpace;
    var n := |infos| - 1;
    assert Named(infos) == if TrimSpace(infos[n]) != "" then Named(infos[..n]) + {n} else Named(infos[..n]);
  }

  lemma VisibleStep(infos: seq<string>, i: nat)
    requires i < |infos|
    ensures Visible(infos[..i + 1]) == if TrimSpace(infos[i]) == "" then Visible(infos[..i]) else Visible(infos[..i]) + [infos[i]]
  {
    hide TrimSpace;
    assert infos[..i + 1][..i] == infos[..i];
  }

  lemma OneMoreNamed(server: string, client: nat, announced: seq<string>, tools: seq<Tool>, info: string, name: string)
    requires AreNamed(server, client, announced, tools)
    requires name == ExposedToolName(server, info) || exists k :: 2 <= k < INT_LIMIT && name == Candidate(ExposedToolName(server, info), k)
    ensures AreNamed(server, client, announced + [info], tools + [Tool(name, Some(client))])
  {
    hide ExposedToolName, Candidate;
  }

  lemma OneMoreName(used: set<string>, tools: seq<Tool>, used': set<string>, tool: Tool)
    requires Extends(used, tools, used') && tool.name !in used'
    ensures Extends(used, tools + [tool], used' + {tool.name})
  {
  }

  /** What stands for the servers seen so far. */
  ghost predicate Prepared(prefix: string, servers: seq<Server>, outcomes: seq<Outcome>, used: set<string>,
                           ready: seq<Runtime>, used': map<string, nat>)
    requires |servers| == |outcomes|
  {
    && AllServe(ready, WantedOf(prefix, servers, outcomes))
    && AllFresh(ready, used) && used'.Keys == used + NamesOf(ready)
    && Dense(used')
  }

  /**
   * Starts every enabled server in turn. Either all of them stand ready or, at the first that blocks,
   * everything started so far is closed again.
   */
  method Prepare(prefix: string, servers: seq<Server>, outcomes: seq<Outcome>, reloading: bool, used: map<string, nat>)
    returns (ready: Option<seq<Runtime>>, started: seq<nat>, closed: seq<nat>)
    requires |servers| == |outcomes| && Dense(used) && |used| + Total(outcomes) + 2 < INT_LIMIT
    ensures ready.None? <==> exists i :: 0 <= i < |servers| && Blocks(servers[i], outcomes[i], reloading)
    ensures ready.Some? ==>
      && AllServe(ready.value, WantedOf(prefix, servers, outcomes)) && AllFresh(ready.value, used.Keys)
      && Accounted(started, closed, ready.value)
    ensures ready.None? ==> multiset(started) == multiset(closed)
  {
    hide *;
    var runtimes: seq<Runtime> := [];
    var names := used;
    started, closed := [], [];
    var i := 0;
    NothingPrepared(prefix, used);
    NonePassed(servers, outcomes, reloading);
    assert servers[..0] == [] && outcomes[..0] == [] && outcomes[0..] == outcomes;
    while i < |servers|
      invariant 0 <= i <= |servers|
      invariant Prepared(prefix, servers[..i], outcomes[..i], used.Keys, runtimes, names)
      invariant Dense(names) && |names| + Total(outcomes[i..]) + 2 < INT_LIMIT
      invariant Accounted(started, closed, runtimes)
      invariant PassedAll(servers, outcomes, reloading, i)
    {
      var server := servers[i];
      TotalStep(outcomes, i);
      WantedStep(prefix, servers, outcomes, i);
      BlocksCases(server, outcomes[i], reloading);
      PassedOne(servers, outcomes, reloading, i);
      if server.disabled {
        i := i + 1;
        continue;
      }
      if TrimSpace(server.command) == "" {
        closed := CloseAll(runtimes, started, closed);
        return None, started, closed;
      }
      if !outcomes[i].Started? {
        if outcomes[i].ListFailed? {
          AccountClosed(started, closed, runtimes, outcomes[i].client);
          started, closed := started + [outcomes[i].client], closed + [outcomes[i].client];
        }
        if server.required || reloading {
          closed := CloseAll(runtimes, started, closed);
          return None, started, closed;
        }
        i := i + 1;
        continue;
      }
      ghost var before := names;
      var tools: seq<Tool>;
      tools, names := Wrap(server.name, outcomes[i].client, outcomes[i].tools, names);
      var runtime := Runtime(prefix + TrimSpace(server.name), outcomes[i].client, tools);
      OneMorePrepared(prefix, servers, outcomes, i, used.Keys, runtimes, before, runtime, names);
      AccountReady(started, closed, runtimes, runtime);
      started, runtimes := started + [outcomes[i].client], runtimes + [runtime];
      i := i + 1;
    }
    assert servers[..i] == servers && outcomes[..i] == outcomes;
    PreparedMeans(prefix, servers, outcomes, used.Keys, runtimes, names);
    NobodyBlocks(servers, outcomes, reloading);
    ready := Some(runtimes);
  }

  /** None of the first `i` servers blocks the reload. */
  ghost predicate PassedAll(servers: seq<Server>, outcomes: seq<Outcome>, reloading: bool, i: nat)
    requires |servers| == |outcomes|
  {
    i <= |servers| && forall j :: 0 <= j < i ==> !Blocks(servers[j], outcomes[j], reloading)
  }

  lemma NonePassed(servers: seq<Server>, outcomes: seq<Outcome>, reloading: bool)
    requires |servers| == |outcomes|
    ensures PassedAll(servers, outcomes, reloading, 0)
  {
  }

  lemma PassedOne(servers: seq<Server>, outcomes: seq<Outcome>, reloading: bool, i: nat)
    requires |servers| == |outcomes| && i < |servers| && PassedAll(servers, outcomes, reloading, i)
    ensures if Blocks(servers[i], outcomes[i], reloading)
            then exists j :: 0 <= j < |servers| && Blocks(servers[j], outcomes[j], reloading)
            else PassedAll(servers, outcomes, reloading, i + 1)
  {
    hide Blocks;
  }

  lemma NobodyBlocks(servers: seq<Server>, outcomes: seq<Outcome>, reloading: bool)
    requires |servers| == |outcomes| && PassedAll(servers, outcomes, reloading, |servers|)
    ensures !exists i :: 0 <= i < |servers| && Blocks(servers[i], outcomes[i], reloading)
  {
  }

  /** Every process that was started has been closed or serves a runtime. */
  ghost predicate Accounted(started: seq<nat>, closed: seq<nat>, ready: seq<Runtime>) {
    multiset(started) == multiset(closed) + multiset(ClientsOf(ready))
  }

  lemma AccountClosed(started: seq<nat>, closed: seq<nat>, ready: seq<Runtime>, client: nat)
    requires Accounted(started, closed, ready)
    ensures Accounted(started + [client], closed + [client], ready)
  {
  }

  lemma AccountReady(started: seq<nat>, closed: seq<nat>, ready: seq<Runtime>, r: Runtime)
    requires Accounted(started, closed, ready)
    ensures Accounted(started + [r.client], closed, ready + [r])
  {
  }

  lemma AccountDue(started: seq<nat>, closed: seq<nat>, ready: seq<Runtime>, due: seq<nat>)
    requires Accounted(started, closed, ready)
    ensures multiset(started) + multiset(due) == multiset(closed + due) + multiset(ClientsOf(ready))
  {
  }

  /** Closes in reverse order of starting. */
  method CloseAll(runtimes: seq<Runtime>, ghost started: seq<nat>, before: seq<nat>) returns (closed: seq<nat>)
    requires Accounted(started, before, runtimes)
    ensures multiset(closed) == multiset(started)
  {
    closed := before;
    var i := |runtimes|;
    assert runtimes[..i] == runtimes;
    while i > 0
      invariant 0 <= i <= |runtimes|
      invariant multiset(closed) + multiset(ClientsOf(runtimes[..i])) == multiset(before) + multiset(ClientsOf(runtimes))
    {
      assert runtimes[..i][..i - 1] == runtimes[..i - 1];
      i := i - 1;
      closed := closed + [runtimes[i].client];
    }
  }

  lemma NothingPrepared(prefix: string, used: map<string, nat>)
    requires Dense(used)
    ensures Prepared(prefix, [], [], used.Keys, [], used)
    ensures Accounted([], [], [])
  {
  }

  lemma PreparedMeans(prefix: string, servers: seq<Server>, outcomes: seq<Outcome>, used: set<string>,
                      ready: seq<Runtime>, used': map<string, nat>)
    requires |servers| == |outcomes| && Prepared(prefix, servers, outcomes, used, ready, used')
    ensures AllServe(ready, WantedOf(prefix, servers, outcomes)) && AllFresh(ready, used)
  {
  }

  lemma TotalStep(outcomes: seq<Outcome>, i: nat)
    requires i < |outcomes|
    ensures Total(outcomes[i..]) == (if outcomes[i].Started? then |outcomes[i].tools| else 0) + Total(outcomes[i + 1..])
  {
  }

  lemma BlocksCases(server: Server, outcome: Outcome, reloading: bool)
    ensures Blocks(server, outcome, reloading) <==>
            !server.disabled && (TrimSpace(server.command) == "" || (!outcome.Started? && (server.required || reloading)))
  {
  }

  lemma WantedStep(prefix: string, servers: seq<Server>, outcomes: seq<Outcome>, i: nat)
    requires i < |servers| == |outcomes|
    ensures WantedOf(prefix, servers[..i + 1], outcomes[..i + 1]) ==
            if servers[i].disabled || !outcomes[i].Started? then WantedOf(prefix, servers[..i], outcomes[..i])
            else WantedOf(prefix, servers[..i], outcomes[..i]) +
                 [Wanted(prefix + TrimSpace(servers[i].name), outcomes[i].client, servers[i].name, Visible(outcomes[i].tools))]
    ensures (servers[i].disabled || !outcomes[i].Started?) ==>
      forall used, ready, used' :: Prepared(prefix, servers[..i], outcomes[..i], used, ready, used') ==>
        Prepared(prefix, servers[..i + 1], outcomes[..i + 1], used, ready, used')
  {
    hide TrimSpace, Dense;
    assert servers[..i + 1][..i] == servers[..i] && outcomes[..i + 1][..i] == outcomes[..i];
  }

  lemma OneMorePrepared(prefix: string, servers: seq<Server>, outcomes: seq<Outcome>, i: nat, used: set<string>,
                        ready: seq<Runtime>, before: map<string, nat>, r: Runtime, used': map<string, nat>)
    requires i < |servers| == |outcomes| && !servers[i].disabled && outcomes[i].Started?
    requires Prepared(prefix, servers[..i], outcomes[..i], used, ready, before)
    requires r.source == prefix + TrimSpace(servers[i].name) && r.client == outcomes[i].client
    requires AreNamed(servers[i].name, r.client, Visible(outcomes[i].tools), r.tools)
    requires Extends(before.Keys, r.tools, used'.Keys) && Dense(used')
    ensures Prepared(prefix, servers[..i + 1], outcomes[..i + 1], used, ready + [r], used')
  {
    assert (ready + [r])[..|ready|] == ready;
    WantedStep(prefix, servers, outcomes, i);
    OneMoreFresh(used, ready, before.Keys, r, used'.Keys);
    hide TrimSpace, Dense, AreNamed, AllFresh, NamesOf, WantedOf, Visible;
  }

  lemma OneMoreFresh(used: set<string>, ready: seq<Runtime>, before: set<string>, r: Runtime, used': set<string>)
    requires AllFresh(ready, used) && before == used + NamesOf(ready) && Extends(before, r.tools, used')
    ensures AllFresh(ready + [r], used) && used' == used + NamesOf(ready + [r])
  {
  }

  lemma NameSetIsPart(ready: seq<Runtime>, k: nat)
    requires k < |ready|
    ensures NameSet(ready[k].tools) <= NamesOf(ready)
  {
  }

  // ---- Publication ----

  /** The private copy of the catalog with every prepared source registered. */
  function Registered(base: Sources, rs: seq<Runtime>): Sources {
    if rs == [] then base
    else
      var r := rs[|rs| - 1];
      Ensure(Registered(base, rs[..|rs| - 1]))[Effective(r.source) := ByName(r.tools)]
  }

  ghost predicate SourcesDiffer(rs: seq<Runtime>) {
    && (forall i :: 0 <= i < |rs| ==> rs[i].source != "")
    && (forall i, j :: 0 <= i < j < |rs| ==> rs[i].source != rs[j].source)
  }

  lemma {:induction false} RegisteredHolds(base: Sources, rs: seq<Runtime>, i: nat)
    requires SourcesDiffer(rs) && i < |rs|
    ensures SourceOf(Registered(base, rs), rs[i].source) == ByName(rs[i].tools)
  {
    hide ByName;
    if i < |rs| - 1 {
      RegisteredHolds(base, rs[..|rs| - 1], i);
    }
  }

  ghost predicate HasRuntimes(snapshot: Sources, rs: seq<Runtime>) {
    forall i :: 0 <= i < |rs| ==> SourceOf(snapshot, rs[i].source) == ByName(rs[i].tools)
  }

  lemma {:induction false} SourcesOfAt(rs: seq<Runtime>)
    ensures |SourcesOf(rs)| == |rs| && forall i :: 0 <= i < |rs| ==> SourcesOf(rs)[i] == rs[i].source
  {
    if rs != [] {
      SourcesOfAt(rs[..|rs| - 1]);
    }
  }

  /** The catalog after a reload of a manager that had `gone` registered. */
  function Published(live: Sources, gone: seq<string>, rs: seq<Runtime>): Sources {
    Replaced(live, Registered(CloneExcluding(live, Elems(gone)), rs), Elems(gone), Elems(SourcesOf(rs)))
  }

  /** What neither belonged to the manager nor is replaced by it. */
  function Kept(live: Sources, gone: set<string>, rs: seq<Runtime>): Sources {
    live - gone - Elems(SourcesOf(rs))
  }

  /** Every prepared tool is what its name stands for, and every other name stands for what it did among the kept sources. */
  ghost predicate Resolves(kept: Sources, rs: seq<Runtime>, after: Sources) {
    && (forall r, t :: r in rs && t in r.tools ==> Lookup(after, Order(after), t.name) == Some(t))
    && (forall n :: n !in NamesOf(rs) ==> Lookup(after, Order(after), n) == Lookup(kept, Order(kept), n))
  }

  ghost predicate NamesFree(rs: seq<Runtime>, base: Sources) {
    forall s, n :: Holds(base, s, n) ==> n !in NamesOf(rs)
  }

  lemma LookupOfOwner(sources: Sources, n: string, s: string)
    requires IsOwner(sources, n, s)
    ensures Lookup(sources, Order(sources), n) == Some(sources[s][n])
  {
    LookupIsOwner(sources, n, s);
  }

  /** A name means the same in two registries that hold the same tools under it. */
  lemma SameTools(x: Sources, y: Sources, n: string)
    requires forall s :: (Holds(x, s, n) <==> Holds(y, s, n)) && (Holds(x, s, n) ==> x[s][n] == y[s][n])
    ensures Lookup(x, Order(x), n) == Lookup(y, Order(y), n)
  {
    hide Before, Less;
    var i, j := First(x, Order(x), n), First(y, Order(y), n);
    if i < |Order(x)| {
      LookupIsOwner(x, n, Order(x)[i]);
      LookupIsOwner(y, n, Order(x)[i]);
    }
    if j < |Order(y)| {
      LookupIsOwner(y, n, Order(y)[j]);
      LookupIsOwner(x, n, Order(y)[j]);
    }
  }

  lemma ByNameFinds(tools: seq<Tool>, i: nat)
    requires NoTwoNamesAlike(tools) && i < |tools|
    ensures tools[i].name in ByName(tools) && ByName(tools)[tools[i].name] == tools[i]
  {
    ByNameIsWellNamed(tools);
    hide ByName;
    assert tools[i] in tools;
  }

  lemma ReplacedAt(live: Sources, snapshot: Sources, gone: set<string>, add: set<string>, s: string, n: string)
    ensures var after := Replaced(live, snapshot, gone, add);
            && (s in add ==> s in after && after[s] == SourceOf(snapshot, s))
            && (s !in add ==> (Holds(after, s, n) <==> Holds(live - gone - add, s, n)))
            && (s !in add && Holds(after, s, n) ==> after[s][n] == live[s][n])
  {
  }

  lemma AfterHolds(live: Sources, snapshot: Sources, gone: set<string>, rs: seq<Runtime>, s: string, n: string)
    requires SourcesDiffer(rs) && HasRuntimes(snapshot, rs)
    ensures var after := Replaced(live, snapshot, gone, Elems(SourcesOf(rs)));
            && (forall i :: 0 <= i < |rs| && rs[i].source == s ==> s in after && after[s] == ByName(rs[i].tools))
            && (s !in SourcesOf(rs) ==> (Holds(after, s, n) <==> Holds(Kept(live, gone, rs), s, n)))
            && (s !in SourcesOf(rs) && Holds(after, s, n) ==> after[s][n] == live[s][n])
  {
    hide ByName, Replaced, Holds, SourceOf;
    SourcesOfAt(rs);
    ReplacedAt(live, snapshot, gone, Elems(SourcesOf(rs)), s, n);
    forall i | 0 <= i < |rs| && rs[i].source == s ensures s in SourcesOf(rs) && SourceOf(snapshot, s) == ByName(rs[i].tools) {
      assert SourcesOf(rs)[i] == s;
    }
  }

  lemma PreparedToolResolves(live: Sources, snapshot: Sources, gone: set<string>, rs: seq<Runtime>, i: nat, j: nat)
    requires SourcesDiffer(rs) && AllFresh(rs, {}) && NamesFree(rs, CloneExcluding(live, gone))
    requires HasRuntimes(snapshot, rs)
    requires i < |rs| && j < |rs[i].tools|
    ensures var after := Replaced(live, snapshot, gone, Elems(SourcesOf(rs)));
            Lookup(after, Order(after), rs[i].tools[j].name) == Some(rs[i].tools[j])
  {
    var after := Replaced(live, snapshot, gone, Elems(SourcesOf(rs)));
    var t, s := rs[i].tools[j], rs[i].source;
    AfterHolds(live, snapshot, gone, rs, s, t.name);
    ByNameFinds(rs[i].tools, j);
    forall s' | Holds(after, s', t.name) ensures s' == s {
      OnlyOneHolds(live, snapshot, gone, rs, i, j, s');
    }
    LookupOfOwner(after, t.name, s);
  }

  lemma OnlyOneHas(rs: seq<Runtime>, i: nat, name: string, k: nat)
    requires AllFresh(rs, {}) && i < |rs| && k < |rs| && name in NameSet(rs[i].tools) && name in ByName(rs[k].tools)
    ensures i == k
  {
    ByNameIsWellNamed(rs[k].tools);
    var t := ByName(rs[k].tools)[name];
    hide ByName, NoTwoNamesAlike;
    assert t in rs[k].tools && t.name == name;
    assert name in NameSet(rs[k].tools);
  }

  lemma OnlyOneHolds(live: Sources, snapshot: Sources, gone: set<string>, rs: seq<Runtime>, i: nat, j: nat, s: string)
    requires SourcesDiffer(rs) && AllFresh(rs, {}) && NamesFree(rs, CloneExcluding(live, gone))
    requires HasRuntimes(snapshot, rs)
    requires i < |rs| && j < |rs[i].tools|
    requires Holds(Replaced(live, snapshot, gone, Elems(SourcesOf(rs))), s, rs[i].tools[j].name)
    ensures s == rs[i].source
  {
    var name := rs[i].tools[j].name;
    AfterHolds(live, snapshot, gone, rs, s, name);
    SourcesOfAt(rs);
    NameSetIsPart(rs, i);
    assert rs[i].tools[j] in rs[i].tools;
    assert name in NameSet(rs[i].tools);
    assert Holds(Kept(live, gone, rs), s, name) ==> Holds(CloneExcluding(live, gone), s, name);
    hide Replaced, ByName, Kept, CloneExcluding, NameSet, AllFresh, NamesOf, HasRuntimes, SourcesDiffer;
    if s in SourcesOf(rs) {
      var k :| 0 <= k < |rs| && rs[k].source == s;
      OnlyOneHas(rs, i, name, k);
    }
  }

  /**
   * When others register tools between the private copy and the publication (`live` is then no longer what
   * was copied), a prepared tool is visible exactly when no source they filled under its name comes first.
   */
  lemma VisibleUnlessOvertaken(live: Sources, snapshot: Sources, gone: set<string>, rs: seq<Runtime>, i: nat, j: nat)
    requires SourcesDiffer(rs) && AllFresh(rs, {}) && HasRuntimes(snapshot, rs)
    requires i < |rs| && j < |rs[i].tools|
    ensures var after, name := Replaced(live, snapshot, gone, Elems(SourcesOf(rs))), rs[i].tools[j].name;
            IsOwner(after, name, rs[i].source) <==> forall s :: Holds(Kept(live, gone, rs), s, name) ==> Before(rs[i].source, s)
  {
    var after, name, src := Replaced(live, snapshot, gone, Elems(SourcesOf(rs))), rs[i].tools[j].name, rs[i].source;
    ByNameFinds(rs[i].tools, j);
    assert rs[i].tools[j] in rs[i].tools;
    assert name in NameSet(rs[i].tools);
    SourcesOfAt(rs);
    assert SourcesOf(rs)[i] == src;
    AfterHolds(live, snapshot, gone, rs, src, name);
    forall s ensures Holds(after, s, name) <==> s == src || Holds(Kept(live, gone, rs), s, name) {
      HeldAfter(live, snapshot, gone, rs, i, name, s);
    }
    hide Before, Kept, Replaced, Holds;
    assert !Holds(Kept(live, gone, rs), src, name) by {
      HeldAfter(live, snapshot, gone, rs, i, name, src);
    }
  }

  lemma {:induction false} HeldAfter(live: Sources, snapshot: Sources, gone: set<string>, rs: seq<Runtime>, i: nat, name: string, s: string)
    requires SourcesDiffer(rs) && AllFresh(rs, {}) && HasRuntimes(snapshot, rs)
    requires i < |rs| && name in NameSet(rs[i].tools) && name in ByName(rs[i].tools)
    ensures var after := Replaced(live, snapshot, gone, Elems(SourcesOf(rs)));
            Holds(after, s, name) <==> s == rs[i].source || Holds(Kept(live, gone, rs), s, name)
    ensures !Holds(Kept(live, gone, rs), rs[i].source, name)
  {
    AfterHolds(live, snapshot, gone, rs, s, name);
    SourcesOfAt(rs);
    assert SourcesOf(rs)[i] == rs[i].source;
    hide ByName, NameSet, AllFresh, Replaced;
    if s in SourcesOf(rs) {
      var k :| 0 <= k < |rs| && rs[k].source == s;
      if name in ByName(rs[k].tools) {
        OnlyOneHas(rs, i, name, k);
      }
    }
  }

  lemma OtherNameResolves(live: Sources, snapshot: Sources, gone: set<string>, rs: seq<Runtime>, n: string)
    requires SourcesDiffer(rs) && n !in NamesOf(rs)
    requires HasRuntimes(snapshot, rs)
    ensures var after, kept := Replaced(live, snapshot, gone, Elems(SourcesOf(rs))), Kept(live, gone, rs);
            Lookup(after, Order(after), n) == Lookup(kept, Order(kept), n)
  {
    var after, kept := Replaced(live, snapshot, gone, Elems(SourcesOf(rs))), Kept(live, gone, rs);
    SourcesOfAt(rs);
    forall s ensures (Holds(after, s, n) <==> Holds(kept, s, n)) && (Holds(after, s, n) ==> after[s][n] == kept[s][n]) {
      AfterHolds(live, snapshot, gone, rs, s, n);
      if s in SourcesOf(rs) {
        var k :| 0 <= k < |rs| && rs[k].source == s;
        ByNameIsWellNamed(rs[k].tools);
        NameSetIsPart(rs, k);
      }
    }
    SameTools(after, kept, n);
  }

  lemma PublishedIs(live: Sources, gone: seq<string>, rs: seq<Runtime>)
    ensures Published(live, gone, rs) ==
            Replaced(live, Registered(CloneExcluding(live, Elems(gone)), rs), Elems(gone), Elems(SourcesOf(rs)))
  {
  }

  lemma PublicationResolves(live: Sources, gone: set<string>, rs: seq<Runtime>)
    requires SourcesDiffer(rs) && AllFresh(rs, {}) && NamesFree(rs, CloneExcluding(live, gone))
    ensures Resolves(Kept(live, gone, rs), rs,
                     Replaced(live, Registered(CloneExcluding(live, gone), rs), gone, Elems(SourcesOf(rs))))
  {
    var snapshot := Registered(CloneExcluding(live, gone), rs);
    forall i | 0 <= i < |rs| ensures SourceOf(snapshot, rs[i].source) == ByName(rs[i].tools) {
      RegisteredHolds(CloneExcluding(live, gone), rs, i);
    }
    var after := Replaced(live, snapshot, gone, Elems(SourcesOf(rs)));
    hide Registered, Replaced, Lookup, ByName, AllFresh, NamesFree, CloneExcluding;
    forall r, t | r in rs && t in r.tools ensures Lookup(after, Order(after), t.name) == Some(t) {
      var i :| 0 <= i < |rs| && rs[i] == r;
      var j :| 0 <= j < |r.tools| && r.tools[j] == t;
      PreparedToolResolves(live, snapshot, gone, rs, i, j);
    }
    forall n | n !in NamesOf(rs) ensures Lookup(after, Order(after), n) == Lookup(Kept(live, gone, rs), Order(Kept(live, gone, rs)), n) {
      OtherNameResolves(live, snapshot, gone, rs, n);
    }
  }

  // ---- The manager ----

  class Manager {
    var sources: seq<string>
    var clients: seq<nat>
    var running: bool

    constructor ()
      ensures sources == [] && clients == [] && !running
    {
      sources, clients, running := [], [], false;
    }

    /**
     * All or nothing: on failure the registry and the manager are untouched and every process that was
     * started is closed. On success the new clients are in place, every one of their tools is visible and
     * stands in nobody's way, and the old clients are closed unless a snapshot still holds them up.
     */
    method Reload(registry: RegisterTools, prefix: string, servers: seq<Server>, outcomes: seq<Outcome>, cancelled: bool)
      returns (ok: bool, runtimes: seq<Runtime>, started: seq<nat>, closed: seq<nat>)
      requires registry.Valid() && |servers| == |outcomes| && |registry.flatMap| + Total(outcomes) + 2 < INT_LIMIT
      modifies this, registry
      ensures registry.Valid()
      ensures ok <==> GoodNames(servers) && !cancelled && forall i :: 0 <= i < |servers| ==> MayPass(servers[i], outcomes[i], old(running))
      ensures !ok ==>
        && sources == old(sources) && clients == old(clients) && running == old(running)
        && registry.sources == old(registry.sources) && registry.leases == old(registry.leases)
        && multiset(started) == multiset(closed)
      ensures ok ==>
        && AllServe(runtimes, WantedOf(EffectivePrefix(prefix), servers, outcomes))
        && AreTheStarted(if prefix == "" then "mcp:" else prefix, servers, outcomes, runtimes)
        && sources == SourcesOf(runtimes) && clients == ClientsOf(runtimes) && running
        && Resolves(Kept(old(registry.sources), Elems(old(sources)), runtimes), runtimes, registry.sources)
        && registry.sources == Published(old(registry.sources), old(sources), runtimes)
        && registry.leases == Retired(old(registry.leases))
        && multiset(started) + multiset(if |old(registry.leases.held)| == 0 then old(clients) else []) ==
           multiset(closed) + multiset(clients)
    {
      WhoMayPass(servers, outcomes, running);
      hide *;
      ok, runtimes, started, closed := false, [], [], [];
      var good := CheckNames(servers);
      if !good {
        return;
      }
      var base := registry.CloneExcludingSources(Elems(sources));
      var used := UsedNames(base);
      BaseIsSmaller(registry, base, Elems(sources), used);
      var ready: Option<seq<Runtime>>;
      ready, started, closed := Prepare(EffectivePrefix(prefix), servers, outcomes, running, used);
      if ready.None? {
        return;
      }
      if cancelled {
        closed := CloseAll(ready.value, started, closed);
        return;
      }
      ok, runtimes := true, ready.value;
      ServedAreStarted(prefix, servers, outcomes, runtimes);
      WantedDiffer(EffectivePrefix(prefix), servers, outcomes, runtimes);
      UsedIsNotPrepared(runtimes, used.Keys, base.sources);
      var due := Publish(registry, base, runtimes);
      AccountDue(started, closed, runtimes, due);
      closed := closed + due;
    }

    /** The locked part of a reload; `due` are the old clients when nobody holds them up. */
    method Publish(registry: RegisterTools, base: RegisterTools, runtimes: seq<Runtime>) returns (due: seq<nat>)
      requires registry.Valid() && base.Valid() && base != registry
      requires base.sources == CloneExcluding(registry.sources, Elems(sources))
      requires SourcesDiffer(runtimes) && AllFresh(runtimes, {}) && NamesFree(runtimes, base.sources)
      modifies this, registry, base
      ensures registry.Valid() && sources == SourcesOf(runtimes) && clients == ClientsOf(runtimes) && running
      ensures Resolves(Kept(old(registry.sources), Elems(old(sources)), runtimes), runtimes, registry.sources)
      ensures registry.sources == Published(old(registry.sources), old(sources), runtimes)
      ensures registry.leases == Retired(old(registry.leases))
      ensures due == if |old(registry.leases.held)| == 0 then old(clients) else []
    {
      hide *;
      PublicationResolves(registry.sources, Elems(sources), runtimes);
      PublishedIs(registry.sources, sources, runtimes);
      RegisterAll(base, runtimes);
      registry.ReplaceSources(base, sources, SourcesOf(runtimes));
      var oldClients := clients;
      clients, sources, running := ClientsOf(runtimes), SourcesOf(runtimes), true;
      var r, cleanup := registry.Retire();
      due := if cleanup then oldClients else [];
    }

    /** Takes every tool of the manager out of the catalog and leaves the manager empty. */
    method Close(registry: RegisterTools) returns (closed: seq<nat>)
      requires registry.Valid()
      modifies this, registry
      ensures registry.Valid() && sources == [] && clients == [] && !running
      ensures registry.sources == if old(running) then Unregistered(old(registry.sources), old(sources)) else old(registry.sources)
      ensures registry.leases == if old(running) then Retired(old(registry.leases)) else old(registry.leases)
      ensures closed == if old(running) && |old(registry.leases.held)| != 0 then [] else old(clients)
    {
      var oldClients, oldSources, registered := clients, sources, running;
      clients, sources, running := [], [], false;
      if registered {
        registry.UnregisterSources(oldSources);
        var r, cleanup := registry.Retire();
        closed := if cleanup then oldClients else [];
      } else {
        closed := oldClients;
      }
    }
  }

  function EffectivePrefix(prefix: string): string {
    if prefix == "" then "mcp:" else prefix
  }

  /** A server that is switched off does not matter; another needs a command and, if it is required or replaces others, to start. */
  predicate MayPass(server: Server, outcome: Outcome, reloading: bool) {
    server.disabled || (TrimSpace(server.command) != "" && (outcome.Started? || !(server.required || reloading)))
  }

  lemma WhoMayPass(servers: seq<Server>, outcomes: seq<Outcome>, reloading: bool)
    requires |servers| == |outcomes|
    ensures (forall i :: 0 <= i < |servers| ==> MayPass(servers[i], outcomes[i], reloading)) <==>
            !exists i :: 0 <= i < |servers| && Blocks(servers[i], outcomes[i], reloading)
  {
    hide TrimSpace;
    if exists i :: 0 <= i < |servers| && Blocks(servers[i], outcomes[i], reloading) {
      var i :| 0 <= i < |servers| && Blocks(servers[i], outcomes[i], reloading);
      assert !MayPass(servers[i], outcomes[i], reloading);
    }
  }

  predicate StartedAs(prefix: string, server: Server, outcome: Outcome, source: string, client: nat) {
    !server.disabled && outcome.Started? && outcome.client == client && source == prefix + TrimSpace(server.name)
  }

  ghost predicate HasStarted(prefix: string, servers: seq<Server>, outcomes: seq<Outcome>, source: string, client: nat)
    requires |servers| == |outcomes|
  {
    exists i :: 0 <= i < |servers| && StartedAs(prefix, servers[i], outcomes[i], source, client)
  }

  ghost predicate HasRuntime(rs: seq<Runtime>, source: string, client: nat) {
    exists r :: r in rs && r.source == source && r.client == client
  }

  /** Every server that is on and has started has a runtime, under its trimmed name behind the prefix, and nobody else has one. */
  ghost predicate AreTheStarted(prefix: string, servers: seq<Server>, outcomes: seq<Outcome>, rs: seq<Runtime>)
    requires |servers| == |outcomes|
  {
    forall source, client :: HasRuntime(rs, source, client) <==> HasStarted(prefix, servers, outcomes, source, client)
  }

  lemma {:induction false} WantedAreStarted(prefix: string, servers: seq<Server>, outcomes: seq<Outcome>, source: string, client: nat)
    requires |servers| == |outcomes|
    ensures HasWanted(WantedOf(prefix, servers, outcomes), source, client) <==> HasStarted(prefix, servers, outcomes, source, client)
  {
    hide TrimSpace, Visible;
    if servers != [] {
      var n := |servers| - 1;
      var ws, front := WantedOf(prefix, servers, outcomes), WantedOf(prefix, servers[..n], outcomes[..n]);
      WantedAreStarted(prefix, servers[..n], outcomes[..n], source, client);
      assert |front| <= |ws| <= |front| + 1 && ws[..|front|] == front;
      if j :| 0 <= j < |ws| && IsWanted(ws[j], source, client) {
        if j < |front| {
          assert IsWanted(front[j], source, client);
          var i :| 0 <= i < |servers[..n]| && StartedAs(prefix, servers[..n][i], outcomes[..n][i], source, client);
          assert StartedAs(prefix, servers[i], outcomes[i], source, client);
        } else {
          assert StartedAs(prefix, servers[n], outcomes[n], source, client);
        }
      }
      if i :| 0 <= i < |servers| && StartedAs(prefix, servers[i], outcomes[i], source, client) {
        if i < n {
          assert StartedAs(prefix, servers[..n][i], outcomes[..n][i], source, client);
          var j :| 0 <= j < |front| && IsWanted(front[j], source, client);
          assert IsWanted(ws[j], source, client);
        } else {
          assert IsWanted(ws[|front|], source, client);
        }
      }
    }
  }

  predicate IsWanted(w: Wanted, source: string, client: nat) {
    w.source == source && w.client == client
  }

  ghost predicate HasWanted(ws: seq<Wanted>, source: string, client: nat) {
    exists j :: 0 <= j < |ws| && IsWanted(ws[j], source, client)
  }

  lemma ServedAreStarted(prefix: string, servers: seq<Server>, outcomes: seq<Outcome>, rs: seq<Runtime>)
    requires |servers| == |outcomes| && AllServe(rs, WantedOf(EffectivePrefix(prefix), servers, outcomes))
    ensures AreTheStarted(if prefix == "" then "mcp:" else prefix, servers, outcomes, rs)
  {
    var ws := WantedOf(EffectivePrefix(prefix), servers, outcomes);
    hide WantedOf, HasStarted, HasRuntime;
    forall source, client ensures HasRuntime(rs, source, client) <==> HasStarted(EffectivePrefix(prefix), servers, outcomes, source, client) {
      WantedAreStarted(EffectivePrefix(prefix), servers, outcomes, source, client);
      RuntimesAreWanted(rs, ws, source, client);
    }
  }

  lemma RuntimesAreWanted(rs: seq<Runtime>, ws: seq<Wanted>, source: string, client: nat)
    requires AllServe(rs, ws)
    ensures HasRuntime(rs, source, client) <==> HasWanted(ws, source, client)
  {
    hide AreNamed;
    if j :| 0 <= j < |ws| && IsWanted(ws[j], source, client) {
      assert Serves(rs[j], ws[j]) && rs[j] in rs;
    }
    if r :| r in rs && r.source == source && r.client == client {
      var j :| 0 <= j < |rs| && rs[j] == r;
      assert Serves(rs[j], ws[j]) && IsWanted(ws[j], source, client);
    }
  }

  /** Every listed name counts as used once. */
  method UsedNames(base: RegisterTools) returns (used: map<string, nat>)
    requires base.Valid()
    ensures used.Keys == base.flatMap.Keys && Dense(used)
  {
    hide *;
    var tools := base.List();
    used := map[];
    var i := 0;
    while i < |tools|
      invariant 0 <= i <= |tools|
      invariant forall n :: n in used <==> exists j :: 0 <= j < i && tools[j].name == n
      invariant forall n :: n in used ==> used[n] == 1
    {
      used := used[tools[i].name := 1];
      i := i + 1;
    }
    ListedNames(base, tools);
    OnesAreDense(used);
  }

  lemma ListedNames(base: RegisterTools, tools: seq<Tool>)
    requires base.Valid() && tools == base.flatTools
    ensures forall n :: n in base.flatMap <==> exists j :: 0 <= j < |tools| && tools[j].name == n
  {
  }

  lemma OnesAreDense(used: map<string, nat>)
    requires forall n :: n in used ==> used[n] == 1
    ensures Dense(used)
  {
  }

  /** A name is indexed exactly when some source has it. */
  lemma IndexedIsHeld(registry: RegisterTools, n: string)
    requires registry.Valid()
    ensures n in registry.flatMap <==> exists s :: Holds(registry.sources, s, n)
  {
    var order := Order(registry.sources);
    var k := First(registry.sources, order, n);
    if s :| Holds(registry.sources, s, n) {
      assert s in order;
    }
  }

  lemma BaseIsSmaller(registry: RegisterTools, base: RegisterTools, gone: set<string>, used: map<string, nat>)
    requires registry.Valid() && base.Valid() && base.sources == CloneExcluding(registry.sources, gone)
    requires used.Keys == base.flatMap.Keys
    ensures |used| <= |registry.flatMap|
    ensures forall s, n :: Holds(base.sources, s, n) ==> n in used
  {
    hide RegisterTools.Valid;
    forall s, n ensures Holds(base.sources, s, n) ==> Holds(registry.sources, s, n) {
    }
    hide CloneExcluding, Ensure, Holds;
    forall n ensures n in base.flatMap <==> exists s :: Holds(base.sources, s, n) {
      IndexedIsHeld(base, n);
    }
    forall n ensures n in registry.flatMap <==> exists s :: Holds(registry.sources, s, n) {
      IndexedIsHeld(registry, n);
    }
    hide *;
    CardinalityOfSubset(used.Keys, registry.flatMap.Keys);
    assert |used.Keys| == |used| && |registry.flatMap.Keys| == |registry.flatMap|;
  }

  method RegisterAll(base: RegisterTools, runtimes: seq<Runtime>)
    requires base.Valid()
    modifies base
    ensures base.Valid() && base.sources == Registered(old(base.sources), runtimes)
  {
    hide RegisterTools.Valid, ByName, Present, Ensure;
    var i := 0;
    while i < |runtimes|
      invariant 0 <= i <= |runtimes|
      invariant base.Valid() && base.sources == Registered(old(base.sources), runtimes[..i])
    {
      assert runtimes[..i + 1][..i] == runtimes[..i];
      var tools := seq(|runtimes[i].tools|, j requires 0 <= j < |runtimes[i].tools| => Some(runtimes[i].tools[j]));
      PresentAll(runtimes[i].tools, tools);
      base.RegisterSource(runtimes[i].source, tools);
      i := i + 1;
    }
    assert runtimes[..i] == runtimes;
  }

  lemma {:induction false} PresentAll(tools: seq<Tool>, some: seq<Option<Tool>>)
    requires |some| == |tools| && forall j :: 0 <= j < |tools| ==> some[j] == Some(tools[j])
    ensures Present(some) == tools
  {
    if tools != [] {
      PresentAll(tools[..|tools| - 1], some[..|some| - 1]);
    }
  }

  lemma UsedIsNotPrepared(rs: seq<Runtime>, used: set<string>, base: Sources)
    requires AllFresh(rs, used) && forall s, n :: Holds(base, s, n) ==> n in used
    ensures AllFresh(rs, {}) && NamesFree(rs, base)
  {
  }

  lemma {:induction false} WantedSources(prefix: string, servers: seq<Server>, outcomes: seq<Outcome>)
    requires |servers| == |outcomes|
    ensures forall w :: w in WantedOf(prefix, servers, outcomes) ==>
              exists i :: 0 <= i < |servers| && w.source == prefix + TrimSpace(servers[i].name)
  {
    hide TrimSpace, Visible;
    if servers != [] {
      var n := |servers| - 1;
      WantedSources(prefix, servers[..n], outcomes[..n]);
      forall w | w in WantedOf(prefix, servers, outcomes)
        ensures exists i :: 0 <= i < |servers| && w.source == prefix + TrimSpace(servers[i].name)
      {
        if w in WantedOf(prefix, servers[..n], outcomes[..n]) {
          var i :| 0 <= i < n && w.source == prefix + TrimSpace(servers[..n][i].name);
          assert servers[i] == servers[..n][i];
        } else {
          assert w.source == prefix + TrimSpace(servers[n].name);
        }
      }
    }
  }

  ghost predicate WantedApart(ws: seq<Wanted>) {
    && (forall i :: 0 <= i < |ws| ==> ws[i].source != "")
    && (forall i, j :: 0 <= i < j < |ws| ==> ws[i].source != ws[j].source)
  }

  lemma {:induction false} WantedAreApart(prefix: string, servers: seq<Server>, outcomes: seq<Outcome>)
    requires |servers| == |outcomes| && GoodNames(servers)
    ensures WantedApart(WantedOf(prefix, servers, outcomes))
  {
    hide TrimSpace, Visible;
    if servers != [] {
      var n := |servers| - 1;
      WantedAreApart(prefix, servers[..n], outcomes[..n]);
      WantedSources(prefix, servers[..n], outcomes[..n]);
      var ws := WantedOf(prefix, servers[..n], outcomes[..n]);
      forall k | 0 <= k < |ws| ensures ws[k].source != prefix + TrimSpace(servers[n].name) {
        assert ws[k] in ws;
        var i :| 0 <= i < n && ws[k].source == prefix + TrimSpace(servers[..n][i].name);
        SamePrefix(prefix, TrimSpace(servers[i].name), TrimSpace(servers[n].name));
      }
    }
  }

  lemma SamePrefix(prefix: string, a: string, b: string)
    ensures prefix + a == prefix + b ==> a == b
  {
    assert (prefix + a)[|prefix|..] == a && (prefix + b)[|prefix|..] == b;
  }

  lemma WantedDiffer(prefix: string, servers: seq<Server>, outcomes: seq<Outcome>, rs: seq<Runtime>)
    requires |servers| == |outcomes| && GoodNames(servers) && AllServe(rs, WantedOf(prefix, servers, outcomes))
    ensures SourcesDiffer(rs)
  {
    WantedAreApart(prefix, servers, outcomes);
    hide WantedOf, AreNamed;
  }

  /** The catalog after a local tool and then a reload's tool of the same name have been registered. */
  function Overtaken(name: string, source: string, client: nat): Sources {
    map[LOCAL := map[name := Tool(name, None)], source := map[name := Tool(name, Some(client))]]
  }

  lemma OvertakenIs(name: string, source: string, client: nat)
    requires source != LOCAL && source != ""
    ensures var late, prepared := Tool(name, None), Tool(name, Some(client));
            var start: Sources := map[LOCAL := map[]];
            var live := Ensure(start)[LOCAL := Ensure(start)[LOCAL][name := late]];
            var base := Ensure(CloneExcluding(start, {}))[Effective(source) := ByName(Present([Some(prepared)]))];
            Replaced(live, base, Elems([]), Elems([source])) == Overtaken(name, source, client)
  {
    var late, prepared := Tool(name, None), Tool(name, Some(client));
    var start: Sources := map[LOCAL := map[]];
    PresentAll([prepared], [Some(prepared)]);
    assert [prepared][..0] == [];
    assert ByName([prepared]) == map[name := prepared];
    hide ByName, Present;
    assert Ensure(start)[LOCAL := Ensure(start)[LOCAL][name := late]] == map[LOCAL := map[name := late]];
    assert CloneExcluding(start, {}) == start;
    assert Ensure(start)[source := map[name := prepared]] == map[LOCAL := map[], source := map[name := prepared]];
    assert Elems([source]) == {source} && Elems([]) == {};
    hide Elems, CloneExcluding;
  }

  lemma OvertakenOwner(name: string, source: string, client: nat)
    requires source != LOCAL
    ensures var after := Overtaken(name, source, client);
            Lookup(after, Order(after), name) == Some(Tool(name, None))
  {
    var after := Overtaken(name, source, client);
    assert IsOwner(after, name, LOCAL);
    LookupOfOwner(after, name, LOCAL);
  }

  /** A registry in which a local tool is registered between the private copy and the publication. */
  method LateRegistry(name: string, source: string, client: nat) returns (registry: RegisterTools)
    requires source != LOCAL && source != ""
    ensures fresh(registry) && registry.Valid() && registry.sources == Overtaken(name, source, client)
  {
    OvertakenIs(name, source, client);
    hide *;
    registry := new RegisterTools();
    var base := registry.CloneExcludingSources({});
    registry.Register(Some(Tool(name, None)));
    base.RegisterSource(source, [Some(Tool(name, Some(client)))]);
    registry.ReplaceSources(base, [], [source]);
  }

  /**
   * The other side of `VisibleUnlessOvertaken`: a local tool registered under the very name while the reload
   * prepares its own is what the name stands for afterwards; the prepared tool is published and not visible.
   */
  method LateToolOvertakes(server: string, tool: string, client: nat) returns (registry: RegisterTools, found: Option<Tool>)
    ensures fresh(registry) && registry.Valid()
    ensures registry.sources == Overtaken(ExposedToolName(server, tool), "mcp:" + TrimSpace(server), client)
    ensures found == Some(Tool(ExposedToolName(server, tool), None))
  {
    var name, source := ExposedToolName(server, tool), "mcp:" + TrimSpace(server);
    assert source[0] == 'm' && LOCAL[0] == 'l';
    OvertakenOwner(name, source, client);
    hide *;
    registry := LateRegistry(name, source, client);
    found := registry.GetTool(name);
  }
}
