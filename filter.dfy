/**
 * SM_Filter: a filter bar and a load-more button over a server-rendered overview.
 * The server answers with an `html` fragment and an `empty` flag; the overview is a list of pieces.
 */
module Filter {
  import opened Wrappers
  import opened Seqs
  import opened Options
  import opened Environment
  import opened Bus

  /** One entry of the `selectedfilters` data attribute; its id is kept as the text it is printed as. */
  datatype SelectedFilter = SelectedFilter(id: string, value: string)

  /** The `rendersettings` fields the controller reads or writes; the server defines the others. */
  datatype RenderSettings = RenderSettings(
    listNr: int,        // `list_nr`, entries per page (0 shows everything)
    pageno: int,        // `pageno`
    listCat: string,    // `list_cat`, the category clause
    listFilters: string,// `list_filters`
    swVarLid: string,   // `sw_var_lid`
    session: bool)      // `session`

  /** The clause one selected filter contributes to `list_filters`. */
  function Clause(f: SelectedFilter): string {
    "filter_" + f.id + " = `" + f.value + "` AND "
  }

  /** `selectedfilters.map(…).join('')`. */
  function ListFilters(fs: seq<SelectedFilter>): (r: string)
    ensures |r| >= 5 * |fs|
  {
    if fs == [] then "" else Clause(fs[0]) + ListFilters(fs[1..])
  }

  /** The clauses appear in the order of the selected filters. */
  lemma {:induction false} ListFiltersConcat(a: seq<SelectedFilter>, b: seq<SelectedFilter>)
    ensures ListFilters(a + b) == ListFilters(a) + ListFilters(b)
  {
    if a == [] {
      assert a + b == b;
    } else {
      assert (a + b)[0] == a[0];
      assert (a + b)[1..] == a[1..] + b;
      ListFiltersConcat(a[1..], b);
    }
  }

  /** With no selected filter the string is empty; otherwise it ends with the trailing " AND ". */
  lemma {:induction false} ListFiltersShape(fs: seq<SelectedFilter>)
    ensures ListFilters(fs) == "" <==> fs == []
    ensures fs != [] ==> ListFilters(fs)[|ListFilters(fs)| - 5..] == " AND "
  {
    if fs != [] {
      var rest := ListFilters(fs[1..]);
      ListFiltersShape(fs[1..]);
      var c := Clause(fs[0]);
      assert ListFilters(fs) == c + rest;
      if rest == [] {
        assert (c + rest)[|c + rest| - 5..] == c[|c| - 5..];
      } else {
        assert (c + rest)[|c + rest| - 5..] == rest[|rest| - 5..];
      }
    }
  }

  /** The settings the controller starts from: the fixes at construction, then `session` switched off. */
  function Prepared(rs: RenderSettings, selected: seq<SelectedFilter>, globalLid: string): (r: RenderSettings)
    ensures r.listNr == rs.listNr && r.pageno == rs.pageno && r.listCat == rs.listCat
    ensures rs.listFilters != "" ==> r.listFilters == rs.listFilters
    ensures rs.listFilters == "" ==> r.listFilters == ListFilters(selected)
    ensures r.swVarLid == if rs.swVarLid != "" then rs.swVarLid else globalLid
    ensures !r.session
  {
    rs.(listFilters := if rs.listFilters != "" then rs.listFilters else ListFilters(selected),
        swVarLid := if rs.swVarLid != "" then rs.swVarLid else globalLid,
        session := false)
  }

  /**
   * The request `checkLoadmore` sends: none when every entry is already shown, otherwise one entry
   * per page and the page just after the first page of the start settings.
   */
  function ProbeRequest(start: RenderSettings): (r: Option<RenderSettings>)
    ensures r.None? <==> start.listNr == 0
    ensures r.Some? ==> r.value == start.(pageno := start.listNr + 1, listNr := 1)
  {
    if start.listNr == 0 then None else Some(start.(pageno := start.listNr + 1, listNr := 1))
  }

  /** The first entry a request asks for, when the server pages as `(pageno - 1) * list_nr`. */
  function Offset(rs: RenderSettings): int {
    (rs.pageno - 1) * rs.listNr
  }

  /** The probe asks for exactly one entry: the first one after the entries of the first page. */
  lemma ProbeAsksForNextEntry(start: RenderSettings)
    requires start.listNr != 0
    ensures ProbeRequest(start).value.listNr == 1
    ensures Offset(ProbeRequest(start).value) == Offset(start.(pageno := 1)) + start.listNr
  {
  }

  /** The settings a filter button sends: the start snapshot, narrowed to one category. */
  function FilterSettings(start: RenderSettings, activeId: string): (r: RenderSettings)
    ensures r.listCat == start.listCat + " AND cat_" + activeId
    ensures r.(listCat := start.listCat) == start
  {
    start.(listCat := start.listCat + " AND cat_" + activeId)
  }

  /** Clicks on filter buttons do not accumulate: only the last one narrows the start snapshot. */
  lemma FilterClicksDoNotAccumulate(start: RenderSettings, first: string, second: string)
    ensures FilterSettings(start, second).pageno == start.pageno
    ensures FilterSettings(start, first) != FilterSettings(start, second) <==> first != second
  {
    if first != second {
      var a := FilterSettings(start, first).listCat;
      var b := FilterSettings(start, second).listCat;
      var k := |start.listCat + " AND cat_"|;
      assert a[k..] == first;
      assert b[k..] == second;
    }
  }

  datatype LoadType = Add | Replace

  /** The `type` string `loadEntries` receives and passes on to `change` listeners. */
  function TypeName(t: LoadType): string {
    match t
    case Add => "add"
    case Replace => "replace"
  }

  /** A piece of the overview: a server fragment, or the "no results" message `_createErrorMessage` builds. */
  datatype Piece = Fragment(html: string) | ErrorMessage

  /** The server's JSON answer. */
  datatype Response = Response(html: string, empty: bool)

  /** A request either yields a response or is rejected (and only logged). */
  datatype Fetch = Received(response: Response) | Failed

  /**
   * What `loadEntries` acts on: the overview, whether `this.error` is set, and the load-more button
   * (None when there is none, otherwise whether it carries the `hidden` class).
   */
  datatype View = View(overview: seq<Piece>, hasError: bool, loadmore: Option<bool>)

  /** The message is in the overview at most once, and only while `this.error` refers to it. */
  predicate WellFormed(v: View) {
    (ErrorMessage in v.overview ==> v.hasError) && multiset(v.overview)[ErrorMessage] <= 1
  }

  datatype Loaded = Loaded(view: View, calls: seq<Call>)

  /** `emit('change', data)` when a `change` list exists, nothing otherwise. */
  function Notify(change: Option<seq<Listener>>, data: string): (r: seq<Call>)
    ensures change.None? ==> r == []
    ensures change.Some? ==> r == Calls(change.value, data)
  {
    if change.None? then [] else Calls(change.value, data)
  }

  /**
   * The effect of one `loadEntries(type)` once the response is in. Touching a missing load-more
   * button throws inside the promise callback; the steps after it are skipped and the error is logged.
   */
  function LoadEffect(v: View, kind: LoadType, fetch: Fetch, loadmoreActive: bool, change: Option<seq<Listener>>): (r: Loaded)
    ensures fetch.Failed? ==> r == Loaded(v, [])
    ensures fetch.Received? && loadmoreActive && v.loadmore.None? ==>
      && r.view.loadmore.None? && r.view.hasError == v.hasError
      && (fetch.response.html == "" ==> r.view.overview == [] && r.calls == [])
      && (fetch.response.html != "" ==>
            |r.view.overview| >= 1 && r.view.overview[|r.view.overview| - 1] == Fragment(fetch.response.html)
            && r.view.overview[..|r.view.overview| - 1] == (if kind == Add then v.overview else [])
            && r.calls == Notify(change, TypeName(kind)))
  {
    if fetch.Failed? then Loaded(v, [])
    else
      var resp := fetch.response;
      var missing := loadmoreActive && v.loadmore.None?;
      if resp.html != "" then
        var inserted := if kind == Add then v.overview + [Fragment(resp.html)] else [Fragment(resp.html)];
        var calls := Notify(change, TypeName(kind));
        if missing then Loaded(View(inserted, v.hasError, None), calls)
        else
          var button := if loadmoreActive then Some(resp.empty) else v.loadmore;
          var kept := if v.hasError then Without(inserted, ErrorMessage) else inserted;
          Loaded(View(kept, false, button), calls)
      else if missing then Loaded(View([], v.hasError, None), [])
      else
        var button := if loadmoreActive then Some(true) else v.loadmore;
        Loaded(View([ErrorMessage], true, button), Notify(change, "empty"))
  }

  /** A page that arrived: 'add' appends it after the old entries, 'replace' shows only it; the message goes. */
  lemma LoadedEntries(v: View, kind: LoadType, resp: Response, loadmoreActive: bool, change: Option<seq<Listener>>)
    requires WellFormed(v) && resp.html != "" && !(loadmoreActive && v.loadmore.None?)
    ensures var r := LoadEffect(v, kind, Received(resp), loadmoreActive, change).view;
      && r.overview == (if kind == Add then Without(v.overview, ErrorMessage) else []) + [Fragment(resp.html)]
      && !r.hasError && ErrorMessage !in r.overview
      && (loadmoreActive ==> r.loadmore == Some(resp.empty))
      && (!loadmoreActive ==> r.loadmore == v.loadmore)
  {
    var inserted := if kind == Add then v.overview + [Fragment(resp.html)] else [Fragment(resp.html)];
    WithoutConcat(v.overview, [Fragment(resp.html)], ErrorMessage);
    assert Without([Fragment(resp.html)], ErrorMessage) == [Fragment(resp.html)];
    if kind == Add && !v.hasError {
      assert ErrorMessage !in v.overview;
    }
  }

  /**
   * An empty answer leaves just the message with `this.error` set and reports 'empty'; with
   * load-more active it also hides the button, otherwise the button is left alone.
   */
  lemma LoadedNothing(v: View, kind: LoadType, resp: Response, loadmoreActive: bool, change: Option<seq<Listener>>)
    requires resp.html == "" && !(loadmoreActive && v.loadmore.None?)
    ensures var r := LoadEffect(v, kind, Received(resp), loadmoreActive, change);
      && r.view.overview == [ErrorMessage] && r.view.hasError
      && (loadmoreActive ==> r.view.loadmore == Some(true))
      && (!loadmoreActive ==> r.view.loadmore == v.loadmore)
      && r.calls == Notify(change, "empty")
  {
  }

  /** Listeners hear about a page by its load type and about an empty answer as 'empty', in registration order. */
  lemma LoadNotifies(v: View, kind: LoadType, resp: Response, loadmoreActive: bool, change: Option<seq<Listener>>)
    requires !(loadmoreActive && v.loadmore.None?)
    ensures var calls := LoadEffect(v, kind, Received(resp), loadmoreActive, change).calls;
      calls == Notify(change, if resp.html != "" then TypeName(kind) else "empty")
  {
  }

  /** Whatever the answer, the overview stays well formed. */
  lemma LoadKeepsWellFormed(v: View, kind: LoadType, fetch: Fetch, loadmoreActive: bool, change: Option<seq<Listener>>)
    requires WellFormed(v)
    ensures WellFormed(LoadEffect(v, kind, fetch, loadmoreActive, change).view)
    ensures LoadEffect(v, kind, fetch, loadmoreActive, change).view.loadmore.Some? ==> v.loadmore.Some? || loadmoreActive
  {
    var r := LoadEffect(v, kind, fetch, loadmoreActive, change).view;
    if fetch.Received? && fetch.response.html != "" {
      PageKeepsWellFormed(v, kind, fetch.response.html, r);
    } else if fetch.Received? {
      assert r.overview == [] || r.overview == [ErrorMessage];
    }
  }

  /** The page branch: the message count never grows, and the message leaves whenever it is deleted. */
  lemma PageKeepsWellFormed(v: View, kind: LoadType, html: string, r: View)
    requires WellFormed(v)
    requires var inserted := if kind == Add then v.overview + [Fragment(html)] else [Fragment(html)];
      r == View(inserted, v.hasError, r.loadmore)
      || r == View(if v.hasError then Without(inserted, ErrorMessage) else inserted, false, r.loadmore)
    ensures WellFormed(r)
  {
    var inserted := if kind == Add then v.overview + [Fragment(html)] else [Fragment(html)];
    assert multiset(inserted)[ErrorMessage] <= multiset(v.overview)[ErrorMessage];
    assert ErrorMessage in inserted ==> ErrorMessage in v.overview;
    WithoutCounts(inserted, ErrorMessage, Fragment(html));
  }

  /** A rejected request changes nothing and notifies nobody. */
  lemma LoadFailureChangesNothing(v: View, kind: LoadType, loadmoreActive: bool, change: Option<seq<Listener>>)
    ensures LoadEffect(v, kind, Failed, loadmoreActive, change) == Loaded(v, [])
  {
  }

  /** The controller: its options, the start snapshot, the live settings, the event bus and the overview. */
  class Controller {
    const options: Json
    const loadmoreActive: bool
    const filterbarActive: bool
    const environment: Env
    const loadmoreUrl: string
    /** `rendersettingsStart`, the snapshot every filter click starts from. */
    const start: RenderSettings

    var rendersettings: RenderSettings
    var events: Events
    var overview: seq<Piece>
    var hasError: bool
    var loadmore: Option<bool>

    function Current(): View
      reads this
    {
      View(overview, hasError, loadmore)
    }

    predicate Valid()
      reads this
    {
      && WellFormed(Current())
      && (loadmore.Some? ==> loadmoreActive)
      && loadmoreUrl == LoadmoreUrl(environment)
    }

    /**
     * A controller over a found wrapper whose data attributes parsed. `parentFound` says whether the
     * load-more parent exists; `probe` is the answer to the probe request sent at start.
     */
    constructor (userOptions: Json, rs: RenderSettings, selected: seq<SelectedFilter>, globalLid: string,
                 env: Env, initial: seq<Piece>, parentFound: bool, probe: Fetch)
      requires Truthy(userOptions) ==> Canonical(userOptions) && Mergeable(Defaults(), userOptions)
      requires ErrorMessage !in initial
      ensures Valid()
      ensures options == Resolve(userOptions)
      ensures loadmoreActive == Truthy(Field(Field(options, "loadmore"), "active"))
      ensures filterbarActive == Truthy(Field(Field(options, "filterbar"), "active"))
      ensures start == Prepared(rs, selected, globalLid) && rendersettings == start
      ensures environment == env && loadmoreUrl == LoadmoreUrl(env)
      ensures events == map[] && overview == initial && !hasError
      ensures !(loadmoreActive && parentFound) ==> loadmore == None
      ensures loadmoreActive && parentFound ==> loadmore == Some(ProbeHidden(start, probe, false))
    {
      var o := Resolve(userOptions);
      var s := Prepared(rs, selected, globalLid);
      options := o;
      loadmoreActive := Truthy(Field(Field(o, "loadmore"), "active"));
      filterbarActive := Truthy(Field(Field(o, "filterbar"), "active"));
      start := s;
      rendersettings := s;
      environment := env;
      loadmoreUrl := LoadmoreUrl(env);
      events := map[];
      overview := initial;
      hasError := false;
      loadmore := None;
      new;
      if loadmoreActive && parentFound {
        loadmore := Some(false);
        var _ := CheckLoadmore(probe);
      }
    }

    /** `checkLoadmore`: the probe's request, and whether the button stays hidden afterwards. */
    method CheckLoadmore(probe: Fetch) returns (request: Option<RenderSettings>)
      requires Valid() && loadmore.Some?
      modifies this`loadmore
      ensures Valid()
      ensures request == ProbeRequest(start)
      ensures loadmore == Some(ProbeHidden(start, probe, old(loadmore).value))
    {
      request := ProbeRequest(start);
      if request.None? {
        loadmore := Some(true);
        return;
      }
      if probe.Received? {
        loadmore := Some(probe.response.html == "");
      }
    }

    /** `on(name, listener)`. */
    method On(name: string, l: Listener)
      modifies this`events
      ensures events == Subscribe(old(events), name, l)
    {
      if name !in events {
        events := events[name := []];
      }
      events := events[name := events[name] + [l]];
    }

    /** `removeListener(name, listener)`; a thrown error is the Failure. */
    method RemoveListener(name: string, l: Listener) returns (r: Result<(), string>)
      modifies this`events
      ensures var u := Unsubscribe(old(events), name, l);
        && (u.Failure? ==> r == Failure(u.error) && events == old(events))
        && (u.Success? ==> r == Success(()) && events == u.value)
    {
      if name !in events {
        return Failure(RemoveError(name));
      }
      events := events[name := Without(events[name], l)];
      r := Success(());
    }

    /** `emit(name, data)`: the calls it makes, in order, or the error it throws. */
    method Emit(name: string, data: string) returns (r: Result<seq<Call>, string>)
      ensures r == Dispatch(events, name, data)
    {
      if name !in events {
        return Failure(EmitError(name));
      }
      var ls := events[name];
      var calls: seq<Call> := [];
      var i := 0;
      while i < |ls|
        invariant 0 <= i <= |ls|
        invariant calls == Calls(ls[..i], data)
      {
        calls := calls + [Call(ls[i], data)];
        i := i + 1;
      }
      assert ls[..i] == ls;
      r := Success(calls);
    }

    /** `_deleteErrorMessage`. */
    method DeleteErrorMessage()
      modifies this`overview, this`hasError
      ensures overview == if old(hasError) then Without(old(overview), ErrorMessage) else old(overview)
      ensures !hasError
    {
      if !hasError {
        return;
      }
      overview := Without(overview, ErrorMessage);
      hasError := false;
    }

    /** The listeners a `change` emit would reach, if the event was ever registered. */
    function Change(): Option<seq<Listener>>
      reads this
    {
      if "change" in events then Some(events["change"]) else None
    }

    /** `loadEntries(type)` given the server's answer: the request it sends and the listener calls it makes. */
    method LoadEntries(kind: LoadType, fetch: Fetch) returns (request: RenderSettings, calls: seq<Call>)
      requires Valid()
      modifies this`overview, this`hasError, this`loadmore
      ensures Valid()
      ensures request == rendersettings
      ensures Loaded(Current(), calls) == LoadEffect(old(Current()), kind, fetch, loadmoreActive, Change())
    {
      request := rendersettings;
      calls := [];
      ghost var before, change := Current(), Change();
      LoadKeepsWellFormed(before, kind, fetch, loadmoreActive, change);
      if fetch.Failed? {
        return;
      }
      if fetch.response.html != "" {
        calls := ShowPage(kind, fetch.response);
      } else {
        calls := ShowNothing(fetch.response);
      }
      assert Change() == change;
      assert Current() == LoadEffect(before, kind, fetch, loadmoreActive, change).view;
    }

    /** The `html !== ''` branch of `loadEntries`. */
    method ShowPage(kind: LoadType, resp: Response) returns (calls: seq<Call>)
      requires resp.html != ""
      modifies this`overview, this`hasError, this`loadmore
      ensures Loaded(Current(), calls) == LoadEffect(old(Current()), kind, Received(resp), loadmoreActive, Change())
    {
      calls := [];
      if kind == Add {
        overview := overview + [Fragment(resp.html)];
      } else {
        overview := [Fragment(resp.html)];
      }
      if "change" in events {
        var r := Emit("change", TypeName(kind));
        calls := r.value;
      }
      if loadmoreActive {
        if loadmore.None? {
          return;
        }
        loadmore := Some(resp.empty);
      }
      DeleteErrorMessage();
    }

    /** The `html === ''` branch of `loadEntries`. */
    method ShowNothing(resp: Response) returns (calls: seq<Call>)
      requires resp.html == ""
      modifies this`overview, this`hasError, this`loadmore
      ensures forall kind :: Loaded(Current(), calls) == LoadEffect(old(Current()), kind, Received(resp), loadmoreActive, Change())
    {
      calls := [];
      overview := [];
      if loadmoreActive {
        if loadmore.None? {
          return;
        }
        loadmore := Some(true);
      }
      if "change" in events {
        var r := Emit("change", "empty");
        calls := r.value;
      }
      overview := overview + [ErrorMessage];
      hasError := true;
    }

    /** A click on a filter button with value `activeId`: back to the start snapshot, narrowed, then replace. */
    method FilterClick(activeId: string, fetch: Fetch) returns (request: Option<RenderSettings>, calls: seq<Call>)
      requires Valid()
      modifies this`rendersettings, this`overview, this`hasError, this`loadmore
      ensures Valid()
      ensures !filterbarActive ==> request == None && calls == [] && unchanged(this)
      ensures filterbarActive ==> rendersettings == FilterSettings(start, activeId) && request == Some(rendersettings)
      ensures filterbarActive ==>
                Loaded(Current(), calls) == LoadEffect(old(Current()), Replace, fetch, loadmoreActive, Change())
    {
      request, calls := None, [];
      if filterbarActive {
        rendersettings := FilterSettings(start, activeId);
        var sent;
        sent, calls := LoadEntries(Replace, fetch);
        request := Some(sent);
      }
    }

    /** A click on the load-more button: the next page, then add. */
    method LoadMoreClick(fetch: Fetch) returns (request: Option<RenderSettings>, calls: seq<Call>)
      requires Valid()
      modifies this`rendersettings, this`overview, this`hasError, this`loadmore
      ensures Valid()
      ensures !loadmoreActive ==> request == None && calls == [] && unchanged(this)
      ensures loadmoreActive ==> rendersettings == old(rendersettings).(pageno := old(rendersettings).pageno + 1)
      ensures loadmoreActive ==> request == Some(rendersettings)
      ensures loadmoreActive ==>
                Loaded(Current(), calls) == LoadEffect(old(Current()), Add, fetch, loadmoreActive, Change())
    {
      request, calls := None, [];
      if loadmoreActive {
        rendersettings := rendersettings.(pageno := rendersettings.pageno + 1);
        var sent;
        sent, calls := LoadEntries(Add, fetch);
        request := Some(sent);
      }
    }
  }

  /** Whether the load-more button is hidden after the probe: always when all entries show, else iff nothing came back. */
  function ProbeHidden(start: RenderSettings, probe: Fetch, hidden: bool): (r: bool)
    ensures start.listNr == 0 ==> r
    ensures start.listNr != 0 && probe.Received? ==> (r <==> probe.response.html == "")
    ensures start.listNr != 0 && probe.Failed? ==> r == hidden
  {
    if start.listNr == 0 then true
    else if probe.Received? then probe.response.html == ""
    else hidden
  }
}
