/** The batch run: `_readList` splits the site file into lines and `_takeScreenshots` walks
    them in order, loading each site, capturing it through the scale cascade and saving
    the result when there is one. Loading and saving are events in a log; the browser and
    the download code are oracles in a `Host`. */
module Batch {
  import opened Wrappers
  import opened CaptureEngine
  import opened RetryPolicy
  import opened SiteList

  /** What the run does, in order: load a site, attempt a capture at a scale, save the
      capture data, do nothing for a site without data, or stop because saving threw.
      The `url` of a `Save` tags the loop iteration it belongs to; the file itself is
      named by `_saveImage` after the document's domain, which is not modelled. */
  datatype Event =
    | Load(url: string)
    | Attempt(scale: real)
    | Save(url: string, data: CaptureData)
    | Noop
    | Abort

  /** The collaborators: the page the i-th load of a url settles on, and whether
      `_saveImage` throws for the i-th site's data. */
  datatype Host = Host(load: (nat, string) -> Page, saveThrows: (nat, CaptureData) -> bool)

  /** The loop always captures the entire page. */
  const Mode := Entire

  /** The format read from the `use_jpeg` preference; `None` stands for a missing
      preference branch. */
  function PreferredFormat(useJpeg: Option<bool>): (r: string)
    ensures KnownFormat(r)
    ensures r == Jpeg <==> useJpeg == Some(true)
  {
    if useJpeg == Some(true) then Jpeg else Png
  }

  function Attempts(tried: seq<real>): seq<Event>
  {
    if tried == [] then [] else [Attempt(tried[0])] + Attempts(tried[1..])
  }

  /** What the cascade produced for each site, in list order, on the page its load yields. */
  function Visits(sites: seq<string>, format: string, dpr: real, host: Host): (visits: seq<Fallback>)
    ensures |visits| == |sites|
  {
    seq(|sites|, j requires 0 <= j < |sites| => CaptureWithFallback(host.load(j, sites[j]), Mode, format, dpr))
  }

  /** Whether saving throws for the i-th site: only a site with capture data is saved. */
  predicate SaveThrows(host: Host, i: nat, f: Fallback)
  {
    f.data.Some? && host.saveThrows(i, f.data.value)
  }

  /** The events of one iteration of the site loop, given what the cascade produced and
      whether saving threw. */
  function SiteTrace(url: string, f: Fallback, saveThrew: bool): seq<Event>
  {
    [Load(url)] + Attempts(f.tried) +
    match f.data
    case None => [Noop]
    case Some(d) => [Save(url, d)] + (if saveThrew then [Abort] else [])
  }

  /** The events of the loop from site `i` on, given the cascade's result for every site. */
  function Run(sites: seq<string>, visits: seq<Fallback>, host: Host, i: nat): seq<Event>
    requires |visits| == |sites| && i <= |sites|
    decreases |sites| - i
  {
    if i == |sites| then []
    else
      var threw := SaveThrows(host, i, visits[i]);
      var block := SiteTrace(sites[i], visits[i], threw);
      if threw then block else block + Run(sites, visits, host, i + 1)
  }

  /** The events of a whole batch run. */
  function BatchRun(sites: seq<string>, format: string, dpr: real, host: Host): seq<Event>
  {
    Run(sites, Visits(sites, format, dpr, host), host, 0)
  }

  /** `_takeScreenshots`: one pass over the sites in list order. */
  method TakeScreenshots(sites: seq<string>, useJpeg: Option<bool>, dpr: real, host: Host)
    returns (events: seq<Event>)
    ensures events == BatchRun(sites, PreferredFormat(useJpeg), dpr, host)
  {
    var format := PreferredFormat(useJpeg);
    ghost var visits := Visits(sites, format, dpr, host);
    events := [];
    var i := 0;
    while i < |sites|
      invariant i <= |sites|
      invariant events + Run(sites, visits, host, i) == Run(sites, visits, host, 0)
    {
      var block, threw := VisitSite(sites, i, format, dpr, host);
      events := events + block;
      if threw {
        return;
      }
      i := i + 1;
    }
  }

  /** One iteration of the site loop: load the site, capture it through the retries,
      then save the data if there is any. */
  method VisitSite(sites: seq<string>, i: nat, format: string, dpr: real, host: Host)
    returns (block: seq<Event>, threw: bool)
    requires i < |sites|
    ensures var f := Visits(sites, format, dpr, host)[i];
            threw == SaveThrows(host, i, f) && block == SiteTrace(sites[i], f, threw)
  {
    var site := sites[i];
    var page := host.load(i, site);
    var tried, outcome := CaptureWithRetries(page, Mode, format, dpr);
    ghost var f := Fallback(tried, if outcome.Captured? then Some(outcome.data) else None);
    assert f == Visits(sites, format, dpr, host)[i];
    block := [Load(site)] + Attempts(tried);
    threw := false;
    if outcome.Captured? {
      block := block + [Save(site, outcome.data)];
      threw := host.saveThrows(i, outcome.data);
      if threw {
        block := block + [Abort];
      }
    } else {
      block := block + [Noop];
    }
  }

  /** The nested try/catch blocks of the loop body: capture at `dpr`; if that throws, at 2;
      if that throws too, at 1. Returns the scales tried and the outcome of the last
      attempt, which is exactly what the retry policy decides. */
  method CaptureWithRetries(page: Page, mode: string, format: string, dpr: real)
    returns (tried: seq<real>, outcome: Outcome)
    ensures CaptureWithFallback(page, mode, format, dpr)
         == Fallback(tried, if outcome.Captured? then Some(outcome.data) else None)
  {
    assert Tiers(dpr)[1..] == [2.0, 1.0];
    assert [2.0, 1.0][1..] == [1.0];
    assert [1.0][1..] == [];
    outcome := Capture(page.docAt(0), page.drawAt(0), mode, format, dpr);
    tried := [dpr];
    if outcome.Threw? {
      outcome := Capture(page.docAt(1), page.drawAt(1), mode, format, 2.0);
      tried := tried + [2.0];
      if outcome.Threw? {
        outcome := Capture(page.docAt(2), page.drawAt(2), mode, format, 1.0);
        tried := tried + [1.0];
        assert Cascade(page, mode, format, [], 3) == Fallback([], None);
        assert Cascade(page, mode, format, [1.0], 2)
            == Fallback([1.0], if outcome.Captured? then Some(outcome.data) else None);
      }
      assert Cascade(page, mode, format, [2.0, 1.0], 1)
          == Fallback(tried[1..], if outcome.Captured? then Some(outcome.data) else None);
    }
  }

  /** `_readList` once the site file has arrived: split the text and run the batch. */
  method ReadList(txt: string, useJpeg: Option<bool>, dpr: real, host: Host) returns (events: seq<Event>)
    ensures events == BatchRun(SplitLines(txt), PreferredFormat(useJpeg), dpr, host)
  {
    var sitesArray := SplitLines(txt);
    events := TakeScreenshots(sitesArray, useJpeg, dpr, host);
  }

  // ---------------------------------------------------------------------------
  // Loads: which sites the run visits, and in what order

  /** The urls of the load events, in order. */
  function Loads(events: seq<Event>): seq<string>
  {
    if events == [] then []
    else (if events[0].Load? then [events[0].url] else []) + Loads(events[1..])
  }

  lemma {:induction false} LoadsAppend(a: seq<Event>, b: seq<Event>)
    ensures Loads(a + b) == Loads(a) + Loads(b)
  {
    if a != [] {
      LoadsAppend(a[1..], b);
      assert (a + b)[1..] == a[1..] + b;
    } else {
      assert a + b == b;
    }
  }

  lemma {:induction false} LoadsAttempts(tried: seq<real>)
    ensures Loads(Attempts(tried)) == []
  {
    if tried != [] {
      LoadsAttempts(tried[1..]);
      LoadsAppend([Attempt(tried[0])], Attempts(tried[1..]));
    }
  }

  /** Each iteration loads its own site and nothing else. */
  lemma SiteTraceLoads(url: string, f: Fallback, saveThrew: bool)
    ensures Loads(SiteTrace(url, f, saveThrew)) == [url]
  {
    var tail := match f.data
      case None => [Noop]
      case Some(d) => [Save(url, d)] + (if saveThrew then [Abort] else []);
    LoadsAppend([Load(url)] + Attempts(f.tried), tail);
    LoadsAppend([Load(url)], Attempts(f.tried));
    LoadsAttempts(f.tried);
    assert Loads([Load(url)]) == [url];
    if f.data.None? {
      assert Loads(tail) == [];
    } else {
      var d := f.data.value;
      var rest := if saveThrew then [Abort] else [];
      assert Loads(rest) == [];
      LoadsAppend([Save(url, d)], rest);
    }
  }

  /** One step of the run, seen through its loads: the site itself, then the rest of
      the run unless saving threw. */
  lemma LoadsRunStep(sites: seq<string>, visits: seq<Fallback>, host: Host, i: nat)
    requires |visits| == |sites| && i < |sites|
    ensures Loads(Run(sites, visits, host, i))
         == [sites[i]] + (if SaveThrows(host, i, visits[i]) then [] else Loads(Run(sites, visits, host, i + 1)))
  {
    var threw := SaveThrows(host, i, visits[i]);
    SiteTraceLoads(sites[i], visits[i], threw);
    if !threw {
      LoadsAppend(SiteTrace(sites[i], visits[i], threw), Run(sites, visits, host, i + 1));
    }
  }

  /** The run loads the sites strictly in list order, one load per site, from site `i`
      on: the loads are a prefix of the remaining sites. */
  lemma {:induction false} RunLoadsInOrder(sites: seq<string>, visits: seq<Fallback>, host: Host, i: nat)
    requires |visits| == |sites| && i <= |sites|
    ensures var l := Loads(Run(sites, visits, host, i));
            |l| <= |sites| - i && l == sites[i..i + |l|]
    decreases |sites| - i
  {
    if i < |sites| {
      LoadsRunStep(sites, visits, host, i);
      if !SaveThrows(host, i, visits[i]) {
        RunLoadsInOrder(sites, visits, host, i + 1);
        var l' := Loads(Run(sites, visits, host, i + 1));
        assert Loads(Run(sites, visits, host, i)) == [sites[i]] + l';
        assert sites[i..i + 1 + |l'|] == [sites[i]] + sites[i + 1..i + 1 + |l'|];
      } else {
        assert Loads(Run(sites, visits, host, i)) == [sites[i]] == sites[i..i + 1];
      }
    }
  }

  /** The prefix of loaded sites stops short only where saving threw, and no site before
      the last loaded one threw while saving. */
  lemma {:induction false} RunStopsOnlyAtAbort(sites: seq<string>, visits: seq<Fallback>, host: Host, i: nat)
    requires |visits| == |sites| && i <= |sites|
    ensures var n := |Loads(Run(sites, visits, host, i))|;
            && n <= |sites| - i
            && (forall j :: i <= j < i + n - 1 ==> !SaveThrows(host, j, visits[j]))
            && (n < |sites| - i ==> n > 0 && SaveThrows(host, i + n - 1, visits[i + n - 1]))
    decreases |sites| - i
  {
    if i < |sites| {
      LoadsRunStep(sites, visits, host, i);
      var n := |Loads(Run(sites, visits, host, i))|;
      if !SaveThrows(host, i, visits[i]) {
        RunStopsOnlyAtAbort(sites, visits, host, i + 1);
        assert n == 1 + |Loads(Run(sites, visits, host, i + 1))|;
      } else {
        assert n == 1;
      }
    }
  }

  /** When no save throws, every entry of the list, blank ones included, is loaded
      exactly once and in order. */
  lemma EverySiteLoaded(sites: seq<string>, format: string, dpr: real, host: Host)
    requires forall j :: 0 <= j < |sites| ==> !SaveThrows(host, j, Visits(sites, format, dpr, host)[j])
    ensures Loads(BatchRun(sites, format, dpr, host)) == sites
  {
    var visits := Visits(sites, format, dpr, host);
    RunLoadsInOrder(sites, visits, host, 0);
    RunStopsOnlyAtAbort(sites, visits, host, 0);
  }

  /** Read end to end: when no save throws, the loaded urls glued back with newlines are
      the text of the site file. */
  lemma ReadListLoadsEveryLine(txt: string, format: string, dpr: real, host: Host)
    requires forall j :: 0 <= j < |SplitLines(txt)| ==>
               !SaveThrows(host, j, Visits(SplitLines(txt), format, dpr, host)[j])
    ensures Join(Loads(BatchRun(SplitLines(txt), format, dpr, host))) == txt
  {
    EverySiteLoaded(SplitLines(txt), format, dpr, host);
    JoinSplit(txt);
  }

  // ---------------------------------------------------------------------------
  // The protocol every run follows, as an automaton over the event log

  /** Where a run stands: between sites, on a loaded site after some attempts, just
      after a save, or stopped. */
  datatype Phase = Ready | Loaded(url: string, attempts: nat) | Saved | Halted

  /** One event of the protocol: a load only between sites; at most three attempts per
      load, at the scales dpr, 2 and 1 in that order; after at least one attempt either
      nothing or one save, naming the loaded site, with data of the run's format whose
      extension agrees with it; an abort only right after a save, and nothing after it. */
  function Step(format: string, dpr: real, p: Phase, e: Event): Option<Phase>
  {
    match p
    case Ready => if e.Load? then Some(Loaded(e.url, 0)) else None
    case Saved =>
      if e.Load? then Some(Loaded(e.url, 0))
      else if e.Abort? then Some(Halted)
      else None
    case Loaded(u, n) =>
      (match e
       case Attempt(s) => if n < 3 && s == Tiers(dpr)[n] then Some(Loaded(u, n + 1)) else None
       case Save(v, d) =>
         if 0 < n && v == u && d.dataType == format && MimeOf(d.extension) == Some(format)
         then Some(Saved) else None
       case Noop => if 0 < n then Some(Ready) else None
       case _ => None)
    case Halted => None
  }

  function Replay(format: string, dpr: real, p: Phase, events: seq<Event>): Option<Phase>
    decreases |events|
  {
    if events == [] then Some(p)
    else
      match Step(format, dpr, p, events[0])
      case None => None
      case Some(q) => Replay(format, dpr, q, events[1..])
  }

  /** A run that follows the protocol from the start and does not stop in the middle of a site. */
  predicate FollowsProtocol(format: string, dpr: real, events: seq<Event>)
  {
    var end := Replay(format, dpr, Ready, events);
    end.Some? && !end.value.Loaded?
  }

  lemma {:induction false} ReplayAppend(format: string, dpr: real, p: Phase, a: seq<Event>, b: seq<Event>)
    ensures Replay(format, dpr, p, a + b) ==
            match Replay(format, dpr, p, a)
            case None => None
            case Some(q) => Replay(format, dpr, q, b)
    decreases |a|
  {
    if a == [] {
      assert a + b == b;
    } else {
      assert (a + b)[0] == a[0];
      assert (a + b)[1..] == a[1..] + b;
      match Step(format, dpr, p, a[0])
      case None =>
      case Some(q) => ReplayAppend(format, dpr, q, a[1..], b);
    }
  }

  lemma {:induction false} ReplayAttempts(format: string, dpr: real, u: string, n: nat, tried: seq<real>)
    requires n + |tried| <= 3
    requires forall k :: 0 <= k < |tried| ==> tried[k] == Tiers(dpr)[n + k]
    ensures Replay(format, dpr, Loaded(u, n), Attempts(tried)) == Some(Loaded(u, n + |tried|))
    decreases |tried|
  {
    if tried != [] {
      ReplayAttempts(format, dpr, u, n + 1, tried[1..]);
      ReplayAppend(format, dpr, Loaded(u, n), [Attempt(tried[0])], Attempts(tried[1..]));
    }
  }

  /** What the protocol asks of one cascade result: a non-empty prefix of the tiers was
      tried, and any data has the run's format and an extension naming it. */
  predicate Conforms(format: string, dpr: real, f: Fallback)
  {
    && 0 < |f.tried| <= 3 && f.tried == Tiers(dpr)[..|f.tried|]
    && (f.data.Some? ==> f.data.value.dataType == format && MimeOf(f.data.value.extension) == Some(format))
  }

  /** Every site's cascade result conforms when the run's format is a known one. */
  lemma VisitsConform(sites: seq<string>, format: string, dpr: real, host: Host)
    requires KnownFormat(format)
    ensures forall j :: 0 <= j < |sites| ==> Conforms(format, dpr, Visits(sites, format, dpr, host)[j])
  {
    forall j | 0 <= j < |sites|
      ensures Conforms(format, dpr, Visits(sites, format, dpr, host)[j])
    {
      var f := Visits(sites, format, dpr, host)[j];
      assert f == Cascade(host.load(j, sites[j]), Mode, format, Tiers(dpr), 0);
    }
  }

  /** One iteration takes the protocol from between sites to between sites, to just
      after a save, or to the stop. */
  lemma SiteTraceFollows(format: string, dpr: real, p: Phase, url: string, f: Fallback, saveThrew: bool)
    requires p == Ready || p == Saved
    requires Conforms(format, dpr, f)
    requires saveThrew ==> f.data.Some?
    ensures var end := Replay(format, dpr, p, SiteTrace(url, f, saveThrew));
            && end.Some?
            && (end.value == Halted <==> saveThrew)
            && (end.value == Ready || end.value == Saved || end.value == Halted)
  {
    var tail := match f.data
      case None => [Noop]
      case Some(d) => [Save(url, d)] + (if saveThrew then [Abort] else []);
    ReplayAppend(format, dpr, p, [Load(url)] + Attempts(f.tried), tail);
    ReplayAppend(format, dpr, p, [Load(url)], Attempts(f.tried));
    assert Replay(format, dpr, p, [Load(url)]) == Some(Loaded(url, 0));
    ReplayAttempts(format, dpr, url, 0, f.tried);
    var n := |f.tried|;
    if f.data.Some? {
      var d := f.data.value;
      var rest := if saveThrew then [Abort] else [];
      ReplayAppend(format, dpr, Loaded(url, n), [Save(url, d)], rest);
      assert Replay(format, dpr, Loaded(url, n), [Save(url, d)]) == Some(Saved);
    }
  }

  /** Every run from a point between sites follows the protocol to its end. */
  lemma {:induction false} RunFollows(format: string, dpr: real, p: Phase,
                                      sites: seq<string>, visits: seq<Fallback>, host: Host, i: nat)
    requires |visits| == |sites| && i <= |sites|
    requires forall j :: 0 <= j < |sites| ==> Conforms(format, dpr, visits[j])
    requires p == Ready || p == Saved
    ensures var end := Replay(format, dpr, p, Run(sites, visits, host, i));
            end.Some? && !end.value.Loaded?
    decreases |sites| - i
  {
    if i < |sites| {
      var threw := SaveThrows(host, i, visits[i]);
      var block := SiteTrace(sites[i], visits[i], threw);
      assert Conforms(format, dpr, visits[i]);
      SiteTraceFollows(format, dpr, p, sites[i], visits[i], threw);
      if !threw {
        var q := Replay(format, dpr, p, block).value;
        assert q == Ready || q == Saved;
        RunFollows(format, dpr, q, sites, visits, host, i + 1);
        ReplayAppend(format, dpr, p, block, Run(sites, visits, host, i + 1));
        assert Run(sites, visits, host, i) == block + Run(sites, visits, host, i + 1);
      } else {
        assert Run(sites, visits, host, i) == block;
      }
    }
  }

  /** Every batch run follows the protocol: per loaded site, one to three attempts at
      dpr, 2, 1 in that order, then exactly one save or no-op, a save naming that site
      with an image of the preferred format and the matching extension. */
  lemma BatchFollowsProtocol(sites: seq<string>, useJpeg: Option<bool>, dpr: real, host: Host)
    ensures var format := PreferredFormat(useJpeg);
            FollowsProtocol(format, dpr, BatchRun(sites, format, dpr, host))
  {
    var format := PreferredFormat(useJpeg);
    VisitsConform(sites, format, dpr, host);
    RunFollows(format, dpr, Ready, sites, Visits(sites, format, dpr, host), host, 0);
  }
}
