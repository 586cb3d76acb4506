/** The planner's scheduling loop: for every watched satellite, look it up in both
    catalogs, then compute its position for every filter on one simulated clock
    that only moves forward. */
module Scheduler {
  import opened Wrappers
  import opened Catalog
  import opened Sites
  import opened PlanLines

  /** Overhead durations in seconds, constant for the run. */
  datatype Overheads = Overheads(exposure: nat, pointing: nat, repointing: nat, reading: nat)

  /** The time one filter takes: exposure, repointing and reading. */
  function Cycle(o: Overheads): nat {
    o.exposure + o.repointing + o.reading
  }

  /** What the loop runs with. `S` is the propagator's satellite object;
      `readtle` builds one from a catalog record and may fail, `compute` gives its
      apparent position from a site at a clock value and may fail. */
  datatype Setup<!S> = Setup(
    filters: seq<string>,
    norad: seq<string>,
    classified: seq<string>,
    overheads: Overheads,
    readtle: Tle -> Option<S>,
    compute: (S, Site, int) -> Option<Coords>)

  /** The default run: exposure 60 s, pointing 120 s, repointing 60 s, reading 60 s. */
  const DefaultOverheads: Overheads := Overheads(60, 120, 60, 60)
  const DefaultFilters: seq<string> := ["R", "V", "B"]
  const DefaultWatchlist: seq<string> := ["ASTRA 1N"]
  const DefaultSite: string := "Nerpio"
  const DefaultLocalStart: string := "2015/8/24 02:30:00"

  /** One `try` around `sat = loadtle(...)`: the satellite object, when both the
      lookup and the record's parsing succeed. */
  function LoadSat<S>(name: string, catalog: seq<string>, readtle: Tle -> Option<S>): Option<S> {
    match Load(name, catalog)
    case Ok(t) => readtle(t)
    case Err(_) => None
  }

  /** The position of the bound satellite, if one is bound and it can be computed. */
  function Position<S>(sat: Option<S>, site: Site, clock: int, compute: (S, Site, int) -> Option<Coords>): Option<Coords> {
    match sat
    case None => None
    case Some(s) => compute(s, site, clock)
  }

  /** The filter block of one target: its lines, the clock after it, and how many
      filters it completed before the first failure. */
  datatype Block = Block(lines: seq<Line>, clock: int, done: nat)

  function FilterBlock<S>(cfg: Setup<S>, site: Site, sat: Option<S>, name: string, filters: seq<string>, clock: int): Block
    decreases |filters|
  {
    if filters == [] then Block([], clock, 0)
    else
      match Position(sat, site, clock, cfg.compute)
      case None => Block([], clock, 0)
      case Some(c) =>
        var rest := FilterBlock(cfg, site, sat, name, filters[1..], clock + Cycle(cfg.overheads));
        Block([FilterLine(filters[0]), Data(Sanitise(name), c)] + rest.lines, rest.clock, rest.done + 1)
  }

  /** What the loop carries from one target to the next (the bound satellite and the
      clock) with the lines one step emitted. */
  datatype Step<S> = Step(lines: seq<Line>, sat: Option<S>, clock: int)

  /** A catalog `try`: a success rebinds the satellite and spends the pointing time. */
  function Attempt<S>(found: Option<S>, sat: Option<S>, clock: int, pointing: nat): (Option<S>, int) {
    if found.Some? then (found, clock + pointing) else (sat, clock)
  }

  /** One target: the NORAD catalog, then the classified catalog, then the filters. */
  function TargetStep<S>(cfg: Setup<S>, site: Site, name: string, sat: Option<S>, clock: int): Step<S> {
    var (sat1, clock1) := Attempt(LoadSat(name, cfg.norad, cfg.readtle), sat, clock, cfg.overheads.pointing);
    var (sat2, clock2) := Attempt(LoadSat(name, cfg.classified, cfg.readtle), sat1, clock1, cfg.overheads.pointing);
    var b := FilterBlock(cfg, site, sat2, name, cfg.filters, clock2);
    Step(b.lines, sat2, b.clock)
  }

  /** The whole watchlist, target after target. */
  function Run<S>(cfg: Setup<S>, site: Site, targets: seq<string>, sat: Option<S>, clock: int): Step<S>
    decreases |targets|
  {
    if targets == [] then Step([], sat, clock)
    else
      var s := TargetStep(cfg, site, targets[0], sat, clock);
      var r := Run(cfg, site, targets[1..], s.sat, s.clock);
      Step(s.lines + r.lines, r.sat, r.clock)
  }

  /** The two catalog `try` blocks of one target, applied to the bound satellite and
      the clock. */
  method Acquire<S>(cfg: Setup<S>, name: string, sat: Option<S>, clock: int)
    returns (sat': Option<S>, clock': int)
    ensures var (sat1, clock1) := Attempt(LoadSat(name, cfg.norad, cfg.readtle), sat, clock, cfg.overheads.pointing);
      (sat', clock') == Attempt(LoadSat(name, cfg.classified, cfg.readtle), sat1, clock1, cfg.overheads.pointing)
  {
    sat', clock' := sat, clock;
    var t := LoadTle(name, cfg.norad);
    if t.Ok? {
      var s := cfg.readtle(t.value);
      if s.Some? {
        sat' := s;
        clock' := clock' + cfg.overheads.pointing;
      }
    }
    t := LoadTle(name, cfg.classified);
    if t.Ok? {
      var s := cfg.readtle(t.value);
      if s.Some? {
        sat' := s;
        clock' := clock' + cfg.overheads.pointing;
      }
    }
  }

  /** The filter `try` block of one target: for each filter in order, compute the
      position at the current clock, emit the directive and the data line, advance
      by one filter cycle; the first failure abandons the remaining filters and
      keeps the clock where it is. */
  method Observe<S>(cfg: Setup<S>, site: Site, sat: Option<S>, name: string, clock0: int)
    returns (emitted: seq<Line>, clock: int)
    ensures emitted == FilterBlock(cfg, site, sat, name, cfg.filters, clock0).lines
    ensures clock == FilterBlock(cfg, site, sat, name, cfg.filters, clock0).clock
  {
    var cycle := cfg.overheads.exposure + cfg.overheads.repointing + cfg.overheads.reading;
    ghost var block := FilterBlock(cfg, site, sat, name, cfg.filters, clock0);
    emitted, clock := [], clock0;
    var j := 0;
    while j < |cfg.filters|
      invariant j <= |cfg.filters|
      invariant emitted + FilterBlock(cfg, site, sat, name, cfg.filters[j..], clock).lines == block.lines
      invariant FilterBlock(cfg, site, sat, name, cfg.filters[j..], clock).clock == block.clock
    {
      assert cfg.filters[j..][1..] == cfg.filters[j + 1..];
      var pos := if sat.Some? then cfg.compute(sat.value, site, clock) else None;
      if pos.None? {
        break;
      }
      emitted := emitted + [FilterLine(cfg.filters[j]), Data(Sanitise(name), pos.value)];
      clock := clock + cycle;
      j := j + 1;
    }
  }

  /** The scheduling loop as the source runs it: `sat` and the clock are reassigned
      in place and the plan grows line by line. Returns the plan body and the final
      clock. */
  method Schedule<S>(cfg: Setup<S>, site: Site, watchlist: seq<string>, start: int)
    returns (plan: seq<Line>, clock: int)
    ensures plan == Run(cfg, site, watchlist, None, start).lines
    ensures clock == Run(cfg, site, watchlist, None, start).clock
  {
    ghost var total := Run(cfg, site, watchlist, None, start);
    plan, clock := [], start;
    var sat: Option<S> := None;
    var i := 0;
    while i < |watchlist|
      invariant i <= |watchlist|
      invariant plan + Run(cfg, site, watchlist[i..], sat, clock).lines == total.lines
      invariant Run(cfg, site, watchlist[i..], sat, clock).clock == total.clock
    {
      var name := watchlist[i];
      ghost var step := TargetStep(cfg, site, name, sat, clock);
      assert watchlist[i..][1..] == watchlist[i + 1..];
      assert Run(cfg, site, watchlist[i..], sat, clock).lines
        == step.lines + Run(cfg, site, watchlist[i + 1..], step.sat, step.clock).lines;
      sat, clock := Acquire(cfg, name, sat, clock);
      ghost var block := FilterBlock(cfg, site, sat, name, cfg.filters, clock);
      assert step == Step(block.lines, sat, block.clock);
      var lines;
      lines, clock := Observe(cfg, site, sat, name, clock);
      plan := plan + lines;
      i := i + 1;
    }
  }

  /** The whole script: select the site, convert the local start to UTC, write the
      header, run the loop. An unknown site stops the script before any plan is
      written. */
  method Plan<S>(cfg: Setup<S>, siteName: string, localText: string, localSeconds: int, watchlist: seq<string>)
    returns (r: Option<(seq<Line>, int)>)
    ensures r.None? <==> Sites.Lookup(siteName).None?
    ensures r.Some? ==>
      var run := Run(cfg, Sites.Lookup(siteName).value, watchlist, None, UtcStart(localSeconds, Sites.Lookup(siteName).value));
      r.value == (Header(siteName, localText, cfg.overheads.exposure) + run.lines, run.clock)
  {
    var site := Sites.Lookup(siteName);
    if site.None? {
      return None;
    }
    var start := localSeconds - site.value.utcOffsetHours * SecondsPerHour;
    var body, clock := Schedule(cfg, site.value, watchlist, start);
    r := Some((Header(siteName, localText, cfg.overheads.exposure) + body, clock));
  }

  /** The number of catalogs in which the target's lookup succeeds (0, 1 or 2). */
  function Hits<S>(cfg: Setup<S>, name: string): nat {
    (if LoadSat(name, cfg.norad, cfg.readtle).Some? then 1 else 0)
    + (if LoadSat(name, cfg.classified, cfg.readtle).Some? then 1 else 0)
  }

  /** The successful lookups of a whole watchlist. */
  function TotalHits<S>(cfg: Setup<S>, targets: seq<string>): nat
    decreases |targets|
  {
    if targets == [] then 0 else Hits(cfg, targets[0]) + TotalHits(cfg, targets[1..])
  }

  /** Filter `k` of a block that starts at `clock` succeeded: the position at the
      clock before its advance exists, and lines `2k` and `2k+1` are its filter
      directive and data line. */
  ghost predicate EntryAt<S>(cfg: Setup<S>, site: Site, sat: Option<S>, name: string, filters: seq<string>,
                             clock: int, lines: seq<Line>, k: nat)
  {
    var pos := Position(sat, site, clock + Cycle(cfg.overheads) * k, cfg.compute);
    k < |filters| && 2 * k + 1 < |lines| && pos.Some?
    && lines[2 * k] == FilterLine(filters[k]) && lines[2 * k + 1] == Data(Sanitise(name), pos.value)
  }

  /** A filter block completes the filters before the first one whose position
      cannot be computed: each completed filter emits its directive and its data line
      in filter order, at the clock before its own advance; nothing is emitted from
      the failing filter on; the clock ends advanced once per completed filter. */
  lemma {:induction false} FilterBlockShape<S>(cfg: Setup<S>, site: Site, sat: Option<S>, name: string,
                                               filters: seq<string>, clock: int)
    ensures var b := FilterBlock(cfg, site, sat, name, filters, clock);
      b.done <= |filters| && |b.lines| == 2 * b.done
    ensures var b := FilterBlock(cfg, site, sat, name, filters, clock);
      b.clock == clock + Cycle(cfg.overheads) * b.done
    ensures var b := FilterBlock(cfg, site, sat, name, filters, clock);
      forall k: nat :: k < b.done ==> EntryAt(cfg, site, sat, name, filters, clock, b.lines, k)
    ensures var b := FilterBlock(cfg, site, sat, name, filters, clock);
      b.done < |filters| ==> Position(sat, site, clock + Cycle(cfg.overheads) * b.done, cfg.compute).None?
    decreases |filters|
  {
    var b := FilterBlock(cfg, site, sat, name, filters, clock);
    var c := Cycle(cfg.overheads);
    if filters != [] && Position(sat, site, clock, cfg.compute).Some? {
      var pos := Position(sat, site, clock, cfg.compute).value;
      var rest := FilterBlock(cfg, site, sat, name, filters[1..], clock + c);
      assert b == Block([FilterLine(filters[0]), Data(Sanitise(name), pos)] + rest.lines, rest.clock, rest.done + 1);
      FilterBlockShape(cfg, site, sat, name, filters[1..], clock + c);
      assert clock + c + c * rest.done == clock + c * b.done by {
        assert c * b.done == c * rest.done + c;
      }
      forall k: nat | k < b.done
        ensures EntryAt(cfg, site, sat, name, filters, clock, b.lines, k)
      {
        if k > 0 {
          EntryShift(cfg, site, sat, name, filters, clock, b.lines, rest.lines, k);
        }
      }
    }
  }

  /** Entry `k - 1` of the block after the first filter is entry `k` of the whole block. */
  lemma EntryShift<S>(cfg: Setup<S>, site: Site, sat: Option<S>, name: string, filters: seq<string>,
                      clock: int, lines: seq<Line>, rest: seq<Line>, k: nat)
    requires filters != [] && 0 < k
    requires |lines| == |rest| + 2 && lines[2..] == rest
    requires EntryAt(cfg, site, sat, name, filters[1..], clock + Cycle(cfg.overheads), rest, k - 1)
    ensures EntryAt(cfg, site, sat, name, filters, clock, lines, k)
  {
    var c := Cycle(cfg.overheads);
    assert clock + c + c * (k - 1) == clock + c * k by {
      assert c * k == c * (k - 1) + c;
    }
    assert lines[2 * k] == rest[2 * (k - 1)];
    assert lines[2 * k + 1] == rest[2 * (k - 1) + 1];
    assert filters[k] == filters[1..][k - 1];
  }

  /** One target: the clock advances by the pointing time once per successful
      lookup and by one filter cycle per completed filter, so it never decreases;
      the bound satellite is the classified record when that lookup succeeds, else
      the NORAD record, else the satellite bound before. */
  lemma TargetStepShape<S>(cfg: Setup<S>, site: Site, name: string, sat: Option<S>, clock: int)
    ensures var s := TargetStep(cfg, site, name, sat, clock);
      |s.lines| % 2 == 0
      && s.clock == clock + cfg.overheads.pointing * Hits(cfg, name) + Cycle(cfg.overheads) * (|s.lines| / 2)
    ensures TargetStep(cfg, site, name, sat, clock).clock >= clock
    ensures var nor := LoadSat(name, cfg.norad, cfg.readtle);
      var cls := LoadSat(name, cfg.classified, cfg.readtle);
      TargetStep(cfg, site, name, sat, clock).sat == (if cls.Some? then cls else if nor.Some? then nor else sat)
  {
    var (sat1, clock1) := Attempt(LoadSat(name, cfg.norad, cfg.readtle), sat, clock, cfg.overheads.pointing);
    var (sat2, clock2) := Attempt(LoadSat(name, cfg.classified, cfg.readtle), sat1, clock1, cfg.overheads.pointing);
    FilterBlockShape(cfg, site, sat2, name, cfg.filters, clock2);
  }

  /** A target found in neither catalog keeps the satellite bound before it and does
      not spend pointing time: its filters are computed on the previous target's
      elements. */
  lemma UnmatchedTargetReusesSat<S>(cfg: Setup<S>, site: Site, name: string, sat: Option<S>, clock: int)
    requires LoadSat(name, cfg.norad, cfg.readtle).None? && LoadSat(name, cfg.classified, cfg.readtle).None?
    ensures TargetStep(cfg, site, name, sat, clock).sat == sat
    ensures TargetStep(cfg, site, name, sat, clock).lines == FilterBlock(cfg, site, sat, name, cfg.filters, clock).lines
    ensures TargetStep(cfg, site, name, sat, clock).clock == FilterBlock(cfg, site, sat, name, cfg.filters, clock).clock
  {
  }

  /** With no satellite bound yet and no lookup succeeding, the target emits nothing
      and leaves the clock and the binding alone. */
  lemma UnboundTargetEmitsNothing<S>(cfg: Setup<S>, site: Site, name: string, clock: int)
    requires LoadSat(name, cfg.norad, cfg.readtle).None? && LoadSat(name, cfg.classified, cfg.readtle).None?
    ensures TargetStep(cfg, site, name, None, clock) == Step([], None, clock)
  {
  }

  /** Over a whole watchlist the final clock is the start plus the pointing time for
      every successful lookup plus one filter cycle for every completed filter, and
      it is never earlier than the start. */
  lemma {:induction false} RunClock<S>(cfg: Setup<S>, site: Site, targets: seq<string>, sat: Option<S>, clock: int)
    ensures var r := Run(cfg, site, targets, sat, clock);
      |r.lines| % 2 == 0
      && r.clock == clock + cfg.overheads.pointing * TotalHits(cfg, targets) + Cycle(cfg.overheads) * (|r.lines| / 2)
    ensures Run(cfg, site, targets, sat, clock).clock >= clock
    decreases |targets|
  {
    if targets != [] {
      var s := TargetStep(cfg, site, targets[0], sat, clock);
      TargetStepShape(cfg, site, targets[0], sat, clock);
      RunClock(cfg, site, targets[1..], s.sat, s.clock);
      var r := Run(cfg, site, targets[1..], s.sat, s.clock);
      assert Run(cfg, site, targets, sat, clock) == Step(s.lines + r.lines, r.sat, r.clock);
      assert TotalHits(cfg, targets) == Hits(cfg, targets[0]) + TotalHits(cfg, targets[1..]);
      Tally(cfg.overheads.pointing, Cycle(cfg.overheads), Hits(cfg, targets[0]), TotalHits(cfg, targets[1..]),
            |s.lines|, |r.lines|);
    }
  }

  /** The arithmetic step of RunClock: clock advances of two consecutive stretches add up. */
  lemma Tally(p: nat, c: nat, h0: nat, h1: nat, n0: nat, n1: nat)
    requires n0 % 2 == 0 && n1 % 2 == 0
    ensures (n0 + n1) % 2 == 0
    ensures p * h0 + c * (n0 / 2) + p * h1 + c * (n1 / 2) == p * (h0 + h1) + c * ((n0 + n1) / 2)
  {
    assert (n0 + n1) / 2 == n0 / 2 + n1 / 2;
  }

  /** Every target is processed once, in order, whatever failed before it: running
      two watchlists one after the other is running their concatenation. */
  lemma {:induction false} RunAppend<S>(cfg: Setup<S>, site: Site, first: seq<string>, second: seq<string>,
                                         sat: Option<S>, clock: int)
    ensures var a := Run(cfg, site, first, sat, clock);
      var b := Run(cfg, site, second, a.sat, a.clock);
      Run(cfg, site, first + second, sat, clock) == Step(a.lines + b.lines, b.sat, b.clock)
    decreases |first|
  {
    if first != [] {
      var s := TargetStep(cfg, site, first[0], sat, clock);
      var all := first + second;
      assert all[0] == first[0];
      assert all[1..] == first[1..] + second;
      RunAppend(cfg, site, first[1..], second, s.sat, s.clock);
      var a' := Run(cfg, site, first[1..], s.sat, s.clock);
      var b := Run(cfg, site, second, a'.sat, a'.clock);
      var r' := Run(cfg, site, all[1..], s.sat, s.clock);
      assert r' == Step(a'.lines + b.lines, b.sat, b.clock);
      assert Run(cfg, site, all, sat, clock) == Step(s.lines + r'.lines, r'.sat, r'.clock);
      assert Run(cfg, site, first, sat, clock) == Step(s.lines + a'.lines, a'.sat, a'.clock);
      assert s.lines + (a'.lines + b.lines) == (s.lines + a'.lines) + b.lines;
    } else {
      assert first + second == second;
    }
  }

  /** With the default overheads and filters, a target found in exactly one catalog
      whose position can always be computed emits six lines and ends 120 + 3 * 180
      seconds after it began. */
  lemma DefaultTargetTiming<S>(cfg: Setup<S>, site: Site, name: string, sat: Option<S>, clock: int)
    requires cfg.overheads == DefaultOverheads && cfg.filters == DefaultFilters
    requires Hits(cfg, name) == 1
    requires forall s: S, t: int :: cfg.compute(s, site, t).Some?
    ensures |TargetStep(cfg, site, name, sat, clock).lines| == 6
    ensures TargetStep(cfg, site, name, sat, clock).clock == clock + 120 + 3 * 180
  {
    var nor := LoadSat(name, cfg.norad, cfg.readtle);
    var cls := LoadSat(name, cfg.classified, cfg.readtle);
    var sat2 := if cls.Some? then cls else nor;
    TargetStepShape(cfg, site, name, sat, clock);
    FilterBlockShape(cfg, site, sat2, name, cfg.filters, clock + 120);
    var b := FilterBlock(cfg, site, sat2, name, cfg.filters, clock + 120);
  }

  lemma {:induction false} BlockEntryLines<S>(cfg: Setup<S>, site: Site, sat: Option<S>, name: string,
                                              filters: seq<string>, clock: int)
    ensures forall l :: l in FilterBlock(cfg, site, sat, name, filters, clock).lines ==>
      l.FilterLine? || (l.Data? && l.name == Sanitise(name))
    decreases |filters|
  {
    if filters != [] && Position(sat, site, clock, cfg.compute).Some? {
      BlockEntryLines(cfg, site, sat, name, filters[1..], clock + Cycle(cfg.overheads));
    }
  }

  /** The loop emits only filter directives and data lines, and every data line
      carries the sanitised name of a watched target. */
  lemma {:induction false} RunEntryLines<S>(cfg: Setup<S>, site: Site, targets: seq<string>, sat: Option<S>, clock: int)
    ensures forall l :: l in Run(cfg, site, targets, sat, clock).lines ==>
      l.FilterLine? || (l.Data? && exists t :: t in targets && l.name == Sanitise(t))
    decreases |targets|
  {
    if targets != [] {
      var s := TargetStep(cfg, site, targets[0], sat, clock);
      var r := Run(cfg, site, targets[1..], s.sat, s.clock);
      var (sat1, clock1) := Attempt(LoadSat(targets[0], cfg.norad, cfg.readtle), sat, clock, cfg.overheads.pointing);
      var (sat2, clock2) := Attempt(LoadSat(targets[0], cfg.classified, cfg.readtle), sat1, clock1, cfg.overheads.pointing);
      BlockEntryLines(cfg, site, sat2, targets[0], cfg.filters, clock2);
      RunEntryLines(cfg, site, targets[1..], s.sat, s.clock);
      assert Run(cfg, site, targets, sat, clock).lines == s.lines + r.lines;
      assert targets[0] in targets;
      forall t | t in targets[1..] ensures t in targets { }
    }
  }

  /** A one-target watchlist is that target's step. */
  lemma RunSingle<S>(cfg: Setup<S>, site: Site, name: string, sat: Option<S>, clock: int)
    ensures Run(cfg, site, [name], sat, clock) == TargetStep(cfg, site, name, sat, clock)
  {
    var step := TargetStep(cfg, site, name, sat, clock);
    assert [name][1..] == [];
    assert Run(cfg, site, [name][1..], step.sat, step.clock) == Step([], step.sat, step.clock);
    assert step.lines + [] == step.lines;
  }

  /** The default run: the watchlist ["ASTRA 1N"] planned from Nerpio. When the
      target is found in exactly one catalog and its position always computes, the
      plan is the eight header lines and six entry lines, and the clock ends
      120 + 3 * 180 seconds after the UTC start, itself two hours before the local
      start. */
  lemma DefaultRunTiming<S>(cfg: Setup<S>, localSeconds: int)
    requires cfg.overheads == DefaultOverheads && cfg.filters == DefaultFilters
    requires Hits(cfg, DefaultWatchlist[0]) == 1
    requires forall s: S, t: int :: cfg.compute(s, Sites.Lookup(DefaultSite).value, t).Some?
    ensures var site := Sites.Lookup(DefaultSite).value;
      var run := Run(cfg, site, DefaultWatchlist, None, UtcStart(localSeconds, site));
      |Header(DefaultSite, DefaultLocalStart, cfg.overheads.exposure) + run.lines| == 14
      && run.clock == localSeconds - 7200 + 120 + 3 * 180
  {
    var site := Sites.Lookup(DefaultSite).value;
    assert site.utcOffsetHours == 2;
    var start := UtcStart(localSeconds, site);
    assert start == localSeconds - 7200;
    DefaultTargetTiming(cfg, site, DefaultWatchlist[0], None, start);
    RunSingle(cfg, site, DefaultWatchlist[0], None, start);
    assert DefaultWatchlist == [DefaultWatchlist[0]];
    HeaderShape(DefaultSite, DefaultLocalStart, cfg.overheads.exposure);
  }
}
