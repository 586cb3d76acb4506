/** The lines of an ACP observing plan, as structured values. */
module PlanLines {

  /** Apparent topocentric position: right ascension in hours, declination in degrees. */
  datatype Coords = Coords(ra: real, dec: real)

  /** One line of the plan file. */
  datatype Line =
    | SiteComment(site: string)     // "; observation site: <site> "
    | StartComment(local: string)   // "; local start time <local> "
    | TrackOff                      // "#trackoff"
    | Sets(sets: nat)               // "#Sets <n>"
    | Tiff                          // "#tiff"
    | Count(count: nat)             // "#count <n>"
    | Binning(binning: nat)         // "#binning <n>"
    | Interval(seconds: nat)        // "#interval <exposure>"
    | FilterLine(filter: string)    // "#filter <filter> "
    | Data(name: string, pos: Coords) // "<name>\t<ra>\t<dec>"

  /** Lines produced by the scheduling loop rather than the header. */
  predicate IsEntryLine(l: Line) {
    l.FilterLine? || l.Data?
  }

  /** The header block: the site and local start comment, five fixed directives and
      the interval between exposures. */
  function Header(site: string, localStart: string, exposure: nat): seq<Line> {
    [SiteComment(site), StartComment(localStart), TrackOff, Sets(1), Tiff, Count(1), Binning(1), Interval(exposure)]
  }

  /** The header has eight lines, carries the site, start and exposure it was given,
      and holds no filter or data line. */
  lemma HeaderShape(site: string, localStart: string, exposure: nat)
    ensures |Header(site, localStart, exposure)| == 8
    ensures Header(site, localStart, exposure)[0].site == site
    ensures Header(site, localStart, exposure)[1].local == localStart
    ensures Header(site, localStart, exposure)[7] == Interval(exposure)
    ensures forall i :: 0 <= i < 8 ==> !IsEntryLine(Header(site, localStart, exposure)[i])
  {
  }

  /** The name field of a data line: the name with every space replaced by `_`. */
  function Sanitise(name: string): (r: string)
    ensures |r| == |name|
    ensures forall i :: 0 <= i < |name| ==> r[i] == (if name[i] == ' ' then '_' else name[i])
  {
    if name == [] then [] else [if name[0] == ' ' then '_' else name[0]] + Sanitise(name[1..])
  }

  /** A sanitised name has no space, and sanitising is idempotent. */
  lemma SanitiseNoSpace(name: string)
    ensures ' ' !in Sanitise(name)
    ensures Sanitise(Sanitise(name)) == Sanitise(name)
  {
    var r := Sanitise(name);
    forall i | 0 <= i < |r| ensures r[i] != ' ' { }
  }

  /** A name without spaces is written unchanged. */
  lemma SanitiseKeepsSpaceless(name: string)
    requires ' ' !in name
    ensures Sanitise(name) == name
  {
  }
}
