/** The telescope sites the planner knows and the conversion of the plan's local
    start time to the UTC clock the scheduler runs on. */
module Sites {
  import opened Wrappers

  /** Geodetic position handed to the observer (latitude and longitude are kept as
      the decimal strings the source passes on) and the site's offset from UTC. */
  datatype Site = Site(lat: string, long: string, elevation: int, utcOffsetHours: int)

  const SecondsPerHour: int := 3600

  /** The site table; a name outside it selects nothing. */
  function Lookup(name: string): (r: Option<Site>)
    ensures r.Some? <==> name in {"Nerpio", "Mayhill", "SSO"}
    ensures name == "Nerpio" ==> r == Some(Site("38.150000", "-2.31667", 1650, 2))
    ensures name == "Mayhill" ==> r == Some(Site("32.9", "-105.5", 2250, -6))
    ensures name == "SSO" ==> r == Some(Site("-31.273333", "149.064444", 1165, 10))
  {
    if name == "Nerpio" then Some(Site("38.150000", "-2.31667", 1650, 2))
    else if name == "Mayhill" then Some(Site("32.9", "-105.5", 2250, -6))
    else if name == "SSO" then Some(Site("-31.273333", "149.064444", 1165, 10))
    else None
  }

  /** The UTC clock value, in seconds, of a local start time at the site. */
  function UtcStart(localSeconds: int, site: Site): int {
    localSeconds - site.utcOffsetHours * SecondsPerHour
  }

  /** For the three known sites the UTC start is 2 hours earlier (Nerpio), 6 hours
      later (Mayhill) or 10 hours earlier (SSO) than the local start. */
  lemma KnownSiteStarts(localSeconds: int)
    ensures UtcStart(localSeconds, Lookup("Nerpio").value) == localSeconds - 7200
    ensures UtcStart(localSeconds, Lookup("Mayhill").value) == localSeconds + 21600
    ensures UtcStart(localSeconds, Lookup("SSO").value) == localSeconds - 36000
  {
  }
}
