# ACP plan generator: a Dafny model

`ACP_planner.py` writes an ACP observing plan for imaging geostationary
satellites from a chosen telescope site. The script:

1. looks up each watched satellite's two-line elements in two catalogs, a
   NORAD catalog and a "classified" one;
2. computes the satellite's apparent topocentric right ascension and declination
   at a simulated UTC clock;
3. writes a filter directive and a data line for every filter;
4. advances the clock by fixed overheads after every step.

This project models the script:

- **Catalog lookup.** `loadtle` is a substring match over the catalog's lines
  in which the last tested match wins (`Catalog`).
- **Site table and UTC start.** The site table, plus the conversion of the
  local start time to the UTC clock, in integer seconds (`Sites`).
- **Plan lines.** The lines of the plan as structured values, the header, and
  the sanitising of names (`PlanLines`).
- **Scheduling loop.** One clock and one bound satellite object, carried through
  the watchlist, the two catalog attempts and the filters (`Scheduler`).

The imperative parts are methods, each proved equal to a specification function:

- `LoadTle` (a loop over the catalog lines) equals `Load`.
- `Acquire` (the two catalog attempts, no loop) equals two applications of `Attempt`.
- `Observe` (the loop over the filters) equals `FilterBlock`.
- `Schedule` (the loop over the watchlist) equals `Run`. `Run` is built from
  `TargetStep`, one target at a time.
- `Plan` (no loop) equals `Header` followed by `Run`.

The lemmas state what the script guarantees about those functions.

The propagator (`readtle`, `Observer`, `sat.compute`, `a_ra`, `a_dec`) is a
foreign library. It appears as two oracles in `Scheduler.Setup`:

- `readtle` turns a catalog record into a satellite object, or fails.
- `compute` gives the apparent position of that object from a site at a clock
  value, or fails.

The script's per-target body has three `try` blocks: the NORAD attempt, the
classified attempt, then the filter loop. The model splits it into `Acquire`
(the first two `try` blocks) and `Observe` (the third). `Schedule` holds the
watchlist loop that calls them.

Some behaviours of the code differ from what a reader might expect. The
model follows the code:

- **Pointing time is added for every catalog in which the lookup succeeds**,
  so a target found in both catalogs pays it twice, not once per target.
- **A target found in neither catalog reuses the most recently bound satellite
  object.** That object belongs to the last target whose lookup succeeded, which
  may be several unmatched targets back. The unmatched target's filters are
  computed from those elements, and its data lines are emitted under its own
  name. It emits nothing only when no satellite has been bound yet, or when the
  computation fails.
- **The lookup keeps the last tested match, not the first.** The two lines taken
  after a match are never tested themselves.
- **An unknown site name stops the script before the plan is opened.** The
  script reads an unbound `timeZoneOffset`. `Scheduler.Plan` returns `None` in
  that case.

## Model

| member | source | states |
|---|---|---|
| `Catalog.LoadTle` | ACP_planner.py:16-24 | The line scan returns exactly what `Load` says: the record taken at the last tested match, `NotFound`, or `Truncated`. |
| `Catalog.ScanFrom` | ACP_planner.py:17-22 | A kept record starts at a matching line and has two lines after it. A truncation is at a matching line that lacks two lines after it. A scan that has already taken a record never ends with no match. |
| `Catalog.LoadNotFoundIff` | ACP_planner.py:18-23 | The lookup fails with `NotFound` (first record line never bound) exactly when no catalog line contains the name. |
| `Catalog.LoadFoundIsLastMatch` | ACP_planner.py:18-24 | A successful lookup returns the three lines starting at a line that contains the name. No line after those three contains the name. |
| `Catalog.LoadTruncatedAtEnd` | ACP_planner.py:19-22 | A `Truncated` failure (`next` runs out) comes from a match on one of the last two lines. |
| `Catalog.LaterRecordWins` | ACP_planner.py:18-22 | Appending a record whose first line contains the name makes that record the result, whatever matched before (unless the scan was already truncated). |
| `Catalog.NonMatchingLineKeepsResult` | ACP_planner.py:18-22 | Appending a line that does not contain the name leaves the result of a non-truncated lookup unchanged. |
| `Catalog.MatchNearEndTruncates` | ACP_planner.py:19-22 | Appending a matching line with nothing or one line after it makes a non-truncated lookup fail as `Truncated`. |
| `Catalog.SkippedLinesNotTested` | ACP_planner.py:18-22 | The two lines consumed after a match are not tested. Three matching lines give one record. A fourth matching line is tested and fails as truncated. |
| `Sites.Lookup` | ACP_planner.py:54-68 | A site is selected exactly for Nerpio, Mayhill and SSO, with their latitude, longitude, elevation and UTC offsets +2, -6 and +10. |
| `Sites.KnownSiteStarts` | ACP_planner.py:54-81 | The UTC start (`UtcStart`: local minus offset × 3600 s) is local -7200 s for Nerpio, +21600 s for Mayhill and -36000 s for SSO. |
| `PlanLines.HeaderShape` | ACP_planner.py:91-95 | The header is the site comment, the local start comment, five fixed directives and `#interval <exposure>`. It holds no filter or data line. |
| `PlanLines.Sanitise` | ACP_planner.py:129 | Same length as the name. Every space becomes `_`. Every other character is kept. |
| `PlanLines.SanitiseNoSpace` | ACP_planner.py:129 | A sanitised name has no space, and sanitising twice equals sanitising once. |
| `PlanLines.SanitiseKeepsSpaceless` | ACP_planner.py:129 | A name without spaces is written unchanged. |
| `Scheduler.Acquire` | ACP_planner.py:111-120 | The two catalog attempts in order. Each success rebinds the satellite and adds the pointing time. Each failure leaves both unchanged. |
| `Scheduler.Observe` | ACP_planner.py:121-132 | The filter loop emits exactly the lines and reaches exactly the clock of `FilterBlock`. |
| `Scheduler.Schedule` | ACP_planner.py:110-132 | The watchlist loop, starting with no satellite bound, emits exactly the lines of `Run` and ends on its clock. |
| `Scheduler.Plan` | ACP_planner.py:80-132 | Unknown site: no plan. Otherwise the header followed by the loop's lines, run from the UTC start of the local start time, and the final clock. |
| `Scheduler.FilterBlockShape` | ACP_planner.py:122-132 | Filters complete up to the first one whose position cannot be computed. Each completed filter k emits `#filter` then its data line, in filter order. The position uses the clock before filter k's advance. Nothing is emitted from the failing filter on. The clock advances once per completed filter. |
| `Scheduler.TargetStepShape` | ACP_planner.py:111-130 | Per target, the clock advances by pointing time × successful lookups (0–2) plus one cycle per completed filter, so it never decreases. The bound satellite is the classified record if found, else the NORAD record, else the previous one. |
| `Scheduler.UnmatchedTargetReusesSat` | ACP_planner.py:110-124 | A target found in neither catalog keeps the previous satellite and spends no pointing time. Its filters run on the previous elements. |
| `Scheduler.UnboundTargetEmitsNothing` | ACP_planner.py:110-132 | With no satellite bound yet and no lookup succeeding, the target emits nothing and leaves the clock unchanged. |
| `Scheduler.RunClock` | ACP_planner.py:110-130 | Final clock = start + pointing × all successful lookups + cycle × completed filters. The clock never ends before the start. |
| `Scheduler.RunAppend` | ACP_planner.py:110-132 | Each target is processed once, in order, whatever failed before it: running a concatenated watchlist equals running its parts one after the other. |
| `Scheduler.DefaultTargetTiming` | ACP_planner.py:73-130 | With the default overheads and filters R, V, B, a target found in exactly one catalog whose position always computes emits 6 lines and takes 120 + 3 × 180 s. |
| `Scheduler.DefaultRunTiming` | ACP_planner.py:29-130 | The default run: "ASTRA 1N" from Nerpio with filters R, V, B. With one catalog hit and a position that always computes, the plan is 8 header lines plus 6 entry lines. The final clock is local start − 7200 + 120 + 3 × 180 s. |
| `Scheduler.BlockEntryLines` | ACP_planner.py:127-129 | A filter block emits only `#filter` lines and data lines named by the target's sanitised name. |
| `Scheduler.RunEntryLines` | ACP_planner.py:127-129 | The loop emits only `#filter` lines and data lines, and every data line carries the sanitised name of a watched target. |

## Left out

- Orbit propagation and topocentric correction (`readtle`, `Observer`, `sat.compute`, `a_ra`, `a_dec`) belong to the ephem library. They are the oracles `Setup.readtle` and `Setup.compute`. A parse failure inside `loadtle` is `readtle` returning `None`.
- Floating point is not modelled: the radians-to-hours and radians-to-degrees conversions, and ephem's `Date` float-day arithmetic. The clock is whole seconds and positions are the oracle's `real` values.
- The text rendering of lines (`%s` formatting of RA/Dec, the exact strings written) is not modelled. Lines are structured values, and each constructor's comment gives the text it stands for.
- Parsing of the local start string by `Date(...)` is not modelled. `Plan` takes the string (for the header) and its value in seconds.
- File I/O is not modelled: opening the catalog files (a catalog is given as its lines) and opening, writing and closing the plan. The file-path constants are not modelled either.
- The console diagnostics are not modelled. The final clock that the script prints is returned instead.
- The source's bare `except` also catches exceptions unrelated to lookup or computation (an interrupt, say). Only the failures named above are modelled.
- The commented-out `#WAITUNTIL` directive and the notebook cell markers are not modelled.
