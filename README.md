# Moon phases: a Dafny model of the classification around the formula

The service computes the Moon's phase at a Unix timestamp. It first turns the
timestamp into days since the "1980.0" epoch. From those days it computes the
Moon's elongation from the Sun in degrees, using a simplified solar and lunar
model, and returns that angle in radians. It converts the angle back to degrees
and normalises it to [0, 360) with `fixAngle`. A nine-branch cascade then turns
the normalised angle into a moon symbol and a label. A separate enum names the
eight phases of the cycle, each with a fixed display name.

This project models everything in that pipeline except the astronomy:

- `moon_phases_service.dfy`, module `MoonPhasesService`:
  - Java's floating-point `%` (a truncating remainder that takes the sign of
    the dividend) and `fixAngle`, over exact reals;
  - the day conversion `ts / 86400 + 2440587.5 - 2444238.5`;
  - the degree/radian conversions;
  - the cascade, against an independent arithmetic description of its nine
    half-open bins;
  - `calculateMoonPhaseRadians` and `moonPhaseAtUnixTimestamp`.
  The solar and lunar formulae are a parameter `elongation: real -> real`
  (days since the epoch to degrees). Every property of the pipeline therefore
  holds whatever those formulae compute.
- `moon_phase.dfy`, module `MoonPhaseEnum`: the enum as a datatype of eight
  constructors in declaration order, with its ordinal, `values()`, the display
  name and `toString`. A Java enum constant is an immutable value whose final
  field is set once at its declaration, so a datatype function gives the same
  fixed name per variant.

Where the code and its design description differ, the model follows the code:

- The cascade's last branch, [337.5, 360), returns the same symbol as the
  first, U+1F311. Its label is different, "new moon approaching" rather than
  "new moon", so the model has nine distinct readings and not eight phases.
  `BranchReadingsDistinct` and `WrapAroundSharesSymbol` state this.
- The service builds a two-field `MoonPhase(emoji, label)` (lines 119-135).
  The enum has only a one-argument constructor, so the two do not fit
  together. The model keeps the service's pair as `PhaseReading` and the enum
  as `MoonPhase`, with no mapping between them. The lower-case labels of the
  cascade do not match the enum's display names either.
- The comment at `MoonPhasesService.java:59` calls Julian Day 2444238.5
  1980-01-01. That Julian Day is 1979-12-31T00:00:00Z, Unix timestamp
  315446400, which astronomers call "1980 January 0.0". The model keeps the
  constant as written. `DaysSinceEpochClosedForm` shows that the day count is
  zero at timestamp 315446400.
- The code has no error results. It has no check for non-finite input and no
  iteration cap on its Kepler loop, so the model has no error path.

The symbol literals in `MoonPhasesService.java` are the UTF-8 encodings of
U+1F311 to U+1F318. The model writes them as those code points.

## Model

| member | source | states |
|---|---|---|
| `MoonPhasesService.Trunc` | src/main/java/mn/mcp/server/MoonPhasesService.java:40 | the quotient that Java's double `%` implies is rounded toward zero: at most the input and less than one below it for a non-negative input, at least the input and less than one above it for a negative one |
| `MoonPhasesService.Rem360` | src/main/java/mn/mcp/server/MoonPhasesService.java:40 | `x % 360.0` is less than one turn in magnitude, has the sign of the dividend (non-negative for x >= 0, non-positive for x <= 0) and differs from x by a whole number of turns |
| `MoonPhasesService.FixAngle` | src/main/java/mn/mcp/server/MoonPhasesService.java:33-41 | `fixAngle(x)` lies in [0, 360) for every x, negative or many turns away, and differs from x by a whole number of turns |
| `MoonPhasesService.FixAngleUnique` | src/main/java/mn/mcp/server/MoonPhasesService.java:39-41 | the normalised angle is the only angle in [0, 360) that is a whole number of turns from the input, so `fixAngle` equals the mathematical reduction modulo 360 |
| `MoonPhasesService.FixAngleKeepsNormalised` | src/main/java/mn/mcp/server/MoonPhasesService.java:39-41 | an angle already in [0, 360) comes back unchanged |
| `MoonPhasesService.FixAngleIdempotent` | src/main/java/mn/mcp/server/MoonPhasesService.java:39-41 | `fixAngle(fixAngle(x)) == fixAngle(x)` |
| `MoonPhasesService.FixAnglePeriodic` | src/main/java/mn/mcp/server/MoonPhasesService.java:40 | `fixAngle(x + 360*k) == fixAngle(x)` for every integer k, positive or negative |
| `MoonPhasesService.DaysSinceEpochClosedForm` | src/main/java/mn/mcp/server/MoonPhasesService.java:57-60 | the day count equals `ts/86400 - 3651` and is zero at timestamp 315446400 |
| `MoonPhasesService.DaysSinceEpochIncreasing` | src/main/java/mn/mcp/server/MoonPhasesService.java:60 | the day count is strictly increasing in the timestamp, and a whole number of days of seconds adds exactly that many days |
| `MoonPhasesService.DaysSinceEpochInverse` | src/main/java/mn/mcp/server/MoonPhasesService.java:60 | the timestamp is recovered from the day count by adding the epoch's Julian Day, subtracting the Unix epoch's and multiplying by 86400 |
| `MoonPhasesService.DegreesRadiansRoundTrip` | src/main/java/mn/mcp/server/MoonPhasesService.java:103-112 | multiplying by `PI/180` (line 103) and then by `180/PI` (line 112) is the identity, and so is the other order |
| `MoonPhasesService.BinIndex` | src/main/java/mn/mcp/server/MoonPhasesService.java:118-136 | the arithmetic bin of an angle on the 45-degree grid offset by 22.5 is one of nine, and every angle in [0, 360) lies inside the half-open bin it names |
| `MoonPhasesService.BinsPartition` | src/main/java/mn/mcp/server/MoonPhasesService.java:118-136 | the nine half-open bins partition [0, 360): an angle lies in bin k if and only if k is its bin index, so it lies in exactly one bin |
| `MoonPhasesService.ClassifySelectsBin` | src/main/java/mn/mcp/server/MoonPhasesService.java:117-136 | the cascade returns the reading of its argument's bin for every real angle; below 0 gives the first branch and 360 or more the last |
| `MoonPhasesService.ClassifyIffInBin` | src/main/java/mn/mcp/server/MoonPhasesService.java:118-136 | for a normalised angle the cascade returns branch k if and only if the angle lies in [lower edge of k, upper edge of k) |
| `MoonPhasesService.ClassifyAtThresholds` | src/main/java/mn/mcp/server/MoonPhasesService.java:118-134 | each threshold 22.5, 67.5, ..., 337.5 selects the branch above it: 22.5 gives "waxing crescent" and 337.5 gives "new moon approaching" |
| `MoonPhasesService.ClassifyMonotone` | src/main/java/mn/mcp/server/MoonPhasesService.java:118-136 | a larger angle never selects an earlier branch, so the readings follow the order new moon, waxing crescent, ..., waning crescent, new moon approaching |
| `MoonPhasesService.BranchReadingsDistinct` | src/main/java/mn/mcp/server/MoonPhasesService.java:119-135 | the first and last branches both carry U+1F311 under different labels; the first eight symbols are pairwise distinct; all nine labels are pairwise distinct |
| `MoonPhasesService.CalculateMoonPhaseRadians` | src/main/java/mn/mcp/server/MoonPhasesService.java:56-104 | the returned radians are the elongation at the timestamp's day count, converted from degrees |
| `MoonPhasesService.MoonPhaseAtUnixTimestamp` | src/main/java/mn/mcp/server/MoonPhasesService.java:110-137 | the reading is the cascade applied to the normalised elongation at the timestamp's day count (the radian detour changes nothing), and it is one of the nine branches |
| `MoonPhasesService.PhaseIgnoresWholeTurns` | src/main/java/mn/mcp/server/MoonPhasesService.java:111-115 | two elongations that differ by whole turns at a timestamp give the same reading there |
| `MoonPhasesService.WrapAroundSharesSymbol` | src/main/java/mn/mcp/server/MoonPhasesService.java:115-136 | -0.1 degrees (normalised to 359.9) and 0.1 degrees give the same symbol, labelled "new moon approaching" and "new moon" |
| `MoonPhaseEnum.MoonPhase.Ordinal` | src/main/java/mn/mcp/server/MoonPhase.java:23-31 | each constant's position in the declaration is below eight |
| `MoonPhaseEnum.Values` | src/main/java/mn/mcp/server/MoonPhase.java:23-31 | there are exactly eight constants, listed in declaration order NEW_MOON to WANING_CRESCENT; each sits at the index of its ordinal, none is missing and none repeats |
| `MoonPhaseEnum.DisplayNamesDistinct` | src/main/java/mn/mcp/server/MoonPhase.java:24-31 | no two constants share a display name |
| `MoonPhaseEnum.ToStringIsDisplayName` | src/main/java/mn/mcp/server/MoonPhase.java:49-56 | `toString` returns exactly what `getDisplayName` returns, for every constant |
| `MoonPhaseEnum.DisplayNameExamples` | src/test/java/mn/mcp/server/MoonPhaseTest.java:9-21 | FULL_MOON gives "Full Moon" and FIRST_QUARTER gives "First Quarter" through `getDisplayName`; FULL_MOON gives "Full Moon" and NEW_MOON gives "New Moon" through `toString` |

## Left out

- The solar and lunar position formulae (`MoonPhasesService.java:64`, 76-101): sines, cosines, arctangents and square roots on doubles. They are the `elongation` parameter, so no particular phase for a particular date is proved. This includes the 1982-10-28 to WAXING_GIBBOUS reference result of the tests.
- The Newton-Raphson loop for Kepler's equation (`MoonPhasesService.java:68-73`). It stops on a floating-point tolerance and has no iteration cap.
- `currentMoonPhase` (`MoonPhasesService.java:106-108`). It only reads the system clock and delegates.
- Floating-point rounding, NaN and the infinities. Every double is an exact real. Over doubles the radian round trip is only approximate, and the Java `long` to `double` conversion of the timestamp can round. The model states neither.
- Rem360: models Java's `%` only with the divisor 360.0, the only divisor the code uses.
- `MoonPhasesMcpServer.java`, `MoonPhaseRequest.java` and `MoonPhaseEmoji.java` are not part of this model. They are tool registration, request validation by annotation, and a record with no behaviour.
- The MCP client tests are not part of this model. They exercise a running server over its protocol.
