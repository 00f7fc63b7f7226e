/** The telemetry record that the `/machines` endpoint returns, shared by the
    factory map, the alert feed, the machine detail list and the RPM chart. */
module Machines {
  import opened Seqs

  /** One telemetry snapshot. Every field arrives as text; a field missing
      from the JSON object is the empty string here, which every test in the
      dashboard (`=== "1"`, `=== "0"`, `|| "0"`, `!field`) treats exactly as
      it treats `undefined`. `type` is a keyword, hence `machineType`. */
  datatype MachineRecord = MachineRecord(
    productId: string,
    machineType: string,
    airTemperature: string,
    processTemperature: string,
    rotationalSpeed: string,
    torque: string,
    toolWear: string,
    machineFailure: string,
    udi: Option<string>,
    twf: string,
    hdf: string,
    pwf: string,
    osf: string,
    rnf: string,
    area: string,
    floor: string)

  /** The five failure-cause flags, in the order the dashboard scans them. */
  datatype Flag = TWF | HDF | PWF | OSF | RNF

  const AllFlags: seq<Flag> := [TWF, HDF, PWF, OSF, RNF]

  function FlagValue(m: MachineRecord, f: Flag): string
  {
    match f
    case TWF => m.twf
    case HDF => m.hdf
    case PWF => m.pwf
    case OSF => m.osf
    case RNF => m.rnf
  }

  /** A flag is raised only when its text is exactly "1". */
  predicate Raised(m: MachineRecord, f: Flag)
  {
    FlagValue(m, f) == "1"
  }

  function FlagName(f: Flag): string
  {
    match f
    case TWF => "TWF"
    case HDF => "HDF"
    case PWF => "PWF"
    case OSF => "OSF"
    case RNF => "RNF"
  }
}
