/** The part of a published timeframe state that requirements and the movement ledger read. */
module States {
  import opened Common
  import opened Snapshots
  import StableSort

  /** A trend of 0 also stands for "none". */
  datatype State = State(id: string, symbol: string, timeframe: string, timestamp: nat, trend: int,
                         location: Location, range: Option<StructuralRange>, levels: seq<KeyLevel>, price: real)

  function TimeOf(s: State): real {
    s.timestamp as real
  }

  /** The states up to a cut-off time. */
  function Before(states: seq<State>, cutoff: nat): seq<State> {
    StableSort.UpTo(states, TimeOf, cutoff as real)
  }
}
