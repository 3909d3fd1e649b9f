/** Record shapes of the client data context (src/contexts/ClientDataContext.tsx).
    Only the shapes are modelled; loading them is I/O and outside the model. */
module ClientData {

  /** One LOB's counters for one month. */
  datatype MonthBucket = MonthBucket(
    received: nat,
    loaded: nat,
    billed: nat,
    activeMembers: nat,
    billedMembers: nat,
    balanced: bool,
    termedMembers: nat,
    selfBilledAmount: real,
    facetsBilledAmount: real)

  /** LOB -> month label -> bucket. */
  type LobMonthData = map<string, map<string, MonthBucket>>

  /** The pre-supplied trailing-window summary of one LOB. It is declared by the
      source and carried here, but no page reads it. */
  datatype LobAggregate = LobAggregate(
    received: nat,
    loaded: nat,
    billed: nat,
    activeMembers: nat,
    billedMembers: nat,
    balancedCount: nat,
    monthsCount: nat,
    termedMembers: nat,
    selfBilledAmount: real,
    facetsBilledAmount: real)

  datatype Client = Client(
    id: string,
    name: string,
    lob: string,
    lobMonthData: LobMonthData,
    lobLast12MonthsAggregate: map<string, LobAggregate>)
}
