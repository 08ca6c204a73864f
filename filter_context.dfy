/** The process-wide filter selection shared by the ledger grid and the filter
    panel: eight pieces of state and a reset. */
module FilterContext {

  /** A snapshot of the eight state fields. */
  datatype Filters = Filters(
    record: int,
    partyId: seq<string>,
    kapanNumber: seq<string>,
    statusId: seq<string>,
    paymentStatusId: seq<string>,
    search: string,
    startDate: string,
    endDate: string)

  /** The documented defaults: 20 records per page, nothing selected, no text. */
  const InitialFilters := Filters(20, [], [], [], [], "", "", "")

  class FilterStore {
    var record: int
    var partyId: seq<string>
    var kapanNumber: seq<string>
    var statusId: seq<string>
    var paymentStatusId: seq<string>
    var search: string
    var startDate: string
    var endDate: string

    function Snapshot(): Filters
      reads this
    {
      Filters(record, partyId, kapanNumber, statusId, paymentStatusId, search, startDate, endDate)
    }

    constructor ()
      ensures Snapshot() == InitialFilters
    {
      record := 20;
      partyId := [];
      kapanNumber := [];
      statusId := [];
      paymentStatusId := [];
      search := "";
      startDate := "";
      endDate := "";
    }

    /** Resets every field to its initial value, whatever the prior state. */
    method ClearFilters()
      modifies this
      ensures Snapshot() == InitialFilters
    {
      record := 20;
      partyId := [];
      statusId := [];
      paymentStatusId := [];
      search := "";
      startDate := "";
      endDate := "";
      kapanNumber := [];
    }

    /** The record-count input. */
    method SetRecord(value: int)
      modifies this
      ensures Snapshot() == old(Snapshot()).(record := value)
    {
      record := value;
    }

    /** The search input (the ledger grid debounces it before querying). */
    method SetSearch(value: string)
      modifies this
      ensures Snapshot() == old(Snapshot()).(search := value)
    {
      search := value;
    }

    /** The start-date input. */
    method SetStartDate(value: string)
      modifies this
      ensures Snapshot() == old(Snapshot()).(startDate := value)
    {
      startDate := value;
    }

    /** The end-date input. */
    method SetEndDate(value: string)
      modifies this
      ensures Snapshot() == old(Snapshot()).(endDate := value)
    {
      endDate := value;
    }
  }
}
