/** The archive store (src/store/useArchiveStore.ts): archived records that
    can be restored, and two counters shown on the archive page. The
    delayed end of `fetchRecords` is its own step, `FetchSettled`. */
module Archive {
  import opened Common

  datatype RecordType = ProjectRecord | TravelRecord | ProcureRecord | TaskRecord

  datatype Visibility = Archived | ActiveRecord

  datatype ArchiveRecord = ArchiveRecord(
    id: string,
    uid: string,
    title: string,
    recordType: RecordType,
    timestamp: string,
    visibility: Visibility,
    deManifestedAt: string,
    description: Option<string>)

  const InitialTotalIndexed := 4092
  const InitialRestorationEvents := 142

  const InitialRecords := [
    ArchiveRecord("1", "#TK-902", "Neural Uplink Calibration - Sector 7", ProjectRecord, "2023-11-24 14:02:11:004", Archived, "2023-11-24T14:02:11Z", None),
    ArchiveRecord("2", "#TR-002", "Neon-Seoul Logistics Transfer (V-Node)", TravelRecord, "2023-11-23 09:15:45:882", Archived, "2023-11-23T09:15:45Z", None),
    ArchiveRecord("3", "#PR-441", "Acquire: High-Output Bio-Batteries (x12)", ProcureRecord, "2023-11-22 22:45:00:110", Archived, "2023-11-22T22:45:00Z", None),
    ArchiveRecord("4", "#TK-899", "Sub-Level Firewall Reinforcement Layer 2", ProjectRecord, "2023-11-22 18:12:05:419", Archived, "2023-11-22T18:12:05Z", None),
    ArchiveRecord("5", "#TK-898", "System Defrag - Node Arkan-Delta", ProjectRecord, "2023-11-22 15:44:32:000", Archived, "2023-11-22T15:44:32Z", None),
    ArchiveRecord("6", "#TR-001", "Infiltration Route: Lower Slums Gateway", TravelRecord, "2023-11-21 23:59:59:999", Archived, "2023-11-21T23:59:59Z", None)]

  function RecordId(r: ArchiveRecord): string { r.id }

  /** Restoring a record removes exactly the records with that id. */
  lemma RestoreRemoves(rs: seq<ArchiveRecord>, id: string, r: ArchiveRecord)
    requires r in rs
    ensures r in FilterOut(rs, RecordId, id) <==> r.id != id
  {
  }

  class ArchiveStore {
    var records: seq<ArchiveRecord>
    var isLoading: bool
    var totalIndexed: int
    var restorationEvents: int

    /** No action touches the indexed total. */
    predicate Valid()
      reads this
    {
      totalIndexed == InitialTotalIndexed
    }

    constructor ()
      ensures Valid()
      ensures records == InitialRecords && !isLoading && restorationEvents == InitialRestorationEvents
    {
      records, isLoading := InitialRecords, false;
      totalIndexed, restorationEvents := InitialTotalIndexed, InitialRestorationEvents;
    }

    /** The first half of `fetchRecords`: the spinner starts. */
    method FetchRecords()
      requires Valid()
      modifies this
      ensures Valid()
      ensures isLoading
      ensures records == old(records) && totalIndexed == old(totalIndexed) && restorationEvents == old(restorationEvents)
    {
      isLoading := true;
    }

    /** The delayed second half of `fetchRecords`: the spinner stops. */
    method FetchSettled()
      requires Valid()
      modifies this
      ensures Valid()
      ensures !isLoading
      ensures records == old(records) && totalIndexed == old(totalIndexed) && restorationEvents == old(restorationEvents)
    {
      isLoading := false;
    }

    /** The record leaves the list and the counter goes up by one, whether
        or not a record had the id. */
    method RestoreRecord(id: string)
      requires Valid()
      modifies this
      ensures Valid()
      ensures records == FilterOut(old(records), RecordId, id)
      ensures restorationEvents == old(restorationEvents) + 1
      ensures isLoading == old(isLoading) && totalIndexed == old(totalIndexed)
    {
      records := FilterOut(records, RecordId, id);
      restorationEvents := restorationEvents + 1;
    }
  }
}
