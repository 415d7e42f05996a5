/**
 * The ticket store of the train-entry demo: a JSON file holding the list of
 * issued ticket records. The file is modelled by its decoded contents: either
 * it does not exist, or it holds an ordered sequence of records.
 */
module Tickets {

  /** One issued ticket, with the keys the booking flow writes. */
  datatype Ticket = Ticket(
    ticketId: string,
    name: string,
    fromCity: string,
    toCity: string,
    trainNo: string,
    date: string)

  /** The ticket file as seen by the program: missing, or a list of records. */
  datatype Disk = Absent | Present(records: seq<Ticket>)

  /** A store read that may fail because the ticket file is missing. */
  datatype Fallible<T> = Ok(value: T) | StoreMissing

  /** The ids of the stored records, one per record, in stored order. */
  function TicketIds(ts: seq<Ticket>): (ids: seq<string>)
    ensures |ids| == |ts|
    ensures forall i :: 0 <= i < |ts| ==> ids[i] == ts[i].ticketId
  {
    if ts == [] then [] else TicketIds(ts[..|ts| - 1]) + [ts[|ts| - 1].ticketId]
  }

  /** The first step of every run of the script: create the file holding an empty list unless it exists. */
  function Init(d: Disk): (r: Disk)
    ensures r.Present?
  {
    if d.Absent? then Present([]) else d
  }

  /** Read the whole list, append one record, write the whole list back. */
  function Save(d: Disk, t: Ticket): (r: Disk)
    ensures r.Present? <==> d.Present?
  {
    match d
    case Absent => Absent
    case Present(rs) => Present(rs + [t])
  }

  /** Initialisation leaves an existing file alone, so running it again changes nothing. */
  lemma InitKeepsExisting(d: Disk)
    ensures d.Present? ==> Init(d) == d
    ensures d.Absent? ==> Init(d) == Present([])
    ensures Init(Init(d)) == Init(d)
  {
  }

  /** Saving adds exactly one record, last, and keeps every earlier record in place. */
  lemma SaveAppendsLast(rs: seq<Ticket>, t: Ticket)
    ensures Save(Present(rs), t).records[..|rs|] == rs
    ensures |Save(Present(rs), t).records| == |rs| + 1
    ensures Save(Present(rs), t).records[|rs|] == t
    ensures TicketIds(Save(Present(rs), t).records) == TicketIds(rs) + [t.ticketId]
  {
  }

  /** An id is listed exactly when some stored record carries it. */
  lemma IdListed(ts: seq<Ticket>, x: string)
    ensures x in TicketIds(ts) <==> exists i :: 0 <= i < |ts| && ts[i].ticketId == x
  {
  }

  /** The ticket file, held as its decoded contents. */
  class TicketStore {
    var present: bool
    var records: seq<Ticket>

    /** What the file holds; the records matter only while the file exists. */
    function Disk(): (d: Disk)
      reads this
      ensures d.Present? <==> present
    {
      if present then Present(records) else Absent
    }

    /** The file as found before the first run of the script. */
    constructor (d: Disk)
      ensures Disk() == d
    {
      present := d.Present?;
      records := if d.Present? then d.records else [];
    }

    /** Create the file with an empty list if it does not exist. */
    method EnsureFile()
      modifies this
      ensures Disk() == Init(old(Disk()))
    {
      if !present {
        present := true;
        records := [];
      }
    }

    /** Append one ticket; `ok` is false when opening the file fails because it is missing. */
    method SaveTicket(t: Ticket) returns (ok: bool)
      modifies this
      ensures ok == old(present)
      ensures Disk() == Save(old(Disk()), t)
    {
      if !present {
        return false;
      }
      var tickets := records;
      tickets := tickets + [t];
      records := tickets;
      ok := true;
    }

    /** The ids of all stored tickets, in stored order, duplicates kept. */
    method LoadTicketIds() returns (ids: Fallible<seq<string>>)
      ensures ids.StoreMissing? <==> !present
      ensures ids.Ok? ==> |ids.value| == |records|
      ensures ids.Ok? ==> forall i :: 0 <= i < |records| ==> ids.value[i] == records[i].ticketId
    {
      if !present {
        return StoreMissing;
      }
      ids := Ok(TicketIds(records));
    }
  }
}
