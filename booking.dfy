/**
 * The booking page: a session flag records a mocked payment, "Pay Now" sets
 * it when the required text fields are filled, "Generate Ticket & QR" issues
 * and stores a ticket while it is set, and opening the scan page clears it.
 */
module Booking {
  import opened Tickets

  /** The current form inputs; the travel date is already rendered as its ISO text. */
  datatype BookingForm = BookingForm(
    name: string,
    fromCity: string,
    toCity: string,
    trainNo: string,
    travelDate: string)

  /** The fields "Pay Now" insists on; the travel date is not among them. */
  predicate RequiredFilled(f: BookingForm)
  {
    f.name != "" && f.trainNo != "" && f.fromCity != "" && f.toCity != ""
  }

  /** Python's `s[:n]`: the first n characters, or all of s when it is shorter. */
  function Prefix(s: string, n: nat): (r: string)
    ensures r <= s
    ensures |r| == if |s| < n then |s| else n
  {
    if |s| <= n then s else s[..n]
  }

  /** The ticket id is the first eight characters of the text of a fresh random UUID. */
  const IdLength: nat := 8

  /** The record "Generate" writes, from the current inputs and the UUID text. */
  function IssueTicket(f: BookingForm, uuidText: string): (t: Ticket)
    ensures t.ticketId <= uuidText
    ensures |t.ticketId| == if |uuidText| < IdLength then |uuidText| else IdLength
    ensures t.name == f.name && t.fromCity == f.fromCity && t.toCity == f.toCity
    ensures t.trainNo == f.trainNo && t.date == f.travelDate
  {
    Ticket(Prefix(uuidText, IdLength), f.name, f.fromCity, f.toCity, f.trainNo, f.travelDate)
  }

  /**
   * A widget interaction. Each one re-runs the whole script, so the ticket
   * file is re-created (if missing) before the handler of the press runs.
   */
  datatype Action =
    | PayNow(form: BookingForm)
    | Generate(form: BookingForm, uuidText: string)
    | OpenScanPage

  /** The payment flag together with the ticket file. */
  datatype Session = Session(paymentDone: bool, disk: Disk)

  /** The flag after "Pay Now"; the button is only offered while the flag is clear. */
  function PaidAfterPayNow(paid: bool, f: BookingForm): (r: bool)
    ensures r <==> paid || RequiredFilled(f)
  {
    if paid then paid else RequiredFilled(f)
  }

  /** The ticket file after "Generate": a new ticket is saved only while the flag is set. */
  function DiskAfterGenerate(paid: bool, d: Disk, f: BookingForm, uuidText: string): (r: Disk)
    ensures !paid ==> r == d
    ensures paid && d.Present? ==> r.Present? && |r.records| == |d.records| + 1
    ensures paid && d.Present? ==> d.records <= r.records && r.records[|d.records|] == IssueTicket(f, uuidText)
  {
    if paid then Save(d, IssueTicket(f, uuidText)) else d
  }

  /** One interaction: a script run re-creates a missing file, then the handler of the press runs. */
  function Step(s: Session, a: Action): (r: Session)
    ensures r.disk.Present?
    ensures Init(s.disk).records <= r.disk.records
    ensures |r.disk.records| <= |Init(s.disk).records| + 1
    ensures a.OpenScanPage? ==> !r.paymentDone
  {
    var ready := s.(disk := Init(s.disk));
    match a
    case PayNow(f) => ready.(paymentDone := PaidAfterPayNow(ready.paymentDone, f))
    case Generate(f, u) => ready.(disk := DiskAfterGenerate(ready.paymentDone, ready.disk, f, u))
    case OpenScanPage => ready.(paymentDone := false)
  }

  /** A sequence of interactions, applied in order. */
  function Run(s: Session, acts: seq<Action>): Session
    decreases |acts|
  {
    if acts == [] then s else Step(Run(s, acts[..|acts| - 1]), acts[|acts| - 1])
  }

  /** Some "Pay Now" with the required fields filled came after the last visit to the scan page. */
  ghost predicate PaidSinceScanPage(acts: seq<Action>)
  {
    exists k :: 0 <= k < |acts| && acts[k].PayNow? && RequiredFilled(acts[k].form) &&
      forall j :: k < j < |acts| ==> !acts[j].OpenScanPage?
  }

  /** Starting unpaid, the flag is set only by a "Pay Now" with the fields filled, since the last scan-page visit. */
  lemma {:induction false} FlagNeedsPayment(s: Session, acts: seq<Action>)
    requires !s.paymentDone
    ensures Run(s, acts).paymentDone ==> PaidSinceScanPage(acts)
  {
    if acts != [] {
      var n := |acts| - 1;
      var before := acts[..n];
      FlagNeedsPayment(s, before);
      if Run(s, acts).paymentDone {
        match acts[n]
        case PayNow(f) =>
          if Run(s, before).paymentDone {
            var k :| 0 <= k < |before| && before[k].PayNow? && RequiredFilled(before[k].form) &&
              forall j :: k < j < |before| ==> !before[j].OpenScanPage?;
            assert acts[k] == before[k];
            assert forall j :: k < j < |acts| ==> !acts[j].OpenScanPage? by {
              forall j | k < j < |acts| ensures !acts[j].OpenScanPage? {
                if j < n { assert acts[j] == before[j]; }
              }
            }
          } else {
            assert acts[n].PayNow? && RequiredFilled(acts[n].form);
          }
        case Generate(f, u) =>
          var k :| 0 <= k < |before| && before[k].PayNow? && RequiredFilled(before[k].form) &&
            forall j :: k < j < |before| ==> !before[j].OpenScanPage?;
          assert acts[k] == before[k];
          assert forall j :: k < j < |acts| ==> !acts[j].OpenScanPage? by {
            forall j | k < j < |acts| ensures !acts[j].OpenScanPage? {
              if j < n { assert acts[j] == before[j]; }
            }
          }
        case OpenScanPage =>
      }
    }
  }

  /** From any state, a filled-in "Pay Now" with no later scan-page visit leaves the flag set. */
  lemma {:induction false} PaymentSetsFlag(s: Session, acts: seq<Action>)
    requires PaidSinceScanPage(acts)
    ensures Run(s, acts).paymentDone
  {
    var n := |acts| - 1;
    var before := acts[..n];
    var k :| 0 <= k < |acts| && acts[k].PayNow? && RequiredFilled(acts[k].form) &&
      forall j :: k < j < |acts| ==> !acts[j].OpenScanPage?;
    if k < n {
      assert before[k] == acts[k];
      assert forall j :: k < j < |before| ==> !before[j].OpenScanPage? by {
        forall j | k < j < |before| ensures !before[j].OpenScanPage? {
          assert before[j] == acts[j];
        }
      }
      PaymentSetsFlag(s, before);
    }
  }

  /**
   * Starting unpaid, a press that does more to the file than re-create it is
   * a "Generate" made after a filled-in "Pay Now" with no scan-page visit in
   * between, and what it does is append the ticket issued from its inputs.
   */
  lemma IssueNeedsPayment(s: Session, acts: seq<Action>, i: nat)
    requires !s.paymentDone
    requires i < |acts|
    requires Run(s, acts[..i + 1]).disk != Init(Run(s, acts[..i]).disk)
    ensures acts[i].Generate?
    ensures PaidSinceScanPage(acts[..i])
    ensures Run(s, acts[..i + 1]).disk.records
            == Init(Run(s, acts[..i]).disk).records + [IssueTicket(acts[i].form, acts[i].uuidText)]
  {
    assert acts[..i + 1][..i] == acts[..i];
    FlagNeedsPayment(s, acts[..i]);
  }

  /**
   * After any interaction the file exists, and it only ever grows at the end:
   * the records present at the first run keep their places.
   */
  lemma {:induction false} RunAppendOnly(s: Session, acts: seq<Action>)
    ensures acts != [] ==> Run(s, acts).disk.Present?
    ensures acts != [] ==> Init(s.disk).records <= Run(s, acts).disk.records
  {
    if acts != [] {
      var before := acts[..|acts| - 1];
      RunAppendOnly(s, before);
      var mid := Run(s, before).disk;
      assert Init(mid).records <= Run(s, acts).disk.records;
      if before != [] {
        assert Init(mid) == mid;
        PrefixTransitive(Init(s.disk).records, mid.records, Run(s, acts).disk.records);
      }
    }
  }

  lemma PrefixTransitive<T>(a: seq<T>, b: seq<T>, c: seq<T>)
    requires a <= b && b <= c
    ensures a <= c
  {
    assert b[..|a|] == a;
    assert c[..|b|][..|a|] == c[..|a|];
  }

  /** With no ticket file, a paid "Generate" still books: its script run first creates the empty list. */
  lemma GenerateAfterMissingFile(f: BookingForm, u: string)
    ensures Run(Session(true, Absent), [Generate(f, u)]) == Session(true, Present([IssueTicket(f, u)]))
  {
    var acts := [Generate(f, u)];
    assert acts[..0] == [];
  }

  /** Once paid, every "Generate" appends another ticket; nothing re-checks the form or clears the flag. */
  lemma GenerateRepeats(rs: seq<Ticket>, f1: BookingForm, u1: string, f2: BookingForm, u2: string)
    ensures Run(Session(true, Present(rs)), [Generate(f1, u1), Generate(f2, u2)])
            == Session(true, Present(rs + [IssueTicket(f1, u1), IssueTicket(f2, u2)]))
  {
    var s := Session(true, Present(rs));
    var acts := [Generate(f1, u1), Generate(f2, u2)];
    assert acts[..1][..0] == [];
    assert acts[..1] == [Generate(f1, u1)];
    var once := Session(true, Present(rs + [IssueTicket(f1, u1)]));
    assert Run(s, acts[..1]) == once;
    assert once.disk.records + [IssueTicket(f2, u2)] == rs + [IssueTicket(f1, u1), IssueTicket(f2, u2)];
  }

  /** What "Pay Now" answers. */
  datatype PayReply = AlreadyPaid | MissingFields | PaymentSuccessful

  /** What "Generate Ticket & QR" answers. */
  datatype GenerateReply = PaymentFailed | Booked(ticket: Ticket) | TicketFileMissing

  /** The per-browser-session state of the booking page. */
  class BookingSession {
    var paymentDone: bool

    /** A new session starts unpaid. */
    constructor ()
      ensures !paymentDone
    {
      paymentDone := false;
    }

    /** "Pay Now": succeeds only with name, train number and both cities filled in. */
    method PayNow(f: BookingForm) returns (reply: PayReply)
      modifies this
      ensures paymentDone == PaidAfterPayNow(old(paymentDone), f)
      ensures reply == if old(paymentDone) then AlreadyPaid
                       else if RequiredFilled(f) then PaymentSuccessful else MissingFields
    {
      if paymentDone {
        return AlreadyPaid;
      }
      if f.name == "" || f.trainNo == "" || f.fromCity == "" || f.toCity == "" {
        reply := MissingFields;
      } else {
        paymentDone := true;
        reply := PaymentSuccessful;
      }
    }

    /** "Generate Ticket & QR": issue and save a ticket from the current inputs while paid. */
    method Generate(store: TicketStore, f: BookingForm, uuidText: string) returns (reply: GenerateReply)
      modifies store
      ensures store.Disk() == DiskAfterGenerate(paymentDone, old(store.Disk()), f, uuidText)
      ensures !paymentDone ==> reply == PaymentFailed
      ensures paymentDone ==> reply == if old(store.present) then Booked(IssueTicket(f, uuidText)) else TicketFileMissing
    {
      if !paymentDone {
        return PaymentFailed;
      }
      var ticket := IssueTicket(f, uuidText);
      var ok := store.SaveTicket(ticket);
      reply := if ok then Booked(ticket) else TicketFileMissing;
    }

    /** Selecting the scan page in the menu clears the payment. */
    method OpenScanPage()
      modifies this
      ensures !paymentDone
    {
      paymentDone := false;
    }

    /** One interaction: the script run re-creates a missing file, then the handler of the press runs. */
    method HandlePress(store: TicketStore, a: Action)
      modifies this, store
      ensures store.present
      ensures Session(paymentDone, store.Disk()) == Step(old(Session(paymentDone, store.Disk())), a)
    {
      store.EnsureFile();
      match a
      case PayNow(f) =>
        var reply := PayNow(f);
      case Generate(f, u) =>
        var reply := Generate(store, f, u);
      case OpenScanPage =>
        OpenScanPage();
    }
  }
}
