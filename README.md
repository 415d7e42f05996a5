# QR train entry: ticket store, entry decision and payment gate

This project models the sequential logic of a small train-ticketing demo. It has three parts:

- **Booking.** A passenger fills in a form, presses "Pay Now" (a mocked payment), then presses "Generate Ticket & QR". That stores a ticket record in a JSON file and shows a QR code holding the record.
- **Entry gate.** The gate reads the issued ticket ids once, then watches the camera. The first QR text it decodes is judged Granted, Denied or Invalid. If the camera fails, or the operator quits before any code is seen, the result is "No QR scanned".
- **Ticket store.** The file is an append-only list of records.

Three modules, one per part:

- `Tickets` (`tickets.dfy`): the ticket record and the file.
  - The file is modelled by its decoded contents: `Disk = Absent | Present(records)`.
  - The pure functions are `TicketIds`, `Init` and `Save`.
  - The class `TicketStore` holds the file as a `present` flag and a `records: seq<Ticket>` field. Its methods are the file creation at the top of the script, `save_ticket` and `load_ticket_ids`.
- `Entry` (`entry.dfy`): the entry decision.
  - `Classify` decides one parsed payload.
  - `ScanFrames` specifies the capture loop over a finite sequence of frames, and `Scan` is that loop as a method.
  - `Message` gives the exact result strings.
- `Booking` (`booking.dfy`): the booking page.
  - The class `BookingSession` holds the `payment_done` flag. It has one method for each of the two buttons, one for selecting the scan page in the menu, and `HandlePress` for a whole interaction.
  - Streamlit re-runs the whole script on every widget interaction. So the file creation at the top of the script (hackerthon.py:13-15) runs before every handler, not once.
  - The pure machine `Step`/`Run` models interactions that way. `HandlePress` is proved to do exactly what `Step` says, and the lemmas about whole runs are stated on `Run`.

Inputs are given as parameters:

- **JSON parser.** Parsing is the parameter `parse: string -> ParseResult`. A result is either `ParseFailed` or a `Json` value.
- **Camera.** The camera is a sequence of `Frame(data, quitKey)`. `data` is the decoded text, `""` when no code was found. A failed camera read ends the sequence.
- **Ticket id and date.** The UUID text and the date text are method parameters.

Behaviours of the script worth noting:

- **Payload without a ticket id.** A payload that parses to an object without `ticket_id` is **Denied**, not Invalid (`MissingIdDenied`). The lookup yields `None`, and `None` is not in the id list. Only a parse failure, or a JSON value that is not an object (the `.get` call then raises), reaches the catch-all handler and gives Invalid.
- **Form fields at Generate.** "Generate" does not re-check the form fields. A ticket with empty fields is stored if they were cleared after paying (`GenerateRepeats` takes arbitrary forms). The travel date is never checked.
- **Ids as a list.** The ids are a list in stored order, with duplicates kept. They are not a set.
- **Two copies of the projection.** The script never calls `load_ticket_ids`. The scanner repeats the same projection inline, and both are modelled by `TicketIds`.

## Model

| member | source | states |
|---|---|---|
| Tickets.TicketIds | hackerthon.py:32-35 | one id per stored record, in stored order: same length, and position i holds record i's `ticket_id` |
| Tickets.Init | hackerthon.py:12-15 | after the first step of a script run the ticket file exists |
| Tickets.InitKeepsExisting | hackerthon.py:12-15 | an existing file is left as it is; a missing one becomes an empty list; running it twice, as successive script runs do, equals running it once |
| Tickets.Save | hackerthon.py:25-30 | saving needs the file: it exists afterwards exactly when it existed before |
| Tickets.SaveAppendsLast | hackerthon.py:25-30 | saving grows the list by exactly one record, placed last, earlier records unchanged and in order; the id list gains exactly that record's id at the end |
| Tickets.IdListed | hackerthon.py:32-35 | an id is in the id list exactly when some stored record carries it |
| Tickets.TicketStore.EnsureFile | hackerthon.py:13-15 | the file afterwards is `Init` of the file before |
| Tickets.TicketStore.SaveTicket | hackerthon.py:25-30 | succeeds exactly when the file exists, and the file afterwards is `Save` of the file before |
| Tickets.TicketStore.LoadTicketIds | hackerthon.py:32-35 | fails exactly when the file is missing; otherwise one id per stored record, in stored order |
| Entry.Get | hackerthon.py:59 | the lookup yields a value exactly when the key is present, and then the stored value |
| Entry.Listed | hackerthon.py:61 | no contract of its own: the `in valid_ids` test, true only for a string value present in the id list; `None` and non-strings never match; described by `ObjectGrantedIff` and `MissingIdDenied` |
| Entry.Classify | hackerthon.py:57-70 | the result is never "No QR scanned"; Invalid exactly when the text does not parse to an object; Granted only with a listed id that is the payload's own string `ticket_id` |
| Entry.ObjectGrantedIff | hackerthon.py:58-64 | for an object payload: Granted(x) exactly when its `ticket_id` is the string x and x is listed |
| Entry.MissingIdDenied | hackerthon.py:59-64 | an object payload without `ticket_id` is Denied |
| Entry.ScanFrames | hackerthon.py:49-81 | no contract of its own: the decision of the capture loop over a frame sequence; described by `FirstDataDecides`, `NoDataNoScan` and `NoScanIff`, and `Scan` is proved equal to it |
| Entry.FirstDataDecides | hackerthon.py:49-68 | the first frame with non-empty data, reached without a quit, decides the session through `Classify`; empty frames before it are skipped and later frames are never looked at |
| Entry.NoDataNoScan | hackerthon.py:47-53 | if the camera fails or the operator quits before any frame with data, the result is "No QR scanned" |
| Entry.NoScanIff | hackerthon.py:47-81 | "No QR scanned" exactly when no frame reaches the classifier |
| Entry.Scan | hackerthon.py:38-81 | fails exactly when the ticket file is missing; otherwise returns the decision `ScanFrames` gives over the ids read once before the loop; it changes nothing in the store |
| Entry.Message | hackerthon.py:47-70 | the result text starts with the check mark exactly for Granted, and a Granted text carries the ticket id after its fixed prefix |
| Entry.MessageInjective | hackerthon.py:47-73 | different decisions give different result texts |
| Entry.SavedTicketAdmitted | hackerthon.py:39-62 | after a ticket is saved, a payload carrying its id is Granted against the ids read afterwards |
| Entry.UnknownIdDenied | hackerthon.py:58-64 | a payload carrying an id that no stored record has is Denied |
| Entry.UnparsableInvalid | hackerthon.py:57-70 | text that does not parse gives Invalid and the bad-format message |
| Entry.Scenario | hackerthon.py:25-64 | from no file: save one ticket; the ids are exactly its id; its payload is Granted, another id is Denied, unparsable text is Invalid |
| Booking.Prefix | hackerthon.py:137 | the slice `[:8]` is a prefix of the text, of length 8 or the whole text when shorter |
| Booking.IssueTicket | hackerthon.py:137-145 | the new record takes each field from the current inputs, the date as text, and as id the prefix of the UUID text of length exactly 8 (or the whole text when shorter) |
| Booking.RequiredFilled | hackerthon.py:125 | no contract of its own: name, train number, departure and arrival city are all non-empty; the travel date is not among them |
| Booking.PaidAfterPayNow | hackerthon.py:123-129 | after "Pay Now" the flag is set exactly when it already was or the four required fields are non-empty |
| Booking.DiskAfterGenerate | hackerthon.py:133-146 | unpaid: the file is unchanged; paid with a file: exactly one record is added, last, the issued ticket, earlier records in place |
| Booking.Step | hackerthon.py:13-153 | one interaction: afterwards the file exists, the records present after re-creating a missing file are kept in place, at most one record is added, and selecting the scan page leaves the flag clear |
| Booking.Run | hackerthon.py:109-153 | no contract of its own: interactions applied in order; described by `FlagNeedsPayment`, `PaymentSetsFlag`, `IssueNeedsPayment` and `RunAppendOnly` |
| Booking.FlagNeedsPayment | hackerthon.py:120-129 | starting unpaid, the flag is set only if some "Pay Now" with name, train number and both cities non-empty came after the last visit to the scan page |
| Booking.PaymentSetsFlag | hackerthon.py:123-153 | from any state, a "Pay Now" with the four fields filled and no later scan-page visit leaves the flag set (the converse of `FlagNeedsPayment`) |
| Booking.IssueNeedsPayment | hackerthon.py:133-146 | starting unpaid, a press that does more to the file than re-create it is a "Generate" preceded by a filled-in "Pay Now" with no scan-page visit in between, and it appends exactly the ticket issued from its inputs |
| Booking.RunAppendOnly | hackerthon.py:13-153 | after any interaction the file exists, and the records there after the first re-creation keep their places, in order |
| Booking.GenerateAfterMissingFile | hackerthon.py:13-146 | with no ticket file, a paid "Generate" books: its script run first creates the empty list, then appends the ticket |
| Booking.GenerateRepeats | hackerthon.py:133-146 | once paid, two "Generate" presses append two tickets from whatever the inputs are, and the flag stays set |
| Booking.BookingSession.constructor | hackerthon.py:120-121 | a new session starts unpaid |
| Booking.BookingSession.PayNow | hackerthon.py:123-131 | while unpaid: sets the flag exactly when the four required fields are non-empty, otherwise reports missing fields; while paid: nothing changes |
| Booking.BookingSession.Generate | hackerthon.py:133-146 | while unpaid: reports a failed payment and the file is unchanged; while paid: saves the ticket built from the inputs; the flag is not touched |
| Booking.BookingSession.OpenScanPage | hackerthon.py:152-153 | selecting the scan page in the menu clears the payment flag |
| Booking.BookingSession.HandlePress | hackerthon.py:13-153 | one interaction: the file is created if missing, then the handler runs; the flag and file afterwards are exactly `Step` of those before, and the file exists |

## Left out

- Streamlit layout, CSS, buttons' rendering and the info, warning and success messages (hackerthon.py:84-157) are presentation. The final display at line 157 shows the same text on both branches.
- Webcam capture, OpenCV QR detection and the preview window are replaced by the given frame sequence. These are the camera read, `detectAndDecode`, `imshow`, the `waitKey` quit test and the releases.
- `generate_qr` (hackerthon.py:18-22) is left out because it is QR image rendering into a temporary PNG file.
- JSON serialisation and parsing are not modelled. Parsing is a parameter, and no encode/decode round trip is claimed.
- A file that exists but holds malformed JSON is not modelled. That is a parse error that propagates. The model's file always holds a decodable list.
- The real file I/O is not modelled, including the `seek(0)` rewrite without truncation in `save_ticket`. That rewrite leaves no stale tail only because the rewritten list is always longer than before. The model rewrites the list as a value.
- `uuid.uuid4()` randomness and `datetime` are not modelled. The UUID text and the date text are parameters, and id uniqueness is not claimed.
- Concurrency and atomic writes are not modelled. The script is a single session.
- Exceptions are modelled only as error results, and only for a missing ticket file. Called on their own, `SaveTicket` returns false, `LoadTicketIds` and `Scan` return `StoreMissing`, and `Generate` returns `TicketFileMissing`; the script raises in each case. Within a script run the file is always created first (`HandlePress` ensures it exists), so these replies do not occur there.
- Scan: the camera stream is finite in the model. A camera that never fails and an operator who never quits would loop forever, and that produces no result.
