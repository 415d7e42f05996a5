/**
 * The entry gate: the ids of the issued tickets are read once, then the
 * decoded text of camera frames is scanned until a QR code is seen, the
 * camera fails or the operator quits. The first non-empty text decides.
 */
module Entry {
  import opened Tickets

  /** A JSON value as the parser hands it back. */
  datatype Json =
    | JNull
    | JBool(b: bool)
    | JNumber(literal: string)
    | JString(s: string)
    | JArray(items: seq<Json>)
    | JObject(fields: map<string, Json>)

  /** What parsing the scanned text produces: a syntax error, or a value. */
  datatype ParseResult = ParseFailed | Parsed(value: Json)

  /** The decision of one scan session. */
  datatype Outcome = Granted(id: string) | Denied | Invalid | NoQrScanned

  /**
   * One frame the camera delivered: the text the QR detector decoded from it
   * ("" when no code was found) and whether the quit key was down after it.
   * A camera read that fails ends the sequence.
   */
  datatype Frame = Frame(data: string, quitKey: bool)

  datatype Option<T> = None | Some(value: T)

  /** The key looked up in the decoded payload. */
  const TicketIdKey: string := "ticket_id"

  /** Dictionary lookup that yields nothing for a missing key. */
  function Get(fields: map<string, Json>, key: string): (v: Option<Json>)
    ensures v.Some? <==> key in fields
    ensures v.Some? ==> v.value == fields[key]
  {
    if key in fields then Some(fields[key]) else None
  }

  /** Membership of a looked-up value in the list of issued ids; only a string can match. */
  predicate Listed(v: Option<Json>, ids: seq<string>)
  {
    v.Some? && v.value.JString? && v.value.s in ids
  }

  /**
   * Decide one scanned text. A parse failure, or a value that is not an
   * object (the lookup then faults), is caught and reported as Invalid; an
   * object is Granted when its ticket id is listed and Denied otherwise,
   * also when it has no ticket id at all.
   */
  function Classify(p: ParseResult, ids: seq<string>): (o: Outcome)
    ensures !o.NoQrScanned?
    ensures o.Invalid? <==> !(p.Parsed? && p.value.JObject?)
    ensures o.Granted? ==> o.id in ids
    ensures o.Granted? ==> Get(p.value.fields, TicketIdKey) == Some(JString(o.id))
  {
    match p
    case ParseFailed => Invalid
    case Parsed(v) =>
      if !v.JObject? then Invalid
      else
        var ticketId := Get(v.fields, TicketIdKey);
        if Listed(ticketId, ids) then Granted(ticketId.value.s) else Denied
  }

  /** An object payload is granted exactly when its ticket id is a listed string. */
  lemma ObjectGrantedIff(fields: map<string, Json>, ids: seq<string>, x: string)
    ensures Classify(Parsed(JObject(fields)), ids) == Granted(x)
            <==> TicketIdKey in fields && fields[TicketIdKey] == JString(x) && x in ids
  {
  }

  /** An object payload without a ticket id is denied, not reported as bad format. */
  lemma MissingIdDenied(fields: map<string, Json>, ids: seq<string>)
    requires TicketIdKey !in fields
    ensures Classify(Parsed(JObject(fields)), ids) == Denied
  {
  }

  /** The decision for a frame sequence, as the capture loop reaches it. */
  function ScanFrames(frames: seq<Frame>, parse: string -> ParseResult, ids: seq<string>): Outcome
  {
    if frames == [] then NoQrScanned
    else if frames[0].data != "" then Classify(parse(frames[0].data), ids)
    else if frames[0].quitKey then NoQrScanned
    else ScanFrames(frames[1..], parse, ids)
  }

  /** Frame k is the one that gets classified: it has data, and every frame before it was empty with no quit. */
  ghost predicate Decides(frames: seq<Frame>, k: int)
  {
    0 <= k < |frames| && frames[k].data != "" &&
    forall j :: 0 <= j < k ==> frames[j].data == "" && !frames[j].quitKey
  }

  /** The first frame with data decides the session, whatever follows it. */
  lemma {:induction false} FirstDataDecides(frames: seq<Frame>, parse: string -> ParseResult, ids: seq<string>, k: int)
    requires Decides(frames, k)
    ensures ScanFrames(frames, parse, ids) == Classify(parse(frames[k].data), ids)
  {
    if k > 0 {
      assert Decides(frames[1..], k - 1) by {
        forall j | 0 <= j < k - 1
          ensures frames[1..][j].data == "" && !frames[1..][j].quitKey
        {
          assert frames[1..][j] == frames[j + 1];
        }
      }
      FirstDataDecides(frames[1..], parse, ids, k - 1);
      assert frames[1..][k - 1] == frames[k];
    }
  }

  /** When the camera fails or the operator quits before any frame has data, nothing was scanned. */
  lemma {:induction false} NoDataNoScan(frames: seq<Frame>, parse: string -> ParseResult, ids: seq<string>)
    requires forall k :: 0 <= k < |frames| ==> !Decides(frames, k)
    ensures ScanFrames(frames, parse, ids) == NoQrScanned
  {
    if frames != [] {
      assert !Decides(frames, 0);
      if !frames[0].quitKey {
        forall k | 0 <= k < |frames[1..]|
          ensures !Decides(frames[1..], k)
        {
          if Decides(frames[1..], k) {
            assert Decides(frames, k + 1) by {
              forall j | 0 <= j < k + 1
                ensures frames[j].data == "" && !frames[j].quitKey
              {
                if j > 0 {
                  assert frames[j] == frames[1..][j - 1];
                }
              }
            }
            assert false;
          }
        }
        NoDataNoScan(frames[1..], parse, ids);
      }
    }
  }

  /** "No QR scanned" means exactly that no frame reached the classifier. */
  lemma NoScanIff(frames: seq<Frame>, parse: string -> ParseResult, ids: seq<string>)
    ensures ScanFrames(frames, parse, ids) == NoQrScanned
            <==> forall k :: 0 <= k < |frames| ==> !Decides(frames, k)
  {
    if forall k :: 0 <= k < |frames| ==> !Decides(frames, k) {
      NoDataNoScan(frames, parse, ids);
    } else {
      var k :| 0 <= k < |frames| && Decides(frames, k);
      FirstDataDecides(frames, parse, ids, k);
    }
  }

  /**
   * The capture loop. The ids are read from the store once, before the loop;
   * the store is only read. A missing ticket file makes the initial read fail.
   */
  method Scan(store: TicketStore, frames: seq<Frame>, parse: string -> ParseResult) returns (r: Fallible<Outcome>)
    ensures r.StoreMissing? <==> !store.present
    ensures r.Ok? ==> r.value == ScanFrames(frames, parse, TicketIds(store.records))
  {
    if !store.present {
      return StoreMissing;
    }
    var validIds := TicketIds(store.records);
    var result := NoQrScanned;
    var i := 0;
    while i < |frames|
      invariant 0 <= i <= |frames|
      invariant ScanFrames(frames[i..], parse, validIds) == ScanFrames(frames, parse, validIds)
    {
      var data := frames[i].data;
      if data != "" {
        result := Classify(parse(data), validIds);
        return Ok(result);
      }
      if frames[i].quitKey {
        break;
      }
      assert frames[i..][1..] == frames[i + 1..];
      i := i + 1;
    }
    return Ok(result);
  }

  /** The text the scanner returns for each decision. */
  function Message(o: Outcome): (m: string)
    ensures |m| > 0
    ensures m[0] == '✅' <==> o.Granted?
    ensures o.Granted? ==> GrantedPrefix <= m && o.id <= m[|GrantedPrefix|..]
  {
    match o
    case Granted(id) => GrantedPrefix + id + ")"
    case Denied => "❌ Access Denied: Ticket not found"
    case Invalid => "❌ Invalid QR Code (bad format)"
    case NoQrScanned => "No QR scanned"
  }

  const GrantedPrefix: string := "✅ Access Granted (Ticket ID: "

  /** Distinct decisions are reported by distinct texts. */
  lemma MessageInjective(a: Outcome, b: Outcome)
    requires Message(a) == Message(b)
    ensures a == b
  {
  }

  /** The QR payload of a ticket: an object whose ticket id is that ticket's id. */
  ghost predicate CarriesId(p: ParseResult, id: string)
  {
    p.Parsed? && p.value.JObject? && TicketIdKey in p.value.fields &&
    p.value.fields[TicketIdKey] == JString(id)
  }

  /** After a ticket is saved, a payload carrying its id is granted against a fresh read of the ids. */
  lemma SavedTicketAdmitted(rs: seq<Ticket>, t: Ticket, p: ParseResult)
    requires CarriesId(p, t.ticketId)
    ensures Classify(p, TicketIds(Save(Present(rs), t).records)) == Granted(t.ticketId)
  {
  }

  /** A payload carrying an id that no stored ticket has is denied. */
  lemma UnknownIdDenied(rs: seq<Ticket>, x: string, p: ParseResult)
    requires CarriesId(p, x)
    requires forall i :: 0 <= i < |rs| ==> rs[i].ticketId != x
    ensures Classify(p, TicketIds(rs)) == Denied
  {
  }

  /** Text the parser rejects is reported as bad format, whatever is stored. */
  lemma UnparsableInvalid(ids: seq<string>)
    ensures Classify(ParseFailed, ids) == Invalid
    ensures Message(Classify(ParseFailed, ids)) == "❌ Invalid QR Code (bad format)"
  {
  }

  /** A booking followed by three scans: the booked id, an unknown id, and text that is not JSON. */
  lemma Scenario()
    ensures var t := Ticket("a1b2c3d4", "Asha", "Pune", "Delhi", "12045", "2025-01-01");
            var ids := TicketIds(Save(Init(Absent), t).records);
            && ids == ["a1b2c3d4"]
            && Classify(Parsed(JObject(map[TicketIdKey := JString("a1b2c3d4")])), ids) == Granted("a1b2c3d4")
            && Classify(Parsed(JObject(map[TicketIdKey := JString("zzzzzzzz")])), ids) == Denied
            && Classify(ParseFailed, ids) == Invalid
  {
  }
}
