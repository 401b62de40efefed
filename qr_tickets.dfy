/** The `qr-tickets` edge function: a ride's ticket code is created once and
    then reused, a ticket is valid within a day of the ride while the ride is
    live, and scanning a ticket moves the ride forward (a driver's scan picks
    the passenger up, the passenger's scan completes the ride). The clock and
    `crypto.randomUUID()` are parameters; the rides table is a field. */
module QrTickets {
  import opened Opt
  import opened Http
  import opened Tables

  /** The `ride_status` enum. */
  datatype RideStatus = Pending | Accepted | InProgress | Completed | Cancelled

  /** One day, in milliseconds. */
  const DayMs := 24 * 60 * 60 * 1000

  /** A row of the `rides` table, as far as tickets read and write it. Times
      are milliseconds since the epoch; a ride's position in the table stands
      for its primary key. */
  datatype Ride = Ride(
    id: string,
    passengerId: string,
    driverId: Option<string>,
    status: RideStatus,
    qrCode: Option<string>,
    scheduledTime: Option<int>,
    createdAt: int,
    pickupTime: Option<int>,
    completionTime: Option<int>)

  /** `!!ride.qr_code` */
  predicate HasQr(r: Ride) {
    r.qrCode.Some? && r.qrCode.value != ""
  }

  /** `qrCode = ride.qr_code; if (!qrCode) qrCode = uuid`, as stored. */
  function WithQr(r: Ride, uuid: string): Ride {
    if HasQr(r) then r else r.(qrCode := Some(uuid))
  }

  /** Generating twice stores and returns the same code as generating once:
      the second call finds the first call's code and reuses it. */
  lemma WithQrIdempotent(r: Ride, uuid1: string, uuid2: string)
    requires uuid1 != ""
    ensures WithQr(WithQr(r, uuid1), uuid2) == WithQr(r, uuid1)
    ensures HasQr(WithQr(r, uuid1))
    ensures HasQr(r) ==> WithQr(r, uuid1) == r
  {
  }

  /** `new Date(ride.scheduled_time || ride.created_at)` */
  function RideDate(r: Ride): int {
    if r.scheduledTime.Some? then r.scheduledTime.value else r.createdAt
  }

  /** `['pending', 'accepted', 'in_progress'].includes(ride.status)` */
  predicate Live(s: RideStatus) {
    s == Pending || s == Accepted || s == InProgress
  }

  function Abs(x: int): int {
    if x < 0 then -x else x
  }

  /** `Math.abs(now - rideDate) / (1000 * 60 * 60) <= 24 && live` */
  predicate TicketValid(r: Ride, now: int) {
    (Abs(now - RideDate(r)) as real) / (1000.0 * 60.0 * 60.0) <= 24.0 && Live(r.status)
  }

  /** A ticket is valid from a day before the ride until a day after it
      (both ends included) while the ride is pending, accepted or in
      progress; a completed or cancelled ride's ticket is never valid. */
  lemma {:induction false} TicketValidWindow(r: Ride, now: int)
    ensures TicketValid(r, now) <==>
      RideDate(r) - DayMs <= now <= RideDate(r) + DayMs && Live(r.status)
    ensures r.status == Completed || r.status == Cancelled ==> !TicketValid(r, now)
  {
    var gap := Abs(now - RideDate(r)) as real;
    assert gap / 3600000.0 <= 24.0 <==> gap <= 86400000.0;
  }

  /** The status a scan leaves the ride in. */
  function ScanStatus(scannerRole: Option<string>, status: RideStatus): RideStatus {
    if scannerRole == Some("driver") && status == Accepted then InProgress
    else if scannerRole == Some("passenger") && status == InProgress then Completed
    else status
  }

  /** The stored ride after a scan at `now`. */
  function Scanned(r: Ride, scannerRole: Option<string>, now: int): Ride {
    if scannerRole == Some("driver") && r.status == Accepted then
      r.(status := InProgress, pickupTime := Some(now))
    else if scannerRole == Some("passenger") && r.status == InProgress then
      r.(status := Completed, completionTime := Some(now))
    else r
  }

  /** How far along its life a ride is. */
  function Progress(s: RideStatus): nat {
    match s
    case Pending => 0
    case Accepted => 1
    case InProgress => 2
    case Completed => 3
    case Cancelled => 3
  }

  /** A scan makes exactly two moves: a driver's scan of an accepted ride
      starts it and stamps the pickup, a passenger's scan of a ride in progress
      completes it and stamps the completion. Every other (role, status) pair
      leaves the ride as it was, and no scan moves a ride backwards. */
  lemma ScanTransitions(r: Ride, scannerRole: Option<string>, now: int)
    ensures Scanned(r, scannerRole, now).status == ScanStatus(scannerRole, r.status)
    ensures Progress(ScanStatus(scannerRole, r.status)) >= Progress(r.status)
    ensures ScanStatus(scannerRole, r.status) != r.status <==>
      (scannerRole == Some("driver") && r.status == Accepted)
      || (scannerRole == Some("passenger") && r.status == InProgress)
    ensures ScanStatus(scannerRole, r.status) == r.status ==> Scanned(r, scannerRole, now) == r
    ensures ScanStatus(scannerRole, r.status) == InProgress && r.status != InProgress ==>
      Scanned(r, scannerRole, now) == r.(status := InProgress, pickupTime := Some(now))
    ensures ScanStatus(scannerRole, r.status) == Completed && r.status != Completed ==>
      Scanned(r, scannerRole, now) == r.(status := Completed, completionTime := Some(now))
  {
  }

  /** `scanner_role || 'unknown'` */
  function LoggedRole(scannerRole: Option<string>): string {
    if scannerRole.Some? && scannerRole.value != "" then scannerRole.value else "unknown"
  }

  function Owned(rideId: string, userId: string): Ride -> bool {
    (r: Ride) => r.id == rideId && (r.passengerId == userId || r.driverId == Some(userId))
  }

  function WithCode(code: string): Ride -> bool {
    (r: Ride) => r.qrCode == Some(code)
  }

  /** The reply to `generate`: the code and the ride as it was read. */
  datatype Ticket = Ticket(qrCode: string, ride: Ride)

  /** The reply to `verify`. */
  datatype Verification = Verification(valid: bool, ride: Ride, qrCode: string, verifiedAt: int)

  /** The scan log entry. */
  datatype ScanLog = ScanLog(rideId: string, scannedBy: string, scannerRole: string, scannedAt: int)

  /** The reply to `scan`: the ride with its new status, and the log entry. */
  datatype ScanReceipt = ScanReceipt(ride: Ride, log: ScanLog)

  class TicketDesk {
    var rides: seq<Ride>

    constructor (initial: seq<Ride>)
      ensures rides == initial
    {
      rides := initial;
    }

    /** GET `generate?ride_id=`: for a ride the caller takes part in, return
        its code, creating and storing one only when it has none. */
    method Generate(rideId: Option<string>, userId: string, uuid: string) returns (reply: Reply<Ticket>)
      modifies this
      ensures rideId.None? || rideId.value == "" ==>
        reply == Error(400, "Ride ID is required") && rides == old(rides)
      ensures rideId.Some? && rideId.value != "" && !Single(old(rides), Owned(rideId.value, userId)).One? ==>
        reply == Error(404, "Ride not found or unauthorized") && rides == old(rides)
      ensures rideId.Some? && rideId.value != "" && Single(old(rides), Owned(rideId.value, userId)).One? ==>
        var i := Single(old(rides), Owned(rideId.value, userId)).index;
        && rides == old(rides)[i := WithQr(old(rides)[i], uuid)]
        && reply == Ok(200, Ticket(WithQr(old(rides)[i], uuid).qrCode.value, old(rides)[i]))
    {
      if rideId.None? || rideId.value == "" {
        return Error(400, "Ride ID is required");
      }
      var found := Single(rides, Owned(rideId.value, userId));
      if !found.One? {
        return Error(404, "Ride not found or unauthorized");
      }
      var ride := rides[found.index];
      var qrCode := ride.qrCode;
      if !HasQr(ride) {
        qrCode := Some(uuid);
        rides := rides[found.index := ride.(qrCode := qrCode)];
      }
      reply := Ok(200, Ticket(qrCode.value, ride));
    }

    /** GET `verify?qr_code=`: look the ticket up and judge it at `now`. */
    method Verify(qrCode: Option<string>, now: int) returns (reply: Reply<Verification>)
      ensures qrCode.None? || qrCode.value == "" ==> reply == Error(400, "QR code is required")
      ensures qrCode.Some? && qrCode.value != "" && !Single(rides, WithCode(qrCode.value)).One? ==>
        reply == Error(404, "Invalid QR code")
      ensures qrCode.Some? && qrCode.value != "" && Single(rides, WithCode(qrCode.value)).One? ==>
        var ride := rides[Single(rides, WithCode(qrCode.value)).index];
        && ride.qrCode == qrCode
        && reply == Ok(200, Verification(TicketValid(ride, now), ride, qrCode.value, now))
    {
      if qrCode.None? || qrCode.value == "" {
        return Error(400, "QR code is required");
      }
      var found := Single(rides, WithCode(qrCode.value));
      if !found.One? {
        return Error(404, "Invalid QR code");
      }
      var ride := rides[found.index];
      var hoursFromRide := (Abs(now - RideDate(ride)) as real) / (1000.0 * 60.0 * 60.0);
      var isValid := hoursFromRide <= 24.0 && Live(ride.status);
      reply := Ok(200, Verification(isValid, ride, qrCode.value, now));
    }

    /** POST `scan`: find the ride by its code, log the scan and apply the
        role's transition, if any. */
    method Scan(qrCode: string, scannerRole: Option<string>, userId: string, now: int)
      returns (reply: Reply<ScanReceipt>)
      modifies this
      ensures qrCode == "" ==> reply == Error(400, "QR code is required") && rides == old(rides)
      ensures qrCode != "" && !Single(old(rides), WithCode(qrCode)).One? ==>
        reply == Error(404, "Invalid QR code") && rides == old(rides)
      ensures qrCode != "" && Single(old(rides), WithCode(qrCode)).One? ==>
        var i := Single(old(rides), WithCode(qrCode)).index;
        var ride := old(rides)[i];
        && rides == old(rides)[i := Scanned(ride, scannerRole, now)]
        && reply == Ok(200, ScanReceipt(ride.(status := ScanStatus(scannerRole, ride.status)),
                                        ScanLog(ride.id, userId, LoggedRole(scannerRole), now)))
    {
      if qrCode == "" {
        return Error(400, "QR code is required");
      }
      var found := Single(rides, WithCode(qrCode));
      if !found.One? {
        return Error(404, "Invalid QR code");
      }
      var ride := rides[found.index];
      var scanLog := ScanLog(ride.id, userId, LoggedRole(scannerRole), now);
      var newStatus := ride.status;
      if scannerRole == Some("driver") && ride.status == Accepted {
        newStatus := InProgress;
        rides := rides[found.index := ride.(status := newStatus, pickupTime := Some(now))];
      } else if scannerRole == Some("passenger") && ride.status == InProgress {
        newStatus := Completed;
        rides := rides[found.index := ride.(status := newStatus, completionTime := Some(now))];
      }
      reply := Ok(200, ScanReceipt(ride.(status := newStatus), scanLog));
    }
  }
}
