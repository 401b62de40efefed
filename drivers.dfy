/** The `drivers` edge function: the driver listing (public drivers only
    for non-admins, optionally one airport, best rated first), registering as
    a driver, and the update that strips the privileged columns from a
    non-admin's payload. Tables are passed in and handed back as sequences of
    rows; new row ids are parameters. */
module Drivers {
  import opened Opt
  import opened Json
  import opened Http
  import opened Tables
  import opened Roles

  // ---------------------------------------------------------------------
  // Listing

  /** `.eq('status', 'active').eq('is_available', true)` */
  predicate Public(row: Row) {
    FieldIs(row, "status", Str("active")) && FieldIs(row, "is_available", Bool(true))
  }

  /** The filters the listing query carries. */
  function ListedBy(admin: bool, airportId: Option<string>): Row -> bool {
    (row: Row) =>
      && (admin || Public(row))
      && (airportId.None? || airportId.value == "" || FieldIs(row, "airport_id", Str(airportId.value)))
  }

  predicate Rated(row: Row) {
    "rating" in row && row["rating"].Num?
  }

  predicate Unrated(row: Row) {
    !Rated(row)
  }

  function Rating(row: Row): real {
    if Rated(row) then row["rating"].n else 0.0
  }

  /** `.order('rating', { ascending: false })`: PostgreSQL sorts a descending
      column with its nulls first, then the ratings from highest to lowest. */
  function ListDrivers(drivers: seq<Row>, profile: Option<Row>, airportId: Option<string>): (r: seq<Row>)
    ensures multiset(r) == multiset(Filter(drivers, ListedBy(IsAdmin(profile), airportId)))
    ensures forall i :: 0 <= i < |r| ==> ListedBy(IsAdmin(profile), airportId)(r[i])
    ensures !IsAdmin(profile) ==> forall i :: 0 <= i < |r| ==> Public(r[i])
    ensures forall i, j :: 0 <= i < j < |r| && Rated(r[i]) ==> Rated(r[j]) && Rating(r[i]) >= Rating(r[j])
  {
    var keep := ListedBy(IsAdmin(profile), airportId);
    var listed := Filter(drivers, keep);
    var unrated := Filter(listed, Unrated);
    var rated := SortDesc(Filter(listed, Rated), Rating);
    FilterPartition(listed, Unrated, Rated);
    SameRowsSameTest(rated, Filter(listed, Rated), Rated);
    NullsFirst(unrated, rated);
    assert multiset(rated) <= multiset(listed);
    SameRowsSameTest(unrated + rated, listed, keep);
    unrated + rated
  }

  /** Unrated rows followed by rated rows sorted by rating are in the order
      a descending sort with nulls first produces. */
  lemma NullsFirst(unrated: seq<Row>, rated: seq<Row>)
    requires forall i :: 0 <= i < |unrated| ==> !Rated(unrated[i])
    requires forall i :: 0 <= i < |rated| ==> Rated(rated[i])
    requires SortedDesc(rated, Rating)
    ensures var r := unrated + rated;
      forall i, j :: 0 <= i < j < |r| && Rated(r[i]) ==> Rated(r[j]) && Rating(r[i]) >= Rating(r[j])
  {
    var r := unrated + rated;
    forall i, j | 0 <= i < j < |r| && Rated(r[i])
      ensures Rated(r[j]) && Rating(r[i]) >= Rating(r[j])
    {
      assert i >= |unrated|;
      assert r[i] == rated[i - |unrated|] && r[j] == rated[j - |unrated|];
    }
  }

  // GET `/drivers/<id>` is `Tables.GetById`.

  // ---------------------------------------------------------------------
  // Registration

  const RequiredFields: seq<string> := ["license_number", "license_expiry", "vehicle_type", "vehicle_make",
                                        "vehicle_model", "vehicle_year", "vehicle_plate", "airport_id"]

  /** The request fields the new driver row copies as they are. */
  const CopiedFields: set<string> := {"license_number", "license_expiry", "vehicle_type", "vehicle_make",
                                      "vehicle_model", "vehicle_year", "vehicle_color", "airport_id", "documents"}

  /** `c.toUpperCase()` for ASCII letters. */
  function UpperChar(c: char): char {
    if 'a' <= c <= 'z' then (c as int - 'a' as int + 'A' as int) as char else c
  }

  function ToUpper(s: string): (r: string)
    ensures |r| == |s|
    ensures forall i :: 0 <= i < |s| ==> r[i] == UpperChar(s[i])
  {
    if s == [] then [] else [UpperChar(s[0])] + ToUpper(s[1..])
  }

  /** A plate upper-cased once stays the same when upper-cased again, and
      keeps no lower-case letter. */
  lemma ToUpperIdempotent(s: string)
    ensures ToUpper(ToUpper(s)) == ToUpper(s)
    ensures forall i :: 0 <= i < |s| ==> !('a' <= ToUpper(s)[i] <= 'z')
  {
    assert forall i :: 0 <= i < |s| ==> UpperChar(UpperChar(s[i])) == UpperChar(s[i]);
  }

  /** The `newDriver` record, with the id the database gives it. */
  function NewDriver(data: Row, userId: string, plate: string, id: string): (row: Row)
    ensures FieldIs(row, "user_id", Str(userId)) && FieldIs(row, "status", Str("pending"))
    ensures FieldIs(row, "vehicle_plate", Str(ToUpper(plate))) && FieldIs(row, "id", Str(id))
    ensures forall k :: k in CopiedFields ==> (k in row <==> k in data) && (k in data ==> row[k] == data[k])
    ensures forall k :: k in row ==> k in CopiedFields || k in {"user_id", "status", "vehicle_plate", "id"}
  {
    SetKeysNotCopied();
    Pick(data, CopiedFields)["user_id" := Str(userId)]["vehicle_plate" := Str(ToUpper(plate))]
      ["status" := Str("pending")]["id" := Str(id)]
  }

  /** The columns `newDriver` sets itself are not among those it copies. */
  lemma SetKeysNotCopied()
    ensures "user_id" !in CopiedFields && "vehicle_plate" !in CopiedFields
    ensures "status" !in CopiedFields && "id" !in CopiedFields
  {
  }

  /** A table and the reply of a handler that may write to it. */
  datatype Outcome = Outcome(table: seq<Row>, reply: Reply<Row>)

  /** POST: every required field present, no driver row for the caller yet,
      then insert a pending driver. A plate that is not a string makes
      `toUpperCase` throw, which the handler reports as a server error. */
  function Register(drivers: seq<Row>, userId: string, data: Row, newId: string): (o: Outcome)
    ensures MissingFields(RequiredFields, data) != [] ==>
      o == Outcome(drivers, Fail(400, "Missing required fields", MissingFields(RequiredFields, data)))
    ensures MissingFields(RequiredFields, data) == [] && Single(drivers, UserIs(userId)).One? ==>
      o == Outcome(drivers, Error(409, "Driver profile already exists"))
    ensures o.reply.Ok? ==>
      && IsTruthy(data, "vehicle_plate") && data["vehicle_plate"].Str?
      && o.reply == Ok(201, NewDriver(data, userId, data["vehicle_plate"].s, newId))
      && o.table == drivers + [o.reply.body]
    ensures MissingFields(RequiredFields, data) == [] && !Single(drivers, UserIs(userId)).One? ==>
      (o.reply.Ok? <==> "vehicle_plate" in data && data["vehicle_plate"].Str?)
    ensures o.reply.Fail? ==> o.table == drivers
  {
    var missing := MissingFields(RequiredFields, data);
    if missing != [] then Outcome(drivers, Fail(400, "Missing required fields", missing))
    else if Single(drivers, UserIs(userId)).One? then Outcome(drivers, Error(409, "Driver profile already exists"))
    else
      assert RequiredFields[6] == "vehicle_plate" && IsTruthy(data, "vehicle_plate");
      var plate := data["vehicle_plate"];
      if !plate.Str? then Outcome(drivers, Error(500, "Internal server error"))
      else
        var row := NewDriver(data, userId, plate.s, newId);
        Outcome(drivers + [row], Ok(201, row))
  }

  // ---------------------------------------------------------------------
  // Update and delete

  /** The columns only an admin may write. */
  const Privileged: set<string> := {"status", "rating", "total_rides"}

  /** `delete updateData.status; delete updateData.rating;
      delete updateData.total_rides` unless the caller is an admin. */
  method StripPrivileged(updateData: Row, admin: bool) returns (r: Row)
    ensures admin ==> r == updateData
    ensures forall k :: k in r <==> k in updateData && (admin || k !in Privileged)
    ensures forall k :: k in r ==> r[k] == updateData[k]
  {
    r := updateData;
    if !admin {
      r := r - {"status"};
      r := r - {"rating"};
      r := r - {"total_rides"};
    }
  }

  /** PUT `/drivers/<id>`: strip the privileged columns unless the caller is
      an admin, then apply the rest to the driver with that id. Ownership of
      the driver row is not checked here. */
  method Update(drivers: seq<Row>, profiles: seq<Row>, userId: string, id: string, updateData: Row)
    returns (o: Outcome)
    ensures MissingId(id, "drivers") ==> o == Outcome(drivers, Error(400, "Driver ID is required"))
    ensures !MissingId(id, "drivers") ==>
      var admin := IsAdmin(ProfileOf(profiles, userId));
      var changes := if admin then updateData else updateData - Privileged;
      && o.table == UpdateWhere(drivers, HasId(id), MergeWith(changes))
      && (Single(drivers, HasId(id)).One? ==>
            o.reply == Ok(200, Merge(drivers[Single(drivers, HasId(id)).index], changes)))
      && (!Single(drivers, HasId(id)).One? ==> o.reply == Error(400, NotSingle))
  {
    if MissingId(id, "drivers") {
      return Outcome(drivers, Error(400, "Driver ID is required"));
    }
    var admin := IsAdmin(ProfileOf(profiles, userId));
    var changes := StripPrivileged(updateData, admin);
    assert changes == if admin then updateData else updateData - Privileged;
    var found := Single(drivers, HasId(id));
    var table := UpdateWhere(drivers, HasId(id), MergeWith(changes));
    if found.One? {
      o := Outcome(table, Ok(200, Merge(drivers[found.index], changes)));
    } else {
      o := Outcome(table, Error(400, NotSingle));
    }
  }

  /** A non-admin's update never touches a driver's status, rating or ride
      count, whatever the payload holds; every other column of the payload
      is written as sent. */
  lemma NonAdminCannotPromote(row: Row, updateData: Row)
    ensures var after := Merge(row, updateData - Privileged);
      && (forall k :: k in Privileged ==> (k in after <==> k in row) && (k in row ==> after[k] == row[k]))
      && (forall k :: k in updateData && k !in Privileged ==> after[k] == updateData[k])
  {
  }

  /** DELETE `/drivers/<id>`: remove the driver with that id; deleting an id
      that is not there also succeeds. */
  function Delete(drivers: seq<Row>, id: string): (o: Outcome)
    ensures MissingId(id, "drivers") ==> o == Outcome(drivers, Error(400, "Driver ID is required"))
    ensures !MissingId(id, "drivers") ==>
      o.table == DeleteWhere(drivers, HasId(id))
      && o.reply == Ok(200, map["message" := Str("Driver profile deleted successfully")])
  {
    if MissingId(id, "drivers") then Outcome(drivers, Error(400, "Driver ID is required"))
    else Outcome(DeleteWhere(drivers, HasId(id)), Ok(200, map["message" := Str("Driver profile deleted successfully")]))
  }
}
