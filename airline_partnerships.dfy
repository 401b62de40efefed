/** The `airline-partnerships` edge function: admins see every partnership,
    everyone else only the approved ones and only their public columns; a
    new partnership gets default commission and airports and is approved
    at once only when an admin files it; changing or removing one is for
    admins. Tables are passed in and handed back; new row ids are
    parameters. */
module AirlinePartnerships {
  import opened Opt
  import opened Json
  import opened Http
  import opened Tables
  import opened Roles

  /** The columns a non-admin's listing selects. */
  const PublicColumns: set<string> := {"id", "airline_name", "iata_code", "headquarters", "partnership_type", "status"}

  function Approved(row: Row): bool {
    FieldIs(row, "status", Str("approved"))
  }

  /** `select(columns)` applied to each row. */
  function Project(rows: seq<Row>, columns: set<string>): (r: seq<Row>)
    ensures |r| == |rows|
    ensures forall i :: 0 <= i < |rows| ==> r[i] == Pick(rows[i], columns)
  {
    if rows == [] then [] else [Pick(rows[0], columns)] + Project(rows[1..], columns)
  }

  /** GET `/airline-partnerships`, newest first. */
  function List(partnerships: seq<Row>, profiles: seq<Row>, userId: string): (r: seq<Row>)
    ensures IsAdmin(ProfileOf(profiles, userId)) ==>
      SortedDesc(r, CreatedAt) && multiset(r) == multiset(partnerships)
    ensures !IsAdmin(ProfileOf(profiles, userId)) ==>
      exists approved: seq<Row> ::
        && SortedDesc(approved, CreatedAt)
        && multiset(approved) == multiset(Filter(partnerships, Approved))
        && r == Project(approved, PublicColumns)
    ensures !IsAdmin(ProfileOf(profiles, userId)) ==>
      forall i :: 0 <= i < |r| ==> r[i].Keys <= PublicColumns && FieldIs(r[i], "status", Str("approved"))
  {
    if IsAdmin(ProfileOf(profiles, userId)) then SortDesc(partnerships, CreatedAt)
    else
      var approved := SortDesc(Filter(partnerships, Approved), CreatedAt);
      SameRowsSameTest(approved, Filter(partnerships, Approved), Approved);
      Project(approved, PublicColumns)
  }

  // GET `/airline-partnerships/<id>`, the whole row for anyone, is `Tables.GetById`.

  const RequiredFields: seq<string> := ["airline_name", "contact_person", "email", "headquarters", "partnership_type"]

  /** The request fields the new row copies as they are. */
  const CopiedFields: set<string> := {"airline_name", "contact_person", "email", "phone", "iata_code",
                                      "headquarters", "partnership_type"}

  /** The `newPartnership` record, with the id the database gives it. */
  function NewPartnership(data: Row, admin: bool, id: string): (row: Row)
    ensures forall k :: k in CopiedFields ==> (k in row <==> k in data) && (k in data ==> row[k] == data[k])
    ensures FieldIs(row, "commission_rate",
                    if IsTruthy(data, "commission_rate") then data["commission_rate"] else Num(15.0))
    ensures FieldIs(row, "airports", if IsTruthy(data, "airports") then data["airports"] else Arr([]))
    ensures FieldIs(row, "status", Str(if admin then "approved" else "pending"))
    ensures FieldIs(row, "id", Str(id))
    ensures row.Keys <= CopiedFields + {"commission_rate", "airports", "status", "id"}
  {
    SetKeysNotCopied();
    Pick(data, CopiedFields)
      ["commission_rate" := OrElse(data, "commission_rate", Num(15.0))]
      ["airports" := OrElse(data, "airports", Arr([]))]
      ["status" := Str(if admin then "approved" else "pending")]
      ["id" := Str(id)]
  }

  /** The columns `newPartnership` sets itself are not among those it copies. */
  lemma SetKeysNotCopied()
    ensures "commission_rate" !in CopiedFields && "airports" !in CopiedFields
    ensures "status" !in CopiedFields && "id" !in CopiedFields
  {
  }

  function NameIs(name: Value): Row -> bool {
    (row: Row) => FieldIs(row, "airline_name", name)
  }

  /** A table and the reply of a handler that may write to it. */
  datatype Outcome = Outcome(table: seq<Row>, reply: Reply<Row>)

  /** POST: every required field present and no partnership with the same
      airline name, then insert. */
  function Create(partnerships: seq<Row>, profiles: seq<Row>, userId: string, data: Row, newId: string): (o: Outcome)
    ensures MissingFields(RequiredFields, data) != [] ==>
      o == Outcome(partnerships, Fail(400, "Missing required fields", MissingFields(RequiredFields, data)))
    ensures MissingFields(RequiredFields, data) == [] ==> IsTruthy(data, "airline_name")
    ensures MissingFields(RequiredFields, data) == [] && Single(partnerships, NameIs(data["airline_name"])).One? ==>
      o == Outcome(partnerships, Error(409, "Partnership with this airline already exists"))
    ensures MissingFields(RequiredFields, data) == [] && !Single(partnerships, NameIs(data["airline_name"])).One? ==>
      var row := NewPartnership(data, IsAdmin(ProfileOf(profiles, userId)), newId);
      o == Outcome(partnerships + [row], Ok(201, row))
  {
    var missing := MissingFields(RequiredFields, data);
    if missing != [] then Outcome(partnerships, Fail(400, "Missing required fields", missing))
    else
      assert RequiredFields[0] == "airline_name";
      if Single(partnerships, NameIs(data["airline_name"])).One? then
        Outcome(partnerships, Error(409, "Partnership with this airline already exists"))
      else
        var row := NewPartnership(data, IsAdmin(ProfileOf(profiles, userId)), newId);
        Outcome(partnerships + [row], Ok(201, row))
  }

  /** A partnership filed by a non-admin always waits for approval, and one
      filed by an admin is approved at once; commission defaults to 15 when
      it is absent or 0. */
  lemma {:induction false} CreatedStatus(partnerships: seq<Row>, profiles: seq<Row>, userId: string, data: Row, newId: string)
    ensures var o := Create(partnerships, profiles, userId, data, newId);
      o.reply.Ok? ==>
        && FieldIs(o.reply.body, "status", Str(if IsAdmin(ProfileOf(profiles, userId)) then "approved" else "pending"))
        && (FieldIs(data, "commission_rate", Num(0.0)) || "commission_rate" !in data ==>
              FieldIs(o.reply.body, "commission_rate", Num(15.0)))
  {
    var o := Create(partnerships, profiles, userId, data, newId);
    if o.reply.Ok? {
      assert MissingFields(RequiredFields, data) == [];
      var row := NewPartnership(data, IsAdmin(ProfileOf(profiles, userId)), newId);
      assert o.reply.body == row;
    }
  }

  /** PUT `/airline-partnerships/<id>`: the id is checked before the
      caller's permission. */
  function Update(partnerships: seq<Row>, profiles: seq<Row>, userId: string, id: string, updateData: Row): (o: Outcome)
    ensures MissingId(id, "airline-partnerships") ==>
      o == Outcome(partnerships, Error(400, "Partnership ID is required"))
    ensures !MissingId(id, "airline-partnerships") && !IsAdmin(ProfileOf(profiles, userId)) ==>
      o == Outcome(partnerships, Error(403, "Insufficient permissions"))
    ensures !MissingId(id, "airline-partnerships") && IsAdmin(ProfileOf(profiles, userId)) ==>
      && o.table == UpdateWhere(partnerships, HasId(id), MergeWith(updateData))
      && o.reply == if Single(partnerships, HasId(id)).One?
                    then Ok(200, Merge(partnerships[Single(partnerships, HasId(id)).index], updateData))
                    else Error(400, NotSingle)
  {
    if MissingId(id, "airline-partnerships") then Outcome(partnerships, Error(400, "Partnership ID is required"))
    else if !IsAdmin(ProfileOf(profiles, userId)) then Outcome(partnerships, Error(403, "Insufficient permissions"))
    else
      var found := Single(partnerships, HasId(id));
      Outcome(UpdateWhere(partnerships, HasId(id), MergeWith(updateData)),
              if found.One? then Ok(200, Merge(partnerships[found.index], updateData)) else Error(400, NotSingle))
  }

  /** DELETE `/airline-partnerships/<id>`: the same two guards, then remove. */
  function Delete(partnerships: seq<Row>, profiles: seq<Row>, userId: string, id: string): (o: Outcome)
    ensures MissingId(id, "airline-partnerships") ==>
      o == Outcome(partnerships, Error(400, "Partnership ID is required"))
    ensures !MissingId(id, "airline-partnerships") && !IsAdmin(ProfileOf(profiles, userId)) ==>
      o == Outcome(partnerships, Error(403, "Insufficient permissions"))
    ensures !MissingId(id, "airline-partnerships") && IsAdmin(ProfileOf(profiles, userId)) ==>
      o == Outcome(DeleteWhere(partnerships, HasId(id)),
                   Ok(200, map["message" := Str("Partnership deleted successfully")]))
  {
    if MissingId(id, "airline-partnerships") then Outcome(partnerships, Error(400, "Partnership ID is required"))
    else if !IsAdmin(ProfileOf(profiles, userId)) then Outcome(partnerships, Error(403, "Insufficient permissions"))
    else Outcome(DeleteWhere(partnerships, HasId(id)), Ok(200, map["message" := Str("Partnership deleted successfully")]))
  }

  /** Only an admin can change or remove a partnership: for anyone else
      PUT and DELETE leave the table as it was, whatever the id and payload,
      and answer 400 for a missing id before they answer 403. */
  lemma {:induction false} OnlyAdminsWrite(partnerships: seq<Row>, profiles: seq<Row>, userId: string, id: string, updateData: Row)
    requires !IsAdmin(ProfileOf(profiles, userId))
    ensures Update(partnerships, profiles, userId, id, updateData).table == partnerships
    ensures Delete(partnerships, profiles, userId, id).table == partnerships
    ensures Update(partnerships, profiles, userId, id, updateData).reply.status ==
      (if MissingId(id, "airline-partnerships") then 400 else 403)
    ensures Delete(partnerships, profiles, userId, id).reply.status ==
      (if MissingId(id, "airline-partnerships") then 400 else 403)
  {
    var u := Update(partnerships, profiles, userId, id, updateData);
    var d := Delete(partnerships, profiles, userId, id);
    assert u.reply.Fail? && d.reply.Fail?;
  }
}
