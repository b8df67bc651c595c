/** `/api/zones`: the zone schema, creation (POST) and listing (GET). */
module ZonesRoute {
  import opened Common
  import opened Json
  import opened Http
  import opened AlertsRoute

  /** One `[number, number]` vertex of a zone's outline. */
  datatype Coordinate = Coordinate(first: real, second: real)

  /** The columns of a new row of the `zones` table. */
  datatype ZoneFields = ZoneFields(name: string, description: Option<string>, coordinates: seq<Coordinate>)

  /** A row of the `zones` table as the store returns it. */
  datatype Zone = Zone(id: string, fields: ZoneFields, createdAt: int)

  /** `z.tuple([z.number(), z.number()])`: an array of exactly two numbers. */
  predicate IsPair(v: Value)
  {
    v.Array? && |v.items| == 2 && v.items[0].Number? && v.items[1].Number?
  }

  /** `z.array(...)` of pairs: every element a pair, in order. Any length is accepted,
      including none. */
  function ParseCoordinates(items: seq<Value>): (r: Option<seq<Coordinate>>)
    ensures r.Some? <==> forall i :: 0 <= i < |items| ==> IsPair(items[i])
    ensures r.Some? ==> |r.value| == |items|
    ensures r.Some? ==>
      forall i :: 0 <= i < |items| ==> r.value[i] == Coordinate(items[i].items[0].n, items[i].items[1].n)
  {
    if items == [] then Some([])
    else if !IsPair(items[0]) then None
    else
      match ParseCoordinates(items[1..])
      case None => None
      case Some(rest) => Some([Coordinate(items[0].items[0].n, items[0].items[1].n)] + rest)
  }

  /** `z.string().optional()` on a member: absent, or a string. */
  predicate ValidDescription(o: Option<Value>)
  {
    o.None? || o.value.Str?
  }

  /** The zone schema: an object with a non-empty `name`, an optional string `description`
      and a `coordinates` array of pairs. Other members are ignored. */
  predicate ValidZoneBody(v: Value)
  {
    && v.Object?
    && NonEmptyString(Member(v, "name"))
    && ValidDescription(Member(v, "description"))
    && Member(v, "coordinates").Some? && Member(v, "coordinates").value.Array?
    && ParseCoordinates(Member(v, "coordinates").value.items).Some?
  }

  /** `ZoneSchema.parse`. */
  function ParseZoneBody(v: Value): (r: Option<ZoneFields>)
    ensures r.Some? <==> ValidZoneBody(v)
    ensures r.Some? ==>
      && Member(v, "name") == Some(Str(r.value.name))
      && (r.value.description.None? <==> Member(v, "description").None?)
      && (r.value.description.Some? ==> Member(v, "description") == Some(Str(r.value.description.value)))
      && ParseCoordinates(Member(v, "coordinates").value.items) == Some(r.value.coordinates)
  {
    if !ValidZoneBody(v) then None
    else
      var d := Member(v, "description");
      Some(ZoneFields(
        Member(v, "name").value.s,
        if d.Some? then Some(d.value.s) else None,
        ParseCoordinates(Member(v, "coordinates").value.items).value))
  }

  function EncodeCoordinate(c: Coordinate): Value
  {
    Array([Number(c.first), Number(c.second)])
  }

  /** The JSON array a zone's outline is stored as. */
  function EncodeCoordinates(cs: seq<Coordinate>): (r: seq<Value>)
    ensures |r| == |cs|
    ensures forall i :: 0 <= i < |cs| ==> r[i] == EncodeCoordinate(cs[i])
  {
    if cs == [] then [] else [EncodeCoordinate(cs[0])] + EncodeCoordinates(cs[1..])
  }

  /** The JSON object the validated data is inserted as. */
  function EncodeZoneFields(f: ZoneFields): Value
  {
    var base := map["name" := Str(f.name), "coordinates" := Array(EncodeCoordinates(f.coordinates))];
    Object(if f.description.Some? then base["description" := Str(f.description.value)] else base)
  }

  /** Encoded outlines parse back to themselves. */
  lemma {:induction false} CoordinatesRoundTrip(cs: seq<Coordinate>)
    ensures ParseCoordinates(EncodeCoordinates(cs)) == Some(cs)
    decreases |cs|
  {
    if cs != [] {
      var e := EncodeCoordinates(cs);
      assert e[1..] == EncodeCoordinates(cs[1..]);
      CoordinatesRoundTrip(cs[1..]);
      assert IsPair(e[0]);
      assert [cs[0]] + cs[1..] == cs;
    }
  }

  /** The schema accepts an encoded zone exactly when its name is non-empty, and then gives
      back the same fields. */
  lemma ZoneFieldsRoundTrip(f: ZoneFields)
    ensures ParseZoneBody(EncodeZoneFields(f)).Some? <==> f.name != ""
    ensures f.name != "" ==> ParseZoneBody(EncodeZoneFields(f)) == Some(f)
  {
    var v := EncodeZoneFields(f);
    CoordinatesRoundTrip(f.coordinates);
    assert Member(v, "name") == Some(Str(f.name));
    assert Member(v, "coordinates") == Some(Array(EncodeCoordinates(f.coordinates)));
    if f.description.Some? {
      assert Member(v, "description") == Some(Str(f.description.value));
    } else {
      assert Member(v, "description") == None;
    }
  }

  /** The schema sets no lower bound on the outline: a zone with no vertices is accepted. */
  lemma EmptyOutlineAccepted(name: string)
    requires name != ""
    ensures ParseZoneBody(Object(map["name" := Str(name), "coordinates" := Array([])])) == Some(ZoneFields(name, None, []))
  {
    var v := Object(map["name" := Str(name), "coordinates" := Array([])]);
    assert Member(v, "name") == Some(Str(name));
    assert Member(v, "description") == None;
    assert Member(v, "coordinates") == Some(Array([]));
  }

  /** `POST`: every failure answers 400; success answers with the first inserted row and the
      default status 200. */
  function PostZone(body: Option<Value>, reply: InsertReply<Zone>): (o: PostOutcome<ZoneFields, Zone>)
    ensures o.insert.Some? <==> body.Some? && ValidZoneBody(body.value)
    ensures o.insert.Some? ==> o.insert == ParseZoneBody(body.value)
    ensures o.response.body.Data? <==> o.insert.Some? && reply.Inserted?
    ensures o.response.body.Data? ==> o.response == Response(200, Data(reply.first))
    ensures o.response.body.ErrorBody? ==> o.response.status == 400
    ensures o.insert.Some? && reply.InsertFailed? ==>
      o.response.body == ErrorBody(Message(CaughtMessage(reply.message, reply.isErrorInstance, "Failed to create zone")))
  {
    if body.None? then PostOutcome(Response(400, ErrorBody(MalformedJson)), None)
    else
      match ParseZoneBody(body.value)
      case None => PostOutcome(Response(400, ErrorBody(SchemaRejected)), None)
      case Some(f) =>
        match reply
        case InsertFailed(message, isError) =>
          PostOutcome(Response(400, ErrorBody(Message(CaughtMessage(message, isError, "Failed to create zone")))), Some(f))
        case Inserted(first, _) => PostOutcome(Response(200, Data(first)), Some(f))
  }

  /** `GET`: the store's rows as given, or 500 when the store answers with an error. */
  function GetZones(rows: Option<seq<Zone>>): (r: Response<seq<Zone>>)
    ensures rows.None? ==> r == Response(500, ErrorBody(Message("Failed to fetch zones")))
    ensures rows.Some? ==> r == Response(200, Data(rows.value))
  {
    if rows.None? then Response(500, ErrorBody(Message("Failed to fetch zones")))
    else Response(200, Data(rows.value))
  }
}
