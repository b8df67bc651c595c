/** `/api/alerts`: the body schema, creation (POST) and the zone-filtered listing (GET). */
module AlertsRoute {
  import opened Common
  import opened Json
  import opened Http

  /** A present string of length at least 1 (`z.string().min(1)`). */
  predicate NonEmptyString(o: Option<Value>)
  {
    o.Some? && o.value.Str? && o.value.s != ""
  }

  /** The alert schema: an object with a non-empty `title` and `content`, a `priority` in the
      enum, and a `zone_id` that is absent or a string `isUuid` accepts. Other members are
      ignored. Which strings count as UUIDs is the schema library's rule, taken here as a
      parameter. */
  predicate ValidAlertBody(v: Value, isUuid: string -> bool)
  {
    && v.Object?
    && NonEmptyString(Member(v, "title"))
    && NonEmptyString(Member(v, "content"))
    && ValidPriority(Member(v, "priority"))
    && ValidZoneId(Member(v, "zone_id"), isUuid)
  }

  /** `z.enum(['low', 'medium', 'high'])` on a member. */
  predicate ValidPriority(o: Option<Value>)
  {
    o.Some? && o.value.Str? && ParsePriority(o.value.s).Some?
  }

  /** `z.string().uuid().optional()` on a member: absent, or a UUID string. */
  predicate ValidZoneId(o: Option<Value>, isUuid: string -> bool)
  {
    o.None? || (o.value.Str? && isUuid(o.value.s))
  }

  /** `AlertSchema.parse`: the validated fields, or `None` when the schema rejects the body. */
  function ParseAlertBody(v: Value, isUuid: string -> bool): (r: Option<AlertFields>)
    ensures r.Some? <==> ValidAlertBody(v, isUuid)
    ensures r.Some? ==>
      && Member(v, "title") == Some(Str(r.value.title))
      && Member(v, "content") == Some(Str(r.value.content))
      && Member(v, "priority") == Some(Str(PriorityName(r.value.priority)))
      && (r.value.zoneId.None? <==> Member(v, "zone_id").None?)
      && (r.value.zoneId.Some? ==> Member(v, "zone_id") == Some(Str(r.value.zoneId.value)))
  {
    if !ValidAlertBody(v, isUuid) then None
    else
      var z := Member(v, "zone_id");
      Some(AlertFields(
        Member(v, "title").value.s,
        Member(v, "content").value.s,
        ParsePriority(Member(v, "priority").value.s).value,
        if z.Some? then Some(z.value.s) else None))
  }

  /** The JSON object the validated data is inserted as. */
  function EncodeAlertFields(f: AlertFields): Value
  {
    var base := map["title" := Str(f.title), "content" := Str(f.content), "priority" := Str(PriorityName(f.priority))];
    Object(if f.zoneId.Some? then base["zone_id" := Str(f.zoneId.value)] else base)
  }

  /** The schema accepts an encoded alert exactly when its strings are non-empty and its
      zone id is a UUID, and then gives back the same fields. */
  lemma AlertFieldsRoundTrip(f: AlertFields, isUuid: string -> bool)
    ensures ParseAlertBody(EncodeAlertFields(f), isUuid).Some? <==>
      f.title != "" && f.content != "" && (f.zoneId.Some? ==> isUuid(f.zoneId.value))
    ensures ParseAlertBody(EncodeAlertFields(f), isUuid).Some? ==>
      ParseAlertBody(EncodeAlertFields(f), isUuid) == Some(f)
  {
    var v := EncodeAlertFields(f);
    PriorityNameRoundTrip(f.priority);
    assert Member(v, "title") == Some(Str(f.title));
    assert Member(v, "content") == Some(Str(f.content));
    assert Member(v, "priority") == Some(Str(PriorityName(f.priority)));
    if f.zoneId.Some? {
      assert Member(v, "zone_id") == Some(Str(f.zoneId.value));
    } else {
      assert Member(v, "zone_id") == None;
    }
  }

  /** Parsing keeps only the schema's members: what is inserted is what the schema read,
      and it passes the schema again unchanged. */
  lemma ParseStripsUnknownMembers(v: Value, isUuid: string -> bool)
    requires ParseAlertBody(v, isUuid).Some?
    ensures EncodeAlertFields(ParseAlertBody(v, isUuid).value).fields.Keys <= {"title", "content", "priority", "zone_id"}
    ensures ParseAlertBody(EncodeAlertFields(ParseAlertBody(v, isUuid).value), isUuid) == ParseAlertBody(v, isUuid)
  {
    var f := ParseAlertBody(v, isUuid).value;
    AlertFieldsRoundTrip(f, isUuid);
  }

  /** What the store answers to an insert followed by `select()`: an error (which may or
      may not be an `Error` instance), or the inserted rows. */
  datatype InsertReply<T> = InsertFailed(message: string, isErrorInstance: bool) | Inserted(first: T, rest: seq<T>)

  /** A POST's response and the row it asked the store to insert, if any. */
  datatype PostOutcome<F, T> = PostOutcome(response: Response<T>, insert: Option<F>)

  /** The message of a caught insert error. */
  function CaughtMessage(message: string, isErrorInstance: bool, fallback: string): string
  {
    if isErrorInstance then message else fallback
  }

  /** `POST`: every failure answers 400 (bad JSON, schema, store); success answers with the
      first inserted row and the default status 200. `body` is `None` when the request is
      not JSON. */
  function PostAlert(body: Option<Value>, isUuid: string -> bool, reply: InsertReply<Alert>): (o: PostOutcome<AlertFields, Alert>)
    ensures o.insert.Some? <==> body.Some? && ValidAlertBody(body.value, isUuid)
    ensures o.insert.Some? ==> o.insert == ParseAlertBody(body.value, isUuid)
    ensures o.response.body.Data? <==> o.insert.Some? && reply.Inserted?
    ensures o.response.body.Data? ==> o.response == Response(200, Data(reply.first))
    ensures o.response.body.ErrorBody? ==> o.response.status == 400
    ensures o.insert.Some? && reply.InsertFailed? ==>
      o.response.body == ErrorBody(Message(CaughtMessage(reply.message, reply.isErrorInstance, "Failed to create alert")))
  {
    if body.None? then PostOutcome(Response(400, ErrorBody(MalformedJson)), None)
    else
      match ParseAlertBody(body.value, isUuid)
      case None => PostOutcome(Response(400, ErrorBody(SchemaRejected)), None)
      case Some(f) =>
        match reply
        case InsertFailed(message, isError) =>
          PostOutcome(Response(400, ErrorBody(Message(CaughtMessage(message, isError, "Failed to create alert")))), Some(f))
        case Inserted(first, _) => PostOutcome(Response(200, Data(first)), Some(f))
  }

  /** The rows of one zone, in the order the store returned them. */
  function InZone(rows: seq<Alert>, zone: string): (r: seq<Alert>)
    ensures |r| <= |rows|
    ensures forall a :: a in r <==> a in rows && a.fields.zoneId == Some(zone)
  {
    if rows == [] then []
    else (if rows[0].fields.zoneId == Some(zone) then [rows[0]] else []) + InZone(rows[1..], zone)
  }

  /** `GET`: the `zone_id` query parameter, when present and non-empty, restricts the rows to
      that zone; a store error answers 500. `rows` is the store's answer, already in the
      store's newest-first order, or `None` for an error. */
  function GetAlerts(url: string, rows: Option<seq<Alert>>): (r: Response<seq<Alert>>)
    ensures rows.None? ==> r == Response(500, ErrorBody(Message("Failed to fetch alerts")))
    ensures rows.Some? ==> r.status == 200 && r.body.Data?
    ensures rows.Some? && (SearchParam(url, "zone_id").None? || SearchParam(url, "zone_id").value == "") ==>
      r.body.value == rows.value
    ensures rows.Some? && SearchParam(url, "zone_id").Some? && SearchParam(url, "zone_id").value != "" ==>
      forall a :: a in r.body.value <==> a in rows.value && a.fields.zoneId == SearchParam(url, "zone_id")
  {
    if rows.None? then Response(500, ErrorBody(Message("Failed to fetch alerts")))
    else
      var zone := SearchParam(url, "zone_id");
      if zone.Some? && zone.value != "" then Response(200, Data(InZone(rows.value, zone.value)))
      else Response(200, Data(rows.value))
  }

  /** Filtering by zone keeps the store's order: it distributes over concatenation. */
  lemma {:induction false} InZoneConcat(s: seq<Alert>, t: seq<Alert>, zone: string)
    ensures InZone(s + t, zone) == InZone(s, zone) + InZone(t, zone)
    decreases |s|
  {
    if s == [] {
      assert s + t == t;
    } else {
      assert (s + t)[1..] == s[1..] + t;
      InZoneConcat(s[1..], t, zone);
    }
  }
}
