/** The live alert list: the fetch URL, the realtime change reducer and the render choice. */
module AlertList {
  import opened Common
  import opened Strings
  import opened Http
  import opened AlertsRoute

  /** `!zoneId` is false: a zone filter is in force only for a non-empty zone id. */
  predicate FilterActive(zoneFilter: Option<string>)
  {
    zoneFilter.Some? && zoneFilter.value != ""
  }

  /** The URL `fetchAlerts` requests. */
  function FetchUrl(zoneFilter: Option<string>): string
  {
    if FilterActive(zoneFilter) then "/api/alerts?zone_id=" + zoneFilter.value else "/api/alerts"
  }

  /** Characters that would need escaping in a query value. */
  predicate PlainQueryValue(z: string)
  {
    forall i :: 0 <= i < |z| ==> z[i] != '&' && z[i] != '#' && z[i] != '%' && z[i] != '+'
  }

  /** The query of a filtered fetch URL is the single `zone_id` pair. */
  lemma ZoneUrlQuery(z: string)
    requires PlainQueryValue(z)
    ensures QueryOf("/api/alerts?zone_id=" + z) == "zone_id=" + z
  {
    var prefix := "/api/alerts?";
    var q := "zone_id=" + z;
    var url := prefix + q;
    assert "/api/alerts?zone_id=" + z == url;
    assert IndexOf(url, '?') == 11 by {
      assert url[11] == '?';
      forall i | 0 <= i < 11 ensures url[i] != '?' {
        assert url[i] == prefix[i];
      }
    }
    assert url[12..] == q;
    assert IndexOf(q, '#') == |q| by {
      forall i | 0 <= i < |q| ensures q[i] != '#' {
        if i >= 8 { assert q[i] == z[i - 8]; }
      }
    }
    assert q[..|q|] == q;
  }

  /** The single pair `zone_id=z` gives back `z`. */
  lemma ZonePairLookup(z: string)
    requires PlainQueryValue(z)
    ensures LookupParam("zone_id=" + z, "zone_id") == Some(z)
  {
    var q := "zone_id=" + z;
    assert IndexOf(q, '&') == |q| by {
      forall i | 0 <= i < |q| ensures q[i] != '&' {
        if i >= 8 { assert q[i] == z[i - 8]; }
      }
    }
    assert q[..|q|] == q;
    assert IndexOf(q, '=') == 7 by {
      assert q[7] == '=';
      forall i | 0 <= i < 7 ensures q[i] != '=' {
        assert q[i] == "zone_id="[i];
      }
    }
    assert q[..7] == "zone_id";
    assert q[8..] == z;
  }

  /** The API handler reads back the zone the list filters by, and no zone when the list
      has no filter. */
  lemma FetchUrlCarriesZone(zoneFilter: Option<string>)
    requires zoneFilter.Some? ==> PlainQueryValue(zoneFilter.value)
    ensures FilterActive(zoneFilter) ==> SearchParam(FetchUrl(zoneFilter), "zone_id") == zoneFilter
    ensures !FilterActive(zoneFilter) ==> SearchParam(FetchUrl(zoneFilter), "zone_id") == None
  {
    var url := FetchUrl(zoneFilter);
    if FilterActive(zoneFilter) {
      ZoneUrlQuery(zoneFilter.value);
      ZonePairLookup(zoneFilter.value);
    } else {
      assert IndexOf(url, '?') == |url| by {
        forall i | 0 <= i < |url| ensures url[i] != '?' {
        }
      }
    }
  }

  /** The initial fetch and the realtime INSERT guard agree: every alert the API hands the
      list for its URL is one the list would also accept from a realtime INSERT, and without
      a filter the list receives every row. */
  lemma FetchAgreesWithInsertGuard(zoneFilter: Option<string>, rows: seq<Alert>)
    requires zoneFilter.Some? ==> PlainQueryValue(zoneFilter.value)
    ensures var r := GetAlerts(FetchUrl(zoneFilter), Some(rows));
      forall a :: a in r.body.value <==> a in rows && AcceptsInsert(zoneFilter, a)
  {
    FetchUrlCarriesZone(zoneFilter);
  }

  /** Realtime change events on the `alerts` table. */
  datatype ChangeEvent = Insert(inserted: Alert) | Delete(deleted: Alert) | Update(updated: Alert) | OtherEvent

  /** The INSERT guard `!zoneId || newAlert.zone_id === zoneId`. */
  predicate AcceptsInsert(zoneFilter: Option<string>, a: Alert)
  {
    !FilterActive(zoneFilter) || a.fields.zoneId == zoneFilter
  }

  /** `prev.filter(alert => alert.id !== id)`. */
  function WithoutId(s: seq<Alert>, id: string): (r: seq<Alert>)
    ensures |r| <= |s|
    ensures forall a :: a in r <==> a in s && a.id != id
  {
    if s == [] then []
    else (if s[0].id == id then [] else [s[0]]) + WithoutId(s[1..], id)
  }

  /** `prev.map(alert => alert.id === updated.id ? updated : alert)`. */
  function ReplaceById(s: seq<Alert>, u: Alert): (r: seq<Alert>)
    ensures |r| == |s|
    ensures forall i :: 0 <= i < |s| ==> r[i] == (if s[i].id == u.id then u else s[i])
  {
    if s == [] then [] else [if s[0].id == u.id then u else s[0]] + ReplaceById(s[1..], u)
  }

  /** The realtime handler applied to the current list. */
  function ApplyEvent(s: seq<Alert>, e: ChangeEvent, zoneFilter: Option<string>): (r: seq<Alert>)
    ensures e.Insert? && AcceptsInsert(zoneFilter, e.inserted) ==> |r| == |s| + 1 && r[0] == e.inserted && r[1..] == s
    ensures e.Insert? && !AcceptsInsert(zoneFilter, e.inserted) ==> r == s
    ensures e.Delete? ==> forall a :: a in r <==> a in s && a.id != e.deleted.id
    ensures e.Update? ==> |r| == |s| && forall i :: 0 <= i < |s| ==> r[i].id == s[i].id
    ensures e.OtherEvent? ==> r == s
  {
    match e
    case Insert(a) => if AcceptsInsert(zoneFilter, a) then [a] + s else s
    case Delete(a) => WithoutId(s, a.id)
    case Update(a) => ReplaceById(s, a)
    case OtherEvent => s
  }

  /** Removal keeps the survivors in their order: it distributes over concatenation. */
  lemma {:induction false} WithoutIdConcat(s: seq<Alert>, t: seq<Alert>, id: string)
    ensures WithoutId(s + t, id) == WithoutId(s, id) + WithoutId(t, id)
    decreases |s|
  {
    if s == [] {
      assert s + t == t;
    } else {
      assert (s + t)[1..] == s[1..] + t;
      WithoutIdConcat(s[1..], t, id);
    }
  }

  /** A list with no alert of that id is left as it is by a DELETE of that id. */
  lemma {:induction false} WithoutAbsentId(s: seq<Alert>, id: string)
    requires forall i :: 0 <= i < |s| ==> s[i].id != id
    ensures WithoutId(s, id) == s
    decreases |s|
  {
    if s != [] {
      WithoutAbsentId(s[1..], id);
    }
  }

  /** Deleting twice is deleting once. */
  lemma WithoutIdIdempotent(s: seq<Alert>, id: string)
    ensures WithoutId(WithoutId(s, id), id) == WithoutId(s, id)
  {
    var r := WithoutId(s, id);
    forall i | 0 <= i < |r| ensures r[i].id != id {
      assert r[i] in r;
    }
    WithoutAbsentId(r, id);
  }

  /** An UPDATE followed by a DELETE of the same id is the DELETE alone. */
  lemma {:induction false} DeleteAfterUpdate(s: seq<Alert>, u: Alert)
    ensures WithoutId(ReplaceById(s, u), u.id) == WithoutId(s, u.id)
    decreases |s|
  {
    if s != [] {
      DeleteAfterUpdate(s[1..], u);
      assert ReplaceById(s, u)[1..] == ReplaceById(s[1..], u);
    }
  }

  /** An accepted INSERT followed by a DELETE of the inserted id is the DELETE alone. */
  lemma DeleteAfterInsert(s: seq<Alert>, a: Alert, zoneFilter: Option<string>)
    ensures WithoutId(ApplyEvent(s, Insert(a), zoneFilter), a.id) == WithoutId(s, a.id)
  {
    if AcceptsInsert(zoneFilter, a) {
      WithoutIdConcat([a], s, a.id);
    }
  }

  /** What the component renders. */
  datatype View = LoadingView | ErrorView(message: string) | EmptyView | ListView(alerts: seq<Alert>)

  /** Precedence: loading, then error, then empty, then the list. */
  function Render(isLoading: bool, error: Option<string>, alerts: seq<Alert>): (v: View)
    ensures isLoading <==> v == LoadingView
    ensures v.ErrorView? <==> !isLoading && error.Some? && error.value != ""
    ensures v == EmptyView <==> !isLoading && (error.None? || error.value == "") && alerts == []
    ensures v.ListView? ==> v.alerts == alerts && alerts != []
  {
    if isLoading then LoadingView
    else if error.Some? && error.value != "" then ErrorView(error.value)
    else if alerts == [] then EmptyView
    else ListView(alerts)
  }

  /** The answer of `fetch(url)` as `fetchAlerts` sees it. */
  datatype FetchResponse = FetchOk(data: seq<Alert>) | FetchNotOk | FetchThrew

  /** The component's state. */
  class AlertListState {
    const zoneFilter: Option<string>
    var alerts: seq<Alert>
    var isLoading: bool
    var error: Option<string>

    constructor (zoneFilter: Option<string>)
      ensures this.zoneFilter == zoneFilter
      ensures alerts == [] && isLoading && error == None
    {
      this.zoneFilter := zoneFilter;
      alerts := [];
      isLoading := true;
      error := None;
    }

    /** `fetchAlerts`: a good response replaces the list, any failure records the error
        message and keeps the list; loading ends on every path. */
    method FetchAlerts(response: FetchResponse)
      modifies this
      ensures !isLoading
      ensures response.FetchOk? ==> alerts == response.data && error == old(error)
      ensures !response.FetchOk? ==> alerts == old(alerts) && error == Some("Failed to load alerts")
    {
      if response.FetchOk? {
        alerts := response.data;
      } else {
        error := Some("Failed to load alerts");
      }
      isLoading := false;
    }

    /** The realtime callback; `toasted` is whether it shows the "new alert" toast. */
    method OnChange(e: ChangeEvent) returns (toasted: bool)
      modifies this
      ensures alerts == ApplyEvent(old(alerts), e, zoneFilter)
      ensures toasted <==> e.Insert? && AcceptsInsert(zoneFilter, e.inserted)
      ensures isLoading == old(isLoading) && error == old(error)
    {
      toasted := false;
      match e
      case Insert(a) =>
        if !FilterActive(zoneFilter) || a.fields.zoneId == zoneFilter {
          alerts := [a] + alerts;
          toasted := true;
        }
      case Delete(a) =>
        alerts := WithoutId(alerts, a.id);
      case Update(a) =>
        alerts := ReplaceById(alerts, a);
      case OtherEvent =>
    }

    function View(): View
      reads this
    {
      Render(isLoading, error, alerts)
    }
  }
}
