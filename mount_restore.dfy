/**
 * What the dashboard writes to and reads back from the browser: the date-zoom
 * granularity in the `dateZoom` URL parameter, and the one-shot session-storage
 * handoff of unsaved filters across a login redirect.
 */
module MountRestore {
  import opened Wrappers

  datatype DateGranularity = Day | Week | Month | Quarter | Year

  /** The enumeration's string values. */
  function GranularityName(g: DateGranularity): string
  {
    match g
    case Day => "Day"
    case Week => "Week"
    case Month => "Month"
    case Quarter => "Quarter"
    case Year => "Year"
  }

  /** `Object.values(DateGranularity)`, in declaration order. */
  const AllGranularities: seq<DateGranularity> := [Day, Week, Month, Quarter, Year]

  /** Where a granularity stands in `AllGranularities`: every granularity is listed. */
  function Position(g: DateGranularity): (i: nat)
    ensures i < |AllGranularities| && AllGranularities[i] == g
  {
    match g
    case Day => 0
    case Week => 1
    case Month => 2
    case Quarter => 3
    case Year => 4
  }

  function LowerChar(c: char): (l: char)
    ensures !('A' <= l <= 'Z')
    ensures 'A' <= c <= 'Z' ==> 'a' <= l <= 'z' && l as int - 'a' as int == c as int - 'A' as int
    ensures !('A' <= c <= 'Z') ==> l == c
  {
    if 'A' <= c <= 'Z' then (c as int - 'A' as int + 'a' as int) as char else c
  }

  /** `toLowerCase`, on the ASCII letters. */
  function ToLowerCase(s: string): (r: string)
    ensures |r| == |s|
    ensures forall i :: 0 <= i < |s| ==> r[i] == LowerChar(s[i])
  {
    seq(|s|, i requires 0 <= i < |s| => LowerChar(s[i]))
  }

  lemma ToLowerCaseIdempotent(s: string)
    ensures ToLowerCase(ToLowerCase(s)) == ToLowerCase(s)
  {
  }

  /** The value written to the `dateZoom` parameter. */
  function EncodeDateZoom(g: DateGranularity): (e: string)
    ensures |e| == |GranularityName(g)|
    ensures ToLowerCase(e) == e
  {
    ToLowerCase(GranularityName(g))
  }

  /** `candidates.find(g => g.toLowerCase() === param.toLowerCase())` */
  function FindGranularity(candidates: seq<DateGranularity>, param: string): (found: Option<DateGranularity>)
    ensures found.Some? ==> found.value in candidates && EncodeDateZoom(found.value) == ToLowerCase(param)
    ensures found.None? ==> forall i :: 0 <= i < |candidates| ==> EncodeDateZoom(candidates[i]) != ToLowerCase(param)
  {
    if candidates == [] then None
    else if EncodeDateZoom(candidates[0]) == ToLowerCase(param) then Some(candidates[0])
    else FindGranularity(candidates[1..], param)
  }

  /** The granularity a `dateZoom` parameter names; an empty parameter names none. */
  function DecodeDateZoom(param: string): (zoom: Option<DateGranularity>)
    ensures zoom.Some? ==> param != "" && EncodeDateZoom(zoom.value) == ToLowerCase(param)
    ensures zoom.None? && param != "" ==> forall g: DateGranularity :: EncodeDateZoom(g) != ToLowerCase(param)
  {
    if param == "" then None
    else
      var found := FindGranularity(AllGranularities, param);
      assert found.None? ==>
        forall g: DateGranularity :: Position(g) < 5 && EncodeDateZoom(g) != ToLowerCase(param);
      found
  }

  /** The five encodings, spelled out. */
  lemma EncodedNames()
    ensures EncodeDateZoom(Day) == "day" && EncodeDateZoom(Week) == "week"
    ensures EncodeDateZoom(Month) == "month" && EncodeDateZoom(Quarter) == "quarter"
    ensures EncodeDateZoom(Year) == "year"
  {
  }

  /** Reading back the written granularity recovers it. */
  lemma DateZoomRoundTrip(g: DateGranularity)
    ensures DecodeDateZoom(EncodeDateZoom(g)) == Some(g)
  {
  }

  /** Decoding looks only at the lower-cased parameter. */
  lemma DecodeIgnoresCase(param: string, other: string)
    requires ToLowerCase(param) == ToLowerCase(other)
    ensures DecodeDateZoom(param) == DecodeDateZoom(other)
  {
    if param != "" && other != "" {
      FindIgnoresCase(AllGranularities, param, other);
    }
  }

  lemma {:induction false} FindIgnoresCase(candidates: seq<DateGranularity>, param: string, other: string)
    requires ToLowerCase(param) == ToLowerCase(other)
    ensures FindGranularity(candidates, param) == FindGranularity(candidates, other)
  {
    if candidates != [] {
      FindIgnoresCase(candidates[1..], param, other);
    }
  }

  const DateZoomKey := "dateZoom"

  /** The URL parameters after the date-zoom effect: deleted when unset, the lower-cased name otherwise. */
  function WriteDateZoomParam(params: map<string, string>, zoom: Option<DateGranularity>): (r: map<string, string>)
    ensures forall k :: k != DateZoomKey ==> (k in r <==> k in params) && (k in r ==> r[k] == params[k])
    ensures zoom.None? ==> DateZoomKey !in r
    ensures zoom.Some? ==> DateZoomKey in r && r[DateZoomKey] == EncodeDateZoom(zoom.value)
  {
    match zoom
    case None => params - {DateZoomKey}
    case Some(g) => params[DateZoomKey := EncodeDateZoom(g)]
  }

  /** The granularity the mount effect restores from the URL parameters, if any. */
  function ReadDateZoomParam(params: map<string, string>): (zoom: Option<DateGranularity>)
    ensures zoom.Some? ==> DateZoomKey in params && EncodeDateZoom(zoom.value) == ToLowerCase(params[DateZoomKey])
    ensures DateZoomKey !in params ==> zoom.None?
    ensures DateZoomKey in params ==> zoom == DecodeDateZoom(params[DateZoomKey])
  {
    if DateZoomKey in params then DecodeDateZoom(params[DateZoomKey]) else None
  }

  /** What the URL holds is what is restored on the next mount. */
  lemma DateZoomUrlRoundTrip(params: map<string, string>, zoom: Option<DateGranularity>)
    ensures ReadDateZoomParam(WriteDateZoomParam(params, zoom)) == zoom
  {
    if zoom.Some? {
      DateZoomRoundTrip(zoom.value);
    }
  }

  const UnsavedFiltersKey := "unsavedDashboardFilters"

  /**
   * The session-storage handoff: the stored item is read and the key removed
   * in the same step, whether or not it was there.
   */
  function TakeSessionItem<V>(storage: map<string, V>, key: string): (r: (Option<V>, map<string, V>))
    ensures r.0.Some? <==> key in storage
    ensures r.0.Some? ==> r.0.value == storage[key]
    ensures key !in r.1
    ensures forall k :: k != key ==> (k in r.1 <==> k in storage) && (k in r.1 ==> r.1[k] == storage[k])
  {
    (if key in storage then Some(storage[key]) else None, storage - {key})
  }

  /** The handoff is one-shot: a second take finds nothing. */
  lemma TakeSessionItemOnce<V>(storage: map<string, V>, key: string)
    ensures TakeSessionItem(TakeSessionItem(storage, key).1, key).0 == None
  {
  }
}
