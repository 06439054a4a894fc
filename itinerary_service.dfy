/** The itinerary service in front of the generative model: it reads the
    trip request with its defaults, and cuts the JSON object out of the
    model's reply before decoding it.

    The model call itself is not modelled: the service receives the reply
    text, or `None` when the call raised. `json.loads` is the caller's
    `loads`, which answers `None` where Python raises. The prompt's wording
    is not modelled; only the values it is built from are. */
module ItineraryService {
  import opened Text
  import opened JsonModel

  // ---------------------------------------------------------------------
  // The JSON span of the reply
  // ---------------------------------------------------------------------

  /** `s.find(c)`: the first index of `c`, or -1. */
  function Find(s: string, c: char): (r: int)
    ensures -1 <= r < |s|
    ensures r == -1 <==> c !in s
    ensures r >= 0 ==> s[r] == c && forall j :: 0 <= j < r ==> s[j] != c
  {
    if s == [] then -1
    else if s[0] == c then 0
    else
      var k := Find(s[1..], c);
      if k == -1 then -1 else k + 1
  }

  /** `s.rfind(c)`: the last index of `c`, or -1. */
  function RFind(s: string, c: char): (r: int)
    ensures -1 <= r < |s|
    ensures r == -1 <==> c !in s
    ensures r >= 0 ==> s[r] == c && forall j :: r < j < |s| ==> s[j] != c
    decreases |s|
  {
    if s == [] then -1
    else if s[|s| - 1] == c then |s| - 1
    else
      var k := RFind(s[..|s| - 1], c);
      assert k < 0 ==> s == s[..|s| - 1] + [s[|s| - 1]];
      k
  }

  /** Where a Python slice bound lands: a negative bound counts from the
      end, and the result is clamped to the string. */
  function SliceBound(n: int, i: int): (r: nat)
    requires n >= 0
    ensures r <= n
    ensures 0 <= i <= n ==> r == i
  {
    if i < 0 then (if i + n < 0 then 0 else i + n)
    else if i > n then n
    else i
  }

  /** `s[a:b]` */
  function PySlice(s: string, a: int, b: int): string
  {
    var i := SliceBound(|s|, a);
    var j := SliceBound(|s|, b);
    if i < j then s[i..j] else []
  }

  /** `t[t.find('{') : t.rfind('}') + 1]` */
  function Span(t: string): string
  {
    PySlice(t, Find(t, '{'), RFind(t, '}') + 1)
  }

  /** The candidate handed to `json.loads`: the span of the stripped reply. */
  function JsonText(reply: string): string
  {
    Span(Strip(reply))
  }

  /** With an opening brace before the last closing brace, the span runs
      from the first `{` to the last `}`, both included. */
  lemma SpanBetweenBraces(t: string)
    requires 0 <= Find(t, '{') < RFind(t, '}')
    ensures Span(t) == t[Find(t, '{')..RFind(t, '}') + 1]
    ensures Span(t)[0] == '{' && Span(t)[|Span(t)| - 1] == '}'
  {
    var a := Find(t, '{');
    var b := RFind(t, '}') + 1;
    assert Span(t) == t[a..b] by {
      PySliceWithin(t, a, b);
    }
    assert t[a..b][0] == '{' && t[a..b][b - a - 1] == '}' by {
      SliceEnds(t, a, b);
    }
  }

  lemma PySliceWithin(s: string, a: int, b: int)
    requires 0 <= a < b <= |s|
    ensures PySlice(s, a, b) == s[a..b]
  {
  }

  lemma SliceEnds(s: string, a: int, b: int)
    requires 0 <= a < b <= |s|
    ensures s[a..b][0] == s[a] && s[a..b][b - a - 1] == s[b - 1]
  {
  }

  /** Without a closing brace the end index is 0 and the span is empty. */
  lemma SpanWithoutClosingBrace(t: string)
    requires '}' !in t
    ensures Span(t) == []
  {
  }

  /** A last `}` before the first `{` leaves nothing between them. */
  lemma SpanBracesReversed(t: string)
    requires '{' in t && '}' in t && RFind(t, '}') < Find(t, '{')
    ensures Span(t) == []
  {
  }

  /** Without an opening brace the start index is -1, that is the last
      character: the span is `"}"` when the text ends with a brace, and
      empty otherwise. */
  lemma SpanWithoutOpeningBrace(t: string)
    requires '{' !in t && t != []
    ensures Span(t) == if t[|t| - 1] == '}' then "}" else ""
  {
    if t[|t| - 1] == '}' {
      assert RFind(t, '}') == |t| - 1;
    } else if '}' in t {
      assert RFind(t, '}') < |t| - 1;
    }
  }

  /** A reply that is exactly one object, with white space around it,
      is handed over whole. */
  lemma WholeObjectKept(body: string, pad: string)
    requires body != [] && body[0] == '{' && body[|body| - 1] == '}'
    requires forall i :: 0 <= i < |pad| ==> IsSpace(pad[i])
    requires !IsSpace('{') && !IsSpace('}')
    ensures JsonText(pad + body + pad) == body
  {
    var t := pad + body + pad;
    StripPadding(pad, body);
    assert Find(body, '{') == 0;
    assert RFind(body, '}') == |body| - 1;
    assert body[0..|body|] == body;
  }

  lemma StripPadding(pad: string, body: string)
    requires body != [] && !IsSpace(body[0]) && !IsSpace(body[|body| - 1])
    requires forall i :: 0 <= i < |pad| ==> IsSpace(pad[i])
    ensures Strip(pad + body + pad) == body
  {
    var t := pad + body + pad;
    TrimLeftPadding(pad, body + pad);
    assert t == pad + (body + pad);
    TrimRightPadding(body, pad);
  }

  lemma {:induction false} TrimLeftPadding(pad: string, rest: string)
    requires rest != [] && !IsSpace(rest[0])
    requires forall i :: 0 <= i < |pad| ==> IsSpace(pad[i])
    ensures TrimLeft(pad + rest) == rest
    decreases |pad|
  {
    if pad != [] {
      var s := pad + rest;
      assert s[0] == pad[0];
      assert s[1..] == pad[1..] + rest;
      assert TrimLeft(s) == TrimLeft(s[1..]);
      TrimLeftPadding(pad[1..], rest);
    } else {
      assert pad + rest == rest;
    }
  }

  lemma {:induction false} TrimRightPadding(body: string, pad: string)
    requires body != [] && !IsSpace(body[|body| - 1])
    requires forall i :: 0 <= i < |pad| ==> IsSpace(pad[i])
    ensures TrimRight(body + pad) == body
    decreases |pad|
  {
    if pad != [] {
      var init := pad[..|pad| - 1];
      assert (body + pad)[..|body + pad| - 1] == body + init;
      TrimRightPadding(body, init);
    } else {
      assert body + pad == body;
    }
  }

  // ---------------------------------------------------------------------
  // _build_itinerary_prompt: the request and its defaults
  // ---------------------------------------------------------------------

  /** The values the prompt is built from. */
  datatype TripRequest = TripRequest(
    destination: Json, days: Json, preferences: Json, budget: Json,
    groupSize: Json, travelStyle: Json, mode: Json, placesPlan: Json, weather: Json)

  /** `request_data.get(...)` for each field, with the service's defaults;
      a request that is not a dict has no `get`. */
  function RequestOf(request: Json): (r: Result<TripRequest>)
    ensures r.Ok? <==> request.Obj?
  {
    if !request.Obj? then Raise(AttributeError)
    else
      var d: Dict := request;
      Ok(TripRequest(
        GetOr(d, "destination", Str("an amazing place")),
        GetOr(d, "duration_days", Int(3)),
        GetOr(d, "preferences", Arr([])),
        GetOr(d, "budget", Str("moderate")),
        GetOr(d, "group_size", Int(1)),
        GetOr(d, "travel_style", Str("balanced")),
        GetOr(d, "mode", Str("ai")),
        GetOr(d, "places_plan", Arr([])),
        Get(d, "weather")))
  }

  /** An empty request asks for a three-day, moderate, balanced trip for one
      person planned by the model, with no places and no weather. */
  lemma EmptyRequestDefaults()
    ensures RequestOf(Obj([])) == Ok(TripRequest(
              Str("an amazing place"), Int(3), Arr([]), Str("moderate"), Int(1),
              Str("balanced"), Str("ai"), Arr([]), Null))
  {
  }

  /** A field the request gives is used as given, whatever else it holds. */
  lemma RequestFieldsKept(d: Dict)
    ensures var r := RequestOf(d).value;
            && (Has(d, "destination") ==> r.destination == Get(d, "destination"))
            && (Has(d, "duration_days") ==> r.days == Get(d, "duration_days"))
            && (Has(d, "preferences") ==> r.preferences == Get(d, "preferences"))
            && (Has(d, "budget") ==> r.budget == Get(d, "budget"))
            && (Has(d, "group_size") ==> r.groupSize == Get(d, "group_size"))
            && (Has(d, "travel_style") ==> r.travelStyle == Get(d, "travel_style"))
            && (Has(d, "mode") ==> r.mode == Get(d, "mode"))
            && (Has(d, "places_plan") ==> r.placesPlan == Get(d, "places_plan"))
            && r.weather == Get(d, "weather")
  {
  }

  /** `', '.join(preferences) if preferences else 'General travel'` */
  function PreferencesText(preferences: Json): (r: Result<string>)
    ensures !Truthy(preferences) ==> r == Ok("General travel")
  {
    JoinOr(preferences, "General travel")
  }

  /** What the prompt is built from: the request and its preferences text. */
  datatype PromptInputs = PromptInputs(request: TripRequest, preferencesText: string)

  function BuildPromptInputs(request: Json): (r: Result<PromptInputs>)
    ensures r.Ok? ==> RequestOf(request) == Ok(r.value.request)
    ensures r.Ok? ==> PreferencesText(r.value.request.preferences) == Ok(r.value.preferencesText)
  {
    var req :- RequestOf(request);
    var prefs :- PreferencesText(req.preferences);
    Ok(PromptInputs(req, prefs))
  }

  // ---------------------------------------------------------------------
  // generate_itinerary
  // ---------------------------------------------------------------------

  /** What went wrong; the service re-raises every failure as an
      `Exception` whose message is `FailurePrefix` followed by the cause. */
  datatype Failure = PromptFailed(error: PyError) | ModelCallFailed | DecodeFailed

  const FailurePrefix: string := "AI service failed: "

  datatype Outcome = Generated(itinerary: Json) | Failed(cause: Failure)

  function GenerateItinerary(request: Json, reply: Option<string>, loads: string -> Option<Json>): (r: Outcome)
    ensures r.Generated? <==>
              && BuildPromptInputs(request).Ok?
              && reply.Some?
              && loads(JsonText(reply.value)).Some?
    ensures r.Generated? ==> r.itinerary == loads(JsonText(reply.value)).value
  {
    match BuildPromptInputs(request)
    case Raise(e) => Failed(PromptFailed(e))
    case Ok(_) =>
      if reply.None? then Failed(ModelCallFailed)
      else
        match loads(JsonText(reply.value))
        case None => Failed(DecodeFailed)
        case Some(itinerary) => Generated(itinerary)
  }

  /** A reply without a closing brace is never decoded: `loads` sees the
      empty string. */
  lemma NoClosingBraceFails(request: Json, reply: string, loads: string -> Option<Json>)
    requires '}' !in reply
    requires loads("").None?
    requires BuildPromptInputs(request).Ok?
    ensures GenerateItinerary(request, Some(reply), loads) == Failed(DecodeFailed)
  {
    var t := Strip(reply);
    SpanWithoutClosingBrace(t);
  }
}
