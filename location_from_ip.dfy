/** The `location-from-ip` element (src/LocationFromIP.js): it looks up the
    user's IP address with a geo-IP service, keeps the coordinates, city and
    region, and renders a map and three Wikipedia searches from them. */
module LocationFromIP {
  import opened JsValue
  import opened Fetch
  import Text

  const DefaultEndpoint := "https://freegeoip.app/json/"

  /** The four properties the lookup writes. */
  datatype Place = Place(lat: Value, long: Value, city: Value, state: Value)

  /** The URL `getGEOIPData` fetches once the user's IP data has resolved to
      `ipData`: the endpoint with `ipData.ip` appended, no separator between
      them; None when reading `ipData.ip` throws, so that nothing is fetched. */
  function LookupUrl(endpoint: string, ipData: Value): (url: Option<string>)
    ensures url.Some? <==> !Nullish(ipData)
    ensures url.Some? ==> endpoint <= url.value
  {
    var ip :- Get(ipData, "ip");
    Some(endpoint + ToString(ip))
  }

  /** A lookup URL is requested exactly when the IP data can be read, and
      removing the endpoint from its front gives back the IP as written. */
  lemma LookupUrlParts(endpoint: string, ipData: Value)
    ensures LookupUrl(endpoint, ipData).Some? <==> !Nullish(ipData)
    ensures LookupUrl(endpoint, ipData).Some? ==>
      var url := LookupUrl(endpoint, ipData).value;
      |url| >= |endpoint| && url[..|endpoint|] == endpoint &&
      url[|endpoint|..] == ToString(Prop(ipData, "ip"))
  {
    if !Nullish(ipData) {
      var url := endpoint + ToString(Prop(ipData, "ip"));
      assert url[|endpoint|..] == ToString(Prop(ipData, "ip"));
    }
  }

  /** What the lookup handler leaves in the four properties, and how the
      chain returned by `getGEOIPData` settles. */
  datatype Located = Located(place: Place, completion: Completion)

  /** The second `.then` handler of `getGEOIPData`: copy `latitude`,
      `longitude`, `city` and `region_name` from the payload and return the
      payload. The properties are read off `data` one after the other, so
      either all four are written or, when `data` is `undefined` or `null`
      and the first read throws, none is. */
  function HandleLookup(prior: Place, outcome: FetchOutcome): (r: Located)
    ensures r.completion.Rejected? ==> r.place == prior
    ensures r.completion.Fulfilled? ==> Payload(outcome) == Some(r.completion.value)
  {
    match Payload(outcome)
    case None => Located(prior, Rejected)
    case Some(data) =>
      if Nullish(data) then Located(prior, Rejected)
      else Located(Place(Prop(data, "latitude"), Prop(data, "longitude"), Prop(data, "city"), Prop(data, "region_name")),
                   Fulfilled(data))
  }

  /** A non-ok response hands `false` to the handler. Reading properties of
      `false` does not throw, so all four properties become `undefined`,
      whatever they held, and the chain fulfils with `false`. */
  lemma NonOkLookupForgetsPlace(prior: Place, body: Option<Value>)
    ensures HandleLookup(prior, Received(Response(false, body)))
         == Located(Place(Undefined, Undefined, Undefined, Undefined), Fulfilled(Bool(false)))
  {
  }

  /** An ok response with a JSON object: `lat`, `long`, `city` and `state`
      come from `latitude`, `longitude`, `city` and `region_name` (or are
      `undefined` where the payload lacks them), and the payload is returned
      unchanged. */
  lemma OkLookupCopiesPayload(prior: Place, fields: map<string, Value>)
    ensures var r := HandleLookup(prior, Received(Response(true, Some(Obj(fields)))));
      r.completion == Fulfilled(Obj(fields)) &&
      r.place.lat == (if "latitude" in fields then fields["latitude"] else Undefined) &&
      r.place.long == (if "longitude" in fields then fields["longitude"] else Undefined) &&
      r.place.city == (if "city" in fields then fields["city"] else Undefined) &&
      r.place.state == (if "region_name" in fields then fields["region_name"] else Undefined)
  {
  }

  /** The handler throws only on a `null` payload or when it is never reached,
      and then nothing is written. */
  lemma RejectedLookupKeepsPlace(prior: Place, outcome: FetchOutcome)
    ensures HandleLookup(prior, outcome).completion == Rejected <==>
      Payload(outcome).None? || Nullish(Payload(outcome).value)
    ensures HandleLookup(prior, outcome).completion == Rejected ==> HandleLookup(prior, outcome).place == prior
  {
  }

  /** Once the handler completes, the old place plays no part. */
  lemma FulfilledLookupOverwrites(prior: Place, other: Place, outcome: FetchOutcome)
    requires HandleLookup(prior, outcome).completion.Fulfilled?
    ensures HandleLookup(other, outcome) == HandleLookup(prior, outcome)
  {
  }

  const EmbedBase := "https://maps.google.com/maps?"
  const EmbedRest := "&t=&z=15&ie=UTF8&iwloc=&output=embed"
  const MapsBase := "https://www.google.com/maps/@"

  /** The `iframe` source: a template literal, so `undefined` and `null`
      coordinates are written as the words. */
  function EmbedUrl(lat: Value, long: Value): (url: string)
    ensures EmbedBase + "q=" <= url
  {
    EmbedBase + EmbedQuery(ToString(lat), ToString(long))
  }

  function EmbedQuery(lat: string, long: string): (query: string)
  {
    "q=" + lat + "," + long + EmbedRest
  }

  /** The "Open in Google Maps" link: an attribute binding, so `undefined`
      and `null` coordinates are written as nothing. */
  function MapsLink(lat: Value, long: Value): (url: string)
    ensures MapsBase < url
    ensures url[|url| - 4..] == ",14z"
  {
    MapsBase + MapsPosition(AttrString(lat), AttrString(long))
  }

  function MapsPosition(lat: string, long: string): (position: string)
  {
    lat + "," + long + ",14z"
  }

  /** The `search` attributes of the three `wikipedia-query` elements, in
      order: city and state (with a trailing space), the city, the state. */
  function Searches(city: Value, state: Value): (searches: seq<string>)
    ensures |searches| == 3
    ensures searches[0] == searches[1] + ", " + searches[2] + " "
    ensures searches[1] == AttrString(city) && searches[2] == AttrString(state)
  {
    [AttrString(city) + ", " + AttrString(state) + " ", AttrString(city), AttrString(state)]
  }

  /** The first search, split on ',', gives back the city and the state
      between two spaces, as long as neither holds a ','. */
  lemma FirstSearchParts(city: Value, state: Value)
    requires ',' !in AttrString(city) && ',' !in AttrString(state)
    ensures Text.Split(Searches(city, state)[0], ',') == [AttrString(city), " " + AttrString(state) + " "]
  {
    var c, s := AttrString(city), AttrString(state);
    assert Searches(city, state)[0] == c + [','] + (" " + s + " ");
    assert ',' !in " " + s + " " by {
      assert " " + s + " " == [' '] + s + [' '];
    }
    Text.SplitTwo(c, " " + s + " ", ',');
  }

  /** The strings `render` builds from the place. */
  datatype View = View(embedUrl: string, mapsLink: string, searches: seq<string>)

  function Render(p: Place): (v: View)
    ensures EmbedBase < v.embedUrl && MapsBase < v.mapsLink
    ensures |v.searches| == 3 && v.searches[1] == AttrString(p.city) && v.searches[2] == AttrString(p.state)
  {
    View(EmbedUrl(p.lat, p.long), MapsLink(p.lat, p.long), Searches(p.city, p.state))
  }

  /** The embed query's first parameter is `q=<lat>,<long>`, and splitting its
      value on ',' gives back both coordinates, as long as neither holds a ','
      or a '&'. */
  lemma EmbedQueryCoordinates(lat: string, long: string)
    requires ',' !in lat && ',' !in long && '&' !in lat && '&' !in long
    ensures var query := Text.Split(EmbedQuery(lat, long), '&');
      query[0] == "q=" + lat + "," + long &&
      Text.Split(query[0][2..], ',') == [lat, long]
  {
    var q := "q=" + lat + "," + long;
    assert EmbedRest == ['&'] + EmbedRest[1..];
    assert EmbedQuery(lat, long) == q + ['&'] + EmbedRest[1..];
    assert '&' !in q by {
      assert q == ['q', '='] + lat + [','] + long;
    }
    Text.SplitAfterPrefix(q, '&', EmbedRest[1..]);
    assert q[2..] == lat + [','] + long;
    Text.SplitTwo(lat, long, ',');
  }

  /** The embed URL carries both coordinates, as written, in its `q` parameter. */
  lemma EmbedUrlCoordinates(lat: Value, long: Value)
    requires ',' !in ToString(lat) && ',' !in ToString(long)
    requires '&' !in ToString(lat) && '&' !in ToString(long)
    ensures |EmbedUrl(lat, long)| > |EmbedBase| && EmbedUrl(lat, long)[..|EmbedBase|] == EmbedBase
    ensures var query := Text.Split(EmbedUrl(lat, long)[|EmbedBase|..], '&');
      query[0] == "q=" + ToString(lat) + "," + ToString(long) &&
      Text.Split(query[0][2..], ',') == [ToString(lat), ToString(long)]
  {
    assert EmbedUrl(lat, long)[|EmbedBase|..] == EmbedQuery(ToString(lat), ToString(long));
    EmbedQueryCoordinates(ToString(lat), ToString(long));
  }

  /** The maps link, read from its '@', splits on ',' into the two
      coordinates as bound and the zoom. */
  lemma MapsLinkCoordinates(lat: Value, long: Value)
    requires ',' !in AttrString(lat) && ',' !in AttrString(long)
    ensures |MapsLink(lat, long)| >= |MapsBase| && MapsLink(lat, long)[..|MapsBase|] == MapsBase
    ensures Text.Split(MapsLink(lat, long)[|MapsBase|..], ',') == [AttrString(lat), AttrString(long), "14z"]
  {
    var a, b := AttrString(lat), AttrString(long);
    assert MapsLink(lat, long)[|MapsBase|..] == MapsPosition(a, b);
    assert MapsPosition(a, b) == a + [','] + b + [','] + "14z";
    Text.SplitThree(a, b, "14z", ',');
  }

  /** Before any lookup completes, both coordinates are `null`: the embed
      URL asks for "null,null" and the maps link has empty coordinates. */
  lemma InitialView(city: Value, state: Value)
    ensures Render(Place(Null, Null, city, state)).embedUrl == EmbedBase + "q=null,null" + EmbedRest
    ensures Render(Place(Null, Null, city, state)).mapsLink == MapsBase + ",,14z"
  {
  }

  /** After a non-ok response the page shows a map of "undefined,undefined",
      a maps link with empty coordinates and searches for ",  ", "" and "". */
  lemma NonOkLookupView(prior: Place, body: Option<Value>)
    ensures Render(HandleLookup(prior, Received(Response(false, body))).place)
         == View(EmbedBase + "q=undefined,undefined" + EmbedRest, MapsBase + ",,14z", [",  ", "", ""])
  {
    NonOkLookupForgetsPlace(prior, body);
    assert ToString(Undefined) == "undefined" && AttrString(Undefined) == "";
    assert EmbedQuery("undefined", "undefined") == "q=undefined,undefined" + EmbedRest;
    assert MapsPosition("", "") == ",,14z";
    var searches := Searches(Undefined, Undefined);
    assert searches[0] == "" + ", " + "" + " " == ",  ";
    assert searches == [searches[0], searches[1], searches[2]];
  }

  class LocationFromIP {
    var locationEndpoint: string
    var lat: Value
    var long: Value
    var city: Value
    var state: Value
    /** The declared `region_name` property; the lookup writes `state` instead. */
    var regionName: Value

    constructor ()
      ensures locationEndpoint == DefaultEndpoint && lat == Null && long == Null
      ensures city == Undefined && state == Undefined && regionName == Undefined
    {
      locationEndpoint := DefaultEndpoint;
      long := Null;
      lat := Null;
      city := Undefined;
      state := Undefined;
      regionName := Undefined;
    }

    function Where(): (p: Place)
      reads this
    {
      Place(lat, long, city, state)
    }

    /** `firstUpdated`: one call of `getGEOIPData`, which waits for the user's
        IP data (`ipData`) and then requests the lookup URL. Returns the URLs
        requested. */
    method FirstUpdated(ipData: Value) returns (requests: seq<string>)
      ensures |requests| <= 1
      ensures requests == if Nullish(ipData) then [] else [LookupUrl(locationEndpoint, ipData).value]
      ensures forall k :: 0 <= k < |requests| ==>
        |requests[k]| >= |locationEndpoint| && requests[k][..|locationEndpoint|] == locationEndpoint
    {
      var ip := Get(ipData, "ip");
      if ip.None? {
        return [];
      }
      var url := locationEndpoint + ToString(ip.value);
      assert url[..|locationEndpoint|] == locationEndpoint;
      requests := [url];
    }

    /** The lookup response handler of `getGEOIPData`, run when the fetch settles. */
    method ReceiveLookup(outcome: FetchOutcome) returns (completion: Completion)
      modifies this`lat, this`long, this`city, this`state
      ensures Located(Where(), completion) == HandleLookup(old(Where()), outcome)
      ensures regionName == old(regionName) && locationEndpoint == old(locationEndpoint)
    {
      var payload := Payload(outcome);
      if payload.None? {
        return Rejected;
      }
      var data := payload.value;
      if Nullish(data) {
        // reading `data.latitude` throws before anything is written
        return Rejected;
      }
      lat := Prop(data, "latitude");
      long := Prop(data, "longitude");
      city := Prop(data, "city");
      state := Prop(data, "region_name");
      return Fulfilled(data);
    }
  }
}
