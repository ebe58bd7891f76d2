/** The `nasa-image-search` element (src/option2.js): it searches the NASA
    image library for `title` and keeps one simplified record per result
    item in `images`. */
module NasaImageSearch {
  import opened JsValue
  import opened Fetch
  import Text

  /** The simplified record `getData` builds for one result item. */
  datatype Image = Image(image: Value, description: Value, title: Value, creator: Value)

  /** What `render` draws for one record: an `accent-card` whose image source
      is an attribute binding and whose heading and two content slots show
      the title, the description and the creator. */
  datatype Card = Card(imageSrc: string, heading: Value, description: Value, photography: Value)

  const SearchBase := "http://images-api.nasa.gov/search?"
  const MediaTypeImage := "media_type=image"

  /** The URL `getData` fetches. The page is a bare query segment, with no
      `page=` key in front of it. */
  function SearchUrl(title: Value, page: Value): (url: string)
    ensures SearchBase + "q=" <= url
  {
    SearchBase + SearchQuery(ToString(title), ToString(page))
  }

  function SearchQuery(term: string, page: string): (query: string)
  {
    "q=" + term + "&" + page + "&" + MediaTypeImage
  }

  /** Reading the query back gives the search term, the page and the media
      type, as long as neither the term nor the page holds a '&'. */
  lemma QuerySegments(term: string, page: string)
    requires '&' !in term && '&' !in page
    ensures Text.Split(SearchQuery(term, page), '&') == ["q=" + term, page, MediaTypeImage]
  {
    var parts := ["q=" + term, page, MediaTypeImage];
    assert parts[1..] == [page, MediaTypeImage];
    assert parts[1..][1..] == [MediaTypeImage];
    assert Text.Join(parts[1..], '&') == page + "&" + MediaTypeImage;
    assert Text.Join(parts, '&') == SearchQuery(term, page);
    assert '&' !in "q=" + term by {
      assert "q=" + term == ['q', '='] + term;
    }
    assert '&' !in MediaTypeImage;
    Text.SplitJoin(parts, '&');
  }

  /** Reading the query of the search URL back gives the search term, the
      page and the media type, as long as neither value renders with a '&'. */
  lemma SearchUrlSegments(title: Value, page: Value)
    requires '&' !in ToString(title) && '&' !in ToString(page)
    ensures |SearchUrl(title, page)| > |SearchBase|
    ensures SearchUrl(title, page)[..|SearchBase|] == SearchBase
    ensures Text.Split(SearchUrl(title, page)[|SearchBase|..], '&')
         == ["q=" + ToString(title), ToString(page), MediaTypeImage]
  {
    var query := SearchQuery(ToString(title), ToString(page));
    assert SearchUrl(title, page)[|SearchBase|..] == query;
    QuerySegments(ToString(title), ToString(page));
  }

  /** A numeric page reaches the server as a segment that is neither
      `page=...` nor any other key-value pair, so the API never sees a page. */
  lemma PageIsNotKeyed(title: Value, n: int)
    requires '&' !in ToString(title)
    ensures var segments := Text.Split(SearchUrl(title, Number(n))[|SearchBase|..], '&');
      |segments| == 3 && '=' !in segments[1] &&
      forall k :: 0 <= k < |segments| ==> !(|segments[k]| >= 5 && segments[k][..5] == "page=")
  {
    NumberText(n, '&');
    NumberText(n, '=');
    SearchUrlSegments(title, Number(n));
    var segments := Text.Split(SearchUrl(title, Number(n))[|SearchBase|..], '&');
    assert segments[0][0] == 'q';
    assert segments[1][0] == '-' || '0' <= segments[1][0] <= '9';
    assert segments[2][0] == 'm';
  }

  /** Property access on an item that succeeds exactly when every step of
      `items[i].links[0].href` and `items[i].data[0].<field>` is taken on a
      value other than `undefined` and `null`. */
  predicate WellFormedItem(item: Value)
  {
    !Nullish(item) &&
    !Nullish(Prop(item, "links")) && !Nullish(Elem(Prop(item, "links"), 0)) &&
    !Nullish(Prop(item, "data")) && !Nullish(Elem(Prop(item, "data"), 0))
  }

  /** The four fields of an item read with optional chaining: the reference
      reading of the record that `getData` builds. */
  function Projected(item: Value): (r: Image)
  {
    var first := Elem(Prop(item, "data"), 0);
    Image(Prop(Elem(Prop(item, "links"), 0), "href"),
          Prop(first, "description"), Prop(first, "title"), Prop(first, "secondary_creator"))
  }

  /** The record literal built for `items[i]`, or None when a property
      access in it throws. */
  function ItemRecord(items: Value, i: nat): (r: Option<Image>)
  {
    var item :- At(items, i);
    var links :- Get(item, "links");
    var link :- At(links, 0);
    var href :- Get(link, "href");
    // `item` was dereferenced above, so reading `item.data` cannot throw;
    // once `first.description` is read, neither can `first.title` and the rest
    var first :- At(Prop(item, "data"), 0);
    var description :- Get(first, "description");
    Some(Image(href, description, Prop(first, "title"), Prop(first, "secondary_creator")))
  }

  /** A record is built exactly for a well-formed item, and it holds the
      item's `links[0].href` and `data[0]` description, title and
      secondary creator. */
  lemma ItemRecordFields(items: Value, i: nat)
    requires !Nullish(items)
    ensures ItemRecord(items, i).Some? <==> WellFormedItem(Elem(items, i))
    ensures ItemRecord(items, i).Some? ==> ItemRecord(items, i).value == Projected(Elem(items, i))
  {
  }

  /** `data.collection.items` and the number of iterations the loop guard
      `i < data.collection.items.length` allows, or None when evaluating the
      guard throws. A length that is not a positive integer ends the loop
      at once. */
  function Extent(data: Value): (r: Option<(Value, nat)>)
    ensures r.None? <==> Nullish(data) || Nullish(Prop(data, "collection"))
                         || Nullish(Prop(Prop(data, "collection"), "items"))
    ensures r.Some? ==> r.value.0 == Prop(Prop(data, "collection"), "items")
    ensures r.Some? && r.value.1 > 0 ==> Prop(r.value.0, "length") == Number(r.value.1)
    ensures r.Some? && r.value.0.Arr? ==> r.value.1 == |r.value.0.elems|
  {
    var collection :- Get(data, "collection");
    var items :- Get(collection, "items");
    var length :- Get(items, "length");
    Some((items, if length.Number? && length.n > 0 then length.n else 0))
  }

  /** The record each of the first `n` items yields, or None where building
      it throws. */
  function ItemRecords(items: Value, n: nat): (records: seq<Option<Image>>)
    ensures |records| == n
    ensures forall k :: 0 <= k < n ==> records[k] == ItemRecord(items, k)
  {
    seq(n, k requires 0 <= k < n => ItemRecord(items, k))
  }

  /** The list built by the first `n` iterations of the loop, and whether one
      of them threw (after which no further iteration runs). */
  datatype Harvest = Harvest(images: seq<Image>, stopped: bool)

  function Harvested(records: seq<Option<Image>>, n: nat): (h: Harvest)
    requires n <= |records|
    decreases n
  {
    if n == 0 then Harvest([], false)
    else
      var h := Harvested(records, n - 1);
      if h.stopped then h
      else match records[n - 1]
        case None => Harvest(h.images, true)
        case Some(r) => Harvest(h.images + [r], false)
  }

  /** Once an iteration has thrown, later iterations change nothing. */
  lemma {:induction false} HarvestStops(records: seq<Option<Image>>, i: nat, n: nat)
    requires i <= n <= |records| && Harvested(records, i).stopped
    ensures Harvested(records, n) == Harvested(records, i)
    decreases n - i
  {
    if i < n {
      HarvestStops(records, i, n - 1);
    }
  }

  /** The loop keeps the records in item order, up to the first item whose
      record cannot be built, where it stops. */
  lemma {:induction false} HarvestedRecords(records: seq<Option<Image>>, n: nat)
    requires n <= |records|
    ensures var h := Harvested(records, n);
      |h.images| <= n &&
      (forall k :: 0 <= k < |h.images| ==> records[k] == Some(h.images[k])) &&
      (h.stopped <==> |h.images| < n) &&
      (h.stopped ==> records[|h.images|].None?)
    decreases n
  {
    if n > 0 {
      HarvestedRecords(records, n - 1);
    }
  }

  /** What the response handler leaves in `images`, and how the fetch chain
      settles. */
  datatype Handled = Handled(images: seq<Image>, completion: Completion)

  /** The second `.then` handler of `getData`: reset `images`, then push one
      record per item. Nothing runs when the chain rejected before it. */
  function HandleResponse(prior: seq<Image>, outcome: FetchOutcome): (r: Handled)
    ensures Payload(outcome).None? ==> r == Handled(prior, Rejected)
    ensures r.completion.Fulfilled? ==> r.completion.value == Undefined
  {
    match Payload(outcome)
    case None => Handled(prior, Rejected)
    case Some(data) =>
      match Extent(data)
      case None => Handled([], Rejected)
      case Some((items, n)) =>
        var h := Harvested(ItemRecords(items, n), n);
        Handled(h.images, if h.stopped then Rejected else Fulfilled(Undefined))
  }

  /** A non-ok response hands `false` to the handler: `images` is reset and
      reading `false.collection.items` then throws, so the list stays empty
      whatever it held before. */
  lemma NonOkResponseClearsImages(prior: seq<Image>, body: Option<Value>)
    ensures HandleResponse(prior, Received(Response(false, body))) == Handled([], Rejected)
  {
  }

  /** A failed request, or an ok response whose body is not JSON, never reaches
      the handler: `images` is left as it was. */
  lemma UnreachedHandlerKeepsImages(prior: seq<Image>, outcome: FetchOutcome)
    requires outcome.NetworkError? || (outcome.Received? && outcome.response.ok && outcome.response.body.None?)
    ensures HandleResponse(prior, outcome) == Handled(prior, Rejected)
  {
  }

  /** Once the handler runs, the old list plays no part: records are never
      merged into it. */
  lemma PriorImagesDiscarded(prior: seq<Image>, other: seq<Image>, outcome: FetchOutcome)
    requires Payload(outcome).Some?
    ensures HandleResponse(prior, outcome) == HandleResponse(other, outcome)
  {
  }

  /** Handling the same response twice leaves what handling it once left. */
  lemma HandleResponseIdempotent(prior: seq<Image>, outcome: FetchOutcome)
    ensures var once := HandleResponse(prior, outcome);
      HandleResponse(once.images, outcome) == once
  {
  }

  /** For a payload whose guard can be read, the handler keeps one record per
      item in item order up to the first malformed item; the chain fulfils
      exactly when no item was malformed. */
  lemma ResponseImages(prior: seq<Image>, outcome: FetchOutcome, items: Value, n: nat)
    requires Payload(outcome).Some? && Extent(Payload(outcome).value) == Some((items, n))
    ensures var r := HandleResponse(prior, outcome);
      |r.images| <= n &&
      (forall k :: 0 <= k < |r.images| ==>
         WellFormedItem(Elem(items, k)) && r.images[k] == Projected(Elem(items, k))) &&
      (|r.images| < n ==> !WellFormedItem(Elem(items, |r.images|)) && r.completion == Rejected) &&
      (r.completion.Fulfilled? <==> forall k :: 0 <= k < n ==> WellFormedItem(Elem(items, k)))
  {
    var data := Payload(outcome).value;
    assert !Nullish(items) by {
      assert Get(items, "length").Some?;
    }
    HarvestedRecords(ItemRecords(items, n), n);
    forall k | 0 <= k < n
      ensures ItemRecord(items, k).Some? <==> WellFormedItem(Elem(items, k))
      ensures ItemRecord(items, k).Some? ==> ItemRecord(items, k).value == Projected(Elem(items, k))
    {
      ItemRecordFields(items, k);
    }
  }

  /** An ok response shaped like the API's, `{collection: {items: [...]}}`, with
      every item well formed, yields exactly one record per item, in order. */
  lemma ApiShapedResponse(prior: seq<Image>, elems: seq<Value>, collection: map<string, Value>, body: map<string, Value>)
    requires "items" in collection && collection["items"] == Arr(elems)
    requires "collection" in body && body["collection"] == Obj(collection)
    requires forall k :: 0 <= k < |elems| ==> WellFormedItem(elems[k])
    ensures var r := HandleResponse(prior, Received(Response(true, Some(Obj(body)))));
      r.completion == Fulfilled(Undefined) && |r.images| == |elems| &&
      forall k :: 0 <= k < |elems| ==> r.images[k] == Projected(elems[k])
  {
    var outcome := Received(Response(true, Some(Obj(body))));
    assert Extent(Obj(body)) == Some((Arr(elems), |elems|));
    ResponseImages(prior, outcome, Arr(elems), |elems|);
  }

  /** `render`: one card per record, in list order. */
  function Cards(images: seq<Image>): (cards: seq<Card>)
    ensures |cards| == |images|
    ensures forall k :: 0 <= k < |images| ==>
      cards[k].heading == images[k].title && cards[k].description == images[k].description &&
      cards[k].photography == images[k].creator && cards[k].imageSrc == AttrString(images[k].image)
  {
    seq(|images|, k requires 0 <= k < |images| =>
      Card(AttrString(images[k].image), images[k].title, images[k].description, images[k].creator))
  }

  /** One search result `{title: "X", image: "http://i/1.png", description: "d",
      creator: "c"}` ends as a single card showing those four fields. */
  lemma OneResultOneCard()
    ensures var item := Obj(map["links" := Arr([Obj(map["href" := Str("http://i/1.png")])]),
                                "data" := Arr([Obj(map["title" := Str("X"), "description" := Str("d"),
                                                       "secondary_creator" := Str("c")])])]);
      var body := Obj(map["collection" := Obj(map["items" := Arr([item])])]);
      var r := HandleResponse([], Received(Response(true, Some(body))));
      Cards(r.images) == [Card("http://i/1.png", Str("X"), Str("d"), Str("c"))]
  {
    var item := Obj(map["links" := Arr([Obj(map["href" := Str("http://i/1.png")])]),
                        "data" := Arr([Obj(map["title" := Str("X"), "description" := Str("d"),
                                               "secondary_creator" := Str("c")])])]);
    var collection := map["items" := Arr([item])];
    var body := map["collection" := Obj(collection)];
    ApiShapedResponse([], [item], collection, body);
  }

  /** Keys of a change batch that equal `key`. */
  function Occurrences(changed: seq<(string, Value)>, key: string): (count: nat)
  {
    if |changed| == 0 then 0
    else Occurrences(changed[..|changed| - 1], key) + (if changed[|changed| - 1].0 == key then 1 else 0)
  }

  /** A change batch is a `Map` from property name to old value: no name twice. */
  predicate DistinctKeys(changed: seq<(string, Value)>)
  {
    forall i, j :: 0 <= i < j < |changed| ==> changed[i].0 != changed[j].0
  }

  /** A name occurs in a batch at most once, and not at all when absent. */
  lemma {:induction false} OccurrencesOfDistinct(changed: seq<(string, Value)>, key: string)
    ensures Occurrences(changed, key) == 0 <==> forall i :: 0 <= i < |changed| ==> changed[i].0 != key
    ensures DistinctKeys(changed) ==> Occurrences(changed, key) <= 1
    decreases |changed|
  {
    if |changed| > 0 {
      var front := changed[..|changed| - 1];
      OccurrencesOfDistinct(front, key);
      assert forall i :: 0 <= i < |front| ==> front[i] == changed[i];
      if DistinctKeys(changed) && changed[|changed| - 1].0 == key {
        assert DistinctKeys(front);
        assert forall i :: 0 <= i < |front| ==> front[i].0 != key;
      }
    }
  }

  class NasaImageSearch {
    var title: Value
    var description: Value
    /** The `secondary_creator` property. */
    var secondaryCreator: Value
    var page: Value
    /** The `media_type` property. */
    var mediaType: Value
    var name: Value
    var loadData: Value
    var images: seq<Image>

    constructor ()
      ensures loadData == Bool(false) && page == Number(1) && title == Undefined
      ensures description == Str("someDesc") && secondaryCreator == Str("someCreator")
      ensures mediaType == Str("someImage") && name == Str("moon land")
      ensures images == []
    {
      loadData := Bool(false);
      page := Number(1);
      title := Undefined;
      description := Str("someDesc");
      secondaryCreator := Str("someCreator");
      mediaType := Str("someImage");
      images := [];
      name := Str("moon land");
    }

    /** `firstUpdated`: one call of `getData`, which requests the search for
        the current title and page. */
    method FirstUpdated() returns (requests: seq<string>)
      ensures requests == [SearchUrl(title, page)]
    {
      requests := [SearchUrl(title, page)];
    }

    /** The hooks Lit runs after the element's first update, in its order:
        `firstUpdated` and then `updated`, both given the same change batch.
        The first batch names `loadData`, which the constructor assigns, so a
        truthy `loadData` makes `getData` run twice. */
    method FirstRender(changed: seq<(string, Value)>) returns (requests: seq<string>)
      ensures |requests| >= 1
      ensures forall k :: 0 <= k < |requests| ==> requests[k] == SearchUrl(title, page)
      ensures DistinctKeys(changed) && (exists i :: 0 <= i < |changed| && changed[i].0 == "loadData")
              ==> |requests| == if Truthy(loadData) then 2 else 1
      ensures !Truthy(loadData) ==> requests == [SearchUrl(title, page)]
    {
      var first := FirstUpdated();
      var later := Updated(changed);
      requests := first + later;
    }

    /** `updated`: walk the change batch and call `getData` for each entry
        named `loadData` while `loadData` is truthy. Returns the URLs
        requested, in order. */
    method Updated(changed: seq<(string, Value)>) returns (requests: seq<string>)
      ensures |requests| == (if Truthy(loadData) then Occurrences(changed, "loadData") else 0)
      ensures forall k :: 0 <= k < |requests| ==> requests[k] == SearchUrl(title, page)
      ensures DistinctKeys(changed) ==> |requests| <= 1
      ensures (forall i :: 0 <= i < |changed| ==> changed[i].0 != "loadData") ==> requests == []
      ensures DistinctKeys(changed) && Truthy(loadData) && (exists i :: 0 <= i < |changed| && changed[i].0 == "loadData")
              ==> requests == [SearchUrl(title, page)]
    {
      requests := [];
      var k := 0;
      while k < |changed|
        invariant 0 <= k <= |changed|
        invariant |requests| == (if Truthy(loadData) then Occurrences(changed[..k], "loadData") else 0)
        invariant forall j :: 0 <= j < |requests| ==> requests[j] == SearchUrl(title, page)
      {
        assert changed[..k + 1][..k] == changed[..k];
        var (propName, _) := changed[k];
        if propName == "loadData" && Truthy(loadData) {
          requests := requests + [SearchUrl(title, page)];
        }
        k := k + 1;
      }
      assert changed[..k] == changed;
      OccurrencesOfDistinct(changed, "loadData");
    }

    /** The response handler of `getData`, run when the fetch settles. */
    method ReceiveResponse(outcome: FetchOutcome) returns (completion: Completion)
      modifies this`images
      ensures Handled(images, completion) == HandleResponse(old(images), outcome)
    {
      var payload := Payload(outcome);
      if payload.None? {
        return Rejected;
      }
      var data := payload.value;
      images := [];
      var collection := Get(data, "collection");
      if collection.None? {
        assert Extent(data).None?;
        return Rejected;
      }
      var items := Get(collection.value, "items");
      if items.None? {
        assert Extent(data).None?;
        return Rejected;
      }
      var length := Get(items.value, "length");
      if length.None? {
        assert Extent(data).None?;
        return Rejected;
      }
      // `data` does not change inside the loop, so the guard's bound is fixed.
      var n: nat := if length.value.Number? && length.value.n > 0 then length.value.n else 0;
      assert Extent(data) == Some((items.value, n));
      ghost var records := ItemRecords(items.value, n);
      var i := 0;
      while i < n
        invariant 0 <= i <= n
        invariant Harvested(records, i) == Harvest(images, false)
      {
        var record := ItemRecord(items.value, i);
        assert record == records[i];
        if record.None? {
          assert Harvested(records, i + 1) == Harvest(images, true);
          HarvestStops(records, i + 1, n);
          return Rejected;
        }
        images := images + [record.value];
        i := i + 1;
      }
      return Fulfilled(Undefined);
    }
  }
}
