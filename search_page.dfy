/** The search results page: the `q` parameter gates a fetch of all hostels, whose names are
    filtered case-insensitively, and each result is drawn as a card. */
module SearchPage {
  import opened Wrappers
  import opened Text
  import opened Lists

  datatype Hostel = Hostel(
    id: string, name: string, price: int, description: string,
    photos: seq<string>, facilities: seq<string>)

  /** How `fetch('/api/hostels')` ended: an ok response with its array, a non-ok response,
      or a thrown error. */
  datatype FetchOutcome = OkResponse(data: seq<Hostel>) | NotOkResponse | FetchThrew

  /** `if (query)`: the parameter is present and not empty. */
  predicate Gate(query: Option<string>) {
    query.Some? && query.value != ""
  }

  predicate NameMatches(query: string, h: Hostel) {
    Includes(ToLower(h.name), ToLower(query))
  }

  function NameMatchesFn(query: string): Hostel -> bool {
    h => NameMatches(query, h)
  }

  /** The `hostels` state after the effect: without a query nothing is fetched and the
      list stays as it was; an ok response replaces it with the matching hostels; any other
      outcome leaves it. `outcome` is only consulted when a fetch is made. */
  function Results(query: Option<string>, outcome: FetchOutcome, previous: seq<Hostel>): (r: seq<Hostel>)
  {
    if Gate(query) && outcome.OkResponse? then Filter(NameMatchesFn(query.value), outcome.data)
    else previous
  }

  /** A null or empty query never filters; after an ok response the list holds exactly the
      hostels whose name contains the query, ignoring case, in response order. */
  lemma ResultsSpec(query: Option<string>, outcome: FetchOutcome, previous: seq<Hostel>)
    ensures !Gate(query) ==> Results(query, outcome, previous) == previous
    ensures outcome.OkResponse? && Gate(query) ==>
      && (forall h :: h in Results(query, outcome, previous) <==>
            h in outcome.data && Includes(ToLower(h.name), ToLower(query.value)))
      && IsSubsequence(Results(query, outcome, previous), outcome.data)
    ensures !outcome.OkResponse? ==> Results(query, outcome, previous) == previous
  {
    if Gate(query) && outcome.OkResponse? {
      forall h ensures h in Filter(NameMatchesFn(query.value), outcome.data) <==>
        h in outcome.data && NameMatches(query.value, h)
      {
        FilterMembership(NameMatchesFn(query.value), outcome.data, h);
      }
      FilterIsSubsequence(NameMatchesFn(query.value), outcome.data);
    }
  }

  /** The props handed to `HostelCard`. `image` is `None` where `photos[0]` is undefined. */
  datatype Card = Card(
    id: string, name: string, location: string, price: int, rating: real,
    image: Option<string>, facilities: seq<string>)

  function CardOf(h: Hostel): Card {
    Card(h.id, h.name, h.description, h.price, 4.5,
         if |h.photos| > 0 then Some(h.photos[0]) else None, h.facilities)
  }

  /** `hostels.map(...)`. */
  function Cards(hs: seq<Hostel>): (r: seq<Card>)
    ensures |r| == |hs|
  {
    seq(|hs|, i requires 0 <= i < |hs| => CardOf(hs[i]))
  }

  /** One card per hostel in the same order: the description stands in for the location,
      the first photo, if any, is the image, and every rating is 4.5. */
  lemma CardsSpec(hs: seq<Hostel>)
    ensures forall i :: 0 <= i < |hs| ==>
      var c := Cards(hs)[i];
      && c.id == hs[i].id && c.name == hs[i].name && c.price == hs[i].price
      && c.location == hs[i].description && c.rating == 4.5
      && c.facilities == hs[i].facilities
      && (c.image.Some? <==> |hs[i].photos| > 0)
      && (c.image.Some? ==> c.image.value == hs[i].photos[0])
  {
  }
}
