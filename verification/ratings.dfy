/** Writing and reading a user's Trakt ratings (src/trakt.js): the single-item
    payload posted to `/sync/ratings` and the first-match scan over the list
    returned by `/sync/ratings/{movies|shows}`. */
module Ratings {
  import opened Wrappers
  import opened TokenStore
  import opened Credentials

  const NO_TOKEN: string := "No token for user"

  /** The two rating lists of the remote API. */
  datatype MediaList = Movies | Shows
  {
    /** The payload key and the path segment naming the list. */
    function Name(): (name: string) {
      match this
      case Movies => "movies"
      case Shows => "shows"
    }
  }

  /** `type === "movie"` selects the movies list; every other type string,
      "series" included, selects the shows list. */
  function ListFor(mediaType: string): (list: MediaList)
    ensures list == Movies <==> mediaType == "movie"
  {
    if mediaType == "movie" then Movies else Shows
  }

  /** One `{ids: {imdb}, rating}` entry of a rating payload. */
  datatype RatingEntry = RatingEntry(imdb: string, rating: int)

  /** A payload object with exactly one key, `list.Name()`, holding `entries`. */
  datatype RatingPayload = RatingPayload(list: MediaList, entries: seq<RatingEntry>)

  /** The payload `postRating` posts: one entry under `movies` or `shows`, the
      rating forwarded as given, with no range check. */
  function PayloadFor(mediaType: string, imdbId: string, rating: int): (p: RatingPayload)
    ensures p.list == Movies <==> mediaType == "movie"
    ensures p.list.Name() == (if mediaType == "movie" then "movies" else "shows")
    ensures p.entries == [RatingEntry(imdbId, rating)]
  {
    RatingPayload(ListFor(mediaType), [RatingEntry(imdbId, rating)])
  }

  /** The write request: the bearer token taken from the record and the payload. */
  datatype RatingRequest = RatingRequest(accessToken: Option<string>, payload: RatingPayload)

  /** The listing request: the bearer token and the list read. */
  datatype ListRequest = ListRequest(accessToken: Option<string>, list: MediaList)

  /** A parsed response body: its `error` field and its `JSON.stringify` text. */
  datatype ApiBody = ApiBody(error: Option<string>, json: string)

  datatype ApiResponse = ApiResponse(ok: bool, body: ApiBody)

  /** The `ids` object of a listed item, reduced to the `imdb` id compared here. */
  datatype Ids = Ids(imdb: Option<string>)

  /** A `movie` or `show` object of a listed item. */
  datatype Media = Media(ids: Option<Ids>)

  /** One element of the ratings list. */
  datatype RatedItem = RatedItem(movie: Option<Media>, show: Option<Media>, rating: int)

  datatype ListingResponse = ListingResponse(ok: bool, items: seq<RatedItem>)

  /** `item.movie?.ids || item.show?.ids || {}`: the movie's ids when present,
      else the show's, else an empty ids object. */
  function IdsOf(item: RatedItem): (ids: Ids)
    ensures item.movie.Some? && item.movie.value.ids.Some? ==> ids == item.movie.value.ids.value
    ensures !(item.movie.Some? && item.movie.value.ids.Some?) && item.show.Some? && item.show.value.ids.Some?
            ==> ids == item.show.value.ids.value
    ensures !(item.movie.Some? && item.movie.value.ids.Some?) && !(item.show.Some? && item.show.value.ids.Some?)
            ==> ids == Ids(None)
  {
    if item.movie.Some? && item.movie.value.ids.Some? then item.movie.value.ids.value
    else if item.show.Some? && item.show.value.ids.Some? then item.show.value.ids.value
    else Ids(None)
  }

  /** `ids.imdb === imdbId`. A match needs a movie or show carrying that IMDb id,
      and a movie's ids shadow the show's even when only the show's match. */
  predicate Matches(item: RatedItem, imdbId: string)
    ensures Matches(item, imdbId) ==>
              (item.movie.Some? && item.movie.value.ids == Some(Ids(Some(imdbId)))) ||
              (item.show.Some? && item.show.value.ids == Some(Ids(Some(imdbId))))
    ensures item.movie.Some? && item.movie.value.ids.Some? && item.movie.value.ids.value.imdb != Some(imdbId)
            ==> !Matches(item, imdbId)
  {
    IdsOf(item).imdb == Some(imdbId)
  }

  /** The rating of the first item whose ids match `imdbId`, if any. */
  function FirstRating(items: seq<RatedItem>, imdbId: string): (r: Option<int>)
    ensures r.Some? ==> exists i :: 0 <= i < |items| && Matches(items[i], imdbId) && items[i].rating == r.value
  {
    if items == [] then None
    else if Matches(items[0], imdbId) then Some(items[0].rating)
    else FirstRating(items[1..], imdbId)
  }

  /** The first matching item decides the result, whatever follows it. */
  lemma {:induction false} FirstRatingAt(items: seq<RatedItem>, imdbId: string, i: nat)
    requires i < |items| && Matches(items[i], imdbId)
    requires forall j :: 0 <= j < i ==> !Matches(items[j], imdbId)
    ensures FirstRating(items, imdbId) == Some(items[i].rating)
  {
    if i > 0 {
      assert !Matches(items[0], imdbId);
      FirstRatingAt(items[1..], imdbId, i - 1);
    }
  }

  /** No rating is found exactly when no item matches. */
  lemma {:induction false} FirstRatingNone(items: seq<RatedItem>, imdbId: string)
    ensures FirstRating(items, imdbId) == None <==> forall i :: 0 <= i < |items| ==> !Matches(items[i], imdbId)
  {
    if items != [] {
      FirstRatingNone(items[1..], imdbId);
      assert forall i :: 1 <= i < |items| ==> items[i] == items[1..][i - 1];
    }
  }

  /** The `for ... of` loop of `getUserRatingForItem`, returning at the first match. */
  method FindRating(items: seq<RatedItem>, imdbId: string) returns (r: Option<int>)
    ensures r == FirstRating(items, imdbId)
  {
    for i := 0 to |items|
      invariant forall j :: 0 <= j < i ==> !Matches(items[j], imdbId)
    {
      var ids := IdsOf(items[i]);
      if ids.imdb == Some(imdbId) {
        FirstRatingAt(items, imdbId, i);
        return Some(items[i].rating);
      }
    }
    FirstRatingNone(items, imdbId);
    return None;
  }

  /** How the remote list shows a submitted entry: under `movie` or `show`
      according to the list it was posted to. */
  function Listed(list: MediaList, entry: RatingEntry): (item: RatedItem) {
    var media := Some(Media(Some(Ids(Some(entry.imdb)))));
    match list
    case Movies => RatedItem(media, None, entry.rating)
    case Shows => RatedItem(None, media, entry.rating)
  }

  /** Write-then-read: once the list read for the same type shows the entry
      posted by `postRating`, and no earlier item matches, the lookup finds
      exactly the submitted rating. */
  lemma SubmittedRatingIsFound(mediaType: string, imdbId: string, rating: int, before: seq<RatedItem>, after: seq<RatedItem>)
    requires forall j :: 0 <= j < |before| ==> !Matches(before[j], imdbId)
    ensures var p := PayloadFor(mediaType, imdbId, rating);
            && p.list == ListFor(mediaType)
            && FirstRating(before + [Listed(p.list, p.entries[0])] + after, imdbId) == Some(rating)
  {
    var p := PayloadFor(mediaType, imdbId, rating);
    var items := before + [Listed(p.list, p.entries[0])] + after;
    assert items[|before|] == Listed(p.list, p.entries[0]);
    assert forall j :: 0 <= j < |before| ==> items[j] == before[j];
    FirstRatingAt(items, imdbId, |before|);
  }

  /** `postRating`: refreshes if needed, throws "No token for user" before building
      any payload when there is no record, otherwise posts the single-entry payload
      and returns the upstream body, or throws its `error` (else its JSON text). */
  method PostRating(store: Store, userId: string, mediaType: string, imdbId: string, rating: int,
                    nowMs: nat, refreshResp: TokenResponse, issuedMs: nat, writeLands: bool, resp: ApiResponse)
    returns (result: Result<ApiBody, string>, refreshRequest: Option<TokenRequest>, sent: Option<RatingRequest>)
    modifies store
    ensures var o := RefreshOutcome(old(store.Get(userId)), nowMs, refreshResp, issuedMs);
            && refreshRequest == o.request
            && store.entries == EntriesAfter(old(store.entries), userId, o.saved, writeLands)
            && store.saves == SavesAfter(old(store.saves), userId, o.saved)
            && match o.result
               case Failure(e) => result == Failure(e) && sent == None
               case Success(None) => result == Failure(NO_TOKEN) && sent == None
               case Success(Some(token)) =>
                 && sent == Some(RatingRequest(token.accessToken, PayloadFor(mediaType, imdbId, rating)))
                 && result == if resp.ok then Success(resp.body)
                              else Failure(ErrorMessage(resp.body.error, resp.body.json))
  {
    var token;
    token, refreshRequest := RefreshTokenIfNeeded(store, userId, nowMs, refreshResp, issuedMs, writeLands);
    if token.Failure? {
      return Failure(token.error), refreshRequest, None;
    }
    if token.value.None? {
      return Failure(NO_TOKEN), refreshRequest, None;
    }
    var accessToken := token.value.value.accessToken;
    var payload := PayloadFor(mediaType, imdbId, rating);
    sent := Some(RatingRequest(accessToken, payload));
    if !resp.ok {
      return Failure(ErrorMessage(resp.body.error, resp.body.json)), refreshRequest, sent;
    }
    result := Success(resp.body);
  }

  /** `getUserRatingForItem`: null when there is no record, when the listing is
      not ok, or when no item matches; otherwise the first match's rating.
      A failed refresh is thrown, not turned into null. */
  method GetUserRatingForItem(store: Store, userId: string, mediaType: string, imdbId: string,
                              nowMs: nat, refreshResp: TokenResponse, issuedMs: nat, writeLands: bool, resp: ListingResponse)
    returns (result: Result<Option<int>, string>, refreshRequest: Option<TokenRequest>, sent: Option<ListRequest>)
    modifies store
    ensures var o := RefreshOutcome(old(store.Get(userId)), nowMs, refreshResp, issuedMs);
            && refreshRequest == o.request
            && store.entries == EntriesAfter(old(store.entries), userId, o.saved, writeLands)
            && store.saves == SavesAfter(old(store.saves), userId, o.saved)
            && match o.result
               case Failure(e) => result == Failure(e) && sent == None
               case Success(None) => result == Success(None) && sent == None
               case Success(Some(token)) =>
                 && sent == Some(ListRequest(token.accessToken, ListFor(mediaType)))
                 && result == Success(if resp.ok then FirstRating(resp.items, imdbId) else None)
  {
    var token;
    token, refreshRequest := RefreshTokenIfNeeded(store, userId, nowMs, refreshResp, issuedMs, writeLands);
    if token.Failure? {
      return Failure(token.error), refreshRequest, None;
    }
    if token.value.None? {
      return Success(None), refreshRequest, None;
    }
    sent := Some(ListRequest(token.value.value.accessToken, ListFor(mediaType)));
    if !resp.ok {
      return Success(None), refreshRequest, sent;
    }
    var rating := FindRating(resp.items, imdbId);
    result := Success(rating);
  }
}
