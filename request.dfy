/** `getUser`: the request URL for a page of users, the not-ok failure, and
    the react-query cache key the page is stored under. */
module Request {
  import opened Wrappers
  import opened Decimal

  /** The part of the URL before the page number. */
  const Endpoint := "https://randomuser.me/api/?page="
  /** The part of the URL after the page number: a fixed batch of five users. */
  const BatchQuery := "&results=5"
  /** The page `getUser` asks for when called without an argument. */
  const DefaultPage := 1
  /** The message of the error thrown on a response that is not ok. */
  const FetchError := "Invalid URL"

  /** The URL requested for a page: the endpoint, the page's decimal text,
      then the fixed batch size. */
  function RequestUrl(page: int): (url: string)
    ensures |url| == |Endpoint| + |IntToString(page)| + |BatchQuery|
    ensures url[..|Endpoint|] == Endpoint
    ensures url[|url| - |BatchQuery|..] == BatchQuery
    ensures url[|Endpoint|..|url| - |BatchQuery|] == IntToString(page)
  {
    Endpoint + IntToString(page) + BatchQuery
  }

  /** The page a request URL asks for: the inverse of RequestUrl. */
  function PageOfUrl(url: string): Option<int>
  {
    if |url| >= |Endpoint| + |BatchQuery|
       && url[..|Endpoint|] == Endpoint
       && url[|url| - |BatchQuery|..] == BatchQuery
    then ParseInt(url[|Endpoint|..|url| - |BatchQuery|])
    else None
  }

  /** The URL carries its page: reading it back gives the page requested. */
  lemma PageOfRequestUrl(page: int)
    ensures PageOfUrl(RequestUrl(page)) == Some(page)
  {
    ParseIntToString(page);
  }

  /** Two pages are fetched from the same URL only if they are the same page. */
  lemma RequestUrlInjective(p: int, q: int)
    ensures RequestUrl(p) == RequestUrl(q) <==> p == q
  {
    PageOfRequestUrl(p);
    PageOfRequestUrl(q);
  }

  /** What `fetch` resolves to, reduced to the `ok` flag and the parsed body. */
  datatype Response<B> = Response(ok: bool, body: B)

  /** `getUser(page)`: fetch the page's URL; a response that is not ok fails
      with "Invalid URL", otherwise the body is the result. The network is the
      parameter `fetch`, a function from URL to response. */
  function GetUser<B>(page: int, fetch: string -> Response<B>): (r: Result<B, string>)
    ensures r.Failure? <==> !fetch(RequestUrl(page)).ok
    ensures r.Failure? ==> r.error == FetchError
    ensures r.Success? ==> r.value == fetch(RequestUrl(page)).body
  {
    var res := fetch(RequestUrl(page));
    if !res.ok then Failure(FetchError) else Success(res.body)
  }

  /** The resource tag of every cache key on the page. */
  const Resource := "market"

  /** A react-query key: the resource tag and the page number. */
  datatype QueryKey = QueryKey(resource: string, page: int)

  /** The key the prefetch at build time fills, `['market', 1]`. */
  const PrefetchKey := QueryKey(Resource, 1)

  /** The key the page queries for its current page, `['market', page]`. */
  function CacheKey(page: int): (k: QueryKey)
    ensures k.resource == Resource
    ensures CacheKey(page) == PrefetchKey <==> page == 1
  {
    QueryKey(Resource, page)
  }

  /** Every page has its own cache entry. */
  lemma CacheKeyInjective(p: int, q: int)
    ensures CacheKey(p) == CacheKey(q) <==> p == q
  {
  }
}
