# next-react-query user table, modelled in Dafny

The repository is a one-page Next.js demo: the `Home` page fetches five
random users per page from `https://randomuser.me/api/`, keeps them in a
react-query cache under the key `['market', page]`, and renders them as a
table with Prev / Next buttons. This project models the plain computation
inside that page, `src/pages/index.tsx`:

- `styles.dfy` (module `Styles`): the colour class of the age cell
  (`AgeValue`) and the capitalised label and colour of the gender cell
  (`GenderSetting`).
- `decimal.dfy` (module `Decimal`): the decimal text of an integer, which is
  what the template literal `${page}` inserts into the URL, with a reader
  that recovers the integer (used only to prove that the URL determines the
  page).
- `request.dfy` (module `Request`): the request URL of `getUser`, its
  failure on a response that is not ok, and the cache key of a page.
- `table.dfy` (module `Table`): the rows drawn for a successful fetch,
  numbered from 1, and the error notice drawn for a failed one.
- `pagination.dfy` (module `Pagination`): the `page` state with
  `nextPage` / `prevPage` as a class `Pager`, the Prev button disabled on
  page 1, and the page reached after any sequence of clicks.
- `wrappers.dfy` (module `Wrappers`): `Option` and `Result`.

The network is a parameter: `GetUser` takes `fetch` as a function from URL
to a response reduced to its `ok` flag and its parsed body.

The page is not clamped at 1: `prevPage` subtracts one from any page, and
only the `disabled={page === 1}` attribute of the Prev button keeps page 1
from being left. The model follows the code: `Pager.PrevPage` subtracts one
and requires the button to be enabled, and `Pager.Click` / `Press` model a
click on the rendered button, where a disabled Prev does nothing.

## Model

| member | source | states |
|---|---|---|
| Styles.AgeColor | src/pages/index.tsx:50-57 | the age tone is success exactly when score < 35, danger exactly when score > 35, and the default dark exactly when score == 35 |
| Styles.AgeClass | src/pages/index.tsx:52-57 | the age cell's class string is `text-success fw-bold` iff score < 35, `text-danger fw-bold` iff score > 35, `text-dark fw-bold` iff score == 35, so exactly one is chosen |
| Styles.ClassNameInjective | src/pages/index.tsx:52-57 | two tones share a class string only if they are the same tone |
| Styles.AgeColorMonotone | src/pages/index.tsx:53-56 | as the age grows the tone only moves from success towards danger |
| Styles.Upper | src/pages/index.tsx:66 | upper-casing (on ASCII letters) never yields a lower-case letter, maps each lower-case letter to its capital and leaves every other character alone |
| Styles.GenderLabel | src/pages/index.tsx:66 | the label has the input's length, its first character is the upper-cased first input character, the rest equals `gender.slice(1)`; the empty string gives the empty string |
| Styles.GenderColor | src/pages/index.tsx:67-72 | the gender tone is warning exactly for "female", info exactly for "male", dark for every other string |
| Styles.LabelNeverColored | src/pages/index.tsx:66-72 | no capitalised label is "female" or "male": the colour must be (and is) decided on the raw string, since deciding it on the label would always give dark |
| Styles.GenderLabelIdempotent | src/pages/index.tsx:66 | capitalising a label again changes nothing |
| Styles.GenderLabelFixedPoints | src/pages/index.tsx:66 | the label equals its input exactly when the input is empty or does not start with a lower-case letter |
| Styles.KnownGenders | src/pages/index.tsx:65-72 | "female" shows as "Female" in warning, "male" as "Male" in info, and an already capitalised "Female" gets dark |
| Decimal.NatToString | src/pages/index.tsx:38 | the digits of a natural number are non-empty, all decimal digits, and start with '0' only for zero |
| Decimal.DigitsValueOfNatToString | src/pages/index.tsx:38 | reading the digits of n back gives n |
| Decimal.IntToString | src/pages/index.tsx:38 | the text of an integer starts with '-' exactly for negatives, followed by digits only |
| Decimal.ParseIntToString | src/pages/index.tsx:38 | reading the text of any integer back gives that integer |
| Decimal.IntToStringInjective | src/pages/index.tsx:38 | distinct integers have distinct texts |
| Request.RequestUrl | src/pages/index.tsx:37-38 | the URL starts with `https://randomuser.me/api/?page=`, ends with `&results=5`, and has exactly the page's decimal text in between |
| Request.PageOfRequestUrl | src/pages/index.tsx:38 | the page asked for can be read back from the URL |
| Request.RequestUrlInjective | src/pages/index.tsx:38 | two pages use the same URL exactly when they are the same page |
| Request.GetUser | src/pages/index.tsx:37-43 | the page's URL is fetched; the result is the error "Invalid URL" exactly when that response is not ok, and otherwise the response body |
| Request.CacheKey | src/pages/index.tsx:84 | a page's key carries the tag "market" and is the prefetched key `['market', 1]` exactly for page 1 |
| Request.CacheKeyInjective | src/pages/index.tsx:84 | different pages have different cache keys |
| Table.Rows | src/pages/index.tsx:129-155 | one row per user, in order: row i shows the number i + 1, user i's email, first and last name, postcode, street number, capitalised gender label with its tone, age with its tone, and thumbnail |
| Table.RowsNumberedFromOne | src/pages/index.tsx:129-141 | n users show the numbers 1..n in order, and row i shows user i's email and the tones of user i's gender and age |
| Table.Body | src/pages/index.tsx:123-129 | a failed query shows the fixed error text and no rows; a successful one shows one row per result |
| Table.PageShown | src/pages/index.tsx:37-43 | the body drawn for one `getUser` outcome of a page: the error notice exactly when that response is not ok; otherwise its results, numbered 1..n |
| Pagination.Press | src/pages/index.tsx:165-175 | a click leaves the page unchanged exactly when it is Prev on page 1, adds one exactly when it is Next, and never leaves pages numbered from 1 |
| Pagination.RunStaysPositive | src/pages/index.tsx:92-97 | from any page >= 1, in particular the initial page 1, every sequence of clicks ends on a page >= 1 |
| Pagination.NextUnbounded | src/pages/index.tsx:92-94 | n clicks on Next from page p reach p + n, with no upper bound |
| Pagination.RunWithinReach | src/pages/index.tsx:92-97 | after k clicks the page is within k of where it started |
| Pagination.PrevUndoesNext | src/pages/index.tsx:92-97 | Prev undoes Next on every page >= 1, and Next undoes an enabled Prev |
| Pagination.InitialPageReadsPrefetch | src/pages/index.tsx:82-84 | the initial page `useState(1)` reads the key `['market', 1]` that the build-time prefetch (line 33) fills, and the prefetch's argument-less `getUser()` fetched that page's URL |
| Pagination.Pager.constructor | src/pages/index.tsx:82 | the page starts at 1 |
| Pagination.Pager.Key | src/pages/index.tsx:84 | the query key of the current page is `['market', page]` |
| Pagination.Pager.NextPage | src/pages/index.tsx:92-94 | the page becomes the old page + 1, and stays >= 1 |
| Pagination.Pager.PrevPage | src/pages/index.tsx:95-97 | with Prev enabled, the page becomes the old page - 1 (no clamp of its own) and stays >= 1 |
| Pagination.Pager.Click | src/pages/index.tsx:165-175 | a button click moves the page as `Press` says, and keeps it >= 1 |

## Left out

- `fetch` and `res.json()` (src/pages/index.tsx:39, :43): network I/O. The response is an abstract `Response(ok, body)` returned by the `fetch` parameter; transport failures and malformed JSON are not modelled.
- react-query (`useQuery`, `staleTime`, `refetchInterval`, de-duplication, `prefetchQuery`, `dehydrate`, `Hydrate`): library code driven by timers and asynchronous events. Only the cache key is modelled; the loading state (neither success nor error, when nothing is drawn), the "Loading Stale .." indicator and retained stale data are not.
- `Intl.NumberFormat('id-Id')` (src/pages/index.tsx:46-48, :51): locale formatting by a foreign library. Rows keep the raw postcode, street number and age as numbers; their formatted text is not modelled, only the age's colour.
- Styles.Upper: only the ASCII letters a-z are upper-cased. JavaScript's `toUpperCase` also maps other scripts and can turn one character into two ('ß' becomes "SS"), in which case the label is longer than its input.
- Styles.AgeColor: the score is an integer; JavaScript numbers may also be fractional or NaN (NaN would get dark).
- Decimal.IntToString: JavaScript writes numbers of magnitude 10^21 or more in exponent form and loses precision above 2^53; the model's pages are unbounded integers written digit by digit.
- Pagination.Pager.NextPage: the page is an unbounded integer; in the source the page is a floating-point number, and once it reaches 2^53 adding one rounds back to 2^53, so it stays there.
- Decimal.ParseInt and Request.PageOfUrl have no counterpart in the source: they are reference inverses that state what the URL encodes.
- Table.PageShown: the query outcome is taken to be one `getUser` call, with `fetch` a fixed function of the URL (the same response for every fetch of a page). react-query's retries, its 3000 ms refetches and the `isError` / `isSuccess` flags it derives from them are not modelled, and randomuser.me returns different users on every call.
- JSX rendering, `Head`, table markup, the avatar image and the page-number indicator: user interface.
- `src/pages/_app.tsx`: provider and hydration wiring with no logic of its own.
