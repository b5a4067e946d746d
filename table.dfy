/** The body of the user table: one row per user of a successful fetch,
    numbered from 1, or the fixed error message when the fetch failed. */
module Table {
  import opened Wrappers
  import opened Styles
  import opened Request

  /** One user record of the API's `results` list, reduced to the fields the
      table shows. */
  datatype User = User(
    gender: string,
    first: string,
    last: string,
    age: int,
    streetNumber: int,
    postcode: int,
    email: string,
    thumbnail: string)

  /** The parsed JSON body `{ results: [...] }`. */
  datatype Payload = Payload(results: seq<User>)

  /** One table row as displayed. The postcode, street number and age are
      kept as numbers; their locale formatting is not part of this model. */
  datatype Row = Row(
    number: int,
    email: string,
    first: string,
    last: string,
    postcode: int,
    streetNumber: int,
    genderLabel: string,
    genderColor: Color,
    age: int,
    ageColor: Color,
    thumbnail: string)

  /** The row drawn for the user at 0-based position `index` of the list. */
  function RenderRow(index: nat, u: User): Row
  {
    Row(index + 1, u.email, u.first, u.last, u.postcode, u.streetNumber,
        GenderLabel(u.gender), GenderColor(u.gender), u.age, AgeColor(u.age), u.thumbnail)
  }

  /** `results.map((user, index) => <tr>…</tr>)`. */
  function Rows(users: seq<User>): (rows: seq<Row>)
    ensures |rows| == |users|
    ensures forall i :: 0 <= i < |users| ==>
      var r, u := rows[i], users[i];
      r.number == i + 1 && r.email == u.email && r.first == u.first && r.last == u.last &&
      r.postcode == u.postcode && r.streetNumber == u.streetNumber &&
      r.genderLabel == GenderLabel(u.gender) && r.genderColor == GenderColor(u.gender) &&
      r.age == u.age && r.ageColor == AgeColor(u.age) && r.thumbnail == u.thumbnail
  {
    seq(|users|, i requires 0 <= i < |users| => RenderRow(i, users[i]))
  }

  /** The numbers 1, 2, …, n in order. */
  function OneTo(n: nat): (r: seq<int>)
    ensures |r| == n
  {
    if n == 0 then [] else OneTo(n - 1) + [n]
  }

  lemma {:induction false} OneToAt(n: nat, i: nat)
    requires i < n
    ensures OneTo(n)[i] == i + 1
  {
    if i < n - 1 {
      OneToAt(n - 1, i);
    }
  }

  function Numbers(rows: seq<Row>): seq<int>
  {
    seq(|rows|, i requires 0 <= i < |rows| => rows[i].number)
  }

  /** n users are shown numbered 1..n in order, each row showing its own
      user's data with the colour rules applied to that user. */
  lemma RowsNumberedFromOne(users: seq<User>)
    ensures Numbers(Rows(users)) == OneTo(|users|)
    ensures forall i :: 0 <= i < |users| ==>
      Rows(users)[i].email == users[i].email &&
      Rows(users)[i].genderColor == GenderColor(users[i].gender) &&
      Rows(users)[i].ageColor == AgeColor(users[i].age)
  {
    var n := |users|;
    var numbers := Numbers(Rows(users));
    forall i | 0 <= i < n
      ensures numbers[i] == OneTo(n)[i]
    {
      OneToAt(n, i);
    }
  }

  /** The fixed text shown instead of the rows when the query failed. */
  const ErrorText := "There was an error processing your request .."

  datatype TableBody = ErrorNotice(message: string) | UserRows(rows: seq<Row>)

  /** What the table body shows for the query's outcome. */
  function Body(outcome: Result<Payload, string>): (b: TableBody)
    ensures b.ErrorNotice? <==> outcome.Failure?
    ensures b.ErrorNotice? ==> b.message == ErrorText
    ensures outcome.Success? ==> b.UserRows? && |b.rows| == |outcome.value.results|
  {
    match outcome
    case Failure(_) => ErrorNotice(ErrorText)
    case Success(p) => UserRows(Rows(p.results))
  }

  /** From URL to screen: a page whose response is not ok shows the error
      notice; otherwise its results are shown as rows numbered 1..n. */
  lemma PageShown(page: int, fetch: string -> Response<Payload>)
    ensures Body(GetUser(page, fetch)).ErrorNotice? <==> !fetch(RequestUrl(page)).ok
    ensures fetch(RequestUrl(page)).ok ==>
      Body(GetUser(page, fetch)) == UserRows(Rows(fetch(RequestUrl(page)).body.results)) &&
      Numbers(Body(GetUser(page, fetch)).rows) == OneTo(|fetch(RequestUrl(page)).body.results|)
  {
    RowsNumberedFromOne(fetch(RequestUrl(page)).body.results);
  }
}
