/** Choosing which users to process (snipeit_inv_sign.py), resolving the
    sender and receiver (transfer.py), and the e-mail fallback. */
module Selection {
  import opened PyText
  import opened PyJson

  /** One row of the users frame: the `id`, `name` and `email` columns. A key
      missing from the API record reads as JNull (pandas' NaN). */
  datatype UserRecord = UserRecord(id: Json, name: Json, email: Json)

  /** The value the frame is filtered with: an `int` after conversion, or the text. */
  datatype Query = ById(n: int) | ByText(s: string)

  /** The prompt's answer after `strip()`; nothing left means "all users". */
  function InputQuery(raw: string): (r: Option<string>)
    ensures r.None? <==> AllSpace(raw)
    ensures r.Some? ==> r.value == Strip(raw) && r.value != []
  {
    StripEmptyIffAllSpace(raw);
    var s := Strip(raw);
    if s == [] then None else Some(s)
  }

  /** `if str(q).isdigit(): q = int(q)`. */
  function ParseQuery(s: string): (q: Query)
    ensures q.ById? <==> IsDigits(s)
    ensures q.ByText? ==> q.s == s
    ensures q.ById? ==> q.n == DigitsValue(s)
  {
    if IsDigits(s) then ById(DigitsValue(s)) else ByText(s)
  }

  /** `column.isin([q])` for one cell: an int matches only an int, text only text. */
  predicate CellIs(cell: Json, q: Query) {
    match q
    case ById(n) => cell == JInt(n)
    case ByText(s) => cell == JStr(s)
  }

  /** The value a query is compared with: an `int`, or a `str`. */
  function QueryValue(q: Query): Json {
    match q
    case ById(n) => JInt(n)
    case ByText(s) => JStr(s)
  }

  /** The row filter `id.isin([q]) | name.isin([q]) | email.isin([q])`. */
  predicate Matches(u: UserRecord, q: Query)
    ensures Matches(u, q) <==> QueryValue(q) in [u.id, u.name, u.email]
  {
    CellIs(u.id, q) || CellIs(u.name, q) || CellIs(u.email, q)
  }

  /** The rows of `users` that match `q`, in frame order. */
  function Filter(users: seq<UserRecord>, q: Query): (r: seq<UserRecord>)
    ensures |r| <= |users|
    ensures forall u :: u in r <==> u in users && Matches(u, q)
    ensures forall u :: u in r ==> Matches(u, q)
  {
    if users == [] then []
    else
      var rest := Filter(users[1..], q);
      assert forall u :: u in users <==> u == users[0] || u in users[1..];
      if Matches(users[0], q) then [users[0]] + rest else rest
  }

  /** The first row kept is the first matching row of the frame. */
  lemma {:induction false} FilterFirst(users: seq<UserRecord>, q: Query)
    requires Filter(users, q) != []
    ensures exists j :: 0 <= j < |users| && users[j] == Filter(users, q)[0] && Matches(users[j], q) &&
                        forall i :: 0 <= i < j ==> !Matches(users[i], q)
  {
    if !Matches(users[0], q) {
      FilterFirst(users[1..], q);
      var j :| 0 <= j < |users| - 1 && users[1..][j] == Filter(users[1..], q)[0] && Matches(users[1..][j], q) &&
               forall i :: 0 <= i < j ==> !Matches(users[1..][i], q);
      assert users[j + 1] == Filter(users, q)[0];
      assert forall i :: 0 <= i < j + 1 ==> !Matches(users[i], q) by {
        forall i | 0 <= i < j + 1 ensures !Matches(users[i], q) {
          if i > 0 { assert users[i] == users[1..][i - 1]; }
        }
      }
    } else {
      assert users[0] == Filter(users, q)[0];
    }
  }

  /** Index of the last matching row, if any. */
  function LastMatch(users: seq<UserRecord>, q: Query): (r: Option<nat>)
    ensures r.Some? ==> r.value < |users| && Matches(users[r.value], q) &&
                        forall i :: r.value < i < |users| ==> !Matches(users[i], q)
    ensures r.None? ==> forall i :: 0 <= i < |users| ==> !Matches(users[i], q)
  {
    if users == [] then None
    else if Matches(users[|users| - 1], q) then Some(|users| - 1)
    else LastMatch(users[..|users| - 1], q)
  }

  /** The last row kept is the last matching row of the frame. */
  lemma {:induction false} FilterLast(users: seq<UserRecord>, q: Query)
    ensures var r := Filter(users, q);
            (r == []) == LastMatch(users, q).None? &&
            (r != [] ==> r[|r| - 1] == users[LastMatch(users, q).value])
  {
    if users != [] {
      var init, last := users[..|users| - 1], users[|users| - 1];
      assert users == init + [last];
      FilterSnoc(init, last, q);
      if !Matches(last, q) {
        FilterLast(init, q);
      }
    }
  }

  /** Filtering a frame with one more row at the end. */
  lemma {:induction false} FilterSnoc(users: seq<UserRecord>, u: UserRecord, q: Query)
    ensures Filter(users + [u], q) == Filter(users, q) + (if Matches(u, q) then [u] else [])
    decreases |users|
  {
    if users != [] {
      assert (users + [u])[1..] == users[1..] + [u];
      FilterSnoc(users[1..], u, q);
    }
  }

  /** Lines 363-369 of snipeit_inv_sign.py: no query keeps every user,
      otherwise the frame is filtered with the (possibly converted) query. */
  function SelectUsers(users: seq<UserRecord>, query: Option<string>): (r: seq<UserRecord>)
    ensures query.None? || query.value == "" ==> r == users
    ensures query.Some? && query.value != "" ==>
              forall u :: u in r <==> u in users && Matches(u, ParseQuery(query.value))
  {
    if query.None? || query.value == "" then users else Filter(users, ParseQuery(query.value))
  }

  /** A query made of digits can only match through a numeric cell: with text
      names and e-mails, it selects exactly the users with that id. */
  lemma DigitQueryMatchesById(u: UserRecord, s: string)
    requires IsDigits(s) && u.name.JStr? && u.email.JStr?
    ensures Matches(u, ParseQuery(s)) <==> u.id == JInt(DigitsValue(s))
  {
  }

  /** The truth value of `pd.isnull(items)` for a list: numpy tests the
      element-wise array, which is true for one null element, false for no
      element or one other element, and raises ValueError for several. A
      list holding one list is tested through that inner list. */
  function NullArrayTruth(items: seq<Json>): (r: Result<bool>)
    ensures |items| >= 2 ==> r == Err(ValueError)
    ensures items == [] ==> r == Ok(false)
    ensures |items| == 1 && !items[0].JArr? ==> r == Ok(items[0].JNull?)
    ensures r.Err? ==> r.error == ValueError
  {
    if |items| >= 2 then Err(ValueError)
    else if items == [] then Ok(false)
    else match items[0]
      case JNull => Ok(true)
      case JArr(inner) => NullArrayTruth(inner)
      case _ => Ok(false)
  }

  /** Lines 376-378: a missing e-mail, or one that strips to nothing, becomes
      the configured placeholder; any other text is kept as it is. For a list,
      `pd.isnull` is element-wise (see NullArrayTruth); any other value
      reaches `.strip()`, which raises AttributeError. */
  function EmailOrPlaceholder(email: Json, noEmail: string): (r: Result<string>)
    ensures email.JNull? ==> r == Ok(noEmail)
    ensures email.JStr? && AllSpace(email.s) ==> r == Ok(noEmail)
    ensures email.JStr? && !AllSpace(email.s) ==> r == Ok(email.s)
    ensures email.JInt? || email.JBool? || email.JObj? ==> r == Err(AttributeError)
    ensures email.JArr? && email.items == [JNull] ==> r == Ok(noEmail)
    ensures email.JArr? && |email.items| >= 2 ==> r == Err(ValueError)
    ensures email.JArr? && (email.items == [] || (|email.items| == 1 && !email.items[0].JArr? && !email.items[0].JNull?)) ==>
              r == Err(AttributeError)
    ensures r.Ok? ==> r.value == noEmail || (email.JStr? && r.value == email.s)
  {
    match email
    case JNull => Ok(noEmail)
    case JStr(s) =>
      StripEmptyIffAllSpace(s);
      if Strip(s) == "" then Ok(noEmail) else Ok(s)
    case JArr(items) =>
      (match NullArrayTruth(items)
       case Err(e) => Err(e)
       case Ok(isNull) => if isNull then Ok(noEmail) else Err(AttributeError))
    case _ => Err(AttributeError)
  }
}
