/** The Snipe-IT REST calls the scripts issue, and the server's answers. */
module Api {
  import opened PyJson

  /** One request, named by what it asks for. */
  datatype Call =
    | GetAssets(user: Json)                       // GET  /users/{id}/assets
    | GetAccessories(user: Json)                  // GET  /users/{id}/accessories
    | GetCheckedOut(accessory: Json)              // GET  /accessories/{id}/checkedout
    | CheckIn(pivot: Json)                        // POST /accessories/{pivot}/checkin
    | CheckOut(accessory: Json, assignedTo: Json) // POST /accessories/{id}/checkout, {"assigned_to": ...}

  /** What `requests` hands back: a response with a body, or an exception
      (connection refused, timeout, ...). */
  datatype Reply = Failed | Replied(content: string)

  /** The server, as a function from request to reply. */
  type Server = Call -> Reply

  /** `getjson` of a reply: the body of a response is parsed, a failed
      request has already raised. */
  function ReplyJson(r: Reply, host: Host): (j: Result<Json>)
    ensures r.Failed? ==> j == Err(RequestError)
    ensures r.Replied? ==> j == GetJson(Response(r.content), host)
  {
    match r
    case Failed => Err(RequestError)
    case Replied(c) => GetJson(Response(c), host)
  }

  /** The records a Snipe-IT listing holds: `getjson`, then `"rows" in json`,
      then `json["rows"]` and iteration. None when a step raises or the key is
      absent: the scripts treat both alike. */
  function RowItems(parsed: Result<Json>): (r: Option<seq<Json>>)
    ensures parsed.Err? ==> r.None?
    ensures parsed.Ok? && parsed.value.JObj? && !HasKey(parsed.value.fields, "rows") ==> r.None?
    ensures parsed.Ok? && parsed.value.JObj? && HasKey(parsed.value.fields, "rows") ==>
              r == (var rows := Index(parsed.value, "rows").value;
                    if Iter(rows).Ok? then Some(Iter(rows).value) else None)
    ensures r.Some? ==> parsed.Ok? && parsed.value.JObj?
  {
    if parsed.Err? then None
    else
      var c := Contains(parsed.value, "rows");
      if c.Err? || !c.value then None
      else
        var rows := Index(parsed.value, "rows");
        if rows.Err? then None
        else
          var it := Iter(rows.value);
          if it.Err? then None else Some(it.value)
  }
}
