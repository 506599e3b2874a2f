/** transfer.py: move every accessory checked out to a sender over to a
    receiver. The sender is the first user matching the first query, the
    receiver the last user matching the second; after a confirmation, each
    accessory of each matching sender row that is checked out to that row's
    id is checked in and then checked out to the receiver. The requests the
    script issues form a trace. */
module Transfer {
  import opened PyText
  import opened PyJson
  import opened Selection
  import opened Api

  // ------------------------------------------------------ who and whether

  /** Lines 49-53 (and 57-61): the rows matching a stripped query. */
  function Matching(users: seq<UserRecord>, query: string): (r: seq<UserRecord>)
    ensures forall u :: u in r <==> u in users && Matches(u, ParseQuery(query))
  {
    Filter(users, ParseQuery(query))
  }

  /** Line 54: `sender.iloc[0]['name']`. */
  function SenderName(senders: seq<UserRecord>): (r: Result<Json>)
    ensures r.Err? <==> senders == []
    ensures r.Err? ==> r.error == IndexError
    ensures r.Ok? ==> r.value == senders[0].name
  {
    if senders == [] then Err(IndexError) else Ok(senders[0].name)
  }

  /** Lines 62-65 in closed form: after the loop, the id and name of the last
      row; with no row, `receiver_name` was never bound. */
  function ReceiverOf(receivers: seq<UserRecord>): Result<(Json, Json)> {
    if receivers == [] then Err(UnboundLocalError)
    else Ok((receivers[|receivers| - 1].id, receivers[|receivers| - 1].name))
  }

  /** Lines 61-65: the loop that overwrites `receiver_id` and `receiver_name`. */
  method ResolveReceiver(users: seq<UserRecord>, query: string) returns (r: Result<(Json, Json)>)
    ensures r == ReceiverOf(Matching(users, query))
  {
    var receivers := Matching(users, query);
    var receiverId: Option<Json> := None;
    var receiverName: Option<Json> := None;
    var i := 0;
    while i < |receivers|
      invariant 0 <= i <= |receivers|
      invariant receiverId.None? <==> i == 0
      invariant receiverName.None? <==> i == 0
      invariant i > 0 ==> receiverId == Some(receivers[i - 1].id) && receiverName == Some(receivers[i - 1].name)
    {
      receiverId := Some(receivers[i].id);
      receiverName := Some(receivers[i].name);
      i := i + 1;
    }
    if receiverName.None? {
      return Err(UnboundLocalError);
    }
    r := Ok((receiverId.value, receiverName.value));
  }

  /** The receiver is the last user of the frame that matches the query. */
  lemma ReceiverIsLastMatch(users: seq<UserRecord>, query: string)
    ensures var r := ReceiverOf(Matching(users, query));
            var last := LastMatch(users, ParseQuery(query));
            (r.Err? <==> last.None?) &&
            (r.Ok? ==> r.value == (users[last.value].id, users[last.value].name))
  {
    FilterLast(users, ParseQuery(query));
  }

  /** The sender is the first user of the frame that matches the query. */
  lemma SenderIsFirstMatch(users: seq<UserRecord>, query: string)
    requires SenderName(Matching(users, query)).Ok?
    ensures exists j :: 0 <= j < |users| && Matches(users[j], ParseQuery(query)) &&
                        SenderName(Matching(users, query)).value == users[j].name &&
                        forall i :: 0 <= i < j ==> !Matches(users[i], ParseQuery(query))
  {
    FilterFirst(users, ParseQuery(query));
  }

  /** Line 68: `confirm.lower() in ['y', 'yes']`. */
  predicate Confirmed(answer: string) {
    AsciiLower(answer) == "y" || AsciiLower(answer) == "yes"
  }

  predicate IsLetter(c: char, lower: char) {
    c == lower || c as int == lower as int - 32
  }

  /** The accepted answers are exactly "y" and "yes" in any mix of cases. */
  lemma ConfirmedIff(answer: string)
    ensures Confirmed(answer) <==>
              (|answer| == 1 && IsLetter(answer[0], 'y')) ||
              (|answer| == 3 && IsLetter(answer[0], 'y') && IsLetter(answer[1], 'e') && IsLetter(answer[2], 's'))
  {
    var l := AsciiLower(answer);
    if |answer| == 1 {
      assert l == "y" <==> l[0] == 'y';
    } else if |answer| == 3 {
      assert l == "yes" <==> l[0] == 'y' && l[1] == 'e' && l[2] == 's';
    }
  }

  // -------------------------------------------------- one accessory unit

  /** Line 127: `[user for user in checked_out_user if user['id'] == user_id]`;
      an entry without an id raises, wherever it stands. */
  function MatchingEntries(entries: seq<Json>, userId: Json): (r: Result<seq<Json>>)
    ensures r.Ok? <==> forall k :: 0 <= k < |entries| ==> Index(entries[k], "id").Ok?
    ensures r.Ok? ==> forall e :: e in r.value <==> e in entries && Index(e, "id") == Ok(userId)
    decreases |entries|
  {
    if entries == [] then Ok([])
    else
      var id :- Index(entries[0], "id");
      var rest :- MatchingEntries(entries[1..], userId);
      assert forall k :: 1 <= k < |entries| ==> entries[k] == entries[1..][k - 1];
      assert forall e :: e in entries <==> e == entries[0] || e in entries[1..];
      Ok(if id == userId then [entries[0]] + rest else rest)
  }

  /** The entry `filtered_checked_out_user[0]` is the first entry checked out
      to the user. */
  lemma {:induction false} FirstMatchingEntry(entries: seq<Json>, userId: Json)
    requires MatchingEntries(entries, userId).Ok? && MatchingEntries(entries, userId).value != []
    ensures exists j :: 0 <= j < |entries| && entries[j] == MatchingEntries(entries, userId).value[0] &&
                        Index(entries[j], "id") == Ok(userId) &&
                        forall i :: 0 <= i < j ==> Index(entries[i], "id") != Ok(userId)
    decreases |entries|
  {
    var m := MatchingEntries(entries, userId).value;
    if Index(entries[0], "id") != Ok(userId) {
      FirstMatchingEntry(entries[1..], userId);
      var j :| 0 <= j < |entries| - 1 && entries[1..][j] == MatchingEntries(entries[1..], userId).value[0] &&
               Index(entries[1..][j], "id") == Ok(userId) &&
               forall i :: 0 <= i < j ==> Index(entries[1..][i], "id") != Ok(userId);
      assert entries[j + 1] == m[0];
      forall i | 0 <= i < j + 1 ensures Index(entries[i], "id") != Ok(userId) {
        if i > 0 { assert entries[i] == entries[1..][i - 1]; }
      }
    }
  }

  /** Lines 124-131: the pivot of the checked-out record of this user, None
      when no entry is checked out to them, or the exception on the way. */
  function PivotOf(reply: Reply, userId: Json, host: Host): (r: Result<Option<Json>>)
    ensures reply.Failed? ==> r == Err(RequestError)
    ensures r.Ok? ==> CheckedOutEntries(reply, host).Ok? &&
                      MatchingEntries(CheckedOutEntries(reply, host).value, userId).Ok?
    ensures r == Ok(None) ==>
              forall e :: e in CheckedOutEntries(reply, host).value ==> Index(e, "id") != Ok(userId)
  {
    var entries :- CheckedOutEntries(reply, host);
    var matching :- MatchingEntries(entries, userId);
    if matching == [] then Ok(None)
    else
      var p :- Index(matching[0], "assigned_pivot_id");
      Ok(Some(p))
  }

  /** A pivot found is the `assigned_pivot_id` of the first record checked
      out to the user. */
  lemma PivotIsFirstMatch(reply: Reply, userId: Json, host: Host)
    requires PivotOf(reply, userId, host).Ok? && PivotOf(reply, userId, host).value.Some?
    ensures var es := CheckedOutEntries(reply, host).value;
            exists j :: 0 <= j < |es| && Index(es[j], "id") == Ok(userId) &&
                        Index(es[j], "assigned_pivot_id") == Ok(PivotOf(reply, userId, host).value.value) &&
                        forall i :: 0 <= i < j ==> Index(es[i], "id") != Ok(userId)
  {
    FirstMatchingEntry(CheckedOutEntries(reply, host).value, userId);
  }

  /** Lines 124-126: the records of `GET /accessories/{id}/checkedout`. */
  function CheckedOutEntries(reply: Reply, host: Host): (r: Result<seq<Json>>)
    ensures r.Ok? ==> reply.Replied?
  {
    var j :- ReplyJson(reply, host);
    var rows :- Index(j, "rows");
    Iter(rows)
  }

  /** What one or more passes of the accessory loop leave: the requests
      issued, the `[name, id]` rows appended to `accessory_list`, and whether
      an exception ended the loop. */
  datatype Pass = Pass(calls: seq<Call>, listed: seq<(Json, Json)>, raised: bool)

  /** Lines 119-121: the unescaped name and the id of an accessory record. */
  function AccessoryEntry(acc: Json, host: Host): Result<(Json, Json)> {
    var id :- Index(acc, "id");
    var name :- Index(acc, "name");
    var text :- Unescape(name, host);
    Ok((text, id))
  }

  /** Lines 119-139: one pass of the accessory loop for the sender row
      `userId`, moving the unit to `receiverId`. */
  function AccessoryPass(acc: Json, userId: Json, receiverId: Json, server: Server, host: Host): (p: Pass)
    ensures AccessoryEntry(acc, host).Err? ==> p == Pass([], [], true)
    ensures AccessoryEntry(acc, host).Ok? ==>
              p.listed == [AccessoryEntry(acc, host).value] && 1 <= |p.calls| <= 3 &&
              p.calls[0] == GetCheckedOut(AccessoryEntry(acc, host).value.1)
  {
    match AccessoryEntry(acc, host)
    case Err(_) => Pass([], [], true)
    case Ok(entry) =>
      var id := entry.1;
      var get := GetCheckedOut(id);
      match PivotOf(server(get), userId, host)
      case Err(_) => Pass([get], [entry], true)
      case Ok(None) => Pass([get], [entry], false)
      case Ok(Some(p)) =>
        if server(CheckIn(p)).Failed? then Pass([get, CheckIn(p)], [entry], true)
        else Pass([get, CheckIn(p), CheckOut(id, receiverId)], [entry], server(CheckOut(id, receiverId)).Failed?)
  }

  /** The four traces a pass can leave: an accessory with no record checked
      out to the sender gets no POST at all; otherwise one check-in on the
      pivot of the first such record, then one check-out of the accessory to
      the receiver, unless a request fails before. */
  lemma AccessoryPassShape(acc: Json, userId: Json, receiverId: Json, server: Server, host: Host)
    ensures var p := AccessoryPass(acc, userId, receiverId, server, host);
            var e := AccessoryEntry(acc, host);
            (e.Err? ==> p.calls == []) &&
            (e.Ok? ==>
               var get := GetCheckedOut(e.value.1);
               var pivot := PivotOf(server(get), userId, host);
               (pivot != Ok(None) || p.calls == [get]) &&
               (pivot.Ok? && pivot.value.Some? ==>
                  p.calls == [get, CheckIn(pivot.value.value)] ||
                  p.calls == [get, CheckIn(pivot.value.value), CheckOut(e.value.1, receiverId)]) &&
               (!(pivot.Ok? && pivot.value.Some?) ==> p.calls == [get]))
  {
    var e := AccessoryEntry(acc, host);
    if e.Ok? {
      var get := GetCheckedOut(e.value.1);
      var pivot := PivotOf(server(get), userId, host);
      var p := AccessoryPass(acc, userId, receiverId, server, host);
      if pivot.Ok? && pivot.value.Some? {
        var checkIn := CheckIn(pivot.value.value);
        assert p.calls == (if server(checkIn).Failed? then [get, checkIn] else [get, checkIn, CheckOut(e.value.1, receiverId)]);
      } else {
        assert p.calls == [get];
      }
    }
  }

  /** Every check-out is immediately preceded by a check-in, which is
      preceded by the lookup of the same accessory's checked-out records,
      and every check-out is to the receiver. */
  predicate Paired(calls: seq<Call>, receiverId: Json) {
    forall i :: 0 <= i < |calls| && calls[i].CheckOut? ==>
      i >= 2 && calls[i - 1].CheckIn? && calls[i - 2] == GetCheckedOut(calls[i].accessory) &&
      calls[i].assignedTo == receiverId
  }

  lemma PairedAppend(a: seq<Call>, b: seq<Call>, receiverId: Json)
    requires Paired(a, receiverId) && Paired(b, receiverId)
    ensures Paired(a + b, receiverId)
  {
    var c := a + b;
    forall i | 0 <= i < |c| && c[i].CheckOut?
      ensures i >= 2 && c[i - 1].CheckIn? && c[i - 2] == GetCheckedOut(c[i].accessory) && c[i].assignedTo == receiverId
    {
      if i >= |a| {
        var k := i - |a|;
        assert c[i] == b[k];
        assert b[k].CheckOut?;
        assert c[i - 1] == b[k - 1] && c[i - 2] == b[k - 2];
      } else {
        assert c[i] == a[i] && c[i - 1] == a[i - 1] && c[i - 2] == a[i - 2];
      }
    }
  }

  lemma AccessoryPassPaired(acc: Json, userId: Json, receiverId: Json, server: Server, host: Host)
    ensures Paired(AccessoryPass(acc, userId, receiverId, server, host).calls, receiverId)
  {
    AccessoryPassShape(acc, userId, receiverId, server, host);
    var e := AccessoryEntry(acc, host);
    if e.Ok? {
      var pivot := PivotOf(server(GetCheckedOut(e.value.1)), userId, host);
      var pv := if pivot.Ok? && pivot.value.Some? then pivot.value.value else JNull;
      TracesPaired(e.value.1, pv, receiverId);
    }
  }

  /** The traces a pass can leave are all paired. */
  lemma TracesPaired(id: Json, pivot: Json, receiverId: Json)
    ensures Paired([], receiverId) && Paired([GetCheckedOut(id)], receiverId)
    ensures Paired([GetCheckedOut(id), CheckIn(pivot)], receiverId)
    ensures Paired([GetCheckedOut(id), CheckIn(pivot), CheckOut(id, receiverId)], receiverId)
  {
  }

  // ------------------------------------------------- the accessory loop

  /** Passes in sequence; the second starts where the first left off. */
  function Then(p: Pass, q: Pass): Pass {
    Pass(p.calls + q.calls, p.listed + q.listed, q.raised)
  }

  /** One pass per accessory record, as a function of the record. */
  function PassFn(userId: Json, receiverId: Json, server: Server, host: Host): Json -> Pass {
    acc => AccessoryPass(acc, userId, receiverId, server, host)
  }

  /** Passes over the records in order, until one raises. */
  function Passes(accs: seq<Json>, pass: Json -> Pass): Pass
    decreases |accs|
  {
    if accs == [] then Pass([], [], false)
    else if pass(accs[0]).raised then pass(accs[0])
    else Then(pass(accs[0]), Passes(accs[1..], pass))
  }

  /** Lines 118-139: the accessory loop of one sender row, until a pass raises. */
  function AccessoryLoop(accs: seq<Json>, userId: Json, receiverId: Json, server: Server, host: Host): Pass {
    Passes(accs, PassFn(userId, receiverId, server, host))
  }

  lemma {:induction false} PassesPaired(accs: seq<Json>, pass: Json -> Pass, receiverId: Json)
    requires forall a :: Paired(pass(a).calls, receiverId)
    ensures Paired(Passes(accs, pass).calls, receiverId)
    decreases |accs|
  {
    if accs != [] && !pass(accs[0]).raised {
      PassesPaired(accs[1..], pass, receiverId);
      PairedAppend(pass(accs[0]).calls, Passes(accs[1..], pass).calls, receiverId);
    }
  }

  lemma AccessoryLoopPaired(accs: seq<Json>, userId: Json, receiverId: Json, server: Server, host: Host)
    ensures Paired(AccessoryLoop(accs, userId, receiverId, server, host).calls, receiverId)
  {
    var f := PassFn(userId, receiverId, server, host);
    forall a ensures Paired(f(a).calls, receiverId) {
      AccessoryPassPaired(a, userId, receiverId, server, host);
    }
    PassesPaired(accs, f, receiverId);
  }

  /** A pass that does not raise has listed its record's `[name, id]`. */
  lemma PassListsEntry(acc: Json, userId: Json, receiverId: Json, server: Server, host: Host)
    requires !AccessoryPass(acc, userId, receiverId, server, host).raised
    ensures AccessoryEntry(acc, host).Ok?
    ensures AccessoryPass(acc, userId, receiverId, server, host).listed == [AccessoryEntry(acc, host).value]
  {
  }

  lemma {:induction false} PassesListAll(accs: seq<Json>, pass: Json -> Pass, entry: Json -> (Json, Json))
    requires forall a :: !pass(a).raised ==> pass(a).listed == [entry(a)]
    requires !Passes(accs, pass).raised
    ensures |Passes(accs, pass).listed| == |accs|
    ensures forall k :: 0 <= k < |accs| ==> !pass(accs[k]).raised && Passes(accs, pass).listed[k] == entry(accs[k])
    decreases |accs|
  {
    if accs != [] {
      PassesListAll(accs[1..], pass, entry);
      var l := Passes(accs, pass).listed;
      assert l == [entry(accs[0])] + Passes(accs[1..], pass).listed;
      forall k | 1 <= k < |accs| ensures !pass(accs[k]).raised && l[k] == entry(accs[k]) {
        assert accs[k] == accs[1..][k - 1];
      }
    }
  }

  /** A loop that ends without an exception has listed `[name, id]` for every
      accessory, in API order. */
  lemma AccessoryLoopListsAll(accs: seq<Json>, userId: Json, receiverId: Json, server: Server, host: Host)
    requires !AccessoryLoop(accs, userId, receiverId, server, host).raised
    ensures var l := AccessoryLoop(accs, userId, receiverId, server, host).listed;
            |l| == |accs| &&
            forall k :: 0 <= k < |accs| ==> AccessoryEntry(accs[k], host) == Ok(l[k])
  {
    var f := PassFn(userId, receiverId, server, host);
    var entry := (a: Json) => if AccessoryEntry(a, host).Ok? then AccessoryEntry(a, host).value else (JNull, JNull);
    forall a | !f(a).raised ensures f(a).listed == [entry(a)] && AccessoryEntry(a, host).Ok? {
      PassListsEntry(a, userId, receiverId, server, host);
    }
    PassesListAll(accs, f, entry);
  }

  // ------------------------------------------------------- a sender row

  /** What a sender row contributes: its requests, the exception that ends
      the script if one escapes, and the `[name, id]` frame printed at line
      147 (None when the accessory listing was abandoned). */
  datatype SenderResult = SenderResult(calls: seq<Call>, crash: Option<Error>, listing: Option<seq<(Json, Json)>>)

  /** Lines 77-151 for one sender row. Line 80 (`html.unescape(user_name)`)
      and the two GET requests of lines 83 and 111 are outside any `try`.
      The asset block only prints, so it leaves nothing beyond its request. */
  function SenderPass(u: UserRecord, receiverId: Json, server: Server, host: Host): (s: SenderResult)
    ensures Unescape(u.name, host).Err? ==> s == SenderResult([], Some(Unescape(u.name, host).error), None)
    ensures Unescape(u.name, host).Ok? ==> |s.calls| >= 1 && s.calls[0] == GetAssets(u.id)
    ensures s.crash.None? ==> |s.calls| >= 2 && s.calls[..2] == [GetAssets(u.id), GetAccessories(u.id)]
    ensures s.listing.Some? ==> s.crash.None?
  {
    if Unescape(u.name, host).Err? then SenderResult([], Some(Unescape(u.name, host).error), None)
    else SenderRequests(u.id, ListingFn(PassFn(u.id, receiverId, server, host), host), server)
  }

  /** Lines 83-151: the two listings of one sender row, `listing` being what
      the `try` of lines 113-151 does with the accessories reply. */
  function SenderRequests(userId: Json, listing: Reply -> (seq<Call>, Option<seq<(Json, Json)>>), server: Server): SenderResult {
    if server(GetAssets(userId)).Failed? then SenderResult([GetAssets(userId)], Some(RequestError), None)
    else
      var got := [GetAssets(userId), GetAccessories(userId)];
      var reply := server(GetAccessories(userId));
      if reply.Failed? then SenderResult(got, Some(RequestError), None)
      else
        var t := listing(reply);
        SenderResult(got + t.0, None, t.1)
  }

  /** Lines 113-151: the `try` around the accessory listing of one sender
      row; whatever it raises is caught and printed. */
  function Listing(reply: Reply, pass: Json -> Pass, host: Host): (seq<Call>, Option<seq<(Json, Json)>>) {
    match RowItems(ReplyJson(reply, host))
    case None => ([], None)
    case Some(accs) =>
      var l := Passes(accs, pass);
      (l.calls, if l.raised then None else Some(l.listed))
  }

  /** The accessory listing, as a function of the reply. */
  function ListingFn(pass: Json -> Pass, host: Host): Reply -> (seq<Call>, Option<seq<(Json, Json)>>) {
    r => Listing(r, pass, host)
  }

  /** What the loop over sender rows does with one row. */
  function SenderFn(receiverId: Json, server: Server, host: Host): UserRecord -> SenderResult {
    u => SenderPass(u, receiverId, server, host)
  }

  /** Rows in order, until one lets an exception escape: the requests, the
      exception, and the listing of each row that got through. */
  function Senders(senders: seq<UserRecord>, step: UserRecord -> SenderResult): (seq<Call>, Option<Error>, seq<Option<seq<(Json, Json)>>>)
    decreases |senders|
  {
    if senders == [] then ([], None, [])
    else if step(senders[0]).crash.Some? then (step(senders[0]).calls, step(senders[0]).crash, [])
    else
      var rest := Senders(senders[1..], step);
      (step(senders[0]).calls + rest.0, rest.1, [step(senders[0]).listing] + rest.2)
  }

  /** Lines 76-153: the sender rows in order, until one raises. */
  function SendersLoop(senders: seq<UserRecord>, receiverId: Json, server: Server, host: Host): (seq<Call>, Option<Error>, seq<Option<seq<(Json, Json)>>>) {
    Senders(senders, SenderFn(receiverId, server, host))
  }

  lemma SenderPassPaired(u: UserRecord, receiverId: Json, server: Server, host: Host)
    ensures Paired(SenderPass(u, receiverId, server, host).calls, receiverId)
  {
    var reply := server(GetAccessories(u.id));
    if Unescape(u.name, host).Ok? && server(GetAssets(u.id)).Replied? && reply.Replied? &&
       RowItems(ReplyJson(reply, host)).Some? {
      var accs := RowItems(ReplyJson(reply, host)).value;
      AccessoryLoopPaired(accs, u.id, receiverId, server, host);
      PairedAppend([GetAssets(u.id), GetAccessories(u.id)], AccessoryLoop(accs, u.id, receiverId, server, host).calls, receiverId);
    }
  }

  lemma {:induction false} SendersPaired(senders: seq<UserRecord>, step: UserRecord -> SenderResult, receiverId: Json)
    requires forall u :: Paired(step(u).calls, receiverId)
    ensures Paired(Senders(senders, step).0, receiverId)
    decreases |senders|
  {
    if senders != [] && step(senders[0]).crash.None? {
      SendersPaired(senders[1..], step, receiverId);
      PairedAppend(step(senders[0]).calls, Senders(senders[1..], step).0, receiverId);
    }
  }

  lemma SendersLoopPaired(senders: seq<UserRecord>, receiverId: Json, server: Server, host: Host)
    ensures Paired(SendersLoop(senders, receiverId, server, host).0, receiverId)
  {
    var g := SenderFn(receiverId, server, host);
    forall u ensures Paired(g(u).calls, receiverId) {
      SenderPassPaired(u, receiverId, server, host);
    }
    SendersPaired(senders, g, receiverId);
  }

  lemma {:induction false} SendersReportAll(senders: seq<UserRecord>, step: UserRecord -> SenderResult)
    requires Senders(senders, step).1.None?
    ensures |Senders(senders, step).2| == |senders|
    ensures forall k :: 0 <= k < |senders| ==> Senders(senders, step).2[k] == step(senders[k]).listing
    decreases |senders|
  {
    if senders != [] {
      SendersReportAll(senders[1..], step);
      forall k | 1 <= k < |senders| ensures senders[k] == senders[1..][k - 1] { }
    }
  }

  /** Every matching sender row is processed, not only the first: a run
      that does not raise reports once per row, in frame order. */
  lemma EverySenderRowProcessed(senders: seq<UserRecord>, receiverId: Json, server: Server, host: Host)
    requires SendersLoop(senders, receiverId, server, host).1.None?
    ensures var reports := SendersLoop(senders, receiverId, server, host).2;
            |reports| == |senders| &&
            forall k :: 0 <= k < |senders| ==> reports[k] == SenderPass(senders[k], receiverId, server, host).listing
  {
    SendersReportAll(senders, SenderFn(receiverId, server, host));
  }

  // ------------------------------------------------------------ the script

  /** How the script ends. */
  datatype Ending = Done | Declined | Crashed(error: Error)

  datatype Run = Run(calls: seq<Call>, ending: Ending, reports: seq<Option<seq<(Json, Json)>>>)

  /** `get_users_stock(user_1, user_2)` (lines 41-153) from the users frame
      on, given the two queries as passed in (already stripped at lines 35
      and 38) and the answer typed at the confirmation prompt. */
  function TransferRun(users: seq<UserRecord>, user1: string, user2: string, answer: string, server: Server, host: Host): (r: Run)
    ensures Matching(users, user1) == [] ==> r == Run([], Crashed(IndexError), [])
    ensures Matching(users, user1) != [] && Matching(users, user2) == [] ==> r == Run([], Crashed(UnboundLocalError), [])
    ensures r.ending == Declined <==> Matching(users, user1) != [] && Matching(users, user2) != [] && !Confirmed(answer)
    ensures r.calls != [] ==> Confirmed(answer)
  {
    var senders := Matching(users, user1);
    if SenderName(senders).Err? then Run([], Crashed(IndexError), [])
    else
      var receiver := ReceiverOf(Matching(users, user2));
      if receiver.Err? then Run([], Crashed(UnboundLocalError), [])
      else if !Confirmed(answer) then Run([], Declined, [])
      else
        var r := SendersLoop(senders, receiver.value.0, server, host);
        Run(r.0, if r.1.Some? then Crashed(r.1.value) else Done, r.2)
  }

  /** Nothing is requested before the confirmation, and an answer other than
      "y"/"yes" ends the script with no request at all. */
  lemma DeclinedMeansNoRequest(users: seq<UserRecord>, user1: string, user2: string, answer: string, server: Server, host: Host)
    requires !Confirmed(answer)
    ensures var r := TransferRun(users, user1, user2, answer, server, host);
            r.calls == [] && r.ending != Done
  {
  }

  /** Across the whole run, every check-out follows a check-in and the lookup
      of the same accessory, and assigns to the receiver: the last user
      matching the second query. */
  lemma TransferPaired(users: seq<UserRecord>, user1: string, user2: string, answer: string, server: Server, host: Host)
    ensures var r := TransferRun(users, user1, user2, answer, server, host);
            var last := LastMatch(users, ParseQuery(user2));
            (last.None? ==> r.calls == []) &&
            (last.Some? ==> Paired(r.calls, users[last.value].id))
  {
    ReceiverIsLastMatch(users, user2);
    var senders := Matching(users, user1);
    var receiver := ReceiverOf(Matching(users, user2));
    if receiver.Ok? {
      SendersLoopPaired(senders, receiver.value.0, server, host);
    }
  }

  // ------------------------------------------------ the imperative script

  /** The HTTP client: the server it talks to and the requests sent so far. */
  class Client {
    const server: Server
    var log: seq<Call>

    constructor (server: Server)
      ensures this.server == server && log == []
    {
      this.server := server;
      log := [];
    }

    /** `requests.get(...)` / `requests.post(...)`. */
    method Send(c: Call) returns (r: Reply)
      modifies this
      ensures log == old(log) + [c] && r == server(c)
    {
      log := log + [c];
      r := server(c);
    }
  }

  /** Lines 119-139 against a live client. */
  method MoveAccessory(client: Client, acc: Json, userId: Json, receiverId: Json, host: Host)
    returns (listed: seq<(Json, Json)>, raised: bool)
    modifies client
    ensures var p := AccessoryPass(acc, userId, receiverId, client.server, host);
            client.log == old(client.log) + p.calls && listed == p.listed && raised == p.raised
  {
    var entry := AccessoryEntry(acc, host);
    if entry.Err? {
      return [], true;
    }
    listed := [entry.value];
    var id := entry.value.1;
    var reply := client.Send(GetCheckedOut(id));
    var pivot := PivotOf(reply, userId, host);
    if pivot.Err? {
      return listed, true;
    }
    if pivot.value.None? {
      return listed, false;   // "No checked out entries found for this user"
    }
    raised := MoveUnit(client, id, pivot.value.value, receiverId);
  }

  /** Lines 132-136: check the unit in by its pivot, then out to the
      receiver; a failed check-in skips the check-out. */
  method MoveUnit(client: Client, id: Json, pivot: Json, receiverId: Json) returns (raised: bool)
    modifies client
    ensures var checkin := client.server(CheckIn(pivot));
            client.log == old(client.log) + (if checkin.Failed? then [CheckIn(pivot)] else [CheckIn(pivot), CheckOut(id, receiverId)]) &&
            raised == (checkin.Failed? || client.server(CheckOut(id, receiverId)).Failed?)
  {
    var checkin := client.Send(CheckIn(pivot));
    if checkin.Failed? {
      return true;
    }
    var checkout := client.Send(CheckOut(id, receiverId));
    raised := checkout.Failed?;
  }

  /** Where a loop of passes stands after `i` of them: what has been done
      so far, followed (unless a pass raised) by the rest of the loop, is the
      whole loop. */
  ghost predicate LoopAt(accs: seq<Json>, pass: Json -> Pass, i: nat, done: seq<Call>, listed: seq<(Json, Json)>, raised: bool)
  {
    i <= |accs| &&
    if raised then Passes(accs, pass) == Pass(done, listed, true)
    else Passes(accs, pass) == Then(Pass(done, listed, false), Passes(accs[i..], pass))
  }

  lemma LoopAtStep(accs: seq<Json>, pass: Json -> Pass, i: nat, done: seq<Call>, listed: seq<(Json, Json)>)
    requires i < |accs| && LoopAt(accs, pass, i, done, listed, false)
    ensures var p := pass(accs[i]);
            LoopAt(accs, pass, i + 1, done + p.calls, listed + p.listed, p.raised)
  {
    var p := pass(accs[i]);
    var rest := Passes(accs[i + 1..], pass);
    assert accs[i..][0] == accs[i] && accs[i..][1..] == accs[i + 1..];
    assert done + (p.calls + rest.calls) == done + p.calls + rest.calls;
    assert listed + (p.listed + rest.listed) == listed + p.listed + rest.listed;
  }

  lemma LoopAtEnd(accs: seq<Json>, pass: Json -> Pass, i: nat, done: seq<Call>, listed: seq<(Json, Json)>, raised: bool)
    requires LoopAt(accs, pass, i, done, listed, raised)
    requires raised || i == |accs|
    ensures Passes(accs, pass) == Pass(done, listed, raised)
  {
    if !raised {
      assert accs[i..] == [];
    }
  }

  /** One pass, seen through the pass function of the loop. */
  method MoveNext(client: Client, acc: Json, ghost pass: Json -> Pass, userId: Json, receiverId: Json, host: Host)
    returns (listed: seq<(Json, Json)>, raised: bool)
    requires forall a {:trigger AccessoryPass(a, userId, receiverId, client.server, host)} ::
               pass(a) == AccessoryPass(a, userId, receiverId, client.server, host)
    modifies client
    ensures client.log == old(client.log) + pass(acc).calls && listed == pass(acc).listed && raised == pass(acc).raised
  {
    listed, raised := MoveAccessory(client, acc, userId, receiverId, host);
  }

  /** The accessory loop, specified through its pass function. */
  method MovePasses(client: Client, accs: seq<Json>, ghost pass: Json -> Pass, userId: Json, receiverId: Json, host: Host)
    returns (listed: seq<(Json, Json)>, raised: bool)
    requires forall a {:trigger AccessoryPass(a, userId, receiverId, client.server, host)} ::
               pass(a) == AccessoryPass(a, userId, receiverId, client.server, host)
    modifies client
    ensures client.log == old(client.log) + Passes(accs, pass).calls
    ensures listed == Passes(accs, pass).listed && raised == Passes(accs, pass).raised
  {
    listed, raised := [], false;
    var i := 0;
    ghost var done: seq<Call> := [];
    assert accs[0..] == accs;
    while i < |accs| && !raised
      invariant client.log == old(client.log) + done
      invariant LoopAt(accs, pass, i, done, listed, raised)
      decreases |accs| - i, if raised then 0 else 1
    {
      ghost var p := pass(accs[i]);
      LoopAtStep(accs, pass, i, done, listed);
      var more, stop := MoveNext(client, accs[i], pass, userId, receiverId, host);
      done := done + p.calls;
      listed := listed + more;
      raised := stop;
      i := i + 1;
    }
    LoopAtEnd(accs, pass, i, done, listed, raised);
  }

  /** Lines 118-139: the accessory loop of one sender row. */
  method MoveAccessories(client: Client, accs: seq<Json>, userId: Json, receiverId: Json, host: Host)
    returns (listed: seq<(Json, Json)>, raised: bool)
    modifies client
    ensures var l := AccessoryLoop(accs, userId, receiverId, client.server, host);
            client.log == old(client.log) + l.calls && listed == l.listed && raised == l.raised
  {
    ghost var f := PassFn(userId, receiverId, client.server, host);
    listed, raised := MovePasses(client, accs, f, userId, receiverId, host);
  }

  /** Lines 113-151 against a live client. */
  method ListAccessories(client: Client, reply: Reply, ghost pass: Json -> Pass, userId: Json, receiverId: Json, host: Host)
    returns (listing: Option<seq<(Json, Json)>>)
    requires forall a {:trigger AccessoryPass(a, userId, receiverId, client.server, host)} ::
               pass(a) == AccessoryPass(a, userId, receiverId, client.server, host)
    modifies client
    ensures var t := Listing(reply, pass, host);
            client.log == old(client.log) + t.0 && listing == t.1
  {
    var accs := RowItems(ReplyJson(reply, host));
    if accs.None? {
      return None;     // caught at line 150 and printed
    }
    var listed, raised := MovePasses(client, accs.value, pass, userId, receiverId, host);
    listing := if raised then None else Some(listed);
  }

  /** The accessory listing, seen through its function of the reply. */
  method ListNext(client: Client, reply: Reply, ghost pass: Json -> Pass,
                  ghost listing: Reply -> (seq<Call>, Option<seq<(Json, Json)>>), userId: Json, receiverId: Json, host: Host)
    returns (listed: Option<seq<(Json, Json)>>)
    requires forall a {:trigger AccessoryPass(a, userId, receiverId, client.server, host)} ::
               pass(a) == AccessoryPass(a, userId, receiverId, client.server, host)
    requires forall r {:trigger Listing(r, pass, host)} :: listing(r) == Listing(r, pass, host)
    modifies client
    ensures client.log == old(client.log) + listing(reply).0 && listed == listing(reply).1
  {
    listed := ListAccessories(client, reply, pass, userId, receiverId, host);
  }

  /** Lines 83-151 against a live client. */
  method SendRequests(client: Client, userId: Json, ghost pass: Json -> Pass,
                      ghost listing: Reply -> (seq<Call>, Option<seq<(Json, Json)>>), receiverId: Json, host: Host)
    returns (crash: Option<Error>, listed: Option<seq<(Json, Json)>>)
    requires forall a {:trigger AccessoryPass(a, userId, receiverId, client.server, host)} ::
               pass(a) == AccessoryPass(a, userId, receiverId, client.server, host)
    requires forall r {:trigger Listing(r, pass, host)} :: listing(r) == Listing(r, pass, host)
    modifies client
    ensures var s := SenderRequests(userId, listing, client.server);
            client.log == old(client.log) + s.calls && crash == s.crash && listed == s.listing
  {
    var assets := client.Send(GetAssets(userId));
    if assets.Failed? {
      return Some(RequestError), None;
    }
    var reply := client.Send(GetAccessories(userId));
    if reply.Failed? {
      return Some(RequestError), None;
    }
    crash := None;
    listed := ListNext(client, reply, pass, listing, userId, receiverId, host);
  }

  /** Lines 77-151 for one sender row against a live client. */
  method ProcessSender(client: Client, u: UserRecord, receiverId: Json, host: Host)
    returns (crash: Option<Error>, listing: Option<seq<(Json, Json)>>)
    modifies client
    ensures var s := SenderPass(u, receiverId, client.server, host);
            client.log == old(client.log) + s.calls && crash == s.crash && listing == s.listing
  {
    var name := Unescape(u.name, host);   // line 80, outside any try
    if name.Err? {
      return Some(name.error), None;
    }
    ghost var f := PassFn(u.id, receiverId, client.server, host);
    ghost var g := ListingFn(f, host);
    crash, listing := SendRequests(client, u.id, f, g, receiverId, host);
  }

  /** One sender row, seen through the step function of the loop. */
  method ProcessNext(client: Client, u: UserRecord, ghost step: UserRecord -> SenderResult, receiverId: Json, host: Host)
    returns (crash: Option<Error>, listing: Option<seq<(Json, Json)>>)
    requires forall v {:trigger SenderPass(v, receiverId, client.server, host)} ::
               step(v) == SenderPass(v, receiverId, client.server, host)
    modifies client
    ensures client.log == old(client.log) + step(u).calls && crash == step(u).crash && listing == step(u).listing
  {
    crash, listing := ProcessSender(client, u, receiverId, host);
  }

  /** Where the loop over sender rows stands after `i` of them. */
  ghost predicate RowsAt(senders: seq<UserRecord>, step: UserRecord -> SenderResult, i: nat,
                         done: seq<Call>, crash: Option<Error>, reports: seq<Option<seq<(Json, Json)>>>)
  {
    i <= |senders| &&
    if crash.Some? then Senders(senders, step) == (done, crash, reports)
    else
      var rest := Senders(senders[i..], step);
      Senders(senders, step) == (done + rest.0, rest.1, reports + rest.2)
  }

  lemma RowsAtStep(senders: seq<UserRecord>, step: UserRecord -> SenderResult, i: nat,
                   done: seq<Call>, reports: seq<Option<seq<(Json, Json)>>>)
    requires i < |senders| && RowsAt(senders, step, i, done, None, reports)
    ensures var s := step(senders[i]);
            RowsAt(senders, step, i + 1, done + s.calls, s.crash, if s.crash.Some? then reports else reports + [s.listing])
  {
    var s := step(senders[i]);
    var rest := Senders(senders[i + 1..], step);
    assert senders[i..][0] == senders[i] && senders[i..][1..] == senders[i + 1..];
    assert done + (s.calls + rest.0) == done + s.calls + rest.0;
    assert reports + ([s.listing] + rest.2) == reports + [s.listing] + rest.2;
    assert reports + [] == reports;
  }

  lemma RowsAtEnd(senders: seq<UserRecord>, step: UserRecord -> SenderResult, i: nat,
                  done: seq<Call>, crash: Option<Error>, reports: seq<Option<seq<(Json, Json)>>>)
    requires RowsAt(senders, step, i, done, crash, reports)
    requires crash.Some? || i == |senders|
    ensures Senders(senders, step) == (done, crash, reports)
  {
    if crash.None? {
      assert senders[i..] == [];
      assert done + [] == done && reports + [] == reports;
    }
  }

  /** The loop over sender rows, specified through its step function. */
  method MoveRows(client: Client, senders: seq<UserRecord>, ghost step: UserRecord -> SenderResult, receiverId: Json, host: Host)
    returns (crash: Option<Error>, reports: seq<Option<seq<(Json, Json)>>>)
    requires forall v {:trigger SenderPass(v, receiverId, client.server, host)} ::
               step(v) == SenderPass(v, receiverId, client.server, host)
    modifies client
    ensures client.log == old(client.log) + Senders(senders, step).0
    ensures crash == Senders(senders, step).1 && reports == Senders(senders, step).2
  {
    crash, reports := None, [];
    var i := 0;
    ghost var done: seq<Call> := [];
    assert senders[0..] == senders;
    assert [] + Senders(senders, step).0 == Senders(senders, step).0;
    assert [] + Senders(senders, step).2 == Senders(senders, step).2;
    while i < |senders| && crash.None?
      invariant client.log == old(client.log) + done
      invariant RowsAt(senders, step, i, done, crash, reports)
      decreases |senders| - i, if crash.Some? then 0 else 1
    {
      ghost var s := step(senders[i]);
      RowsAtStep(senders, step, i, done, reports);
      var c, l := ProcessNext(client, senders[i], step, receiverId, host);
      done := done + s.calls;
      crash := c;
      if c.None? {
        reports := reports + [l];
      }
      i := i + 1;
    }
    RowsAtEnd(senders, step, i, done, crash, reports);
  }

  /** Lines 76-153: every sender row in order, until an exception escapes. */
  method MoveSenders(client: Client, senders: seq<UserRecord>, receiverId: Json, host: Host)
    returns (crash: Option<Error>, reports: seq<Option<seq<(Json, Json)>>>)
    modifies client
    ensures var r := SendersLoop(senders, receiverId, client.server, host);
            client.log == old(client.log) + r.0 && crash == r.1 && reports == r.2
  {
    ghost var g := SenderFn(receiverId, client.server, host);
    crash, reports := MoveRows(client, senders, g, receiverId, host);
  }

  /** Lines 41-153: `get_users_stock`, from the users frame on. */
  method RunTransfer(client: Client, users: seq<UserRecord>, user1: string, user2: string, answer: string, host: Host)
    returns (ending: Ending, reports: seq<Option<seq<(Json, Json)>>>)
    modifies client
    ensures var r := TransferRun(users, user1, user2, answer, client.server, host);
            client.log == old(client.log) + r.calls && ending == r.ending && reports == r.reports
  {
    var senders := Matching(users, user1);
    var senderName := SenderName(senders);
    if senderName.Err? {
      return Crashed(IndexError), [];
    }
    var receiver := ResolveReceiver(users, user2);
    if receiver.Err? {
      return Crashed(receiver.error), [];
    }
    if !Confirmed(answer) {
      return Declined, [];   // exit()
    }
    var crash;
    crash, reports := MoveSenders(client, senders, receiver.value.0, host);
    ending := if crash.Some? then Crashed(crash.value) else Done;
  }
}
