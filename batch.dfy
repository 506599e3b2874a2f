/** The per-user loop of `get_users_stock` (snipeit_inv_sign.py, lines
    373-461) and `generate_pdf` (lines 182-352): for every selected user, the
    asset and accessory tables, one agreement PDF, and its signature fields.
    The variable `accessories_df` survives from one user to the next. */
module Batch {
  import opened PyJson
  import opened Selection
  import opened Inventory
  import opened Api
  import opened Document
  import opened Signing

  /** A page number as `getPageNumber` reports it: the first page is 1. */
  type PageNumber = p: int | p >= 1 witness 1

  /** Where reportlab's layout puts a signature zone: what `absolutePosition`
      and `getPageNumber` report while the zone is drawn. */
  datatype Spot = Spot(x: real, y: real, page: PageNumber)

  /** Everything outside the script: the parser and entity decoder, the
      server, the configured `no_email`, the layout of a draft (employee zone,
      authorizer zone), and pyhanko. */
  datatype Env = Env(host: Host, server: Server, noEmail: string, layout: Draft -> (Spot, Spot), lib: PdfLib)

  /** What a zone drawn at `s` with the default size has recorded. */
  function DrawnAt(s: Spot): Anchor {
    Anchor(Some(Coordinates(s.x, s.y, 216.0, 36.0)), Some(s.page))
  }

  /** The file `generate_pdf` leaves on disk for a draft: the laid-out file
      with both signature fields, or without them when `modify_pdf` failed. */
  function Rendered(d: Draft, env: Env): (f: PdfFile)
    ensures f.content == d
    ensures f.fields == [] || (|f.fields| == 2 && f.fields[0].name == "Sig1" && f.fields[1].name == "Auth1")
    ensures forall k :: 0 <= k < |f.fields| ==> f.fields[k].onPage >= 0
  {
    var built := PdfFile(d, []);
    var spots := env.layout(d);
    match Patch(built, DrawnAt(spots.0), DrawnAt(spots.1), env.lib)
    case Some(f) => f
    case None => built
  }

  /** Lines 182-352: lays out the agreement, writes it, and adds the two
      signature fields. Only line 184 can raise here; nothing catches it. */
  method GeneratePdf(disk: Disk, userName: Json, email: string, userId: Json, assets: Table, accessories: Table, env: Env)
    returns (crash: Option<Error>)
    modifies disk
    ensures var d := MakeDraft(userName, email, userId, assets, accessories, env.host);
            crash.None? <==> d.Ok?
    ensures var d := MakeDraft(userName, email, userId, assets, accessories, env.host);
            d.Ok? ==> disk.files == old(disk.files)[PdfFileName(userName, env.host).value := Rendered(d.value, env)]
    ensures crash.Some? ==> crash == Some(TypeError) && disk.files == old(disk.files)
  {
    var fileName := PdfFileName(userName, env.host);
    var draft := MakeDraft(userName, email, userId, assets, accessories, env.host);
    if fileName.Err? {
      return Some(fileName.error);
    }
    var emp := new SignatureZone.Employee();
    var auth := new SignatureZone.Authorizer();
    var spots := env.layout(draft.value);
    emp.Draw(spots.0.x, spots.0.y, spots.0.page);      // doc.build draws the flowables ...
    auth.Draw(spots.1.x, spots.1.y, spots.1.page);
    disk.Build(fileName.value, draft.value);           // ... and writes the file
    disk.ModifyPdf(fileName.value, emp, auth, env.lib);
    crash := None;
  }

  /** What one user leaves behind: the name and content of the PDF, and the
      value `accessories_df` carries to the next user. */
  datatype Step = Step(fileName: string, file: PdfFile, accessories: Table)

  /** Lines 374-460 for one user, given the `accessories_df` left by the users
      before: the step, or the exception that ends the whole run. The two GET
      requests (lines 379 and 414) sit outside the `try` blocks. */
  function UserStep(u: UserRecord, prev: Option<Table>, env: Env): (r: Result<Step>)
    ensures EmailOrPlaceholder(u.email, env.noEmail).Err? ==> r == Err(EmailOrPlaceholder(u.email, env.noEmail).error)
    ensures r.Ok? ==> |r.value.accessories| >= 1
  {
    var email :- EmailOrPlaceholder(u.email, env.noEmail);
    var tables :- UserTables(u.id, prev, env);
    var draft :- MakeDraft(u.name, email, u.id, tables.0, tables.1, env.host);
    Ok(Step(PdfFileName(u.name, env.host).value, Rendered(draft, env), tables.1))
  }

  /** Lines 379-459: the asset table and the accessory table of one user. */
  function UserTables(id: Json, prev: Option<Table>, env: Env): (r: Result<(Table, Table)>)
    ensures r.Err? <==> env.server(GetAssets(id)).Failed? || env.server(GetAccessories(id)).Failed?
    ensures r.Err? ==> r.error == RequestError
    ensures r.Ok? ==> |r.value.0| >= 1 && |r.value.1| >= 1
  {
    var assetReply := env.server(GetAssets(id));
    var accReply := env.server(GetAccessories(id));
    if assetReply.Failed? || accReply.Failed? then Err(RequestError)
    else Ok((AssetTable(ReplyJson(assetReply, env.host), env.host),
             AccessoryTable(prev, ReplyJson(accReply, env.host), env.host)))
  }

  /** The state of the run: the files written, `accessories_df`, and the
      exception that stopped it, if any. */
  datatype Outcome = Outcome(files: map<string, PdfFile>, prev: Option<Table>, crash: Option<Error>)

  /** The users processed in frame order until one raises. */
  function RunBatch(users: seq<UserRecord>, files: map<string, PdfFile>, prev: Option<Table>, env: Env): (out: Outcome)
    ensures files.Keys <= out.files.Keys
    ensures out.crash.Some? ==> users != []
    decreases |users|
  {
    if users == [] then Outcome(files, prev, None)
    else
      match UserStep(users[0], prev, env)
      case Err(e) => Outcome(files, prev, Some(e))
      case Ok(st) => RunBatch(users[1..], files[st.fileName := st.file], Some(st.accessories), env)
  }

  /** One pass of the loop of lines 373-461. */
  method ProcessUser(disk: Disk, u: UserRecord, accessoriesDf: Option<Table>, env: Env)
    returns (crash: Option<Error>, table: Table)
    modifies disk
    ensures var st := UserStep(u, accessoriesDf, env);
            (crash.None? <==> st.Ok?) && (st.Err? ==> crash == Some(st.error))
    ensures var st := UserStep(u, accessoriesDf, env);
            st.Ok? ==> disk.files == old(disk.files)[st.value.fileName := st.value.file] &&
                       table == st.value.accessories
    ensures crash.Some? ==> disk.files == old(disk.files)
  {
    table := [];
    var email := EmailOrPlaceholder(u.email, env.noEmail);
    if email.Err? {
      return Some(email.error), table;
    }
    var tables;
    crash, tables := FetchTables(u.id, accessoriesDf, env);
    if crash.Some? {
      return;
    }
    table := tables.1;
    crash := GeneratePdf(disk, u.name, email.value, u.id, tables.0, table, env);
  }

  /** Lines 379-459: request and build the two tables. */
  method FetchTables(id: Json, accessoriesDf: Option<Table>, env: Env) returns (crash: Option<Error>, tables: (Table, Table))
    ensures var r := UserTables(id, accessoriesDf, env);
            (crash.None? <==> r.Ok?) && (r.Err? ==> crash == Some(r.error)) && (r.Ok? ==> tables == r.value)
  {
    tables := ([], []);
    var assetReply := env.server(GetAssets(id));
    if assetReply.Failed? {
      return Some(RequestError), tables;
    }
    var assetdf := BuildAssetTable(ReplyJson(assetReply, env.host), env.host);
    var accReply := env.server(GetAccessories(id));
    if accReply.Failed? {
      return Some(RequestError), tables;
    }
    var table := BuildAccessoryTable(accessoriesDf, ReplyJson(accReply, env.host), env.host);
    return None, (assetdf, table);
  }

  /** Lines 355-461 from the users frame on: select, then process each user. */
  method GetUsersStock(disk: Disk, users: seq<UserRecord>, userChk: Option<string>, env: Env)
    returns (crash: Option<Error>)
    modifies disk
    ensures var out := RunBatch(SelectUsers(users, userChk), old(disk.files), None, env);
            disk.files == out.files && crash == out.crash
  {
    var selected := SelectUsers(users, userChk);
    var accessoriesDf: Option<Table> := None;
    var i := 0;
    ghost var goal := RunBatch(selected, disk.files, None, env);
    while i < |selected|
      invariant 0 <= i <= |selected|
      invariant RunBatch(selected[i..], disk.files, accessoriesDf, env) == goal
    {
      assert selected[i..][0] == selected[i] && selected[i..][1..] == selected[i + 1..];
      var table;
      crash, table := ProcessUser(disk, selected[i], accessoriesDf, env);
      if crash.Some? {
        return;
      }
      accessoriesDf := Some(table);
      i := i + 1;
    }
    crash := None;
  }

  // ------------------------------------------------------------ properties

  /** The written agreement keeps the draft, and either carries no field
      (modify_pdf failed) or exactly 'Sig1' then 'Auth1', each on the 0-based
      index of the page its zone was drawn on, with the default 216 by 36 box
      anchored where the zone was drawn. */
  lemma RenderedFile(d: Draft, env: Env)
    ensures var f := Rendered(d, env);
            var spots := env.layout(d);
            f.content == d &&
            (f.fields == [] ||
             (|f.fields| == 2 &&
              f.fields[0].name == "Sig1" && f.fields[0].onPage == spots.0.page - 1 >= 0 &&
              f.fields[0].box == Box(spots.0.x, spots.0.y, spots.0.x + 216.0, spots.0.y + 36.0) &&
              f.fields[1].name == "Auth1" && f.fields[1].onPage == spots.1.page - 1 >= 0 &&
              f.fields[1].box == Box(spots.1.x, spots.1.y, spots.1.x + 216.0, spots.1.y + 36.0)))
  {
    var spots := env.layout(d);
    if Patch(PdfFile(d, []), DrawnAt(spots.0), DrawnAt(spots.1), env.lib).Some? {
      PatchAppendsSigThenAuth(PdfFile(d, []), DrawnAt(spots.0), DrawnAt(spots.1), env.lib);
    }
  }

  /** A value `accessories_df` can hold between two users: unbound, or a
      table the builder made. */
  predicate Carried(prev: Option<Table>) {
    prev.None? || (prev.value != [] && NoAccessoriesRow !in prev.value)
  }

  /** A step that goes through writes, under the user's file name, an
      agreement with the e-mail after the fallback, the user id, and the
      accessory data: the header, then the table the accessory builder gives
      for that user and the carried-over value. */
  lemma UserStepAccessoryData(u: UserRecord, prev: Option<Table>, env: Env)
    requires UserStep(u, prev, env).Ok?
    ensures var st := UserStep(u, prev, env).value;
            var reply := env.server(GetAccessories(u.id));
            reply.Replied? &&
            st.accessories == AccessoryTable(prev, ReplyJson(reply, env.host), env.host) &&
            st.file.content.accessoryData == TableData(AccessoryHeader, st.accessories) &&
            PdfFileName(u.name, env.host).Ok? && st.fileName == PdfFileName(u.name, env.host).value &&
            EmailOrPlaceholder(u.email, env.noEmail).Ok? &&
            st.file.content.email == EmailOrPlaceholder(u.email, env.noEmail).value &&
            st.file.content.userId == u.id
  {
    var email := EmailOrPlaceholder(u.email, env.noEmail).value;
    var tables := UserTables(u.id, prev, env).value;
    var draft := MakeDraft(u.name, email, u.id, tables.0, tables.1, env.host).value;
    RenderedFile(draft, env);
  }

  /** No agreement the run writes lists "No Accessories Assigned to user",
      and `accessories_df` stays a value the builder made. */
  lemma {:induction false} NoAccessoriesRowInAnyPdf(users: seq<UserRecord>, files: map<string, PdfFile>, prev: Option<Table>, env: Env)
    requires Carried(prev)
    ensures var out := RunBatch(users, files, prev, env);
            Carried(out.prev) &&
            forall n :: n in out.files ==>
              (n in files && out.files[n] == files[n]) || NoAccessoriesRow !in out.files[n].content.accessoryData
    decreases |users|
  {
    if users != [] && UserStep(users[0], prev, env).Ok? {
      var st := UserStep(users[0], prev, env).value;
      StepIsClean(users[0], prev, env);
      var files' := files[st.fileName := st.file];
      NoAccessoriesRowInAnyPdf(users[1..], files', Some(st.accessories), env);
      var out := RunBatch(users[1..], files', Some(st.accessories), env);
      assert RunBatch(users, files, prev, env) == out;
      forall n | n in out.files
        ensures (n in files && out.files[n] == files[n]) || NoAccessoriesRow !in out.files[n].content.accessoryData
      {
        if n in files' && out.files[n] == files'[n] && n != st.fileName {
          assert files'[n] == files[n];
        }
      }
    }
  }

  /** One step that goes through leaves a table the builder made, and an
      agreement without the "no accessories" row. */
  lemma StepIsClean(u: UserRecord, prev: Option<Table>, env: Env)
    requires Carried(prev) && UserStep(u, prev, env).Ok?
    ensures var st := UserStep(u, prev, env).value;
            Carried(Some(st.accessories)) && NoAccessoriesRow !in st.file.content.accessoryData
  {
    var st := UserStep(u, prev, env).value;
    UserStepAccessoryData(u, prev, env);
    var reply := env.server(GetAccessories(u.id));
    NoAccessoriesRowNeverEmitted(prev, ReplyJson(reply, env.host), env.host);
    assert AccessoryHeader[0] != NoAccessoriesRow[0];
    assert st.file.content.accessoryData == [AccessoryHeader] + st.accessories;
  }

  /** A user whose accessory list is present but empty gets, in their
      agreement, the table carried over from the user before; when that user
      is the first of the run, one "Error in data set" row. */
  lemma EmptyAccessoriesInPdf(u: UserRecord, prev: Option<Table>, env: Env)
    requires Carried(prev) && UserStep(u, prev, env).Ok?
    requires RowItems(ReplyJson(env.server(GetAccessories(u.id)), env.host)) == Some([])
    ensures var data := UserStep(u, prev, env).value.file.content.accessoryData;
            data == TableData(AccessoryHeader, if prev.Some? then prev.value else [AccessoryErrorRow])
  {
    UserStepAccessoryData(u, prev, env);
  }

  /** A run that ends without an exception has written an agreement for
      every selected user. */
  lemma {:induction false} EveryUserGetsPdf(users: seq<UserRecord>, files: map<string, PdfFile>, prev: Option<Table>, env: Env)
    ensures var out := RunBatch(users, files, prev, env);
            out.crash.None? ==> forall u :: u in users ==> HasPdf(u, out, env)
    decreases |users|
  {
    var out := RunBatch(users, files, prev, env);
    if users != [] && out.crash.None? {
      var files', table := RunBatchUnfold(users, files, prev, env);
      FirstUserGetsPdf(users, files, prev, env);
      EveryUserGetsPdf(users[1..], files', Some(table), env);
      forall u | u in users ensures HasPdf(u, out, env) {
        if u != users[0] {
          assert u in users[1..];
        }
      }
    }
  }

  /** The agreement of user `u` is among the files of `out`. */
  predicate HasPdf(u: UserRecord, out: Outcome, env: Env)
  {
    PdfFileName(u.name, env.host).Ok? && PdfFileName(u.name, env.host).value in out.files
  }

  lemma FirstUserGetsPdf(users: seq<UserRecord>, files: map<string, PdfFile>, prev: Option<Table>, env: Env)
    requires users != [] && RunBatch(users, files, prev, env).crash.None?
    ensures HasPdf(users[0], RunBatch(users, files, prev, env), env)
  {
    var files', table := RunBatchUnfold(users, files, prev, env);
    StepFileName(users[0], prev, env);
  }

  /** A run that ends without an exception is the first user's step followed
      by the run over the others. */
  lemma RunBatchUnfold(users: seq<UserRecord>, files: map<string, PdfFile>, prev: Option<Table>, env: Env)
      returns (files': map<string, PdfFile>, table: Table)
    requires users != [] && RunBatch(users, files, prev, env).crash.None?
    ensures UserStep(users[0], prev, env).Ok?
    ensures var st := UserStep(users[0], prev, env).value;
            files' == files[st.fileName := st.file] && table == st.accessories
    ensures RunBatch(users, files, prev, env) == RunBatch(users[1..], files', Some(table), env)
  {
    var st := UserStep(users[0], prev, env).value;
    files', table := files[st.fileName := st.file], st.accessories;
  }

  lemma StepFileName(u: UserRecord, prev: Option<Table>, env: Env)
    requires UserStep(u, prev, env).Ok?
    ensures PdfFileName(u.name, env.host).Ok? && UserStep(u, prev, env).value.fileName == PdfFileName(u.name, env.host).value
  {
  }

  /** The run stops at the first user whose step raises: the users before
      it have been processed, nobody after it. */
  lemma {:induction false} RunStopsAtCrash(users: seq<UserRecord>, files: map<string, PdfFile>, prev: Option<Table>, env: Env, k: nat)
    requires k < |users| && UserStep(users[k], RunBatch(users[..k], files, prev, env).prev, env).Err?
    requires RunBatch(users[..k], files, prev, env).crash.None?
    ensures var before := RunBatch(users[..k], files, prev, env);
            RunBatch(users, files, prev, env) ==
              Outcome(before.files, before.prev, Some(UserStep(users[k], before.prev, env).error))
    decreases k
  {
    if k > 0 {
      assert users[..k][0] == users[0];
      var st := UserStep(users[0], prev, env).value;
      var files' := files[st.fileName := st.file];
      assert users[..k][1..] == users[1..][..k - 1];
      assert RunBatch(users[..k], files, prev, env) == RunBatch(users[1..][..k - 1], files', Some(st.accessories), env);
      assert users[1..][k - 1] == users[k];
      RunStopsAtCrash(users[1..], files', Some(st.accessories), env, k - 1);
    }
  }
}
