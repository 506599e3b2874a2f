# SnipeIT-Tools: inventory agreements and accessory transfer, in Dafny

This project models the two scripts of SnipeIT-Tools that talk to a Snipe-IT
inventory server.

`snipeit_inv_sign.py` runs a batch over the users.

- It selects users by an optional query and falls back to a placeholder
  e-mail.
- For each user it fetches the assets and the accessories and builds two
  tables of rows. Each row carries status and condition drop-downs.
- Accessory field names carry per-id occurrence suffixes `_2`, `_3`, ….
- Sentinel and error rows stand in when data is empty or malformed.
- It lays out one agreement PDF per user. Two signature zones record where
  they were drawn. `modify_pdf` turns those records into the `Sig1` and
  `Auth1` signature fields, appended to the file.

`transfer.py` moves the accessories of a sender to a receiver.

- The sender is the first user matching one query. The receiver is the last
  user matching another.
- A confirmation answer gates the rest.
- For every accessory of every matching sender row, the script looks up the
  records checked out to that row. It takes the pivot of the first record
  checked out to the row's id. It checks that pivot in, then checks the
  accessory out to the receiver.

## What each module holds

- `PyText` holds the few Python string operations the scripts depend on:
  `strip`, `isdigit`, `int`/`str` on naturals, and `lower`.
- `PyJson` holds parsed API responses as a `Json` datatype, with Python's
  `[]`, `in`, iteration and `html.unescape`. Each step raises as Python does.
  It also holds `getjson` and `TakeOk`, a loop whose body may raise.
- `Api` holds the REST calls as a `Call` datatype, and a server as a function
  from call to `Reply`.
- `Selection` holds the rows of the users frame, the query conversion and
  filter, and the e-mail fallback.
- `Inventory` holds the asset and accessory row builders:
  - pure definitions of the tables;
  - imperative loops proved equal to them, including the in-place
    `accessory_count` dictionary;
  - the lemmas about names, counts, sentinels, and the `accessories_df`
    variable that survives from one user to the next.
- `Document` holds the file name and the table data of `generate_pdf`.
- `Signing` holds the two signature zones as a class whose `Draw` sets
  fields, the box and page arithmetic of `modify_pdf`, and a `Disk` class
  holding the written files.
- `Batch` holds the per-user loop of `get_users_stock` as a method. It is
  proved equal to a function over the users, with `accessories_df` carried
  across iterations.
- `Transfer` holds `transfer.py`:
  - pure definitions of each accessory pass, the accessory loop, the sender
    loop and the whole run, as traces of calls;
  - lemmas on ordering and on which calls happen;
  - a `Client` class that logs every request, with methods proved to leave
    exactly the traced calls in the log.

Outside interfaces are parameters:

- `Host` stands for `json.loads`, the entity decoding inside `html.unescape`
  and `str()` of a list or dict.
- `Server` stands for the Snipe-IT server.
- `PdfLib` stands for pyhanko's acceptance of a file and of a field.
- `Env.layout` stands for where reportlab draws the two zones.
- `no_email` is passed in as a parameter.

Two behaviours of the code differ from what its own structure suggests. The
model follows the code:

- **A request failure ends the run.** The `try` blocks of
  snipeit_inv_sign.py turn a malformed reply into an "Error in data set"
  row, but the GET requests themselves (lines 379 and 414) sit outside those
  blocks. So a request that raises stops the whole batch, and the model has
  it do so (`Batch.UserTables`). The same holds for the GET requests at
  lines 83 and 111 of transfer.py.
- **The "no accessories" row never appears.** Lines 445-448 are written to
  give a user with no accessories one "No Accessories Assigned to user"
  row. The code never reaches them. If the first user of the run has an
  empty accessory list, that user gets "Error in data set". Any later user
  with an empty list gets the previous user's accessory table again. See
  "## Findings".

## Model

| member | source | states |
|---|---|---|
| PyText.StripEmptyIffAllSpace | snipeit_inv_sign.py:106-109 | an answer strips to the empty string exactly when every character of it is whitespace |
| PyText.NatStrRoundTrip | snipeit_inv_sign.py:365-366 | reading back the decimal text of a natural gives the natural, so `int(str(n)) == n` |
| PyText.IntStrInjective | snipeit_inv_sign.py:432-438 | two integers with the same text are equal, and the text of an integer holds no underscore |
| PyText.AsciiLower | transfer.py:68 | `lower()` keeps the length and maps exactly the letters A-Z to a-z |
| PyJson.Lookup | snipeit_inv_sign.py:385-386 | a key is found exactly when some binding has it, and the value found is that of the last binding of the key |
| PyJson.Index | snipeit_inv_sign.py:388-392 | `j[key]` succeeds exactly on a dict holding the key, and gives the value of its last binding; otherwise KeyError on a dict, TypeError on anything else |
| PyJson.Contains | snipeit_inv_sign.py:385 | `key in j` raises exactly on a value that is not a dict, list or string, and on a dict it tells whether the key is present |
| PyJson.Iter | snipeit_inv_sign.py:387 | iterating a list gives its items; a string gives one one-character string per character, in order; a dict gives its keys, in order; anything else raises |
| PyJson.Unescape | snipeit_inv_sign.py:391-393 | `html.unescape` of a string gives the decoded string, and text without '&' comes back unchanged; None, a number or a bool raises TypeError |
| PyJson.GetJson | snipeit_inv_sign.py:117-124 | `getjson` raises ValueError exactly when it is given neither a string nor a response; a string or the content of a response is parsed with `json.loads`. transfer.py:24-31 is the same code |
| PyJson.ParseText | snipeit_inv_sign.py:119-122 | `json.loads` succeeds exactly on parsable text, and fails with JSONDecodeError otherwise |
| PyJson.TakeOk | snipeit_inv_sign.py:387-396 | a loop whose body may raise: the results of the items before the first one that raises, each one the body's result on its own item |
| PyJson.TakeOkUnique | snipeit_inv_sign.py:387-396 | those three facts pin down the outcome of the loop |
| PyJson.CollectOk | snipeit_inv_sign.py:387-396 | the loop, run: the body is applied to each item until one raises; the results are those of the items before the first raise, and it tells whether one raised |
| Api.ReplyJson | snipeit_inv_sign.py:383 | a failed request has already raised, and a response's body goes through `getjson` |
| Api.RowItems | snipeit_inv_sign.py:383-387 | the records of a listing are the items of `json["rows"]` when the body parses, the key is present and the value is iterable; all other cases are one error case |
| Selection.InputQuery | snipeit_inv_sign.py:105-109 | a prompt answer that is all whitespace becomes None (all users); otherwise it is the stripped answer, which is not empty |
| Selection.ParseQuery | snipeit_inv_sign.py:365-366 | a query becomes an integer exactly when it is all digits, and then its value is the number those digits denote; otherwise it stays the same text |
| Selection.Matches | snipeit_inv_sign.py:369 | a row matches exactly when the query's value, an int or a string, is one of its id, name and email cells |
| Selection.Filter | snipeit_inv_sign.py:369 | the kept rows are exactly the rows whose id, name or email equals the query, and none are added |
| Selection.SelectUsers | snipeit_inv_sign.py:363-369 | no query, or an empty one, keeps every user; otherwise a user is kept exactly when its id, name or email equals the converted query |
| Selection.DigitQueryMatchesById | snipeit_inv_sign.py:365-369 | when names and e-mails are text, a digit query keeps exactly the users whose id is that number |
| Selection.NullArrayTruth | snipeit_inv_sign.py:377 | the truth of `pd.isnull` on a list: true for one null item, false for no item or one non-list item, ValueError for two or more items |
| Selection.EmailOrPlaceholder | snipeit_inv_sign.py:376-378 | a null e-mail, or text that strips to nothing, becomes `no_email`; other text is kept unchanged; a list goes through the element-wise null test, so `[null]` becomes `no_email`, an empty list, or one whose only item is neither null nor a list, raises AttributeError at `.strip()`, and a longer one raises ValueError; a number, bool or dict raises AttributeError |
| Selection.FilterFirst | transfer.py:53-54 | the first kept row is the first matching row of the frame |
| Selection.LastMatch | transfer.py:62-64 | the index of a matching row with no matching row after it, or None when no row matches |
| Selection.FilterLast | transfer.py:61-64 | the last kept row is the last matching row of the frame, and nothing is kept exactly when no row matches |
| Inventory.AssetRow | snipeit_inv_sign.py:388-396 | an asset builds exactly when its tag, name, model, model name and serial can be read and both texts unescape; its row then has six cells: a status drop-down, the tag, the unescaped name, the unescaped model name, the serial, and a condition drop-down |
| Inventory.AssetListing | snipeit_inv_sign.py:387-411 | the listing has at least one row and at most one more than there are assets; it is the single "No Assets Assigned" row exactly when there are no assets |
| Inventory.AssetTable | snipeit_inv_sign.py:380-412 | the asset table always has a row; a reply without a usable "rows" list gives the one error row, and an empty list gives the one "No Assets Assigned" row |
| Inventory.AssetRowOfRecord | snipeit_inv_sign.py:388-396 | an asset record whose tag, name, model name and serial can be read, whatever other keys it has, gives the row: status drop-down 'Asset Status {tag}' (default 'Present', options '', Present, Missing, Returned, Other), tag, unescaped name, unescaped model name, serial, then condition drop-down 'Asset Condition {tag}' (default 'Good', options New, Good, Fair, Poor, Other) |
| Inventory.AssetTableNeverEmpty | snipeit_inv_sign.py:397-412 | the asset table always has a row |
| Inventory.AssetTableWithoutRows | snipeit_inv_sign.py:405-411 | a missing "rows" key, a body that does not parse or a response of the wrong shape gives exactly the one "Error in data set" row |
| Inventory.AssetTableEmptyRows | snipeit_inv_sign.py:398-400 | an empty "rows" list gives exactly the one "No Assets Assigned" row, which has no drop-down |
| Inventory.AssetTableOneRowPerAsset | snipeit_inv_sign.py:387-396 | when every asset builds, the table holds one row per asset, in API order |
| Inventory.AssetTableStopsAtFailure | snipeit_inv_sign.py:409-411 | when asset n is the first that raises, the table is the rows of assets 0..n-1 followed by the "Error in data set" row |
| Inventory.BuildAssetTable | snipeit_inv_sign.py:380-412 | the imperative builder gives the asset table |
| Inventory.AccessoryItem | snipeit_inv_sign.py:423-428 | an accessory builds exactly when its id and name can be read, the name unescapes and the id can be a dict key; the item is then the id and the unescaped name; a list or dict id raises TypeError at `accessory_id in accessory_count` |
| Inventory.AccessoryRows | snipeit_inv_sign.py:427-442 | one row per accessory unit, in order |
| Inventory.AccessoryListing | snipeit_inv_sign.py:421-458 | the listing always has a row; with no records it is what `accessories_df` held before: the error row when it was unbound, that table otherwise |
| Inventory.AccessoryTable | snipeit_inv_sign.py:414-459 | the accessory table as written always has a row; a reply without a usable "rows" list gives the one error row; an empty list after a user with a table gives that user's table |
| Inventory.AccessoryTableIntended | snipeit_inv_sign.py:445-448 | the intended builder has a row for every user, and a user with no accessories gets the "No Accessories Assigned to user" row |
| Inventory.EmptyTestNeverTrue | snipeit_inv_sign.py:443-445 | once `accessories_df` is bound, it holds a row whenever the loop ran without raising, so the `.empty` test is false |
| Inventory.NoSentinelAmongRows | snipeit_inv_sign.py:440-442 | a row built from an accessory is never the "no accessories" row nor the error row |
| Inventory.NoAccessoriesRowNeverEmitted | snipeit_inv_sign.py:445-448 | the "No Accessories Assigned to user" row never appears in an accessory table, and every table has a row |
| Inventory.FirstUserWithoutAccessories | snipeit_inv_sign.py:445-458 | with `accessories_df` unbound and an empty "rows" list, the UnboundLocalError is caught and the table is the one "Error in data set" row |
| Inventory.LaterUserWithoutAccessories | snipeit_inv_sign.py:443-450 | a later user with an empty "rows" list gets the previous user's table unchanged |
| Inventory.AccessoryListingOneRowPerUnit | snipeit_inv_sign.py:422-443 | when every accessory builds, there is one row per unit in API order, carrying its unescaped name and its id, whatever table was carried over |
| Inventory.AccessoryTableStopsAtFailure | snipeit_inv_sign.py:456-458 | when accessory n is the first that raises, the table is the rows of accessories 0..n-1 followed by the "Error in data set" row |
| Inventory.AccessoryTableMatchesIntended | snipeit_inv_sign.py:443-448 | the builder as written and the intended one agree exactly on users whose "rows" list is not empty |
| Inventory.StaleAccessoryTable | snipeit_inv_sign.py:443-458 | concrete case: a user with an empty list, after a user whose listing failed, gets the error row instead of the "no accessories" row |
| Inventory.CountedStep | snipeit_inv_sign.py:428-436 | one update of `accessory_count` keeps it equal to the occurrence count of every id |
| Inventory.AddUnit | snipeit_inv_sign.py:428-442 | one pass of the accessory loop: the id's counter goes up by one and the row named after the updated count is appended, so the rows stay those of the accessories seen and the counter stays equal to their occurrence counts |
| Inventory.CollectAccessoryRows | snipeit_inv_sign.py:421-443 | the loop, with the counter starting empty, gives the rows of the accessories before the first one that raises; it tells whether one raised; afterwards the counter holds exactly the ids seen, each with its number of occurrences |
| Inventory.OccurrencesIsMultiplicity | snipeit_inv_sign.py:428-436 | the counter's value is the multiplicity of the id among the ids seen |
| Inventory.AccessoryRowNames | snipeit_inv_sign.py:427-442 | row k is, in drop-down options, name and id, the row of the n-th unit of its id, with n counted over rows 0..k. The first unit gets the bare names 'Accessory Status {id}' / 'Accessory Condition {id}'; the n-th (n >= 2) gets '_{n}' on both. n is 1 exactly when no earlier row has that id |
| Inventory.AccessoryNamesDistinct | snipeit_inv_sign.py:432-438 | with integer ids, no two rows share a status field name nor a condition field name |
| Inventory.BuildAccessoryTable | snipeit_inv_sign.py:414-459 | the imperative builder gives the accessory table as written |
| Document.PdfFileName | snipeit_inv_sign.py:184 | the file name exists exactly when the user name unescapes; otherwise TypeError |
| Document.PdfFileNameOfText | snipeit_inv_sign.py:349 | a text name gives '{unescaped name}_inventory.pdf', and a name without '&' is kept as it is |
| Document.TableData | snipeit_inv_sign.py:257-264 | the table data is the header row followed by the frame's rows, in order |
| Document.MakeDraft | snipeit_inv_sign.py:182-293 | the draft exists exactly when the file name does; it holds the unescaped employee name, both tables with their headers, the e-mail and the id |
| Signing.SignatureZone.Employee | snipeit_inv_sign.py:65-73 | a new employee zone is titled 'emp_sig', its size defaults to 216 by 36, and it has recorded nothing |
| Signing.SignatureZone.Authorizer | snipeit_inv_sign.py:84-92 | a new authorizer zone is titled 'auth_sig', its size defaults to 216 by 36, and it has recorded nothing |
| Signing.SignatureZone.Draw | snipeit_inv_sign.py:75-79 | drawing records (x, y, width, height) and the page number |
| Signing.BoxOf | snipeit_inv_sign.py:137-142 | the box's lower-left corner is (x, y), and its width and height are the recorded ones |
| Signing.FieldSpec | snipeit_inv_sign.py:135-149 | a field spec exists exactly when both the page and the coordinates were recorded, and it carries the given name; otherwise TypeError |
| Signing.DrawnZoneField | snipeit_inv_sign.py:135-142 | a zone drawn on page p gives a field on page index p - 1, anchored where it was drawn, with the zone's width and height |
| Signing.Patch | snipeit_inv_sign.py:130-177 | a patch that goes through has opened the file, keeps its content and existing fields, and adds exactly two fields, 'Sig1' and then 'Auth1' |
| Signing.PatchAppendsSigThenAuth | snipeit_inv_sign.py:145-174 | a patch that goes through keeps the content and appends exactly 'Sig1' for the employee, then 'Auth1' for the authorizer, after the existing fields |
| Signing.PatchSucceedsIff | snipeit_inv_sign.py:130-177 | the patch goes through exactly when the file opens, both zones were drawn, and pyhanko accepts both fields in turn |
| Signing.UndrawnZoneLeavesFile | snipeit_inv_sign.py:135-136 | a zone that was never drawn makes the whole patch fail, so not even 'Sig1' is written |
| Signing.Disk.Build | snipeit_inv_sign.py:345 | `doc.build` writes the laid-out file, without fields, and leaves the other files alone |
| Signing.Disk.ModifyPdf | snipeit_inv_sign.py:129-177 | the file is replaced by its patched version when the patch goes through; a missing file or any exception leaves every file as it was |
| Batch.Rendered | snipeit_inv_sign.py:308-352 | the file on disk keeps the draft; it has no signature field, or 'Sig1' then 'Auth1'; every field's page index is at least 0 |
| Batch.GeneratePdf | snipeit_inv_sign.py:182-352 | raises TypeError exactly when the name does not unescape, and then writes nothing; otherwise it writes the rendered agreement under its file name |
| Batch.RenderedFile | snipeit_inv_sign.py:308-352 | the written agreement keeps the draft and has either no field or exactly 'Sig1' then 'Auth1', each on the 0-based index (at least 0) of its zone's 1-based page, with a 216 by 36 box where the zone was drawn |
| Batch.UserTables | snipeit_inv_sign.py:379-459 | a user's tables fail exactly when one of the two GET requests raises, and then with RequestError; otherwise both tables have a row |
| Batch.UserStep | snipeit_inv_sign.py:374-460 | an e-mail that raises ends the step with its exception; a step that goes through writes under the user's file name an agreement with the fallback e-mail, the user id and the accessory table it carries on, which has a row |
| Batch.RunBatch | snipeit_inv_sign.py:373-461 | a run never removes a file, and only a run over some user can end with an exception |
| Batch.FetchTables | snipeit_inv_sign.py:379-459 | both tables of a user, or RequestError when either GET raises |
| Batch.ProcessUser | snipeit_inv_sign.py:374-460 | one user's pass writes its agreement and returns the `accessories_df` it leaves, or raises the step's exception and writes nothing |
| Batch.GetUsersStock | snipeit_inv_sign.py:355-461 | the imperative batch writes exactly the files of the run over the selected users, starting with `accessories_df` unbound, and ends with the run's exception if any |
| Batch.UserStepAccessoryData | snipeit_inv_sign.py:443-460 | a user's agreement lists the header and then the accessory table built from their reply and the carried-over table |
| Batch.NoAccessoriesRowInAnyPdf | snipeit_inv_sign.py:445-460 | no agreement the run writes lists "No Accessories Assigned to user" |
| Batch.EmptyAccessoriesInPdf | snipeit_inv_sign.py:443-460 | a user with an empty accessory list gets the previous user's accessory table in their agreement; when that user is the first of the run, the error row |
| Batch.EveryUserGetsPdf | snipeit_inv_sign.py:373-461 | a run that ends without an exception has written an agreement for every selected user |
| Batch.RunStopsAtCrash | snipeit_inv_sign.py:373-461 | the run stops at the first user whose step raises; the users before it are processed and nobody after it |
| Transfer.Matching | transfer.py:49-53 | the sender (and receiver) rows are exactly the users matching the converted query |
| Transfer.SenderName | transfer.py:54 | `iloc[0]` raises IndexError exactly when no row matched; otherwise it gives the first row's name |
| Transfer.ResolveReceiver | transfer.py:61-65 | the loop leaves the id and name of the last matching row; with no match, `receiver_name` is unbound |
| Transfer.ReceiverIsLastMatch | transfer.py:61-65 | the receiver is the last user of the frame matching the second query; it is unbound exactly when none does |
| Transfer.SenderIsFirstMatch | transfer.py:53-54 | the sender name is that of the first user of the frame matching the first query |
| Transfer.ConfirmedIff | transfer.py:67-74 | the script goes on exactly for 'y' or 'yes' in any mix of cases |
| Transfer.MatchingEntries | transfer.py:127 | the comprehension succeeds exactly when every entry has an id, and keeps exactly the entries whose id is the sender's |
| Transfer.FirstMatchingEntry | transfer.py:127-131 | `filtered_checked_out_user[0]` is the first entry of the listing whose id is the sender's |
| Transfer.CheckedOutEntries | transfer.py:123-125 | the checked-out records can only be read from a request that did not raise |
| Transfer.PivotOf | transfer.py:123-131 | a failed lookup raises RequestError; a pivot found, or none, means the records parsed and every one had an id; none means no record is checked out to the sender |
| Transfer.PivotIsFirstMatch | transfer.py:127-131 | a pivot found is the `assigned_pivot_id` of the first record checked out to the sender |
| Transfer.AccessoryPass | transfer.py:119-139 | a malformed accessory record raises with no request and nothing listed; otherwise its [unescaped name, id] is listed and one to three requests follow, the first being the lookup of that accessory's checked-out records |
| Transfer.AccessoryPassShape | transfer.py:119-139 | one accessory's calls are: nothing when its record is malformed; only the lookup when nothing is checked out to the sender; otherwise the lookup, one check-in on the pivot of the first such record and, unless that check-in raised, one check-out of the accessory to the receiver |
| Transfer.AccessoryPassPaired | transfer.py:129-137 | within one accessory, every check-out directly follows a check-in, which follows the lookup of the same accessory, and assigns to the receiver |
| Transfer.AccessoryLoopPaired | transfer.py:118-139 | across the accessory loop, every check-out directly follows a check-in and the lookup of that accessory, and assigns to the receiver |
| Transfer.PassListsEntry | transfer.py:119-122 | a pass that does not raise has appended its record's [unescaped name, id] |
| Transfer.AccessoryLoopListsAll | transfer.py:118-122 | a loop that does not raise has listed [unescaped name, id] for every accessory, in API order |
| Transfer.SenderPass | transfer.py:77-151 | a sender name that does not unescape raises with no request; otherwise the asset listing is requested first, and a row that does not raise requests the asset listing and then the accessory listing before anything else |
| Transfer.SenderPassPaired | transfer.py:76-151 | one sender row's requests keep the check-in/check-out pairing |
| Transfer.SendersLoopPaired | transfer.py:76-153 | all sender rows' requests keep the check-in/check-out pairing |
| Transfer.EverySenderRowProcessed | transfer.py:76 | every matching sender row is processed, not only the first: a run that does not raise reports once per row, in frame order |
| Transfer.TransferRun | transfer.py:41-153 | no sender match ends with IndexError and no receiver match with UnboundLocalError, both before any request; the script is declined exactly when both matched and the answer is not 'y'/'yes'; any request implies a confirmed answer |
| Transfer.DeclinedMeansNoRequest | transfer.py:67-74 | an answer other than 'y'/'yes' ends the script with no request at all |
| Transfer.TransferPaired | transfer.py:41-153 | over the whole run, no check-out happens without a check-in and the lookup of that accessory just before, and every check-out goes to the last user matching the second query; with no such user, nothing is requested |
| Transfer.Client.Send | transfer.py:83 | a request is appended to the log and answered by the server |
| Transfer.MoveAccessory | transfer.py:119-139 | one accessory against a live client: the log gains exactly the pass's calls, and the listed entry and the exception are the pass's |
| Transfer.MoveUnit | transfer.py:132-136 | the check-in POST on the pivot, then the check-out POST to the receiver only when the check-in got a reply; an exception when either request fails |
| Transfer.MovePasses | transfer.py:118-139 | the loop over accessories leaves in the log exactly the calls of the passes up to the first that raises |
| Transfer.MoveAccessories | transfer.py:118-139 | the accessory loop of one sender row leaves in the log exactly the loop's calls, with its listing |
| Transfer.ListAccessories | transfer.py:113-151 | the `try` around the accessory listing leaves the listing's calls, and the frame unless an exception was caught |
| Transfer.SendRequests | transfer.py:83-151 | the two listings of one sender row leave their calls; a GET that raises ends the script |
| Transfer.ProcessSender | transfer.py:77-151 | one sender row against a live client: exactly the row's calls, its exception and its listing |
| Transfer.MoveRows | transfer.py:76-153 | the loop over sender rows leaves in the log exactly the calls of the rows up to the first that raises |
| Transfer.MoveSenders | transfer.py:76-153 | all sender rows in order, until an exception escapes |
| Transfer.RunTransfer | transfer.py:41-153 | `get_users_stock` leaves in the log exactly the calls of the run, and ends as the run does: done, declined, or the exception |

## Left out

- Fetching `/users/` and building `users_df` with pandas (snipeit_inv_sign.py:356-361, transfer.py:42-47): the frame is an input, a sequence of `UserRecord`. A missing column reads as JNull, which stands for pandas' NaN.
- Prompts, `print`, `exit()` and loading the config file: these are I/O. The answers to the prompts are parameters.
- `strip()` of the two queries in transfer.py (lines 34-38): this runs before `get_users_stock` is called. `Transfer.TransferRun` takes the queries already stripped, as the function does.
- The asset block of transfer.py (lines 85-107) only prints. Only its GET request is part of the trace.
- Request headers, URLs, the `assigned_to` payload encoding, and the bodies of the check-in and check-out replies: these are not modelled. The script never inspects those bodies. A reply is either an exception or a body to parse.
- HTTP status codes: a response with an error status does not raise in `requests`, and the model does not tell it apart from any other response.
- reportlab's layout, fonts, tables and drawing: `Env.layout` gives where each zone is drawn. A document whose layout fails, is paginated differently, or never draws a zone is not modelled.
- `doc.build` failing, the file system, and pyhanko's internals: pyhanko is `PdfLib`, which says whether the file opens and whether each field is accepted. `write_in_place` always works once both fields are accepted.
- Floating point: coordinates and sizes are `real`.
- `str.isdigit` and `str.lower` are modelled on ASCII; other Unicode digits and letters are not. `str.strip` uses the full set of characters `str.isspace` accepts, listed in `PyText.IsSpace`.
- Python's `True == 1` in equality and in dict keys, and `str()` of floats: `Json` keeps booleans and integers apart, and has no floats.
- Duplicate keys and key order in JSON objects: the last binding wins on lookup, as `json.loads` does, and iteration gives the keys as listed.
- `html.unescape` is an uninterpreted function of the host, except that text without '&' is returned unchanged.
- The column names given to pandas frames (asset 'Condition' versus the 'Asset Condition' header): they play no part in the rows laid out.
- Concurrency and timeouts: the scripts are sequential.
- Selection.NullArrayTruth: a list of two or more lists that are all empty (numpy sees zero elements) is taken to raise ValueError, and the truth of an empty element-wise array is taken as false, as in numpy before 2.2; newer numpy raises there.
- `Signing.SignatureZone.Draw` takes the position and the page number as arguments. The canvas calls that report them are reportlab's.

## Findings

| source | as written | input that shows it | evidently intended | confidence | as-written member | corrected member |
|---|---|---|---|---|---|---|
| snipeit_inv_sign.py:443-448 | `accessories_df` is assigned only inside the accessory loop, so for a user with an empty "rows" list the `.empty` test reads the previous user's table, or raises UnboundLocalError when that user is the first of the run. The "No Accessories Assigned to user" row is never produced | a user whose accessories reply is `{"rows": []}`, processed after a user whose accessory listing failed: the agreement shows "Error in data set" | a user with no accessories gets the one "No Accessories Assigned to user" row | high, not executed | Inventory.StaleAccessoryTable (on Inventory.AccessoryTable) | Inventory.AccessoryTableIntended, related by Inventory.AccessoryTableMatchesIntended |

The batch (`Batch.GetUsersStock`) models the code as written, so it uses
`Inventory.AccessoryTable`. `Batch.NoAccessoriesRowInAnyPdf` and
`Batch.EmptyAccessoriesInPdf` state what that means for the agreements
written.
