/** What `generate_pdf` (snipeit_inv_sign.py, lines 182-352) puts into one
    user's loan agreement: the file name and the two inventory tables. The
    page layout itself is reportlab's and is not modelled. */
module Document {
  import opened PyJson
  import opened Inventory

  /** A header cell. */
  function Heading(s: string): Cell {
    Value(JStr(s))
  }

  const AssetHeader: Row := [Heading("Asset Status"), Heading("Asset Tag"), Heading("Asset Name"),
                             Heading("Asset Model"), Heading("Serial #"), Heading("Asset Condition")]
  const AccessoryHeader: Row := [Heading("Accessory Status"), Heading("Accessory Name"),
                                 Heading("Accessory ID"), Heading("Accessory Condition")]

  /** Lines 184 and 349: `f"{html.unescape(user_name)}_inventory.pdf"`. A
      name that `html.unescape` rejects (a missing name reads as NaN) raises,
      and nothing outside catches it. */
  function PdfFileName(userName: Json, host: Host): (r: Result<string>)
    ensures r.Ok? <==> Unescape(userName, host).Ok?
    ensures r.Err? ==> r.error == TypeError
  {
    var name :- Unescape(userName, host);
    Ok(Str(name, host) + "_inventory.pdf")
  }

  /** The name of the PDF of a user whose name is text. */
  lemma PdfFileNameOfText(name: string, host: Host)
    ensures PdfFileName(JStr(name), host) == Ok(UnescapeText(name, host) + "_inventory.pdf")
    ensures '&' !in name ==> PdfFileName(JStr(name), host) == Ok(name + "_inventory.pdf")
  {
  }

  /** Lines 257-264: a header row, then the rows of the frame, in order. */
  function TableData(header: Row, table: Table): (d: Table)
    ensures |d| == |table| + 1 && d[0] == header
    ensures forall k :: 0 <= k < |table| ==> d[k + 1] == table[k]
  {
    [header] + table
  }

  /** The content of one agreement: the employee's (unescaped) name, the
      e-mail after the fallback, the user id, and the two tables with their
      header rows. */
  datatype Draft = Draft(employee: Json, email: string, userId: Json, assetData: Table, accessoryData: Table)

  /** The draft `generate_pdf` lays out for one user, or the exception of line 184. */
  function MakeDraft(userName: Json, email: string, userId: Json, assets: Table, accessories: Table, host: Host): (r: Result<Draft>)
    ensures r.Ok? <==> PdfFileName(userName, host).Ok?
    ensures r.Err? ==> r.error == TypeError
    ensures r.Ok? ==> r.value.assetData == TableData(AssetHeader, assets) &&
                      r.value.accessoryData == TableData(AccessoryHeader, accessories) &&
                      r.value.email == email && r.value.userId == userId &&
                      r.value.employee == Unescape(userName, host).value
  {
    var employee :- Unescape(userName, host);
    Ok(Draft(employee, email, userId, TableData(AssetHeader, assets), TableData(AccessoryHeader, accessories)))
  }
}
