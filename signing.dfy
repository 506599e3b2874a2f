/** The two signature zones of the agreement (snipeit_inv_sign.py, lines
    65-100), which record where reportlab drew them, and `modify_pdf` (lines
    129-177), which turns those records into signature fields appended to the
    written PDF. */
module Signing {
  import opened PyJson
  import opened Document

  /** `(x, y, width, height)` as `draw` stores it. */
  datatype Coordinates = Coordinates(x: real, y: real, width: real, height: real)

  /** What a zone has recorded: both None until it is drawn. */
  datatype Anchor = Anchor(coordinates: Option<Coordinates>, pageNumber: Option<int>)

  /** `SignatureField` and `AuthorizationField`: the two classes differ only
      in their default title, so both are this class with one constructor
      each. */
  class SignatureZone {
    const title: string
    const width: real
    const height: real
    var coordinates: Option<Coordinates>
    var pageNumber: Option<int>

    /** `SignatureField()`: title 'emp_sig', 216 by 36 points unless told otherwise. */
    constructor Employee(width: real := 216.0, height: real := 36.0)
      ensures title == "emp_sig" && this.width == width && this.height == height
      ensures coordinates.None? && pageNumber.None?
    {
      title := "emp_sig";
      this.width := width;
      this.height := height;
      coordinates := None;
      pageNumber := None;
    }

    /** `AuthorizationField()`: title 'auth_sig', 216 by 36 points unless told otherwise. */
    constructor Authorizer(width: real := 216.0, height: real := 36.0)
      ensures title == "auth_sig" && this.width == width && this.height == height
      ensures coordinates.None? && pageNumber.None?
    {
      title := "auth_sig";
      this.width := width;
      this.height := height;
      coordinates := None;
      pageNumber := None;
    }

    /** `draw`, given what the canvas reports: the absolute position of the
        zone's origin and the current page number. */
    method Draw(x: real, y: real, page: int)
      modifies this
      ensures coordinates == Some(Coordinates(x, y, width, height))
      ensures pageNumber == Some(page)
    {
      coordinates := Some(Coordinates(x, y, width, height));
      pageNumber := Some(page);
    }

    function Captured(): Anchor
      reads this
    {
      Anchor(coordinates, pageNumber)
    }
  }

  /** A box as pyhanko takes it: lower-left and upper-right corners. */
  datatype Box = Box(x1: real, y1: real, x2: real, y2: real)

  /** Lines 137-142: the corners of the recorded rectangle. */
  function BoxOf(c: Coordinates): (b: Box)
    ensures b.x1 == c.x && b.y1 == c.y
    ensures b.x2 - b.x1 == c.width && b.y2 - b.y1 == c.height
  {
    Box(c.x, c.y, c.x + c.width, c.y + c.height)
  }

  /** `SigFieldSpec(sig_field_name=..., on_page=..., box=...)`. */
  datatype SigFieldSpec = SigFieldSpec(name: string, onPage: int, box: Box)

  /** Lines 135-149 (and 155-169): the specification of the field for one
      zone. `page_number - 1` on None, or indexing None coordinates, raises
      TypeError. */
  function FieldSpec(name: string, a: Anchor): (r: Result<SigFieldSpec>)
    ensures r.Ok? <==> a.coordinates.Some? && a.pageNumber.Some?
    ensures r.Err? ==> r.error == TypeError
    ensures r.Ok? ==> r.value.name == name
  {
    match a.pageNumber
    case None => Err(TypeError)
    case Some(p) =>
      match a.coordinates
      case None => Err(TypeError)
      case Some(c) => Ok(SigFieldSpec(name, p - 1, BoxOf(c)))
  }

  /** A zone drawn on page p (numbered from 1) gives a field on page index
      p - 1 whose box has the zone's own width and height, anchored where the
      zone was drawn. */
  lemma DrawnZoneField(name: string, x: real, y: real, w: real, h: real, page: int)
    ensures var r := FieldSpec(name, Anchor(Some(Coordinates(x, y, w, h)), Some(page)));
            r.Ok? && r.value.onPage + 1 == page &&
            r.value.box.x1 == x && r.value.box.y1 == y &&
            r.value.box.x2 - r.value.box.x1 == w && r.value.box.y2 - r.value.box.y1 == h
  {
  }

  /** A PDF on disk: what was laid out, and the signature fields appended to it. */
  datatype PdfFile = PdfFile(content: Draft, fields: seq<SigFieldSpec>)

  /** pyhanko, seen from outside: whether `IncrementalPdfFileWriter` can read
      a file, and whether `append_signature_field` takes a field given the
      fields already there. Either refusal is an exception. */
  datatype PdfLib = PdfLib(opens: PdfFile -> bool, accepts: (seq<SigFieldSpec>, SigFieldSpec) -> bool)

  /** Lines 130-177: the file after `modify_pdf`, or None when an exception
      was raised, caught and printed, and `write_in_place` never ran. */
  function Patch(file: PdfFile, emp: Anchor, auth: Anchor, lib: PdfLib): (r: Option<PdfFile>)
    ensures r.Some? ==> lib.opens(file) && r.value.content == file.content
    ensures r.Some? ==> |r.value.fields| == |file.fields| + 2 &&
                        r.value.fields[..|file.fields|] == file.fields &&
                        r.value.fields[|file.fields|].name == "Sig1" &&
                        r.value.fields[|file.fields| + 1].name == "Auth1"
  {
    if !lib.opens(file) then None
    else
      match FieldSpec("Sig1", emp)
      case Err(_) => None
      case Ok(sig) =>
        if !lib.accepts(file.fields, sig) then None
        else
          match FieldSpec("Auth1", auth)
          case Err(_) => None
          case Ok(au) =>
            if !lib.accepts(file.fields + [sig], au) then None
            else Some(PdfFile(file.content, file.fields + [sig, au]))
  }

  /** When the patch goes through, the content is untouched and exactly two
      fields are added after the existing ones: 'Sig1' for the employee's
      zone, then 'Auth1' for the authorizer's. */
  lemma PatchAppendsSigThenAuth(file: PdfFile, emp: Anchor, auth: Anchor, lib: PdfLib)
    requires Patch(file, emp, auth, lib).Some?
    ensures var out := Patch(file, emp, auth, lib).value;
            out.content == file.content &&
            |out.fields| == |file.fields| + 2 &&
            out.fields[..|file.fields|] == file.fields &&
            out.fields[|file.fields|] == FieldSpec("Sig1", emp).value &&
            out.fields[|file.fields| + 1] == FieldSpec("Auth1", auth).value
  {
    var out := Patch(file, emp, auth, lib).value;
    assert out.fields[..|file.fields|] == file.fields;
  }

  /** The patch goes through exactly when the file opens, both zones were
      drawn, and pyhanko accepts both fields in turn. */
  lemma PatchSucceedsIff(file: PdfFile, emp: Anchor, auth: Anchor, lib: PdfLib)
    ensures Patch(file, emp, auth, lib).Some? <==>
              lib.opens(file) && FieldSpec("Sig1", emp).Ok? && FieldSpec("Auth1", auth).Ok? &&
              lib.accepts(file.fields, FieldSpec("Sig1", emp).value) &&
              lib.accepts(file.fields + [FieldSpec("Sig1", emp).value], FieldSpec("Auth1", auth).value)
  {
  }

  /** A zone that was never drawn makes the whole patch fail: not even the
      employee field is written. */
  lemma UndrawnZoneLeavesFile(file: PdfFile, emp: Anchor, auth: Anchor, lib: PdfLib)
    requires emp.pageNumber.None? || emp.coordinates.None? || auth.pageNumber.None? || auth.coordinates.None?
    ensures Patch(file, emp, auth, lib).None?
  {
  }

  /** The files the scripts write, by name. */
  class Disk {
    var files: map<string, PdfFile>

    constructor (files: map<string, PdfFile>)
      ensures this.files == files
    {
      this.files := files;
    }

    /** `doc.build(story)`: writes the laid-out file, without fields. */
    method Build(name: string, content: Draft)
      modifies this
      ensures files == old(files)[name := PdfFile(content, [])]
    {
      files := files[name := PdfFile(content, [])];
    }

    /** `modify_pdf(pdf_filename, emp_sig, auth_sig)`: opens the file, appends
        the two fields, writes in place; a missing file or any exception
        leaves the disk as it was. */
    method ModifyPdf(name: string, emp: SignatureZone, auth: SignatureZone, lib: PdfLib)
      modifies this
      ensures name in old(files) && Patch(old(files)[name], emp.Captured(), auth.Captured(), lib).Some? ==>
                files == old(files)[name := Patch(old(files)[name], emp.Captured(), auth.Captured(), lib).value]
      ensures !(name in old(files) && Patch(old(files)[name], emp.Captured(), auth.Captured(), lib).Some?) ==>
                files == old(files)
    {
      if name !in files {
        return;   // open() raises FileNotFoundError
      }
      var doc := files[name];
      if !lib.opens(doc) {
        return;
      }
      var sig := FieldSpec("Sig1", emp.Captured());
      if sig.Err? || !lib.accepts(doc.fields, sig.value) {
        return;
      }
      var fields := doc.fields + [sig.value];
      var au := FieldSpec("Auth1", auth.Captured());
      if au.Err? || !lib.accepts(fields, au.value) {
        return;
      }
      fields := fields + [au.value];
      assert fields == doc.fields + [sig.value, au.value];
      files := files[name := PdfFile(doc.content, fields)];   // write_in_place
    }
  }
}
