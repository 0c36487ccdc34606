/** The product-creation form: a draft of every product field, an ordered list
    of uploaded image URLs, the colour toggle, and the two in-flight flags
    `isUploading` and `isSubmitting`. Each awaited request is split into a
    start step and a finish step that receives the request's outcome. */
module AddForm {
  import opened Catalog
  import opened Lists

  /** The largest accepted upload, in bytes (1 MiB; exactly this size passes). */
  const MaxFileSize := 1048576
  /** MIME types the upload accepts. */
  const AllowedTypes := ["image/jpeg", "image/png", "image/jpg"]
  /** The upload control is shown only while fewer images than this exist. */
  const MaxImages := 4

  datatype File = File(size: nat, mimeType: string)

  /** What the image host answered: a secure URL, or a thrown error. */
  datatype UploadResult = Uploaded(secureUrl: string) | UploadFailed

  /** The outcome of the checks made before any upload request. */
  datatype UploadCheck = NoFile | TooLarge | WrongType | Accepted

  /** The pre-request checks of the upload handler, in source order: a missing
      file, then the size, then the MIME type. */
  function CheckUpload(file: Option<File>): (c: UploadCheck)
    ensures c == Accepted <==>
              file.Some? && file.value.size <= MaxFileSize && file.value.mimeType in AllowedTypes
    ensures c == NoFile <==> file.None?
    ensures c == TooLarge <==> file.Some? && file.value.size > MaxFileSize
    ensures c == WrongType ==> file.Some? && file.value.mimeType !in AllowedTypes
  {
    match file
    case None => NoFile
    case Some(f) =>
      if f.size > MaxFileSize then TooLarge
      else if f.mimeType !in AllowedTypes then WrongType
      else Accepted
  }

  /** The colour checkbox updater: a present colour is filtered out, an absent
      one is appended. */
  function ToggleColor(colors: seq<string>, c: string): (r: seq<string>)
    ensures forall y :: y in r <==> (y in colors) != (y == c)
    ensures c !in colors ==> r == colors + [c]
  {
    if c in colors then Without(colors, c) else colors + [c]
  }

  /** Removing a present colour keeps every other colour in its order. */
  lemma ToggleRemovesAt(colors: seq<string>, i: nat)
    requires NoDuplicates(colors) && i < |colors|
    ensures ToggleColor(colors, colors[i]) == colors[..i] + colors[i + 1..]
  {
    WithoutAt(colors, i, colors[i]);
  }

  /** The toggle keeps a duplicate-free colour list duplicate-free. */
  lemma ToggleNoDuplicates(colors: seq<string>, c: string)
    requires NoDuplicates(colors)
    ensures NoDuplicates(ToggleColor(colors, c))
  {
    if c in colors {
      WithoutNoDuplicates(colors, c);
    } else {
      AppendNoDuplicates(colors, c);
    }
  }

  /** Toggling an absent colour twice restores the list exactly. */
  lemma ToggleTwiceAbsent(colors: seq<string>, c: string)
    requires c !in colors
    ensures ToggleColor(ToggleColor(colors, c), c) == colors
  {
    WithoutAppended(colors, c);
  }

  /** Toggling a present colour twice restores the same colours, but the
      colour toggled now comes last. */
  lemma ToggleTwicePresent(colors: seq<string>, i: nat)
    requires NoDuplicates(colors) && i < |colors|
    ensures ToggleColor(ToggleColor(colors, colors[i]), colors[i])
            == colors[..i] + colors[i + 1..] + [colors[i]]
    ensures forall y :: y in ToggleColor(ToggleColor(colors, colors[i]), colors[i]) <==> y in colors
  {
    ToggleRemovesAt(colors, i);
  }

  /** In a duplicate-free list, toggling a present colour twice gives back the
      very same list exactly when that colour was already the last one. */
  lemma ToggleTwiceRestoresIffLast(colors: seq<string>, i: nat)
    requires NoDuplicates(colors) && i < |colors|
    ensures ToggleColor(ToggleColor(colors, colors[i]), colors[i]) == colors <==> i == |colors| - 1
  {
    ToggleTwicePresent(colors, i);
    var back := colors[..i] + colors[i + 1..] + [colors[i]];
    if i == |colors| - 1 {
      assert colors[i + 1..] == [];
      assert colors == colors[..i] + [colors[i]];
    } else {
      assert back[|back| - 1] == colors[i];
      assert colors[|colors| - 1] != colors[i];
    }
  }

  // ---- numeric coercion of the payload ----

  /** A coerced numeric field. `Int(v)` is parseInt of a plain digit string
      of value at most 2^53; `IntOf(t)` stands for parseInt(t, 10) on any other
      text and `FloatOf(t)` for parseFloat(t); neither of those is interpreted. */
  datatype Number = Int(value: nat) | IntOf(text: string) | FloatOf(text: string)

  predicate IsDigit(ch: char) {
    '0' <= ch <= '9'
  }

  predicate AllDigits(s: string) {
    forall i :: 0 <= i < |s| ==> IsDigit(s[i])
  }

  function DigitsValue(s: string): nat
    requires AllDigits(s)
  {
    if s == [] then 0
    else DigitsValue(s[..|s| - 1]) * 10 + (s[|s| - 1] as int - '0' as int)
  }

  /** 2^53: parseInt's double holds every natural number up to this one
      exactly; a longer digit string is rounded, or becomes Infinity. */
  const ExactIntLimit: nat := 9007199254740992

  /** `parseInt(text, 10)`, interpreted for plain digit strings whose value
      the double holds exactly. */
  function ParseInt(text: string): (n: Number)
    ensures n.Int? <==> text != [] && AllDigits(text) && DigitsValue(text) <= ExactIntLimit
    ensures n.Int? ==> n.value == DigitsValue(text)
    ensures !n.Int? ==> n == IntOf(text)
  {
    if text != [] && AllDigits(text) && DigitsValue(text) <= ExactIntLimit then Int(DigitsValue(text))
    else IntOf(text)
  }

  /** The decimal rendering of a natural number, without leading zeros. */
  function Show(n: nat): (s: string)
    decreases n
  {
    if n < 10 then [('0' as int + n) as char]
    else Show(n / 10) + [('0' as int + n % 10) as char]
  }

  /** parseInt reads back any number up to 2^53 typed in plain decimal. */
  lemma {:induction false} ParseIntShow(n: nat)
    requires n <= ExactIntLimit
    ensures ParseInt(Show(n)) == Int(n)
  {
    ShowDigits(n);
  }

  /** The stock total typed as "10" is sent as the integer 10. */
  lemma ParseTen()
    ensures ParseInt("10") == Int(10)
  {
    ParseIntShow(10);
    assert Show(10) == "10";
  }

  lemma {:induction false} ShowDigits(n: nat)
    ensures Show(n) != [] && AllDigits(Show(n)) && DigitsValue(Show(n)) == n
    decreases n
  {
    if n >= 10 {
      ShowDigits(n / 10);
      var s := Show(n);
      assert s[..|s| - 1] == Show(n / 10);
    }
  }

  // ---- the draft and the creation payload ----

  /** Every field of the form that the operator fills in. */
  datatype Draft = Draft(
    name: string,
    description: string,
    pricing: string,
    category: string,
    color: seq<string>,
    stock: Stock,
    metadata: Metadata,
    imageUrls: seq<string>)

  /** The draft as the form holds it on mount, and again after a successful
      submission. */
  const EmptyDraft := Draft("", "", "", "", [], Stock("", InStock),
                            Metadata("", "", Dimensions("", "", "")), [])

  datatype StockPayload = StockPayload(total: Number, status: string)
  datatype DimensionsPayload = DimensionsPayload(width: Number, height: Number, length: Number)
  datatype MetadataPayload = MetadataPayload(brand: string, weight: Number, dimensions: DimensionsPayload)

  /** The body of the create request. */
  datatype CreatePayload = CreatePayload(
    name: string,
    description: string,
    pricing: Number,
    category: string,
    stock: StockPayload,
    color: seq<string>,
    metadata: MetadataPayload,
    images: seq<string>)

  /** The payload object built from the draft: text fields, the stock status,
      the colours and the image URLs pass through; pricing, weight and the
      dimensions go through parseFloat and the stock total through parseInt. */
  function BuildPayload(d: Draft): (p: CreatePayload)
    ensures p.name == d.name && p.description == d.description && p.category == d.category
    ensures p.stock.status == d.stock.status && p.color == d.color && p.images == d.imageUrls
    ensures p.metadata.brand == d.metadata.brand
    ensures p.stock.total == ParseInt(d.stock.total)
    ensures p.pricing == FloatOf(d.pricing) && p.metadata.weight == FloatOf(d.metadata.weight)
    ensures p.metadata.dimensions == DimensionsPayload(FloatOf(d.metadata.dimensions.width),
                                                       FloatOf(d.metadata.dimensions.height),
                                                       FloatOf(d.metadata.dimensions.length))
  {
    CreatePayload(
      d.name, d.description, FloatOf(d.pricing), d.category,
      StockPayload(ParseInt(d.stock.total), d.stock.status),
      d.color,
      MetadataPayload(d.metadata.brand, FloatOf(d.metadata.weight),
        DimensionsPayload(FloatOf(d.metadata.dimensions.width),
                          FloatOf(d.metadata.dimensions.height),
                          FloatOf(d.metadata.dimensions.length))),
      d.imageUrls)
  }

  /** One of the required fields is the empty string (falsy in the source). */
  predicate RequiredMissing(d: Draft) {
    d.name == "" || d.description == "" || d.pricing == "" || d.category == "" || d.stock.total == ""
  }

  /** The outcome of the submit handler's validation. */
  datatype SubmitCheck = MissingFields | NoImages | Ready(payload: CreatePayload)

  /** Submit validation: the required fields are checked first, then the
      image list; only a draft passing both yields a payload. */
  function CheckSubmit(d: Draft): (c: SubmitCheck)
    ensures c == MissingFields <==> RequiredMissing(d)
    ensures c == NoImages <==> !RequiredMissing(d) && d.imageUrls == []
    ensures c.Ready? ==> c.payload == BuildPayload(d) && |c.payload.images| >= 1
  {
    if RequiredMissing(d) then MissingFields
    else if |d.imageUrls| == 0 then NoImages
    else Ready(BuildPayload(d))
  }

  class ProductForm {
    var imageUrls: seq<string>
    var name: string
    var description: string
    var pricing: string
    var category: string
    var color: seq<string>
    var stock: Stock
    var metadata: Metadata
    var isUploading: bool
    var isSubmitting: bool

    /** The operator-editable state as one value. */
    function CurrentDraft(): (d: Draft)
      reads this
    {
      Draft(name, description, pricing, category, color, stock, metadata, imageUrls)
    }

    /** The form as mounted: an empty draft and no request in flight. */
    constructor ()
      ensures CurrentDraft() == EmptyDraft
      ensures !isUploading && !isSubmitting
    {
      imageUrls := [];
      name, description, pricing, category := "", "", "", "";
      color := [];
      stock := Stock("", InStock);
      metadata := Metadata("", "", Dimensions("", "", ""));
      isUploading, isSubmitting := false, false;
    }

    /** The save button is enabled exactly when no request is in flight. */
    predicate SubmitEnabled()
      reads this
    {
      !isSubmitting && !isUploading
    }

    /** The upload control is shown only below the image cap. */
    predicate UploadOffered()
      reads this
    {
      |imageUrls| < MaxImages
    }

    /** The upload handler up to its request: a file failing a check issues no
        request and changes nothing; an accepted one raises `isUploading`. */
    method StartUpload(file: Option<File>) returns (check: UploadCheck)
      modifies this
      ensures check == CheckUpload(file)
      ensures CurrentDraft() == old(CurrentDraft()) && isSubmitting == old(isSubmitting)
      ensures isUploading == if check == Accepted then true else old(isUploading)
    {
      check := CheckUpload(file);
      if check == Accepted {
        isUploading := true;
      }
    }

    /** The upload handler after its request: a returned URL is appended at the
        end; either way `isUploading` is cleared. */
    method FinishUpload(result: UploadResult)
      modifies this
      ensures imageUrls == match result
                           case Uploaded(url) => old(imageUrls) + [url]
                           case UploadFailed => old(imageUrls)
      ensures CurrentDraft() == old(CurrentDraft()).(imageUrls := imageUrls)
      ensures !isUploading && isSubmitting == old(isSubmitting)
    {
      match result {
        case Uploaded(url) =>
          imageUrls := imageUrls + [url];
        case UploadFailed =>
      }
      isUploading := false;
    }

    /** The colour checkbox handler. */
    method HandleColorChange(c: string)
      modifies this
      ensures color == ToggleColor(old(color), c)
      ensures CurrentDraft() == old(CurrentDraft()).(color := color)
      ensures isUploading == old(isUploading) && isSubmitting == old(isSubmitting)
    {
      color := ToggleColor(color, c);
    }

    /** The submit handler up to its request: a draft failing validation is
        refused with nothing changed; otherwise `isSubmitting` is raised and the
        payload built from the draft is returned for sending. */
    method StartSubmit() returns (check: SubmitCheck)
      modifies this
      ensures check == CheckSubmit(old(CurrentDraft()))
      ensures CurrentDraft() == old(CurrentDraft()) && isUploading == old(isUploading)
      ensures isSubmitting == if check.Ready? then true else old(isSubmitting)
      ensures check.Ready? ==> !SubmitEnabled()
    {
      check := CheckSubmit(CurrentDraft());
      if check.Ready? {
        isSubmitting := true;
      }
    }

    /** The submit handler after its request: on success every draft field is
        reset to its mount-time value; on a rejection or an exception the draft
        is kept. Either way `isSubmitting` is cleared. */
    method FinishSubmit(reply: Reply)
      modifies this
      ensures CurrentDraft() == if reply == Succeeded then EmptyDraft else old(CurrentDraft())
      ensures !isSubmitting && isUploading == old(isUploading)
    {
      if reply == Succeeded {
        name := "";
        description := "";
        pricing := "";
        category := "";
        color := [];
        stock := Stock("", InStock);
        metadata := Metadata("", "", Dimensions("", "", ""));
        imageUrls := [];
      }
      isSubmitting := false;
    }
  }

  /** The draft of the chair example: every required field filled and one image. */
  function ChairDraft(url: string): Draft {
    EmptyDraft.(name := "Chair A", description := "Oak chair", pricing := "49.99",
                category := "chair", stock := Stock("10", InStock), imageUrls := [url])
  }

  /** A freshly mounted form is filled in: the fields, then one accepted upload.
      While the upload is in flight the submit button is disabled
      (`enabledWhileUploading`); afterwards it is enabled. */
  method FillChairForm(url: string) returns (form: ProductForm, enabledWhileUploading: bool)
    ensures fresh(form)
    ensures !enabledWhileUploading
    ensures form.CurrentDraft() == ChairDraft(url) && form.SubmitEnabled()
  {
    form := new ProductForm();
    form.name, form.description, form.pricing, form.category := "Chair A", "Oak chair", "49.99", "chair";
    form.stock := Stock("10", InStock);
    var check := form.StartUpload(Some(File(20000, "image/png")));
    assert check == Accepted;
    enabledWhileUploading := form.SubmitEnabled();
    form.FinishUpload(Uploaded(url));
  }

  /** A whole creation, driven through the form's own contracts: the filled
      chair form is submitted and the backend accepts it. The payload carries
      the stock total as the integer 10 and the image URL, and the form ends
      empty. */
  method CreateChairExample(url: string) returns (payload: CreatePayload, after: Draft)
    ensures payload.name == "Chair A" && payload.pricing == FloatOf("49.99")
    ensures payload.stock == StockPayload(Int(10), InStock)
    ensures payload.images == [url]
    ensures after == EmptyDraft
  {
    var form, _ := FillChairForm(url);
    assert !RequiredMissing(ChairDraft(url));
    var submit := form.StartSubmit();
    ParseTen();
    payload := submit.payload;
    form.FinishSubmit(Succeeded);
    after := form.CurrentDraft();
  }
}
