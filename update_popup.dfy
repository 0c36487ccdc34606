/** The edit popup: a snapshot of one product's editable fields, the colour
    list held as comma-separated text, a loading flag around the update
    request, and the refresh-then-close callbacks on success. */
module ProductUpdate {
  import opened Catalog

  // ---- the colour text: join, split and trim ----

  /** `colors.join(", ")`. */
  function JoinColors(colors: seq<string>): (s: string)
    ensures colors == [] ==> s == ""
  {
    if colors == [] then ""
    else if |colors| == 1 then colors[0]
    else colors[0] + ", " + JoinColors(colors[1..])
  }

  /** `parts.join(",")`, the inverse of the split below. */
  function JoinOnComma(parts: seq<string>): string {
    if parts == [] then ""
    else if |parts| == 1 then parts[0]
    else parts[0] + "," + JoinOnComma(parts[1..])
  }

  /** Each later colour with the blank that `", "` puts before it. */
  function Spaced(parts: seq<string>): (r: seq<string>)
    ensures |r| == |parts|
    ensures forall k :: 0 <= k < |r| ==> r[k] == " " + parts[k]
  {
    seq(|parts|, k requires 0 <= k < |parts| => " " + parts[k])
  }

  /** A blank in front of the first piece stays in front of the joined text. */
  lemma LeadingSpace(x: string, rest: seq<string>)
    ensures JoinOnComma([" " + x] + rest) == " " + JoinOnComma([x] + rest)
  {
    if rest != [] {
      assert ([" " + x] + rest)[1..] == rest;
      assert ([x] + rest)[1..] == rest;
    }
  }

  /** Joining with `", "` is joining with `","` after giving every colour but
      the first a leading blank. */
  lemma {:induction false} JoinColorsSpaced(colors: seq<string>)
    requires colors != []
    ensures JoinColors(colors) == JoinOnComma([colors[0]] + Spaced(colors[1..]))
    decreases |colors|
  {
    if |colors| == 1 {
      assert Spaced(colors[1..]) == [];
    } else {
      var rest := colors[1..];
      JoinColorsSpaced(rest);
      assert Spaced(rest) == [" " + rest[0]] + Spaced(rest[1..]);
      LeadingSpace(rest[0], Spaced(rest[1..]));
      var parts := [colors[0]] + Spaced(rest);
      assert parts[1..] == Spaced(rest);
      assert colors[0] + ", " + JoinOnComma([rest[0]] + Spaced(rest[1..])) ==
             colors[0] + "," + (" " + JoinOnComma([rest[0]] + Spaced(rest[1..])));
    }
  }

  /** Position of the first comma. */
  function FirstComma(s: string): (i: nat)
    requires ',' in s
    ensures i < |s| && s[i] == ','
    ensures forall m :: 0 <= m < i ==> s[m] != ','
  {
    if s[0] == ',' then 0
    else
      assert ',' in s[1..] by { var k :| 0 <= k < |s| && s[k] == ','; assert s[1..][k - 1] == ','; }
      1 + FirstComma(s[1..])
  }

  /** `text.split(",")`: the maximal comma-free pieces, at least one. */
  function SplitOnComma(s: string): (parts: seq<string>)
    ensures |parts| >= 1
    decreases |s|
  {
    if ',' !in s then [s]
    else
      var i := FirstComma(s);
      [s[..i]] + SplitOnComma(s[i + 1..])
  }

  /** Splitting loses nothing: joining the pieces with commas gives the text back. */
  lemma {:induction false} JoinSplit(s: string)
    ensures JoinOnComma(SplitOnComma(s)) == s
    decreases |s|
  {
    if ',' in s {
      var i := FirstComma(s);
      var rest := SplitOnComma(s[i + 1..]);
      var parts := [s[..i]] + rest;
      JoinSplit(s[i + 1..]);
      assert parts[1..] == rest;
      assert JoinOnComma(parts) == s[..i] + "," + JoinOnComma(rest);
      assert s == s[..i] + "," + s[i + 1..];
    }
  }

  /** No piece of the split holds a comma. */
  lemma {:induction false} SplitPiecesCommaFree(s: string)
    ensures forall k :: 0 <= k < |SplitOnComma(s)| ==> ',' !in SplitOnComma(s)[k]
    decreases |s|
  {
    if ',' in s {
      var i := FirstComma(s);
      SplitPiecesCommaFree(s[i + 1..]);
      assert ',' !in s[..i] by {
        forall m | 0 <= m < i ensures s[..i][m] != ',' { }
      }
    }
  }

  /** The characters JavaScript's `trim` removes that the model knows of:
      ASCII blanks and line breaks, no-break space, the byte-order mark and the
      Unicode line and paragraph separators. */
  predicate IsWhitespace(ch: char) {
    ch == ' ' || ch == '\t' || ch == '\n' || ch == '\r' || ch == '\U{000B}' || ch == '\U{000C}' ||
    ch == '\U{00A0}' || ch == '\U{FEFF}' || ch == '\U{2028}' || ch == '\U{2029}'
  }

  /** Whitespace only. */
  predicate Blank(s: string) {
    forall k :: 0 <= k < |s| ==> IsWhitespace(s[k])
  }

  /** No whitespace at either end. */
  predicate Trimmed(s: string) {
    s == "" || (!IsWhitespace(s[0]) && !IsWhitespace(s[|s| - 1]))
  }

  function TrimStart(s: string): (r: string)
    ensures r == "" || !IsWhitespace(r[0])
  {
    if s != "" && IsWhitespace(s[0]) then TrimStart(s[1..]) else s
  }

  function TrimEnd(s: string): (r: string)
    ensures r == "" || !IsWhitespace(r[|r| - 1])
  {
    if s != "" && IsWhitespace(s[|s| - 1]) then TrimEnd(s[..|s| - 1]) else s
  }

  /** Trimming the start cuts off a blank prefix and keeps the rest. */
  lemma {:induction false} TrimStartCut(s: string)
    ensures |TrimStart(s)| <= |s| && TrimStart(s) == s[|s| - |TrimStart(s)|..]
    ensures Blank(s[..|s| - |TrimStart(s)|])
    decreases |s|
  {
    if s != "" && IsWhitespace(s[0]) {
      TrimStartCut(s[1..]);
      var n := |s| - |TrimStart(s)|;
      assert s[1..][n - 1..] == s[n..];
      forall k | 0 <= k < n ensures IsWhitespace(s[..n][k]) {
        if k > 0 { assert s[..n][k] == s[1..][..n - 1][k - 1]; }
      }
    }
  }

  /** Trimming the end cuts off a blank suffix and keeps the rest. */
  lemma {:induction false} TrimEndCut(s: string)
    ensures |TrimEnd(s)| <= |s| && TrimEnd(s) == s[..|TrimEnd(s)|]
    ensures Blank(s[|TrimEnd(s)|..])
    decreases |s|
  {
    if s != "" && IsWhitespace(s[|s| - 1]) {
      var front := s[..|s| - 1];
      TrimEndCut(front);
      var m := |TrimEnd(s)|;
      assert front[..m] == s[..m];
      assert s[m..] == front[m..] + [s[|s| - 1]];
    }
  }

  /** Trimming the end keeps the first character of whatever is left. */
  lemma {:induction false} TrimEndKeepsStart(s: string)
    ensures TrimEnd(s) != "" ==> TrimEnd(s)[0] == s[0]
  {
    if s != "" && IsWhitespace(s[|s| - 1]) {
      TrimEndKeepsStart(s[..|s| - 1]);
    }
  }

  /** `s.trim()`: the text between the leading and the trailing whitespace. */
  function Trim(s: string): (r: string)
    ensures Trimmed(r)
  {
    TrimEndKeepsStart(TrimStart(s));
    TrimEnd(TrimStart(s))
  }

  /** Trim removes outer whitespace and nothing else: its result is a slice of
      the input with only whitespace before it and after it. */
  lemma TrimCutsOuterBlanks(s: string)
    ensures exists i, j :: 0 <= i <= j <= |s| && Trim(s) == s[i..j] && Blank(s[..i]) && Blank(s[j..])
  {
    var t := TrimStart(s);
    TrimStartCut(s);
    TrimEndCut(t);
    var i := |s| - |t|;
    var j := i + |TrimEnd(t)|;
    assert t == s[i..];
    assert Trim(s) == s[i..j];
    assert s[j..] == t[|TrimEnd(t)|..];
  }

  /** Trimming text that is already trimmed changes nothing. */
  lemma TrimTrimmed(s: string)
    requires Trimmed(s)
    ensures Trim(s) == s
  {
  }

  /** A leading blank is removed by trim. */
  lemma TrimLeadingBlank(s: string)
    ensures Trim(" " + s) == Trim(s)
  {
    assert (" " + s)[1..] == s;
  }

  function TrimAll(parts: seq<string>): (r: seq<string>)
    ensures |r| == |parts|
    ensures forall k :: 0 <= k < |r| ==> r[k] == Trim(parts[k])
  {
    seq(|parts|, k requires 0 <= k < |parts| => Trim(parts[k]))
  }

  lemma TrimAllCons(head: string, tail: seq<string>)
    ensures TrimAll([head] + tail) == [Trim(head)] + TrimAll(tail)
  {
    var l, r := TrimAll([head] + tail), [Trim(head)] + TrimAll(tail);
    forall k | 0 <= k < |l| ensures l[k] == r[k] {
      if k > 0 {
        assert ([head] + tail)[k] == tail[k - 1];
      }
    }
  }

  /** The colour text as sent: `text.split(",").map(c => c.trim())`. */
  function ParseColors(text: string): (colors: seq<string>)
    ensures |colors| >= 1
    ensures forall k :: 0 <= k < |colors| ==> Trimmed(colors[k])
  {
    TrimAll(SplitOnComma(text))
  }

  /** For comma-free `p`, the text up to the first comma of `p + "," + x` is `p`. */
  lemma SplitAtComma(p: string, x: string)
    requires ',' !in p
    ensures SplitOnComma(p + "," + x) == [p] + SplitOnComma(x)
  {
    var s := p + "," + x;
    assert s[|p|] == ',';
    var i := FirstComma(s);
    assert forall m :: 0 <= m < |p| ==> s[m] == p[m];
    assert i == |p|;
    assert s[..i] == p;
    assert s[i + 1..] == x;
  }

  /** A comma-free prefix joins the first piece of the split. */
  lemma SplitPrefix(p: string, s: string)
    requires ',' !in p
    ensures SplitOnComma(p + s) == [p + SplitOnComma(s)[0]] + SplitOnComma(s)[1..]
  {
    if ',' in s {
      var i := FirstComma(s);
      var q, r := s[..i], s[i + 1..];
      CommaFreeBeforeFirst(s);
      assert s == q + "," + r;
      SplitAtComma(q, r);
      SplitPrefixAtComma(p, q, r);
    } else {
      CommaFreeConcat(p, s);
    }
  }

  /** The comma case of `SplitPrefix`, with the text cut at its first comma. */
  lemma SplitPrefixAtComma(p: string, q: string, r: string)
    requires ',' !in p && ',' !in q
    ensures SplitOnComma(p + (q + "," + r)) == [p + q] + SplitOnComma(r)
  {
    CommaFreeConcat(p, q);
    assert p + (q + "," + r) == (p + q) + "," + r;
    SplitAtComma(p + q, r);
  }

  /** Nothing before the first comma is a comma. */
  lemma CommaFreeBeforeFirst(s: string)
    requires ',' in s
    ensures ',' !in s[..FirstComma(s)]
  {
    var i := FirstComma(s);
    forall m | 0 <= m < i ensures s[..i][m] != ',' { }
  }

  /** Two comma-free texts join into a comma-free text. */
  lemma CommaFreeConcat(p: string, q: string)
    requires ',' !in p && ',' !in q
    ensures ',' !in p + q
  {
    forall m | 0 <= m < |p + q| ensures (p + q)[m] != ',' {
      if m < |p| { assert (p + q)[m] == p[m]; } else { assert (p + q)[m] == q[m - |p|]; }
    }
  }

  /** A leading blank does not change the parsed colours. */
  lemma ParseLeadingBlank(s: string)
    ensures ParseColors(" " + s) == ParseColors(s)
  {
    SplitPrefix(" ", s);
    var parts := SplitOnComma(s);
    var blank := SplitOnComma(" " + s);
    TrimLeadingBlank(parts[0]);
    assert |blank| == |parts|;
    forall k | 0 <= k < |parts| ensures Trim(blank[k]) == Trim(parts[k]) {
      if k > 0 {
        assert blank[k] == parts[k];
      }
    }
  }

  /** The piece before a first comma is trimmed on its own. */
  lemma ParseAtComma(p: string, x: string)
    requires ',' !in p
    ensures ParseColors(p + "," + x) == [Trim(p)] + ParseColors(x)
  {
    SplitAtComma(p, x);
    TrimAllCons(p, SplitOnComma(x));
  }

  /** One step of the round trip: a well-formed first colour comes back on its
      own, ahead of the rest. */
  lemma RoundTripStep(c: string, tail: seq<string>)
    requires ',' !in c && Trimmed(c) && tail != []
    ensures ParseColors(JoinColors([c] + tail)) == [c] + ParseColors(JoinColors(tail))
  {
    var colors := [c] + tail;
    assert colors[1..] == tail;
    var rest := JoinColors(tail);
    assert JoinColors(colors) == c + "," + (" " + rest);
    ParseAtComma(c, " " + rest);
    ParseLeadingBlank(rest);
    TrimTrimmed(c);
  }

  /** The colour list round-trips through the popup's text field when it is
      non-empty and no entry holds a comma or outer whitespace. */
  lemma {:induction false} ColorRoundTrip(colors: seq<string>)
    requires colors != []
    requires forall k :: 0 <= k < |colors| ==> ',' !in colors[k] && Trimmed(colors[k])
    ensures ParseColors(JoinColors(colors)) == colors
  {
    var c := colors[0];
    if |colors| == 1 {
      TrimTrimmed(c);
      assert SplitOnComma(c) == [c];
      assert TrimAll([c])[0] == Trim(c);
    } else {
      var tail := colors[1..];
      assert forall k :: 0 <= k < |tail| ==> tail[k] == colors[k + 1];
      ColorRoundTrip(tail);
      assert colors == [c] + tail;
      RoundTripStep(c, tail);
    }
  }

  /** The empty colour list does not round-trip: it comes back as one empty entry. */
  lemma EmptyColorsParseToBlank()
    ensures ParseColors(JoinColors([])) == [""]
  {
    assert SplitOnComma("") == [""];
  }

  // ---- the popup ----

  /** The seven editable fields of the popup. */
  datatype Edits = Edits(
    name: string,
    description: string,
    pricing: string,
    category: string,
    stockTotal: string,
    stockStatus: string,
    colorText: string)

  /** `ColorRoundTrip` for every list, under its condition. */
  lemma ColorRoundTripWhenListed(colors: seq<string>)
    ensures colors != [] && (forall k :: 0 <= k < |colors| ==> ',' !in colors[k] && Trimmed(colors[k])) ==>
              ParseColors(JoinColors(colors)) == colors
  {
    if colors != [] && (forall k :: 0 <= k < |colors| ==> ',' !in colors[k] && Trimmed(colors[k])) {
      ColorRoundTrip(colors);
    }
  }

  /** The fields as copied from a product; the colours become text. */
  function Snapshot(p: Product): (e: Edits)
    ensures e.name == p.name && e.description == p.description && e.pricing == p.pricing
    ensures e.category == p.category && e.stockTotal == p.stock.total && e.stockStatus == p.stock.status
    ensures e.colorText == JoinColors(p.color)
    ensures p.color != [] && (forall k :: 0 <= k < |p.color| ==> ',' !in p.color[k] && Trimmed(p.color[k])) ==>
              ParseColors(e.colorText) == p.color
  {
    ColorRoundTripWhenListed(p.color);
    Edits(p.name, p.description, p.pricing, p.category, p.stock.total, p.stock.status, JoinColors(p.color))
  }

  /** The body of the update request: exactly these fields, nothing coerced;
      images and metadata are never part of it. */
  datatype UpdatePayload = UpdatePayload(
    name: string,
    description: string,
    pricing: string,
    category: string,
    stock: Stock,
    color: seq<string>)

  datatype UpdateRequest = UpdateRequest(productId: string, body: UpdatePayload)

  function PayloadOf(e: Edits): (u: UpdatePayload)
    ensures u.name == e.name && u.description == e.description && u.pricing == e.pricing
    ensures u.category == e.category && u.stock == Stock(e.stockTotal, e.stockStatus)
    ensures u.color == ParseColors(e.colorText)
  {
    UpdatePayload(e.name, e.description, e.pricing, e.category,
                  Stock(e.stockTotal, e.stockStatus), ParseColors(e.colorText))
  }

  /** Opening the popup and saving without an edit sends the product's own
      field values back, when its colour list is non-empty and well formed. */
  lemma UneditedUpdate(p: Product)
    requires p.color != []
    requires forall k :: 0 <= k < |p.color| ==> ',' !in p.color[k] && Trimmed(p.color[k])
    ensures PayloadOf(Snapshot(p)) ==
            UpdatePayload(p.name, p.description, p.pricing, p.category, p.stock, p.color)
  {
    ColorRoundTrip(p.color);
  }

  /** With no colours, saving without an edit sends one empty colour. */
  lemma UneditedUpdateNoColors(p: Product)
    requires p.color == []
    ensures PayloadOf(Snapshot(p)).color == [""]
  {
    EmptyColorsParseToBlank();
  }

  /** The callbacks the popup invokes, in the order it invokes them. */
  datatype Callback = RefreshList | Close

  class UpdateProductPopup {
    var product: Product
    var name: string
    var description: string
    var pricing: string
    var category: string
    var stockTotal: string
    var stockStatus: string
    var color: string
    var loading: bool

    function Fields(): (e: Edits)
      reads this
    {
      Edits(name, description, pricing, category, stockTotal, stockStatus, color)
    }

    /** Mounting on a product: the fields start as copies of its fields. */
    constructor (p: Product)
      ensures product == p && Fields() == Snapshot(p) && !loading
    {
      product := p;
      name, description, pricing, category := p.name, p.description, p.pricing, p.category;
      stockTotal, stockStatus := p.stock.total, p.stock.status;
      color := JoinColors(p.color);
      loading := false;
    }

    /** The update button is disabled while a request is outstanding. */
    predicate UpdateEnabled()
      reads this
    {
      !loading
    }

    /** The effect on a new `product` prop: all seven fields are overwritten
        from it, discarding unsaved edits. */
    method ProductChanged(p: Product)
      modifies this
      ensures product == p && Fields() == Snapshot(p) && loading == old(loading)
    {
      product := p;
      name := p.name;
      description := p.description;
      pricing := p.pricing;
      category := p.category;
      stockTotal := p.stock.total;
      stockStatus := p.stock.status;
      color := JoinColors(p.color);
    }

    /** The update handler up to its request: the payload is built from the
        current fields and `loading` is raised. */
    method StartUpdate() returns (request: UpdateRequest)
      modifies this
      ensures request == UpdateRequest(product.id, PayloadOf(Fields()))
      ensures Fields() == old(Fields()) && product == old(product)
      ensures loading && !UpdateEnabled()
    {
      request := UpdateRequest(product.id, PayloadOf(Fields()));
      loading := true;
    }

    /** The update handler after its request: on success the list is refreshed
        and then the popup closed; on a rejection or an exception neither is
        called and the edits stay. `loading` is cleared either way. */
    method FinishUpdate(reply: Reply) returns (calls: seq<Callback>)
      modifies this
      ensures calls == if reply == Succeeded then [RefreshList, Close] else []
      ensures Fields() == old(Fields()) && product == old(product)
      ensures !loading
    {
      calls := if reply == Succeeded then [RefreshList, Close] else [];
      loading := false;
    }
  }
}
