/**
 * The GamingParlour collection's schema (backend/src/models/GamingParlour.js): required
 * fields, the trimmed and bounded name, the bounded description, the rating range and
 * the defaults.
 */
module ParlourSchema {
  import opened Wrappers

  const MaxName: nat := 50
  const MaxDescription: nat := 500
  const MinRating: real := 0.0
  const MaxRating: real := 5.0

  datatype Parlour = Parlour(
    id: string,
    name: string,
    description: string,
    location: string,
    price: real,
    rating: real,
    numReviews: int,
    consoles: seq<string>,
    owner: string)

  datatype ParlourDraft = ParlourDraft(
    name: Option<string>,
    description: Option<string>,
    location: Option<string>,
    price: Option<real>,
    rating: Option<real>,
    numReviews: Option<int>,
    consoles: seq<string>,
    owner: Option<string>)

  // ---------------------------------------------------------------- trim

  /**
   * The characters `String.prototype.trim` strips: the white-space and line-terminator code
   * points of section 12.2 and 12.3 of ECMA-262 (tab, line feed, vertical tab, form feed,
   * carriage return, space, no-break space, the byte-order mark, and the space separators,
   * line separator and paragraph separator of Unicode).
   */
  predicate IsSpace(c: char)
  {
    || c == '\t' || c == '\n' || c == '\U{000B}' || c == '\U{000C}' || c == '\r' || c == ' '
    || c == '\U{00A0}' || c == '\U{1680}' || ('\U{2000}' <= c <= '\U{200A}')
    || c == '\U{2028}' || c == '\U{2029}' || c == '\U{202F}' || c == '\U{205F}'
    || c == '\U{3000}' || c == '\U{FEFF}'
  }

  function TrimStart(s: string): (r: string)
    ensures |r| <= |s| && r == s[|s| - |r|..]
    ensures r == [] || !IsSpace(r[0])
    ensures forall i :: 0 <= i < |s| - |r| ==> IsSpace(s[i])
  {
    if s != [] && IsSpace(s[0]) then TrimStart(s[1..]) else s
  }

  function TrimEnd(s: string): (r: string)
    ensures |r| <= |s| && r == s[..|r|]
    ensures r == [] || !IsSpace(r[|r| - 1])
    ensures forall i :: |r| <= i < |s| ==> IsSpace(s[i])
  {
    if s != [] && IsSpace(s[|s| - 1]) then TrimEnd(s[..|s| - 1]) else s
  }

  /** `String.prototype.trim`, the schema's `trim: true` setter on `name`. */
  function Trim(s: string): (r: string)
  {
    TrimEnd(TrimStart(s))
  }

  /** A trimmed text is a slice of the original with no surrounding whitespace, and trimming again changes nothing. */
  lemma TrimProperties(s: string)
    ensures |Trim(s)| <= |s|
    ensures Trim(s) == [] || (!IsSpace(Trim(s)[0]) && !IsSpace(Trim(s)[|Trim(s)| - 1]))
    ensures Trim(Trim(s)) == Trim(s)
  {
    var t := TrimStart(s);
    var r := TrimEnd(t);
    if r != [] {
      assert r[0] == t[0];
    }
    assert TrimStart(r) == r;
    assert TrimEnd(r) == r;
  }

  // ---------------------------------------------------------------- validation

  datatype ParlourField =
    | NameField | DescriptionField | LocationField | PriceField | RatingField | ConsoleField(index: nat) | OwnerField

  datatype Violation =
    Required(field: ParlourField) | TooLong(field: ParlourField) | BelowMin(field: ParlourField) | AboveMax(field: ParlourField)

  predicate Given(s: Option<string>)
  {
    s.Some? && s.value != ""
  }

  /** The `required` check on each element of `consoles`. */
  function ConsoleViolations(cs: seq<string>, from: nat): (v: seq<Violation>)
    ensures v == [] <==> forall i :: 0 <= i < |cs| ==> cs[i] != ""
    decreases |cs|
  {
    if cs == [] then []
    else (if cs[0] == "" then [Required(ConsoleField(from))] else []) + ConsoleViolations(cs[1..], from + 1)
  }

  /** Every schema violation, `name` checked after the trim setter has run. */
  function Violations(d: ParlourDraft): seq<Violation>
  {
    var name := if d.name.Some? then Some(Trim(d.name.value)) else None;
    (if !Given(name) then [Required(NameField)]
     else if |name.value| > MaxName then [TooLong(NameField)] else [])
    + (if !Given(d.description) then [Required(DescriptionField)]
       else if |d.description.value| > MaxDescription then [TooLong(DescriptionField)] else [])
    + (if Given(d.location) then [] else [Required(LocationField)])
    + (if d.price.Some? then [] else [Required(PriceField)])
    + (if d.rating.Some? && d.rating.value < MinRating then [BelowMin(RatingField)]
       else if d.rating.Some? && d.rating.value > MaxRating then [AboveMax(RatingField)] else [])
    + ConsoleViolations(d.consoles, 0)
    + (if Given(d.owner) then [] else [Required(OwnerField)])
  }

  /** `GamingParlour.create` / a validated update: violations, or the document with its defaults. */
  function Validate(id: string, d: ParlourDraft): (r: Result<Parlour, seq<Violation>>)
    ensures r.Ok? <==>
      && d.name.Some? && 0 < |Trim(d.name.value)| <= MaxName
      && Given(d.description) && |d.description.value| <= MaxDescription
      && Given(d.location) && d.price.Some? && Given(d.owner)
      && (d.rating.None? || MinRating <= d.rating.value <= MaxRating)
      && (forall i :: 0 <= i < |d.consoles| ==> d.consoles[i] != "")
    ensures r.Ok? ==>
      && r.value.name == Trim(d.name.value)
      && 0 < |r.value.name| <= MaxName
      && |r.value.description| <= MaxDescription
      && MinRating <= r.value.rating <= MaxRating
      && (d.rating.None? ==> r.value.rating == 0.0)
      && (d.numReviews.None? ==> r.value.numReviews == 0)
      && r.value.owner == d.owner.value
    ensures r.Ok? ==>
      && r.value.id == id
      && r.value.description == d.description.value && r.value.location == d.location.value
      && r.value.price == d.price.value && r.value.consoles == d.consoles
      && (d.rating.Some? ==> r.value.rating == d.rating.value)
      && (d.numReviews.Some? ==> r.value.numReviews == d.numReviews.value)
    ensures r.Err? ==> r.error != []
  {
    var v := Violations(d);
    if v == [] then
      Ok(Parlour(id, Trim(d.name.value), d.description.value, d.location.value, d.price.value,
                 if d.rating.Some? then d.rating.value else 0.0,
                 if d.numReviews.Some? then d.numReviews.value else 0,
                 d.consoles, d.owner.value))
    else Err(v)
  }

  /** A name of one no-break space trims to the empty text and is refused as missing. */
  lemma NoBreakSpaceNameRefused(d: ParlourDraft)
    requires d.name == Some("\U{00A0}")
    ensures Validate("p1", d) == Err(Violations(d))
    ensures Violations(d)[0] == Required(NameField)
  {
    var s := "\U{00A0}";
    assert IsSpace(s[0]) && s[1..] == [];
    assert TrimStart(s) == [];
  }

  /** The schema's element-wise `required` lets an empty console list through. */
  lemma EmptyConsoleListAccepted()
    ensures Validate("p1", ParlourDraft(Some("Arena"), Some("Consoles"), Some("Pune"), Some(5.0), None, None, [], Some("u1"))).Ok?
  {
    var s := "Arena";
    assert !IsSpace(s[0]) && !IsSpace(s[4]);
    assert TrimStart(s) == s;
    assert TrimEnd(s) == s;
  }
}
