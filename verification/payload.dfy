/**
 * The multipart form Create and Edit send to the backend: five named string
 * parts in a fixed order, null strings sent as "" rather than omitted.
 */
module ProductPayload {
  import opened Wrappers
  import opened DotNetText
  import opened Guids
  import opened Dtos

  /** One `StringContent` added to the `MultipartFormDataContent` under `name`. */
  datatype Part = Part(name: string, content: string)

  const FieldOrder: seq<string> := ["Name", "Description", "Gender", "CategoryId", "BrandId"]

  function Names(parts: seq<Part>): (names: seq<string>)
    ensures |names| == |parts|
    ensures forall i :: 0 <= i < |parts| ==> names[i] == parts[i].name
  {
    if parts == [] then [] else [parts[0].name] + Names(parts[1..])
  }

  /**
   * The form for `f`: exactly the five parts in order, each carrying its field's
   * text; a null name or description becomes "" and its part is still sent.
   */
  function BuildForm(f: ProductFields): (parts: seq<Part>)
    ensures Names(parts) == FieldOrder
    ensures parts[0].content == f.name.GetOr("") && parts[1].content == f.description.GetOr("")
    ensures parts[2].content == Int32ToString(f.gender)
    ensures parts[3].content == GuidToString(f.categoryId) && parts[4].content == GuidToString(f.brandId)
  {
    [ Part("Name", f.name.GetOr("")),
      Part("Description", f.description.GetOr("")),
      Part("Gender", Int32ToString(f.gender)),
      Part("CategoryId", GuidToString(f.categoryId)),
      Part("BrandId", GuidToString(f.brandId)) ]
  }

  /** The content of the first part called `name`, as a form reader finds it. */
  function Lookup(parts: seq<Part>, name: string): (content: Option<string>)
    ensures content.Some? <==> exists i :: 0 <= i < |parts| && parts[i].name == name
  {
    if parts == [] then None
    else if parts[0].name == name then Some(parts[0].content)
    else
      var rest := Lookup(parts[1..], name);
      assert forall i :: 1 <= i < |parts| ==> parts[i] == parts[1..][i - 1];
      rest
  }

  lemma {:induction false} LookupFirst(parts: seq<Part>, i: nat, name: string)
    requires i < |parts| && parts[i].name == name
    requires forall j :: 0 <= j < i ==> parts[j].name != name
    ensures Lookup(parts, name) == Some(parts[i].content)
  {
    if i > 0 {
      LookupFirst(parts[1..], i - 1, name);
    }
  }

  /** What a receiver binds from the form: the fields, or None when a part is missing or unreadable. */
  function ReadForm(parts: seq<Part>): Option<ProductFields> {
    ReadFields(Lookup(parts, "Name"), Lookup(parts, "Description"), Lookup(parts, "Gender"),
               Lookup(parts, "CategoryId"), Lookup(parts, "BrandId"))
  }

  function ReadFields(name: Option<string>, description: Option<string>, gender: Option<string>,
                      category: Option<string>, brand: Option<string>): Option<ProductFields>
  {
    if name.None? || description.None? || gender.None? || category.None? || brand.None? then None
    else
      var g, c, b := ParseInt(gender.value), ReadGuid(category.value), ReadGuid(brand.value);
      if g.Some? && -0x8000_0000 <= g.value < 0x8000_0000 && c.Some? && b.Some? then
        Some(ProductFields(name, description, g.value as Int32, c.value, b.value))
      else None
  }

  /** A form laid out in the field order is read part by part. */
  lemma ReadFiveParts(name: string, description: string, gender: string, category: string, brand: string)
    ensures ReadForm([Part("Name", name), Part("Description", description), Part("Gender", gender),
                      Part("CategoryId", category), Part("BrandId", brand)])
            == ReadFields(Some(name), Some(description), Some(gender), Some(category), Some(brand))
  {
    var parts := [Part("Name", name), Part("Description", description), Part("Gender", gender),
                  Part("CategoryId", category), Part("BrandId", brand)];
    LookupFirst(parts, 0, "Name");
    LookupFirst(parts, 1, "Description");
    LookupFirst(parts, 2, "Gender");
    LookupFirst(parts, 3, "CategoryId");
    LookupFirst(parts, 4, "BrandId");
  }

  /**
   * Nothing is lost on the way to the backend except the difference between a
   * null and an empty name or description.
   */
  lemma FormRoundTrip(f: ProductFields)
    ensures ReadForm(BuildForm(f)) ==
              Some(ProductFields(Some(f.name.GetOr("")), Some(f.description.GetOr("")),
                                 f.gender, f.categoryId, f.brandId))
  {
    ReadFiveParts(f.name.GetOr(""), f.description.GetOr(""), Int32ToString(f.gender),
                  GuidToString(f.categoryId), GuidToString(f.brandId));
    Int32RoundTrip(f.gender);
    GuidTextRoundTrip(f.categoryId);
    GuidTextRoundTrip(f.brandId);
  }
}
