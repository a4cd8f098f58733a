/**
 * The projection behind `LoadDropdownsAsync`: each category or brand record
 * becomes one `SelectListItem` whose value is the record's GUID text and whose
 * text is its name.
 */
module Dropdowns {
  import opened Wrappers
  import opened Guids
  import opened Dtos

  datatype SelectListItem = SelectListItem(value: string, text: Option<string>)

  function ToSelectItem(r: NamedRecord): SelectListItem {
    SelectListItem(GuidToString(r.id), r.name)
  }

  /** `records.Select(...).ToList()`: one item per record, in the same order. */
  function ToSelectItems(records: seq<NamedRecord>): (items: seq<SelectListItem>)
    ensures |items| == |records|
    ensures forall i :: 0 <= i < |records| ==>
              items[i].value == GuidToString(records[i].id) && items[i].text == records[i].name
  {
    if records == [] then [] else [ToSelectItem(records[0])] + ToSelectItems(records[1..])
  }

  /** `records?.Select(...).ToList()`: a null list stays null. */
  function ToSelectList(records: Option<seq<NamedRecord>>): (items: Option<seq<SelectListItem>>)
    ensures items.None? <==> records.None?
    ensures records.Some? ==> items.value == ToSelectItems(records.value)
  {
    match records
    case None => None
    case Some(rs) => Some(ToSelectItems(rs))
  }

  /**
   * The value an operator picks in a dropdown reads back as the id of the
   * record it was built from, so the posted `CategoryId`/`BrandId` is that id.
   */
  lemma SelectedValueIsRecordId(records: seq<NamedRecord>, i: nat)
    requires i < |records|
    ensures ReadGuid(ToSelectItems(records)[i].value) == Some(records[i].id)
  {
    GuidTextRoundTrip(records[i].id);
  }
}
