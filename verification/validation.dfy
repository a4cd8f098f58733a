/**
 * The field checks Create and Edit run, in this order, before any write to the
 * backend. Only the first rule that fails is reported.
 */
module ProductValidation {
  import opened Wrappers
  import opened DotNetText
  import opened Guids
  import opened Dtos

  const MaxDescriptionLength := 500

  datatype Rule = NameRequired | DescriptionTooLong | CategoryRequired | BrandRequired

  /** Position of a rule in the chain. */
  function Rank(rule: Rule): nat {
    match rule
    case NameRequired => 0
    case DescriptionTooLong => 1
    case CategoryRequired => 2
    case BrandRequired => 3
  }

  /** The model error each rule adds when it fails. */
  function Message(rule: Rule): string {
    match rule
    case NameRequired => "Tên sản phẩm không được để trống."
    case DescriptionTooLong => "Mô tả không được vượt quá 500 ký tự."
    case CategoryRequired => "Chọn danh mục sản phẩm hợp lệ."
    case BrandRequired => "Chọn thương hiệu sản phẩm hợp lệ."
  }

  /** A description is too long only when it is not blank and its `Length` exceeds the limit. */
  predicate DescriptionTooLongIn(description: Option<string>) {
    !IsNullOrWhiteSpace(description) && Utf16Length(description.value) > MaxDescriptionLength
  }

  /** Whether `f` fails `rule`, judged on its own. */
  predicate Violates(rule: Rule, f: ProductFields) {
    match rule
    case NameRequired => IsNullOrWhiteSpace(f.name)
    case DescriptionTooLong => DescriptionTooLongIn(f.description)
    case CategoryRequired => f.categoryId == EmptyGuid
    case BrandRequired => f.brandId == EmptyGuid
  }

  /**
   * The chain of early returns: the rule reported for `f`, if any. It is a rule
   * `f` fails, and `f` passes every rule ahead of it; None exactly when `f`
   * passes them all.
   */
  function FirstViolation(f: ProductFields): (v: Option<Rule>)
    ensures v.None? <==> forall rule: Rule :: !Violates(rule, f)
    ensures v.Some? ==> Violates(v.value, f)
    ensures v.Some? ==> forall rule: Rule :: Rank(rule) < Rank(v.value) ==> !Violates(rule, f)
  {
    if IsNullOrWhiteSpace(f.name) then
      assert Violates(NameRequired, f); Some(NameRequired)
    else if DescriptionTooLongIn(f.description) then
      assert Violates(DescriptionTooLong, f); Some(DescriptionTooLong)
    else if f.categoryId == EmptyGuid then
      assert Violates(CategoryRequired, f); Some(CategoryRequired)
    else if f.brandId == EmptyGuid then
      assert Violates(BrandRequired, f); Some(BrandRequired)
    else None
  }

  /** A blank name is reported, whatever the other fields hold. */
  lemma BlankNameReportedFirst(f: ProductFields)
    requires IsNullOrWhiteSpace(f.name)
    ensures FirstViolation(f) == Some(NameRequired)
  {
  }

  /** With a valid name and description, a nil category is reported ahead of a nil brand. */
  lemma CategoryReportedBeforeBrand(f: ProductFields)
    requires !IsNullOrWhiteSpace(f.name) && !DescriptionTooLongIn(f.description)
    requires f.categoryId == EmptyGuid
    ensures FirstViolation(f) == Some(CategoryRequired)
  {
  }

  /** The description limit is inclusive, ignores blank text and accepts null. */
  lemma DescriptionBoundaries(d: string)
    ensures Utf16Length(d) == MaxDescriptionLength ==> !DescriptionTooLongIn(Some(d))
    ensures AllWhiteSpace(d) ==> !DescriptionTooLongIn(Some(d))
    ensures !AllWhiteSpace(d) && Utf16Length(d) > MaxDescriptionLength ==> DescriptionTooLongIn(Some(d))
    ensures !DescriptionTooLongIn(None)
  {
  }

  /**
   * The limit counts UTF-16 code units: 251 characters outside the Basic
   * Multilingual Plane (emoji, say) are 502 units and are rejected.
   */
  lemma {:induction false} SupplementaryCharactersCountTwice(d: string)
    requires |d| > MaxDescriptionLength / 2
    requires forall i :: 0 <= i < |d| ==> IsSupplementary(d[i])
    ensures DescriptionTooLongIn(Some(d))
  {
    SupplementaryLength(d);
    assert !IsWhiteSpace(d[0]);
  }
}
