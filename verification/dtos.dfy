/**
 * The data the controller exchanges with the backend API and the views:
 * the product DTO, the create and update requests bound from the form, and the
 * category and brand records behind the dropdowns. Only the fields the
 * controller reads or writes are modelled.
 */
module Dtos {
  import opened Wrappers
  import opened DotNetText
  import opened Guids

  /** The fields common to `CreateProductRequest` and `UpdateProductRequest`. */
  datatype ProductFields = ProductFields(
    name: Option<string>,
    description: Option<string>,
    gender: Int32,      // the `Gender` enum, by its underlying integer value
    categoryId: Guid,
    brandId: Guid)

  /** `CreateProductRequest` carries exactly the common fields. */
  type CreateProductRequest = ProductFields

  /** `UpdateProductRequest`: the common fields plus the product's `Id`. */
  datatype UpdateProductRequest = UpdateProductRequest(id: Guid, fields: ProductFields)

  /** `ProductDto`, as far as the controller reads it. */
  datatype ProductDto = ProductDto(
    id: Guid,
    name: Option<string>,
    description: Option<string>,
    gender: Int32,
    categoryId: Guid,
    brandId: Guid)

  /** `CategoryDto` and `BrandDto` share this shape: an id and a display name. */
  datatype NamedRecord = NamedRecord(id: Guid, name: Option<string>)

  /** The edit form is pre-filled from the fetched product, field for field. */
  function ToUpdateRequest(p: ProductDto): (r: UpdateProductRequest)
    ensures r.id == p.id
    ensures r.fields.name == p.name && r.fields.description == p.description
    ensures r.fields.gender == p.gender
    ensures r.fields.categoryId == p.categoryId && r.fields.brandId == p.brandId
  {
    UpdateProductRequest(p.id, ProductFields(p.name, p.description, p.gender, p.categoryId, p.brandId))
  }
}
