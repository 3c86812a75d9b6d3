/** The provider record both components read: one document of the "doctors" collection. */
module Catalog {
  import opened Text

  datatype Option<T> = None | Some(value: T)

  /** A doctor document, `{ id: doc.id, ...doc.data() }`. A field the document lacks is `None`;
      display-only fields (address, phone, rating, image, ...) are not modelled. */
  datatype Doctor = Doctor(
    id: string,
    name: Option<string>,
    specialty: Option<string>,
    clinic: Option<string>,
    lat: Option<real>,
    lng: Option<real>)

  /** `field?.toLowerCase().includes(q)`: a missing field never matches. */
  predicate FieldIncludes(field: Option<string>, q: string) {
    field.Some? && Includes(Lower(field.value), q)
  }
}
