/** The checkout form fields and the validation-error map shared by both state models. */
module Forms {

  /** A field of the order draft that a form can edit. */
  datatype Field = Payment | Address | Email | Phone

  /** `FormErrors`: a human-readable message per field that failed validation. */
  type FormErrors = map<Field, string>
}
