/** What a zod schema reports. Parsing an object collects the issues of every field in
    the order the schema lists them; an accepted value has no issue. */
module Validation {

  /** One validation failure: the field it is attached to and its message. */
  datatype Issue = Issue(path: string, message: string)

  /** What a numeric form field hands to the schema: a number, or NaN (what
      `Number('abc')` or `valueAsNumber` of an empty field gives). */
  datatype NumberValue = Number(value: real) | NotANumber

  /** zod's message for a NaN where a number is expected. */
  const NaNMessage := "Expected number, received nan"
}
