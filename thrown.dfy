/** The values a JavaScript `throw` can carry, as far as this application
    ever inspects them: a string, a non-null object (with or without a
    `message` property), `null`, or any other primitive. */
module Thrown {
  import opened Wrappers

  /** The kind of an object's `message` property. */
  datatype Property = StringProperty(text: string) | OtherProperty

  datatype ErrorValue =
    | StringValue(text: string)
      /** Any value whose `typeof` is "object" and that is not `null`;
          `message` is the property found through `"message" in value`. */
    | ObjectValue(message: Option<Property>)
    | NullValue
      /** `undefined`, numbers, booleans, bigints, symbols and functions. */
    | OtherPrimitive

  /** `new Error(message)`, or any thrown object whose `message` is that string. */
  function ErrorObject(message: string): ErrorValue {
    ObjectValue(Some(StringProperty(message)))
  }

  /** What the Node.js (V8) runtime throws when code reads `.message` of
      `undefined`. */
  const TypeErrorMessage := "Cannot read properties of undefined (reading 'message')"
}
