/**
 * The browser facilities the data layer relies on, reduced to values:
 * one localStorage slot, and what JSON.parse makes of a piece of text.
 * JSON.stringify followed by JSON.parse is taken to be the identity.
 */
module Browser {
  import opened Wrappers

  /** The content of the slot: nothing (or the empty string), text that JSON.parse
      rejects, or the serialisation of a value. */
  datatype Slot<T> = Empty | Corrupt | Stored(data: T)

  /** The outcome of JSON.parse: a SyntaxError with its message, or a value. */
  datatype Parse<T> = Malformed(message: string) | Parsed(value: T)

  /** The top-level keys of a parsed AppData document as the import checks see them.
      None stands for a key whose value is falsy: missing, null, false, 0, NaN or the empty
      string. The elements of the arrays are never inspected by those checks. */
  datatype Document<C, P, I, B> = Document(
    clients: Option<seq<C>>,
    invoices: Option<seq<I>>,
    projects: Option<seq<P>>,
    businessInfo: Option<B>)
}
