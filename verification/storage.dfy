/** Reading back a JSON array that a page stored under a browser-storage key. */
module Storage {

  /** What `JSON.parse(localStorage.getItem(key))` can meet: no entry, an empty string,
      text that does not parse, a parsed value that is not an array, or an array. */
  datatype Raw<T> = Missing | EmptyString | Malformed | NonArray | ArrayOf(items: seq<T>)

  /** The tolerant loader shared by the redemption log and the merchant directory:
      anything but a stored array reads as the empty list. */
  function LoadArray<T>(raw: Raw<T>): (r: seq<T>)
    ensures raw.ArrayOf? ==> r == raw.items
    ensures !raw.ArrayOf? ==> r == []
  {
    match raw
    case ArrayOf(items) => items
    case _ => []
  }
}
