/** The browser state the views share: `localStorage`, modelled as a map
    from keys to stored values, and the user record kept under "user". */
module Browser {
  import opened Options
  import opened Text

  /** The fields of the stored user record that some view reads; a field
      that is missing or `null` is `None`. */
  datatype UserRecord = UserRecord(
    id: Option<int>,
    username: Option<string>,
    firstName: Option<string>,
    role: Option<string>,
    image: Option<string>)

  /** A stored string: either the JSON text of a user record, or some other
      text. Under the "user" key, `Text` stands for a string that `JSON.parse`
      rejects or that parses to `null`, so reading a field of it throws. */
  datatype Item = Text(text: string) | UserJson(user: UserRecord)

  /** JavaScript truthiness of `localStorage.getItem(key)`: the key is
      present and its string is not empty (a JSON text never is). */
  predicate Present(items: map<string, Item>, key: string) {
    key in items && (items[key].Text? ==> items[key].text != "")
  }

  /** `localStorage`: a mutable string store shared by every view. */
  class LocalStorage {
    var items: map<string, Item>

    constructor (initial: map<string, Item>)
      ensures items == initial
    {
      items := initial;
    }

    /** `localStorage.setItem(key, value)`. */
    method SetItem(key: string, value: Item)
      modifies this
      ensures items == old(items)[key := value]
    {
      items := items[key := value];
    }

    /** `localStorage.removeItem(key)`; removing a missing key changes nothing. */
    method RemoveItem(key: string)
      modifies this
      ensures items == old(items) - {key}
    {
      items := items - {key};
    }
  }
}
