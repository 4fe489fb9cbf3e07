/** Vault items as `bw export` and `bw get item` report them, as tagged values in place
    of untyped JSON. `None` stands for a field that is absent or `null`. */
module Vault {
  import opened Wrappers

  /** The `totp` member of a login: absent, a string, or some other JSON value (a number,
      `null`, an object), kept as its JSON text. */
  datatype Totp = NoTotp | TotpText(text: string) | TotpOther(json: string)

  datatype Login = Login(username: Option<string>, password: Option<string>, uris: seq<string>, totp: Totp)

  datatype CustomField = CustomField(name: Option<string>, value: Option<string>, fieldType: int)

  datatype SecureNote = SecureNote(noteType: int)

  datatype Card = Card(cardholderName: Option<string>, brand: Option<string>, number: Option<string>,
                       expMonth: Option<string>, expYear: Option<string>, code: Option<string>)

  datatype Identity = Identity(title: Option<string>, firstName: Option<string>, lastName: Option<string>,
                               email: Option<string>, phone: Option<string>)

  /** One vault item. `organizationId`, `folderId` and `collectionIds` are the ownership
      fields; the rest is the item's content. `favorite` and `reprompt` are `None` when the
      record does not carry them. */
  datatype Item = Item(
    id: string,
    organizationId: Option<string>,
    folderId: Option<string>,
    collectionIds: Option<seq<string>>,
    itemType: int,
    name: string,
    notes: Option<string>,
    favorite: Option<bool>,
    fields: Option<seq<CustomField>>,
    login: Option<Login>,
    secureNote: Option<SecureNote>,
    card: Option<Card>,
    identity: Option<Identity>,
    reprompt: Option<int>)
}
