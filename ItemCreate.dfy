/** `sanitizeItemForCreate` (src/index.js:155-171): the payload `bw create item` gets when
    an item is copied one by one into the target account. Ownership is reset to the
    target's organisation; the content is copied, with JavaScript's `||` defaults. */
module ItemCreate {
  import opened Wrappers
  import opened Strings
  import opened Vault

  datatype CreatePayload = CreatePayload(
    organizationId: Option<string>,
    collectionIds: Option<seq<string>>,
    folderId: Option<string>,
    itemType: int,
    name: string,
    notes: Option<string>,
    favorite: bool,
    fields: seq<CustomField>,
    login: Option<Login>,
    secureNote: Option<SecureNote>,
    card: Option<Card>,
    identity: Option<Identity>,
    reprompt: int)

  /** The creation payload for `item` in the target account, `targetOrgId` the optional
      organisation the items go to. */
  function SanitizeItemForCreate(item: Item, targetOrgId: Option<string>): (p: CreatePayload)
    ensures p.organizationId.Some? <==> Truthy(targetOrgId)
    ensures p.organizationId.Some? ==> p.organizationId == targetOrgId
    ensures p.collectionIds == (if Truthy(targetOrgId) then Some([]) else None)
    ensures p.folderId == None
  {
    CreatePayload(
      organizationId := OrNull(targetOrgId),
      collectionIds := if Truthy(targetOrgId) then Some([]) else None,
      folderId := None,
      itemType := item.itemType,
      name := item.name,
      notes := OrNull(item.notes),
      favorite := item.favorite == Some(true),
      fields := if item.fields.Some? then item.fields.value else [],
      login := item.login,
      secureNote := item.secureNote,
      card := item.card,
      identity := item.identity,
      reprompt := if item.reprompt.Some? then item.reprompt.value else 0)
  }

  /** No source-side ownership reaches the target: two items that differ only in their
      id, organisation, folder and collections give the same payload. */
  lemma PayloadIgnoresOwnership(a: Item, b: Item, targetOrgId: Option<string>)
    requires a.(id := b.id, organizationId := b.organizationId, folderId := b.folderId,
                collectionIds := b.collectionIds) == b
    ensures SanitizeItemForCreate(a, targetOrgId) == SanitizeItemForCreate(b, targetOrgId)
  {
  }

  /** The content the payload carries: type, name, payloads copied; notes, fields,
      favorite and reprompt read through their defaults. */
  lemma PayloadCarriesContent(item: Item, targetOrgId: Option<string>)
    ensures var p := SanitizeItemForCreate(item, targetOrgId);
      p.itemType == item.itemType && p.name == item.name &&
      p.login == item.login && p.secureNote == item.secureNote &&
      p.card == item.card && p.identity == item.identity &&
      (p.notes.Some? ==> p.notes == item.notes) && (p.notes.None? ==> !Truthy(item.notes)) &&
      (item.fields.Some? ==> p.fields == item.fields.value) && (item.fields.None? ==> p.fields == []) &&
      (p.favorite <==> item.favorite == Some(true)) &&
      (item.reprompt.Some? ==> p.reprompt == item.reprompt.value) && (item.reprompt.None? ==> p.reprompt == 0)
  {
  }
}
