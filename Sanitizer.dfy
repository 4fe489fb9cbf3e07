/** `sanitizeExportFile` (src/index.js:173-190): drop malformed one-time-password secrets,
    give every item a collection list, and write the result next to the export. The
    file read, JSON parsing and file write are left to the caller: the items arrive as an
    array, which the sanitiser edits in place, as the source edits the parsed objects. */
module Sanitizer {
  import opened Wrappers
  import opened Strings
  import opened Vault

  /** A character of `[A-Z2-7]` under the case-insensitive flag. */
  predicate IsBase32Char(c: char) {
    'A' <= c <= 'Z' || 'a' <= c <= 'z' || '2' <= c <= '7'
  }

  /** The number of '=' characters at the end of `t`. */
  function Padding(t: string): (n: nat)
    ensures n <= |t|
    ensures forall i :: |t| - n <= i < |t| ==> t[i] == '='
    ensures n < |t| ==> t[|t| - n - 1] != '='
  {
    if |t| > 0 && t[|t| - 1] == '=' then Padding(t[..|t| - 1]) + 1 else 0
  }

  /** `t` is a non-empty run of base32 characters followed only by '=' padding. */
  predicate IsBase32(t: string) {
    var body := t[..|t| - Padding(t)];
    |body| > 0 && forall i :: 0 <= i < |body| ==> IsBase32Char(body[i])
  }

  /** The regular expression `/^[A-Z2-7]+=*$/i` read literally: `t` splits at `k` into a
      non-empty run of base32 characters and a run of '='. */
  ghost predicate MatchesAt(t: string, k: int) {
    1 <= k <= |t| &&
    (forall i :: 0 <= i < k ==> IsBase32Char(t[i])) &&
    (forall i :: k <= i < |t| ==> t[i] == '=')
  }

  ghost predicate MatchesBase32Pattern(t: string) {
    exists k :: MatchesAt(t, k)
  }

  /** The padding-stripping test decides exactly the regular expression. */
  lemma IsBase32Matches(t: string)
    ensures IsBase32(t) <==> MatchesBase32Pattern(t)
  {
    var k := |t| - Padding(t);
    if IsBase32(t) {
      assert MatchesAt(t, k);
    }
    if MatchesBase32Pattern(t) {
      var j :| MatchesAt(t, j);
      // '=' is not a base32 character, so the padding starts exactly at j
      assert forall i :: 0 <= i < j ==> t[i] != '=';
      assert k < |t| ==> t[k] == '=';
      assert k >= j;
      assert k == 0 || t[k - 1] != '=';
      assert k <= j;
      assert forall i :: 0 <= i < k ==> IsBase32Char(t[..k][i]);
    }
  }

  /** Whether a `totp` string survives: after trimming it is base32 or an `otpauth://` URI. */
  predicate KeepsTotp(totp: string) {
    var t := Trim(totp);
    IsBase32(t) || StartsWith(t, "otpauth://")
  }

  /** The per-item edit of the loop body (src/index.js:179-185). */
  function SanitizeItem(it: Item): Item {
    var login :=
      if it.login.Some? && it.login.value.totp.TotpText? && !KeepsTotp(it.login.value.totp.text)
      then Some(it.login.value.(totp := NoTotp))
      else it.login;
    var collectionIds := if it.collectionIds.None? then Some([]) else it.collectionIds;
    it.(login := login, collectionIds := collectionIds)
  }

  /** The totp is deleted exactly when the item has a login whose totp is a string that
      is neither base32 nor an `otpauth://` URI once trimmed; a kept totp is not trimmed;
      the login is otherwise unchanged; a missing collection list becomes `[]` and an
      existing one is kept; no other field of the item changes. */
  lemma SanitizeItemEffect(it: Item)
    ensures var r := SanitizeItem(it);
      r.login.Some? == it.login.Some? &&
      (r.login.Some? ==>
        r.login.value.(totp := it.login.value.totp) == it.login.value &&
        (r.login.value.totp != it.login.value.totp <==>
          it.login.value.totp.TotpText? && !KeepsTotp(it.login.value.totp.text)) &&
        (r.login.value.totp != it.login.value.totp ==> r.login.value.totp == NoTotp))
    ensures var r := SanitizeItem(it);
      r.collectionIds == (if it.collectionIds.None? then Some([]) else it.collectionIds)
    ensures SanitizeItem(it).(login := it.login, collectionIds := it.collectionIds) == it
  {
  }

  /** What the sanitiser guarantees of every item it writes. */
  predicate Sanitized(it: Item) {
    it.collectionIds.Some? &&
    (it.login.Some? && it.login.value.totp.TotpText? ==> KeepsTotp(it.login.value.totp.text))
  }

  /** Every sanitised item meets the guarantee, and an item that already meets it is left
      alone: so sanitising twice is sanitising once. */
  lemma SanitizeItemIdempotent(it: Item)
    ensures Sanitized(SanitizeItem(it))
    ensures Sanitized(it) ==> SanitizeItem(it) == it
    ensures SanitizeItem(SanitizeItem(it)) == SanitizeItem(it)
  {
  }

  /** The items after the loop: each one sanitised, count and order unchanged. */
  function SanitizeItems(items: seq<Item>): (r: seq<Item>)
    ensures |r| == |items|
    ensures forall i :: 0 <= i < |r| ==> r[i] == SanitizeItem(items[i])
  {
    seq(|items|, i requires 0 <= i < |items| => SanitizeItem(items[i]))
  }

  lemma SanitizeItemsIdempotent(items: seq<Item>)
    ensures SanitizeItems(SanitizeItems(items)) == SanitizeItems(items)
    ensures forall i :: 0 <= i < |items| ==> Sanitized(SanitizeItems(items)[i])
  {
    forall i | 0 <= i < |items| ensures SanitizeItems(SanitizeItems(items))[i] == SanitizeItems(items)[i] {
      SanitizeItemIdempotent(items[i]);
    }
  }

  /** `inPath.replace(/\.json$/, '.sanitized.json')` */
  function SanitizedPath(inPath: string): string {
    if EndsWith(inPath, ".json") then inPath[..|inPath| - 5] + ".sanitized.json" else inPath
  }

  /** Reads the export's path back from the sanitised file's path. */
  function ExportPath(outPath: string): string {
    if EndsWith(outPath, ".sanitized.json") then outPath[..|outPath| - 15] + ".json" else outPath
  }

  /** The sanitised file differs from the export exactly when the export's name ends in
      ".json"; then its name ends in ".sanitized.json" and leads back to the export. Any
      other name is reused, and the export is overwritten. */
  lemma SanitizedPathShape(inPath: string)
    ensures SanitizedPath(inPath) != inPath <==> EndsWith(inPath, ".json")
    ensures EndsWith(inPath, ".json") ==>
      EndsWith(SanitizedPath(inPath), ".sanitized.json") && ExportPath(SanitizedPath(inPath)) == inPath
  {
    var out := SanitizedPath(inPath);
    if EndsWith(inPath, ".json") {
      var stem := inPath[..|inPath| - 5];
      assert out == stem + ".sanitized.json";
      assert out[|out| - 15..] == ".sanitized.json";
      assert out[..|out| - 15] == stem;
      assert stem + ".json" == inPath;
      assert |out| == |inPath| + 10;
    }
  }

  /** `sanitizeExportFile` on the parsed export. `items` is the export's `items` member,
      `null` when that is not an array: then nothing is written and the input path comes
      back. Otherwise every item is sanitised in place and the path written is returned. */
  method SanitizeExportFile(inPath: string, items: array?<Item>) returns (outPath: string)
    modifies items
    ensures items == null ==> outPath == inPath
    ensures items != null ==> outPath == SanitizedPath(inPath) && items[..] == SanitizeItems(old(items[..]))
  {
    if items == null {
      return inPath;
    }
    var i := 0;
    while i < items.Length
      invariant 0 <= i <= items.Length
      invariant forall k :: 0 <= k < i ==> items[k] == SanitizeItem(old(items[k]))
      invariant forall k :: i <= k < items.Length ==> items[k] == old(items[k])
    {
      items[i] := SanitizeItem(items[i]);
      i := i + 1;
    }
    outPath := SanitizedPath(inPath);
  }
}
