# bitsync decision core in Dafny

bitsync copies one password vault into another. It drives the `bw` command-line tool through two sessions: it exports the source vault to a JSON file, sanitises that file, and imports it into the target with the first import format `bw` accepts. This project models the deterministic decisions made between those `bw` calls, all in `src/index.js`:

- **Import-format candidates** (`ImportFormats`, with worked replies in `DiscoveryExamples`). The reply of `bw import --formats` is split into lines, trimmed, lower-cased and stripped of blank lines. It is then filtered against the allow-list of known formats and reordered: `bitwardenjson`, `json` and `1password1pif` come first, then the other discovered formats. When the query fails or recognises nothing, the fixed default list is used.
- **The fallback loop** (`ImportDriver`). `bw import` is an oracle `bw: seq<string> -> bool`: does `bw`, run with this argument list, exit with status 0? `SelectFormats` reassigns the candidate list as the source does. `TryFormats` runs a first-match search over that list and returns the argument lists it tried.
- **Argument lists** (`BwArgs`). `ExportArgs` and `ImportArgs` build the list and push the organisation flag onto it. Their contracts say how `bw` reads the list back (`ParseExport`, `ParseImport`).
- **The export sanitiser** (`Sanitizer`). `SanitizeExportFile` edits the export's items in place in an `array`. It drops a `login.totp` string that is neither base32 nor an `otpauth://` URI once trimmed, and gives a missing or `null` `collectionIds` the value `[]`. It then derives the output path. The regular expression `/^[A-Z2-7]+=*$/i` becomes an explicit character test, which is proved equal to the expression read literally.
- **The creation payload** (`ItemCreate`). `sanitizeItemForCreate` resets ownership to the target organisation and copies the content, with JavaScript's `||` defaults. Vault items are datatypes (`Vault`).
- **Session environments** (`Session`). Each side's environment is the process environment overlaid with its state directory, API key and session token. `LoginUnlock` decides how `bwLoginUnlock` ends, given the outcomes of its `bw` calls.

`Strings` holds the JavaScript string primitives these rely on: `trim` (the ECMAScript whitespace set), `toLowerCase`, `split(/\r?\n/)`, prefix and suffix tests, and truthiness of optional strings. `Wrappers` holds `Option` and `Result`.

Three behaviours of the code worth knowing:

- The sanitised file is a new file only when the export's name ends in `.json`. For any other name the export is overwritten (`Sanitizer.SanitizedPathShape`).
- Both sessions inherit the whole process environment. So the target's secrets, held there under their own names, also reach the source's `bw` calls. Isolation covers only the overlay (`Session.SidesIsolated`, `Session.ProcessEnvInherited`).
- `bw config server` runs before the password variable is checked. A failing server configuration therefore wins over a missing password (`Session.LoginUnlockOutcome`).

## Model

| member | source | states |
|---|---|---|
| `Strings.TrimStart` | src/index.js:114 | the result is a suffix of the input that does not start with whitespace, and everything removed is whitespace |
| `Strings.TrimEnd` | src/index.js:114 | the result is a prefix of the input that does not end with whitespace, and everything removed is whitespace |
| `Strings.Trim` | src/index.js:114 | `trim` gives the slice of the input between two runs of whitespace, and the slice has no whitespace at either end |
| `Strings.TrimIdempotent` | src/index.js:114 | a stated property of `trim` itself, not a step of the source: trimming twice is trimming once |
| `Strings.LowerChar` | src/index.js:114 | `A`-`Z` become the letter 32 code points higher, KELVIN SIGN becomes `k`, and every other character is unchanged; so no upper-case ASCII letter is left |
| `Strings.Lower` | src/index.js:114 | lower-casing keeps the length, maps each character by `LowerChar` at its own position, and leaves no upper-case ASCII letter |
| `Strings.Split` | src/index.js:114 | splitting at a separator gives at least one piece, and no piece contains the separator |
| `Strings.JoinSplit` | src/index.js:114 | joining the pieces of a split with the separator gives back the input |
| `Strings.SplitLines` | src/index.js:114 | `split(/\r?\n/)` gives the `\n`-separated pieces of `Split`, in order: every piece but the last loses one trailing `\r`, the last is kept as it is, and none contains `\n` |
| `Strings.OrNull` | src/index.js:157-162 | JavaScript's or-operator with a `null` default, applied to an optional string (`targetOrgId`, `item.notes`; also the `if (organizationId)` test of lines 96 and 102): the value is kept exactly when it is non-empty, and is `null` otherwise |
| `ImportFormats.PriorityRank` | src/index.js:117 | a format ranks before the end of the priority list exactly when it is a priority format, and its rank is its position there |
| `ImportFormats.Filter` | src/index.js:115 | the filtered list holds exactly the members of the input that pass the test, and is no longer than the input |
| `ImportFormats.FilterAppend` | src/index.js:115 | filtering a concatenation is concatenating the filtered parts, so `filter` keeps order and repeats |
| `ImportFormats.FilterSingle` | src/index.js:115 | a single element is kept exactly when the test accepts it |
| `ImportFormats.NormaliseEach` | src/index.js:114 | each line is replaced by its trimmed, lower-cased form |
| `ImportFormats.Candidates` | src/index.js:111-123 | the candidate list is never empty, and every candidate is a non-empty known format |
| `ImportFormats.DefaultsKnown` | src/index.js:111 | every default candidate is a known, non-empty format |
| `ImportFormats.PrioritisedKnown` | src/index.js:115-121 | reordering a non-empty list of recognised formats yields a non-empty list of recognised formats |
| `ImportFormats.CandidatesFallback` | src/index.js:111-116 | a failed query, or a reply with no known format, gives exactly `bitwardenjson, json, encrypted_json, bitwardencsv` |
| `ImportFormats.NormalisedLines` | src/index.js:114 | the reply's lines, trimmed and lower-cased, blank ones dropped; `ImportFormats.CandidatesFromReply` states what survives into the candidates |
| `ImportFormats.Discovered` | src/index.js:115 | the normalised lines on the known-format list, in reply order; its contract is stated by `ImportFormats.DiscoveredKnown` and `ImportFormats.CandidatesFromReply` |
| `ImportFormats.DiscoveredKnown` | src/index.js:114-115 | every discovered format is on the known-format list and non-empty |
| `ImportFormats.Prioritise` | src/index.js:118-121 | the reordering of lines 118-121; its contract is stated by `ImportFormats.PrioritiseShape`, `ImportFormats.OtherFormatsInOrder` and `ImportFormats.OtherFormatsAround` |
| `ImportFormats.CandidatesFromReply` | src/index.js:114-122 | after a successful discovery every candidate is a non-empty trimmed, lower-cased line of the reply, and the candidates have the same members as the discovered formats; a format discovered twice may be tried fewer times |
| `ImportFormats.FilterKeepsRankOrder` | src/index.js:119 | filtering a list in strict priority order keeps it in strict priority order |
| `ImportFormats.PrioritiseShape` | src/index.js:117-121 | the discovered priority formats come first, once each and in priority order; only other formats follow; the list has the same members as the discovered formats |
| `ImportFormats.OtherFormatsInOrder` | src/index.js:120 | the other formats follow in discovery order: each has the other formats discovered before it in front of it, and those discovered after it behind it |
| `ImportFormats.OtherFormatsAround` | src/index.js:120 | a non-priority format keeps its place among the other formats: `OtherFormats(a + [f] + b)` is `OtherFormats(a) + [f] + OtherFormats(b)` |
| `ImportFormats.PrioritiseExample` | src/index.js:117-121 | the discovered list `json, csv, bitwardenjson` is tried as `bitwardenjson, json, csv` |
| `DiscoveryExamples.CandidatesExample` | src/index.js:113-122 | the reply `JSON\r\ncsv\n\nbitwardenjson` gives the candidates `bitwardenjson, json, csv` |
| `BwArgs.ParseImportInjective` | src/index.js:101-102 | two import argument lists read as the same request are the same list |
| `BwArgs.ExportArgs` | src/index.js:95-96 | `bw` reads the list as a JSON export to the given path, scoped exactly when the organisation id is non-empty |
| `BwArgs.ImportArgs` | src/index.js:101-102 | `bw` reads the list as an import of the given file, in the given format or `bitwardenjson` when that is missing or empty, scoped exactly when the organisation id is non-empty |
| `ImportDriver.SelectFormats` | src/index.js:111-123 | the reassigned candidate list is the candidate list `Candidates` defines |
| `ImportDriver.TryFormats` | src/index.js:126-134 | the k-th attempt imports with the k-th format. On success, the reported format is the last one tried and `bw` accepted it, and every earlier attempt failed. On failure, every format was tried, all failed, and the error is "No supported importer type" |
| `ImportDriver.ImportAuto` | src/index.js:106-135 | the same first-match outcome over the candidate list the formats reply selects |
| `Sanitizer.Padding` | src/index.js:177 | counts the trailing `=`: all the counted characters are `=` and the one before them is not |
| `Sanitizer.IsBase32` | src/index.js:177 | the test of `/^[A-Z2-7]+=*$/i`; `Sanitizer.IsBase32Matches` proves it equal to the pattern |
| `Sanitizer.KeepsTotp` | src/index.js:180-181 | whether a totp string is kept: trimmed, it is base32 or starts with `otpauth://`; `Sanitizer.SanitizeItemEffect` states its use |
| `Sanitizer.SanitizeItem` | src/index.js:179-185 | the loop body for one item; its contract is stated by `Sanitizer.SanitizeItemEffect` and `Sanitizer.SanitizeItemIdempotent` |
| `Sanitizer.IsBase32Matches` | src/index.js:177 | the padding-stripping test holds exactly when the text is a non-empty run of `[A-Za-z2-7]` followed only by `=` |
| `Sanitizer.SanitizeItemEffect` | src/index.js:178-185 | the totp is deleted exactly when the login's totp is a string that is neither base32 nor `otpauth://`-prefixed once trimmed. A kept totp is untouched, the rest of the login is unchanged, a missing collection list becomes `[]` and an existing one is kept. No other field changes |
| `Sanitizer.SanitizeItemIdempotent` | src/index.js:178-186 | every sanitised item meets the sanitiser's guarantee, an item that meets it is left alone, and sanitising twice is sanitising once |
| `Sanitizer.SanitizeItems` | src/index.js:178-186 | the item count and order are kept, and each item is sanitised |
| `Sanitizer.SanitizeItemsIdempotent` | src/index.js:178-186 | sanitising a whole item list twice is sanitising it once, and every item meets the guarantee |
| `Sanitizer.SanitizedPath` | src/index.js:187 | `inPath.replace(/\.json$/, '.sanitized.json')`; its contract is stated by `Sanitizer.SanitizedPathShape` |
| `Sanitizer.SanitizedPathShape` | src/index.js:187 | the output path differs from the input exactly when the input ends in `.json`; then it ends in `.sanitized.json` and leads back to the input |
| `Sanitizer.SanitizeExportFile` | src/index.js:173-190 | when `items` is not an array, the input path is returned; otherwise every item is sanitised in place, in order, and the derived path is returned |
| `ItemCreate.SanitizeItemForCreate` | src/index.js:155-171 | the payload's organisation is the target's when that is non-empty and `null` otherwise; its collections are `[]` with a target organisation and `null` without; its folder is `null` |
| `ItemCreate.PayloadIgnoresOwnership` | src/index.js:157-159 | items that differ only in id, organisation, folder and collections give the same payload |
| `ItemCreate.PayloadCarriesContent` | src/index.js:160-169 | type, name, login, secure note, card and identity are copied; notes default to `null`, fields to `[]`, reprompt to `0`; favorite is true exactly when it was `true` |
| `Session.PasswordEnvName` | src/index.js:60 | the source side uses `SOURCE_BW_PASSWORD`; every other side uses `TARGET_BW_PASSWORD` |
| `Session.LoginEnv` | src/index.js:58 | the environment is the process environment plus the state directory and API key, which win over any process value; every other variable passes unchanged |
| `Session.SessionEnv` | src/index.js:81-91 | `BW_SESSION` is the trimmed unlock output, and every other variable is unchanged |
| `Session.LoginUnlock` | src/index.js:52-92 | the outcome of `bwLoginUnlock` for given `bw` call results; its contract is stated by `Session.LoginUnlockOutcome` and `Session.EstablishedEnv` |
| `Session.LoginUnlockOutcome` | src/index.js:52-86 | a missing API key exits with 2. A failed server configuration rejects. Otherwise a missing password variable exits with 2, a failed login or unlock exits with 1, and everything else establishes the session |
| `Session.EstablishedEnv` | src/index.js:57-91 | an established session has its own state directory, API key and trimmed token, and passes on every other process variable unchanged |
| `Session.SidesIsolated` | src/index.js:58-91 | with different state directories and secrets, source and target never share them |
| `Session.ProcessEnvInherited` | src/index.js:58 | a variable of the process environment, such as the target's client secret, reaches the source's environment unchanged |

## Left out

- `run` and `runWithInput` (src/index.js:6-16, 138-153): process spawning, stdin piping, timeouts and output collection are I/O. Each `bw` call appears only through its outcome: the formats reply, the `bw` import oracle, and the session step outcomes.
- Several functions are calls to `bw` and are not modelled: `ensureBwAvailable`, `bwConfigServer`, `bwLogout`, and the login, unlock and status calls inside `bwLoginUnlock` (src/index.js:18-31, 65-90, 205-210). `Session.LoginUnlock` takes their results as parameters. The status queries swallow their errors and change nothing, so they do not appear.
- `ensureCleanAppDir` and the file read and write in `sanitizeExportFile` (src/index.js:33-38, 174-175, 188) are filesystem side effects.
- `Sanitizer.SanitizeExportFile`: the file write is not modelled. The new contents are the edited array, and whether a file is written is read from whether `items` is `null`.
- `JSON.parse` and `JSON.stringify` are replaced by the datatypes in `Vault`. Export members other than `items`, and item members not listed there, are not modelled. A `null` element of `items` makes the source throw at `it.login`. A number, string or boolean element has no `login`, ignores the `collectionIds` assignment, and is written back unchanged. Model items are always objects, so neither case is modelled. A `login` that is truthy but not an object is not modelled either.
- `Strings.LowerChar` and `Strings.Lower`: `toLowerCase` is modelled for `A`-`Z` and KELVIN SIGN, the only non-ASCII character whose lower case is ASCII. Other characters are left as they are. The known-format filter therefore decides exactly as the source does, but a normalised line holding other non-ASCII upper-case letters differs from the source's.
- The allow-list of known formats is a set. The source keeps it in an array but only asks whether a line is in it.
- `copyItems` (src/index.js:192-203) only sequences `bw list`, `bw get`, `bw encode` and `bw create` calls. Only its payload builder is modelled.
- `main` (src/index.js:225-275) is left out. It orchestrates the whole run, in this order:
  - it checks that `bw` runs, and exits with 3 if not;
  - it reads the required and optional environment variables, and exits with 2 if a required one is missing;
  - it creates the state directories;
  - it runs both session setups concurrently through `Promise.all`;
  - it exports the source vault, and exits with 1 if that fails;
  - it sanitises the export and imports it, and exits with 1 if the import fails;
  - it logs out both sides and exits with 0.
  
  The model covers the pieces `main` calls: `BwArgs.ExportArgs`, `Sanitizer.SanitizeExportFile`, `ImportDriver.ImportAuto` and `Session.LoginUnlock`. It does not cover their order or `main`'s exit statuses. When both setups fail, the status comes from whichever side exits first.
- `log`, `logSource`, `logTarget` and the output lines in `bwImportAuto` and `main` are logging.
