/** The argument lists handed to `bw export` and `bw import` (src/index.js:94-104).
    The source builds each list and then pushes the organisation flag onto it; the
    methods below do the same, and their contracts say how `bw` reads the list back. */
module BwArgs {
  import opened Wrappers
  import opened Strings

  /** The export request `bw` sees: the output file, the format, the organisation scope. */
  datatype ExportCommand = ExportCommand(file: string, format: string, organization: Option<string>)

  /** The import request `bw` sees: the format, the input file, the organisation scope. */
  datatype ImportCommand = ImportCommand(format: string, file: string, organization: Option<string>)

  /** How `bw` reads the positional export arguments (the layout the source produces). */
  function ParseExport(args: seq<string>): Option<ExportCommand> {
    if |args| >= 5 && args[0] == "export" && args[1] == "--output" && args[3] == "--format" then
      if |args| == 5 then Some(ExportCommand(args[2], args[4], None))
      else if |args| == 7 && args[5] == "--organizationid" then Some(ExportCommand(args[2], args[4], Some(args[6])))
      else None
    else None
  }

  /** How `bw` reads the positional import arguments (the layout the source produces). */
  function ParseImport(args: seq<string>): Option<ImportCommand> {
    if |args| >= 3 && args[0] == "import" then
      if |args| == 3 then Some(ImportCommand(args[1], args[2], None))
      else if |args| == 5 && args[3] == "--organizationid" then Some(ImportCommand(args[1], args[2], Some(args[4])))
      else None
    else None
  }

  /** A parsed import request determines its argument list: two lists that `bw` reads as
      the same request are the same list. */
  lemma ParseImportInjective(a: seq<string>, b: seq<string>)
    requires ParseImport(a).Some? && ParseImport(a) == ParseImport(b)
    ensures a == b
  {
  }

  /** `bwExport`'s argument list: a JSON export to `outPath`, scoped to the organisation
      exactly when the id is non-empty. */
  method ExportArgs(outPath: string, organizationId: Option<string>) returns (args: seq<string>)
    ensures ParseExport(args) == Some(ExportCommand(outPath, "json", OrNull(organizationId)))
  {
    args := ["export", "--output", outPath, "--format", "json"];
    if Truthy(organizationId) {
      args := args + ["--organizationid", organizationId.value];
    }
  }

  /** `bwImport`'s argument list: the given format, or "bitwardenjson" when it is missing
      or empty, then the input file, scoped to the organisation exactly when the id is
      non-empty. */
  method ImportArgs(inPath: string, format: Option<string>, organizationId: Option<string>)
    returns (args: seq<string>)
    ensures ParseImport(args) ==
      Some(ImportCommand(if Truthy(format) then format.value else "bitwardenjson", inPath, OrNull(organizationId)))
  {
    args := ["import", if Truthy(format) then format.value else "bitwardenjson", inPath];
    if Truthy(organizationId) {
      args := args + ["--organizationid", organizationId.value];
    }
  }
}
