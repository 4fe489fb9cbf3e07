/** `bwImportAuto` (src/index.js:106-135): settle on the candidate formats, then try
    `bw import` with each in turn until one succeeds. The external tool is an oracle
    `bw` that says whether `bw` run with a given argument list exits with status 0. */
module ImportDriver {
  import opened Wrappers
  import opened Strings
  import opened ImportFormats
  import opened BwArgs

  const Exhausted: string := "No supported importer type"

  /** The first half of `bwImportAuto`: start from the default list and replace it with
      the reordered discovered formats when the query recognised any. */
  method SelectFormats(reply: Option<string>) returns (formats: seq<string>)
    ensures formats == Candidates(reply)
  {
    formats := DefaultFormats;
    if reply.Some? {
      var discovered := Discovered(reply.value);
      if |discovered| > 0 {
        formats := Prioritise(discovered);
      }
    }
  }

  /** The second half of `bwImportAuto`: a first-match search. Runs `bw import` with each
      format in order and stops at the first that succeeds. The ghost `attempts` records the
      argument lists it ran, in order; the source returns only the format. */
  method TryFormats(formats: seq<string>, inPath: string, organizationId: Option<string>,
                    bw: seq<string> -> bool)
    returns (result: Result<string, string>, ghost attempts: seq<seq<string>>)
    requires forall k :: 0 <= k < |formats| ==> formats[k] != ""
    ensures |attempts| <= |formats|
    ensures forall k :: 0 <= k < |attempts| ==>
      ParseImport(attempts[k]) == Some(ImportCommand(formats[k], inPath, OrNull(organizationId)))
    ensures result.Ok? ==>
      |attempts| > 0 && result.value == formats[|attempts| - 1] &&
      bw(attempts[|attempts| - 1]) &&
      forall k :: 0 <= k < |attempts| - 1 ==> !bw(attempts[k])
    ensures result.Err? ==>
      result.error == Exhausted && |attempts| == |formats| &&
      forall k :: 0 <= k < |attempts| ==> !bw(attempts[k])
  {
    attempts := [];
    var i := 0;
    while i < |formats|
      invariant i <= |formats| && |attempts| == i
      invariant forall k :: 0 <= k < i ==>
        ParseImport(attempts[k]) == Some(ImportCommand(formats[k], inPath, OrNull(organizationId)))
      invariant forall k :: 0 <= k < i ==> !bw(attempts[k])
    {
      var args := ImportArgs(inPath, Some(formats[i]), organizationId);
      attempts := attempts + [args];
      if bw(args) {
        return Ok(formats[i]), attempts;
      }
      i := i + 1;
    }
    result := Err(Exhausted);
  }

  /** Imports `inPath` with the first candidate format `bw` accepts. `reply` is the output
      of `bw import --formats`, `None` when that query failed. Every candidate before the
      one reported was tried and failed; when all fail, every candidate was tried. */
  method ImportAuto(inPath: string, organizationId: Option<string>, reply: Option<string>,
                    bw: seq<string> -> bool)
    returns (result: Result<string, string>, ghost attempts: seq<seq<string>>)
    ensures |attempts| <= |Candidates(reply)|
    ensures forall k :: 0 <= k < |attempts| ==>
      ParseImport(attempts[k]) == Some(ImportCommand(Candidates(reply)[k], inPath, OrNull(organizationId)))
    ensures result.Ok? ==>
      |attempts| > 0 && result.value == Candidates(reply)[|attempts| - 1] &&
      bw(attempts[|attempts| - 1]) &&
      forall k :: 0 <= k < |attempts| - 1 ==> !bw(attempts[k])
    ensures result.Err? ==>
      result.error == Exhausted && |attempts| == |Candidates(reply)| &&
      forall k :: 0 <= k < |attempts| ==> !bw(attempts[k])
  {
    var formats := SelectFormats(reply);
    result, attempts := TryFormats(formats, inPath, organizationId, bw);
  }
}
