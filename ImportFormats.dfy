/** Import-format candidate selection (src/index.js:107-125): the reply of
    `bw import --formats` is normalised, filtered against a fixed allow-list and
    reordered so that the high-confidence formats come first. */
module ImportFormats {
  import opened Wrappers
  import opened Strings

  /** Every import format identifier the migration recognises. The source keeps them in
      an array but only ever asks whether a line is among them, so a set says the same. */
  const Known: set<string> := {
    "bitwardenjson", "json", "encrypted_json", "bitwardencsv", "csv",
    "1password1pif", "1password1pux", "1passwordmaccsv", "1passwordwincsv", "ascendocsv",
    "avastcsv", "avastjson", "aviracsv", "blackberrycsv", "blurcsv", "bravecsv",
    "buttercupcsv", "chromecsv", "clipperzhtml", "codebookcsv", "dashlanecsv",
    "dashlanejson", "edgecsv", "encryptrcsv", "enpasscsv", "enpassjson", "firefoxcsv",
    "fsecurefsk", "gnomejson", "kasperskytxt", "keepass2xml", "keepassxcsv", "keepercsv",
    "lastpasscsv", "logmeoncecsv", "meldiumcsv", "msecurecsv", "mykicsv",
    "netwrixpasswordsecure", "nordpasscsv", "operacsv", "padlockcsv", "passboltcsv",
    "passkeepcsv", "passkyjson", "passmanjson", "passpackcsv", "passwordagentcsv",
    "passwordbossjson", "passworddepot17xml", "passworddragonxml", "passwordwallettxt",
    "passwordxpcsv", "protonpass", "psonojson", "pwsafexml", "remembearcsv", "roboformcsv",
    "safaricsv", "safeincloudxml", "saferpasscsv", "securesafecsv", "splashidcsv",
    "stickypasswordxml", "truekeycsv", "upmcsv", "vivaldicsv", "yoticsv", "zohovaultcsv"
  }

  /** The candidates used when discovery fails or recognises nothing. */
  const DefaultFormats: seq<string> := ["bitwardenjson", "json", "encrypted_json", "bitwardencsv"]

  /** The formats tried before any other discovered format, in this order. */
  const Priority: seq<string> := ["bitwardenjson", "json", "1password1pif"]

  predicate IsKnown(f: string) { f in Known }

  predicate IsPriority(f: string) { f in Priority }

  predicate NotPriority(f: string) { !IsPriority(f) }

  /** Position of a format in `Priority`; every other format ranks after all of them. */
  function PriorityRank(f: string): (r: nat)
    ensures r < |Priority| <==> IsPriority(f)
    ensures r < |Priority| ==> Priority[r] == f
  {
    if f == Priority[0] then 0 else if f == Priority[1] then 1 else if f == Priority[2] then 2 else 3
  }

  /** `s.filter(keep)`: the members of `s` that `keep` accepts, in their order. */
  function Filter(s: seq<string>, keep: string -> bool): (r: seq<string>)
    ensures |r| <= |s|
    ensures forall x :: x in r <==> x in s && keep(x)
  {
    if |s| == 0 then []
    else if keep(s[0]) then [s[0]] + Filter(s[1..], keep)
    else Filter(s[1..], keep)
  }

  /** `filter` works element by element: filtering a concatenation is concatenating the
      filtered parts. With `FilterSingle` and `Filter([], keep) == []` this fixes the
      result, order and repeats included. */
  lemma {:induction false} FilterAppend(a: seq<string>, b: seq<string>, keep: string -> bool)
    ensures Filter(a + b, keep) == Filter(a, keep) + Filter(b, keep)
  {
    if |a| == 0 {
      assert a + b == b;
    } else {
      var ab := a + b;
      assert ab[0] == a[0] && ab[1..] == a[1..] + b;
      FilterAppend(a[1..], b, keep);
      var rest := Filter(a[1..], keep);
      if keep(a[0]) {
        calc {
          Filter(ab, keep);
          [a[0]] + Filter(ab[1..], keep);
          [a[0]] + (rest + Filter(b, keep));
          ([a[0]] + rest) + Filter(b, keep);
        }
      } else {
        assert Filter(ab, keep) == Filter(ab[1..], keep);
      }
    }
  }

  /** A one-element list is kept exactly when `keep` accepts its element. */
  lemma FilterSingle(x: string, keep: string -> bool)
    ensures Filter([x], keep) == (if keep(x) then [x] else [])
  {
    assert [x][1..] == [];
  }

  /** `lines.map(l => l.trim().toLowerCase())` */
  function NormaliseEach(lines: seq<string>): (r: seq<string>)
    ensures |r| == |lines|
    ensures forall j {:trigger r[j]} :: 0 <= j < |r| ==> r[j] == Lower(Trim(lines[j]))
  {
    seq(|lines|, j requires 0 <= j < |lines| => Lower(Trim(lines[j])))
  }

  predicate NonEmpty(s: string) { s != "" }

  /** `stdout.split(/\r?\n/).map(l => l.trim().toLowerCase()).filter(Boolean)` */
  function NormalisedLines(raw: string): seq<string> {
    Filter(NormaliseEach(SplitLines(raw)), NonEmpty)
  }

  /** The recognised formats among the normalised lines, in reply order. */
  function Discovered(raw: string): seq<string> {
    Filter(NormalisedLines(raw), IsKnown)
  }

  /** The priority formats that were discovered, in priority order. */
  function PresentPriority(discovered: seq<string>): seq<string> {
    Filter(Priority, p => p in discovered)
  }

  /** The discovered formats that are not priority formats, in discovery order. */
  function OtherFormats(discovered: seq<string>): seq<string> {
    Filter(discovered, NotPriority)
  }

  /** `[...priority.filter(p => discovered.includes(p)), ...discovered.filter(f => !priority.includes(f))]` */
  function Prioritise(discovered: seq<string>): seq<string> {
    PresentPriority(discovered) + OtherFormats(discovered)
  }

  /** The candidate list `bwImportAuto` settles on, given the reply of the formats query
      (`None` when the query failed). */
  function Candidates(reply: Option<string>): (r: seq<string>)
    ensures |r| > 0
    ensures forall k :: 0 <= k < |r| ==> IsKnown(r[k]) && r[k] != ""
  {
    if reply.Some? && |Discovered(reply.value)| > 0 then
      var d := Discovered(reply.value);
      DiscoveredKnown(reply.value);
      PrioritisedKnown(d);
      Prioritise(d)
    else
      DefaultsKnown();
      DefaultFormats
  }

  lemma DefaultsKnown()
    ensures forall k :: 0 <= k < |DefaultFormats| ==> IsKnown(DefaultFormats[k]) && DefaultFormats[k] != ""
  {
    assert IsKnown("bitwardenjson") && IsKnown("json") && IsKnown("encrypted_json") && IsKnown("bitwardencsv");
  }

  /** Every discovered format is a recognised, non-empty line. */
  lemma DiscoveredKnown(raw: string)
    ensures forall f :: f in Discovered(raw) ==> IsKnown(f) && f != ""
  {
  }

  /** The reordering of recognised, non-empty lines holds only recognised, non-empty formats. */
  lemma PrioritisedKnown(d: seq<string>)
    requires forall f :: f in d ==> IsKnown(f) && f != ""
    ensures |d| > 0 ==> |Prioritise(d)| > 0
    ensures forall k :: 0 <= k < |Prioritise(d)| ==> IsKnown(Prioritise(d)[k]) && Prioritise(d)[k] != ""
  {
    PrioritiseShape(d);
    var r := Prioritise(d);
    if |d| > 0 {
      assert d[0] in d;
    }
    forall k | 0 <= k < |r| ensures IsKnown(r[k]) && r[k] != "" {
      assert r[k] in r;
    }
  }

  /** A failed query, or a reply with no recognised format, yields exactly the default list. */
  lemma CandidatesFallback(reply: Option<string>)
    requires reply.None? || Discovered(reply.value) == []
    ensures Candidates(reply) == ["bitwardenjson", "json", "encrypted_json", "bitwardencsv"]
  {
  }

  /** After a successful discovery every candidate is the trimmed, lower-cased form of a
      non-empty line of the reply, and the candidates are exactly the discovered formats. */
  lemma CandidatesFromReply(raw: string)
    requires Discovered(raw) != []
    ensures var r := Candidates(Some(raw));
      forall k :: 0 <= k < |r| ==> r[k] != "" && r[k] in NormaliseEach(SplitLines(raw))
    ensures forall f :: f in Candidates(Some(raw)) <==> f in Discovered(raw)
  {
    var d := Discovered(raw);
    var r := Candidates(Some(raw));
    assert r == Prioritise(d);
    PrioritiseShape(d);
    forall k | 0 <= k < |r| ensures r[k] != "" && r[k] in NormaliseEach(SplitLines(raw)) {
      assert r[k] in r;
      assert r[k] in d;
      assert r[k] in NormalisedLines(raw);
    }
  }

  /** The formats of `s` appear in strictly increasing priority order: in particular,
      none appears twice. */
  predicate RankIncreasing(s: seq<string>) {
    forall i, j :: 0 <= i < j < |s| ==> PriorityRank(s[i]) < PriorityRank(s[j])
  }

  /** Filtering keeps a strictly increasing order strictly increasing. */
  lemma {:induction false} FilterKeepsRankOrder(s: seq<string>, keep: string -> bool)
    requires RankIncreasing(s)
    ensures RankIncreasing(Filter(s, keep))
  {
    if |s| > 0 {
      var tail := s[1..];
      assert RankIncreasing(tail) by {
        forall i, j | 0 <= i < j < |tail| ensures PriorityRank(tail[i]) < PriorityRank(tail[j]) {
          assert tail[i] == s[i + 1] && tail[j] == s[j + 1];
        }
      }
      FilterKeepsRankOrder(tail, keep);
      var rest := Filter(tail, keep);
      if keep(s[0]) {
        var r := [s[0]] + rest;
        forall i, j | 0 <= i < j < |r| ensures PriorityRank(r[i]) < PriorityRank(r[j]) {
          assert r[j] == rest[j - 1];
          if i == 0 {
            assert rest[j - 1] in rest;
            var m :| 0 <= m < |tail| && tail[m] == rest[j - 1];
            assert tail[m] == s[m + 1];
          } else {
            assert r[i] == rest[i - 1];
          }
        }
        assert r == Filter(s, keep);
      } else {
        assert rest == Filter(s, keep);
      }
    }
  }

  /** The shape of the reordered list: first the priority formats that were discovered,
      each once and in priority order, then only formats that are not priority formats;
      nothing is added or lost. */
  lemma PrioritiseShape(discovered: seq<string>)
    ensures RankIncreasing(PresentPriority(discovered))
    ensures forall p :: IsPriority(p) ==> (p in discovered <==> p in PresentPriority(discovered))
    ensures forall i :: 0 <= i < |PresentPriority(discovered)| ==> IsPriority(PresentPriority(discovered)[i])
    ensures forall f :: f in OtherFormats(discovered) ==> !IsPriority(f)
    ensures forall f :: f in Prioritise(discovered) <==> f in discovered
  {
    assert RankIncreasing(Priority);
    FilterKeepsRankOrder(Priority, p => p in discovered);
  }

  /** The other formats follow in discovery order: every non-priority format has the other
      formats discovered before it in front of it, and those discovered after it behind it. */
  lemma OtherFormatsInOrder(discovered: seq<string>)
    ensures forall i :: 0 <= i < |discovered| && NotPriority(discovered[i]) ==>
      OtherFormats(discovered) ==
        OtherFormats(discovered[..i]) + [discovered[i]] + OtherFormats(discovered[i + 1..])
  {
    forall i | 0 <= i < |discovered| && NotPriority(discovered[i])
      ensures OtherFormats(discovered) ==
        OtherFormats(discovered[..i]) + [discovered[i]] + OtherFormats(discovered[i + 1..])
    {
      OtherFormatsAround(discovered[..i], discovered[i], discovered[i + 1..]);
      assert discovered == discovered[..i] + [discovered[i]] + discovered[i + 1..];
    }
  }

  /** A non-priority format keeps its place among the other formats: what was discovered
      before it comes before it, what was discovered after it comes after it. */
  lemma OtherFormatsAround(a: seq<string>, f: string, b: seq<string>)
    requires NotPriority(f)
    ensures OtherFormats(a + [f] + b) == OtherFormats(a) + [f] + OtherFormats(b)
  {
    assert a + [f] + b == a + ([f] + b);
    FilterAppend(a, [f] + b, NotPriority);
    FilterAppend([f], b, NotPriority);
    FilterSingle(f, NotPriority);
  }

  /** The reply "json", "csv", "bitwardenjson" is tried as "bitwardenjson", "json", "csv". */
  lemma PrioritiseExample()
    ensures Prioritise(["json", "csv", "bitwardenjson"]) == ["bitwardenjson", "json", "csv"]
  {
  }
}
