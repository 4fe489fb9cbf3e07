/** Worked replies of the `bw import --formats` query and the candidate lists they
    produce (src/index.js:111-125). They sit in a module of their own so that the
    verifier unfolds the string functions on the literal replies step by step. */
module DiscoveryExamples {
  import opened Wrappers
  import opened Strings
  import opened ImportFormats

  /** Splitting `a + "\n" + rest` yields `a` and then the pieces of `rest`. */
  lemma SplitTwoLines(a: string, b: string)
    requires '\n' !in a && '\n' !in b
    ensures Split(a + ['\n'] + b, '\n') == [a, b]
  {
    SplitWithoutSep(b, '\n');
    SplitAtSep(a, b, '\n');
  }

  lemma SplitFourLines(a: string, b: string, c: string, d: string)
    requires '\n' !in a && '\n' !in b && '\n' !in c && '\n' !in d
    ensures Split(a + ['\n'] + (b + ['\n'] + (c + ['\n'] + d)), '\n') == [a, b, c, d]
  {
    SplitTwoLines(c, d);
    SplitAtSep(b, c + ['\n'] + d, '\n');
    SplitAtSep(a, b + ['\n'] + (c + ['\n'] + d), '\n');
  }

  lemma ExampleSplit()
    ensures Split("JSON\r\ncsv\n\nbitwardenjson", '\n') == ["JSON\r", "csv", "", "bitwardenjson"]
  {
    SplitFourLines("JSON\r", "csv", "", "bitwardenjson");
    assert "JSON\r" + ['\n'] + ("csv" + ['\n'] + ("" + ['\n'] + "bitwardenjson")) == "JSON\r\ncsv\n\nbitwardenjson";
  }

  /** With four pieces, the first three lose a carriage return before their '\n'. */
  lemma SplitLinesOfFour(s: string)
    requires |Split(s, '\n')| == 4
    ensures var p := Split(s, '\n');
      SplitLines(s) == [DropCR(p[0]), DropCR(p[1]), DropCR(p[2]), p[3]]
  {
    var p := Split(s, '\n');
    var r := SplitLines(s);
    assert |r| == 4;
    assert r[0] == DropCR(p[0]);
    assert r[1] == DropCR(p[1]);
    assert r[2] == DropCR(p[2]);
    assert r[3] == p[3];
  }

  lemma ExampleLines()
    ensures SplitLines("JSON\r\ncsv\n\nbitwardenjson") == ["JSON", "csv", "", "bitwardenjson"]
  {
    ExampleSplit();
    SplitLinesOfFour("JSON\r\ncsv\n\nbitwardenjson");
    assert DropCR("JSON\r") == "JSON" && DropCR("csv") == "csv" && DropCR("") == "";
  }

  lemma ExampleUpperLine()
    ensures Lower(Trim("JSON")) == "json"
  {
    TrimUnchanged("JSON");
    assert Lower("JSON") == "json";
  }

  /** A line with no whitespace at its ends and nothing to lower-case normalises to itself. */
  lemma NormalisedLineUnchanged(line: string)
    requires |line| > 0 ==> !IsWhitespace(line[0]) && !IsWhitespace(line[|line| - 1])
    requires forall i :: 0 <= i < |line| ==> !('A' <= line[i] <= 'Z') && line[i] != '\U{212A}'
    ensures Lower(Trim(line)) == line
  {
    TrimUnchanged(line);
  }

  lemma ExampleLowerLine()
    ensures Lower(Trim("csv")) == "csv"
  {
    NormalisedLineUnchanged("csv");
  }

  lemma ExampleBlankLine()
    ensures Lower(Trim("")) == ""
  {
    NormalisedLineUnchanged("");
  }

  lemma ExampleFormatLine()
    ensures Lower(Trim("bitwardenjson")) == "bitwardenjson"
  {
    NormalisedLineUnchanged("bitwardenjson");
  }

  lemma ExampleNormalised()
    ensures NormaliseEach(["JSON", "csv", "", "bitwardenjson"]) == ["json", "csv", "", "bitwardenjson"]
  {
    ExampleUpperLine();
    ExampleLowerLine();
    ExampleBlankLine();
    ExampleFormatLine();
    NormaliseFour("JSON", "csv", "", "bitwardenjson", "json", "csv", "", "bitwardenjson");
  }

  /** Four lines normalise to the four given normal forms. */
  lemma NormaliseFour(a: string, b: string, c: string, d: string, na: string, nb: string, nc: string, nd: string)
    requires Lower(Trim(a)) == na && Lower(Trim(b)) == nb && Lower(Trim(c)) == nc && Lower(Trim(d)) == nd
    ensures NormaliseEach([a, b, c, d]) == [na, nb, nc, nd]
  {
    NormaliseEachOfFour(a, b, c, d);
  }

  lemma NormaliseEachOfFour(a: string, b: string, c: string, d: string)
    ensures NormaliseEach([a, b, c, d]) == [Lower(Trim(a)), Lower(Trim(b)), Lower(Trim(c)), Lower(Trim(d))]
  {
    var lines := [a, b, c, d];
    var r := NormaliseEach(lines);
    assert |r| == 4;
    assert r[0] == Lower(Trim(lines[0]));
    assert r[1] == Lower(Trim(lines[1]));
    assert r[2] == Lower(Trim(lines[2]));
    assert r[3] == Lower(Trim(lines[3]));
  }

  lemma ExampleDiscovered()
    ensures Filter(Filter(["json", "csv", "", "bitwardenjson"], NonEmpty), IsKnown) == ["json", "csv", "bitwardenjson"]
  {
    FilterDropsThird("json", "csv", "", "bitwardenjson", NonEmpty);
    assert IsKnown("json") && IsKnown("csv") && IsKnown("bitwardenjson");
    FilterKeepsThree("json", "csv", "bitwardenjson", IsKnown);
  }

  /** Filtering four lines that the test rejects only the third of. */
  lemma FilterDropsThird(a: string, b: string, c: string, d: string, keep: string -> bool)
    requires keep(a) && keep(b) && !keep(c) && keep(d)
    ensures Filter([a, b, c, d], keep) == [a, b, d]
  {
    assert [a, b, c, d][1..] == [b, c, d] && [b, c, d][1..] == [c, d] && [c, d][1..] == [d] && [d][1..] == [];
    assert Filter([d], keep) == [d];
    assert Filter([c, d], keep) == [d];
    assert Filter([b, c, d], keep) == [b, d];
  }

  /** Filtering three lines that the test accepts keeps them all. */
  lemma FilterKeepsThree(a: string, b: string, c: string, keep: string -> bool)
    requires keep(a) && keep(b) && keep(c)
    ensures Filter([a, b, c], keep) == [a, b, c]
  {
    assert [a, b, c][1..] == [b, c] && [b, c][1..] == [c] && [c][1..] == [];
  }

  /** The same reply with a CRLF line end, an upper-case line and a blank line: the
      normalisation makes no difference to the outcome. */
  lemma CandidatesExample()
    ensures Candidates(Some("JSON\r\ncsv\n\nbitwardenjson")) == ["bitwardenjson", "json", "csv"]
  {
    ExampleLines();
    ExampleNormalised();
    ExampleDiscovered();
    PrioritiseExample();
  }
}
