/**
 * Local mode: interactive choice of the Solidity files to audit, reading
 * them tolerantly, and the early exits of a local run.
 *
 * The user is a finite sequence of input lines; reading a file, calling the
 * auditor and opening the output file are oracles passed in as functions.
 */
module Local {
  import opened Wrappers
  import opened Text
  import opened Auditor

  /** A contract read from disk. */
  datatype SolidityFile = SolidityFile(path: string, content: string)

  // ---------------------------------------------------------------------
  // Parsing one line of input: "1, 3,4"

  /** `[int(tok.strip()) for tok in toks]`: `None` as soon as one token is
      not an integer. */
  function ParseTokens(toks: seq<string>): (r: Option<seq<int>>)
    ensures r.Some? ==> |r.value| == |toks|
  {
    if toks == [] then Some([])
    else
      var head := ParseInt(Strip(toks[0]));
      var rest := ParseTokens(toks[1..]);
      if head.Some? && rest.Some? then Some([head.value] + rest.value) else None
  }

  /** The tokens parse exactly when each stripped token is an integer, and
      then index `i` is the value of token `i`. */
  lemma ParseTokensMeaning(toks: seq<string>)
    ensures ParseTokens(toks).Some? <==> forall i :: 0 <= i < |toks| ==> ParseInt(Strip(toks[i])).Some?
    ensures ParseTokens(toks).Some? ==>
      forall i :: 0 <= i < |toks| ==> ParseInt(Strip(toks[i])) == Some(ParseTokens(toks).value[i])
  {
    ParseTokensDefined(toks);
    if ParseTokens(toks).Some? {
      ParseTokensValues(toks);
    }
  }

  lemma {:induction false} ParseTokensDefined(toks: seq<string>)
    ensures ParseTokens(toks).Some? <==> forall i :: 0 <= i < |toks| ==> ParseInt(Strip(toks[i])).Some?
  {
    if toks != [] {
      var rest := toks[1..];
      ParseTokensDefined(rest);
      if ParseInt(Strip(toks[0])).Some? && ParseTokens(rest).None? {
        var j :| 0 <= j < |rest| && ParseInt(Strip(rest[j])).None?;
        assert toks[j + 1] == rest[j];
      } else if ParseTokens(rest).Some? {
        assert forall i :: 1 <= i < |toks| ==> toks[i] == rest[i - 1];
      }
    }
  }

  lemma {:induction false} ParseTokensValues(toks: seq<string>)
    requires ParseTokens(toks).Some?
    ensures forall i :: 0 <= i < |toks| ==> ParseInt(Strip(toks[i])) == Some(ParseTokens(toks).value[i])
  {
    if toks != [] {
      var rest := toks[1..];
      ParseTokensValues(rest);
      var ks := ParseTokens(toks).value;
      assert ks == [ParseInt(Strip(toks[0])).value] + ParseTokens(rest).value;
      forall i | 1 <= i < |toks| ensures ParseInt(Strip(toks[i])) == Some(ks[i]) {
        assert toks[i] == rest[i - 1];
      }
    }
  }

  /** The indices typed on one line, or `None` when the line raises
      `ValueError`.  A blank line never parses: its first token strips to
      nothing. */
  function ParseIndices(line: string): (r: Option<seq<int>>)
    ensures r.Some? ==> r.value != [] && !AllSpace(line)
  {
    var toks := Split(line, ',');
    assert AllSpace(line) ==> AllSpace(toks[0]) by {
      SplitFirstPrefix(line, ',');
      assert forall i :: 0 <= i < |toks[0]| ==> toks[0][i] == line[i];
    }
    ParseTokens(toks)
  }

  /** How a user would type the indices `ks`: decimal numbers joined by commas. */
  function FormatIndices(ks: seq<int>): string
    requires ks != []
  {
    Join(seq(|ks|, i requires 0 <= i < |ks| => IntToString(ks[i])), ',')
  }

  /** Every list of integers within `int()`'s digit limit, typed out,
      parses back to itself. */
  lemma ParseFormatIndices(ks: seq<int>)
    requires ks != [] && forall i :: 0 <= i < |ks| ==> Representable(ks[i])
    ensures ParseIndices(FormatIndices(ks)) == Some(ks)
  {
    var toks := seq(|ks|, i requires 0 <= i < |ks| => IntToString(ks[i]));
    SplitJoin(toks, ',');
    forall i | 0 <= i < |toks| ensures ParseInt(Strip(toks[i])) == Some(ks[i]) {
      assert toks[i] == IntToString(ks[i]);
      StripUnpadded(toks[i]);
      ParseIntToString(ks[i]);
    }
    ParseTokensMeaning(toks);
    var r := ParseTokens(toks);
    assert r.Some?;
    assert r.value == ks;
  }

  /** An empty (or blank) token anywhere rejects the whole line. */
  lemma BlankTokenRejects(line: string, j: int)
    requires 0 <= j < |Split(line, ',')| && AllSpace(Split(line, ',')[j])
    ensures ParseIndices(line) == None
  {
    assert Strip(Split(line, ',')[j]) == [];
    ParseTokensMeaning(Split(line, ','));
  }

  /** A token that is not a number rejects the whole line. */
  lemma NonNumericTokenRejects(line: string, j: int)
    requires 0 <= j < |Split(line, ',')| && ParseInt(Strip(Split(line, ',')[j])).None?
    ensures ParseIndices(line) == None
  {
    ParseTokensMeaning(Split(line, ','));
  }

  lemma EmptyTokenExample(line: string)
    requires line == "1,,2"
    ensures ParseIndices(line) == None
  {
    assert Join(["1", "", "2"], ',') == line;
    SplitJoin(["1", "", "2"], ',');
    BlankTokenRejects(line, 1);
  }

  lemma WordExample(line: string)
    requires line == "a"
    ensures ParseIndices(line) == None
  {
    assert Join(["a"], ',') == line;
    SplitJoin(["a"], ',');
    StripUnpadded(line);
    NonNumericTokenRejects(line, 0);
  }

  // ---------------------------------------------------------------------
  // Mapping indices to files (the `for idx in selected_indices` loop)

  predicate InRange(allFiles: seq<string>, k: int)
  {
    1 <= k <= |allFiles|
  }

  /** The files the 1-based indices `ks` name, in the order entered, with
      out-of-range indices skipped. */
  function Pick(allFiles: seq<string>, ks: seq<int>): (r: seq<string>)
    ensures |r| <= |ks|
  {
    if ks == [] then []
    else
      var k := ks[|ks| - 1];
      Pick(allFiles, ks[..|ks| - 1]) + (if InRange(allFiles, k) then [allFiles[k - 1]] else [])
  }

  /** Only listed files are ever picked. */
  lemma {:induction false} PickListed(allFiles: seq<string>, ks: seq<int>)
    ensures forall f :: f in Pick(allFiles, ks) ==> f in allFiles
  {
    if ks != [] {
      PickListed(allFiles, ks[..|ks| - 1]);
    }
  }

  lemma {:induction false} PickConcat(allFiles: seq<string>, xs: seq<int>, ys: seq<int>)
    ensures Pick(allFiles, xs + ys) == Pick(allFiles, xs) + Pick(allFiles, ys)
  {
    if ys == [] {
      assert xs + ys == xs;
    } else {
      var init := ys[..|ys| - 1];
      PickConcat(allFiles, xs, init);
      assert (xs + ys)[..|xs + ys| - 1] == xs + init;
    }
  }

  /** When every index is in range, entry `i` of the result is the file
      index `ks[i]` names: order and repetitions are kept. */
  lemma {:induction false} PickInOrder(allFiles: seq<string>, ks: seq<int>)
    requires forall i :: 0 <= i < |ks| ==> 1 <= ks[i] <= |allFiles|
    ensures |Pick(allFiles, ks)| == |ks|
    ensures forall i :: 0 <= i < |ks| ==> Pick(allFiles, ks)[i] == allFiles[ks[i] - 1]
  {
    if ks != [] {
      var init := ks[..|ks| - 1];
      var k := ks[|ks| - 1];
      assert forall i :: 0 <= i < |init| ==> init[i] == ks[i];
      PickInOrder(allFiles, init);
      var p := Pick(allFiles, ks);
      var pi := Pick(allFiles, init);
      assert p == pi + [allFiles[k - 1]];
      forall i | 0 <= i < |ks| ensures p[i] == allFiles[ks[i] - 1] {
        if i < |init| {
          assert p[i] == pi[i];
        }
      }
    }
  }

  /** An out-of-range index is skipped without affecting the rest of the line. */
  lemma SkipOutOfRange(allFiles: seq<string>, ks: seq<int>, i: int)
    requires 0 <= i < |ks| && !InRange(allFiles, ks[i])
    ensures Pick(allFiles, ks[..i] + ks[i + 1..]) == Pick(allFiles, ks)
  {
    assert ks == ks[..i] + [ks[i]] + ks[i + 1..];
    PickConcat(allFiles, ks[..i] + [ks[i]], ks[i + 1..]);
    PickConcat(allFiles, ks[..i], [ks[i]]);
    PickConcat(allFiles, ks[..i], ks[i + 1..]);
    assert Pick(allFiles, [ks[i]]) == [] by {
      assert [ks[i]][..0] == [];
    }
  }

  /** The loop at the heart of one selection round. */
  method PickFiles(allFiles: seq<string>, indices: seq<int>) returns (selected: seq<string>)
    ensures selected == Pick(allFiles, indices)
  {
    selected := [];
    for i := 0 to |indices|
      invariant selected == Pick(allFiles, indices[..i])
    {
      var idx := indices[i];
      assert indices[..i + 1][..i] == indices[..i];
      if 1 <= idx <= |allFiles| {
        selected := selected + [allFiles[idx - 1]];
      }
    }
    assert indices[..|indices|] == indices;
  }

  // ---------------------------------------------------------------------
  // The selection dialogue

  /** What one line of input leads to. */
  datatype LineVerdict =
    | Blank                        // ends the dialogue with no files
    | Unparsable                   // ValueError: ask again
    | NothingValid                 // no index in range: ask again
    | Picked(files: seq<string>)   // ends the dialogue with these files

  /** A blank line ends the dialogue with no files; a line whose indices
      all parse and name at least one listed file ends it with those files;
      any other line is rejected. */
  function Judge(allFiles: seq<string>, line: string): (v: LineVerdict)
    ensures v == Blank <==> AllSpace(line)
    ensures v.Picked? ==> v.files != []
  {
    if AllSpace(line) then Blank
    else
      match ParseIndices(line)
      case None => Unparsable
      case Some(ks) =>
        var files := Pick(allFiles, ks);
        if files == [] then NothingValid else Picked(files)
  }

  /** Which non-blank lines are rejected and which are accepted, and what
      an accepted line picks. */
  lemma JudgeAccepts(allFiles: seq<string>, line: string)
    ensures Judge(allFiles, line) == Unparsable <==> !AllSpace(line) && ParseIndices(line).None?
    ensures Judge(allFiles, line).Picked? <==>
      ParseIndices(line).Some? && Pick(allFiles, ParseIndices(line).value) != []
    ensures Judge(allFiles, line).Picked? ==> Judge(allFiles, line).files == Pick(allFiles, ParseIndices(line).value)
  {
  }

  predicate Ends(v: LineVerdict)
  {
    v.Blank? || v.Picked?
  }

  function Chosen(v: LineVerdict): seq<string>
  {
    if v.Picked? then v.files else []
  }

  /** The files chosen and the number of input lines read. */
  datatype Selection = Selection(files: seq<string>, consumed: nat)

  /** The same outcome, `n` lines later. */
  function Delay(o: Option<Selection>, n: nat): Option<Selection>
  {
    match o
    case None => None
    case Some(s) => Some(Selection(s.files, s.consumed + n))
  }

  /** The verdict on each input line, in order. */
  function Verdicts(allFiles: seq<string>, lines: seq<string>): (vs: seq<LineVerdict>)
    ensures |vs| == |lines|
  {
    if lines == [] then [] else [Judge(allFiles, lines[0])] + Verdicts(allFiles, lines[1..])
  }

  /** Verdict `i` is the verdict on line `i`. */
  lemma {:induction false} VerdictAt(allFiles: seq<string>, lines: seq<string>, i: int)
    requires 0 <= i < |lines|
    ensures Verdicts(allFiles, lines)[i] == Judge(allFiles, lines[i])
  {
    if i > 0 {
      VerdictAt(allFiles, lines[1..], i - 1);
    }
  }

  /** The prompting loop over the verdicts on the remaining input; `None`
      when the input runs out (`input()` raises `EOFError`, which escapes
      `select_files_interactively`).  A result consumes at least one
      verdict and never more than there are. */
  function Prompt(vs: seq<LineVerdict>): (r: Option<Selection>)
    ensures r.Some? ==> 1 <= r.value.consumed <= |vs|
  {
    if vs == [] then None
    else if Ends(vs[0]) then Some(Selection(Chosen(vs[0]), 1))
    else Delay(Prompt(vs[1..]), 1)
  }

  /** `select_files_interactively` as a function of the input lines.  It
      never reads past the input, and with files listed it reads at least
      one line before returning. */
  function Select(allFiles: seq<string>, lines: seq<string>): (r: Option<Selection>)
    ensures r.Some? ==> r.value.consumed <= |lines|
    ensures allFiles != [] && r.Some? ==> 1 <= r.value.consumed
  {
    if allFiles == [] then Some(Selection([], 0)) else Prompt(Verdicts(allFiles, lines))
  }

  method SelectFilesInteractively(allFiles: seq<string>, lines: seq<string>) returns (r: Option<Selection>)
    ensures r == Select(allFiles, lines)
  {
    if allFiles == [] {
      return Some(Selection([], 0));
    }
    ghost var vs := Verdicts(allFiles, lines);
    var i := 0;
    while i < |lines|
      invariant 0 <= i <= |lines|
      invariant Prompt(vs) == Delay(Prompt(vs[i..]), i)
    {
      var selection := lines[i];
      ghost var v := Judge(allFiles, selection);
      VerdictAt(allFiles, lines, i);
      PromptStep(vs, i);
      if Strip(selection) == [] {
        assert v == Blank;
        return Some(Selection([], i + 1));
      }
      var parsed := ParseIndices(selection);
      if parsed.Some? {
        var selected := PickFiles(allFiles, parsed.value);
        if selected != [] {
          assert v == Picked(selected);
          return Some(Selection(selected, i + 1));
        }
      }
      assert !Ends(v);
      i := i + 1;
    }
    assert vs[i..] == [];
    return None;
  }

  /** One round of the loop, `i` lines into the input. */
  lemma PromptStep(vs: seq<LineVerdict>, i: nat)
    requires i < |vs|
    ensures Prompt(vs[i..]) == if Ends(vs[i]) then Some(Selection(Chosen(vs[i]), 1)) else Delay(Prompt(vs[i + 1..]), 1)
    ensures forall o :: Delay(Delay(o, 1), i) == Delay(o, i + 1)
  {
    assert vs[i..][0] == vs[i];
    assert vs[i..][1..] == vs[i + 1..];
  }

  /** The dialogue ends at the first line that is blank or names a file in
      range; every earlier line was rejected, and without such a line there
      is no result. */
  lemma {:induction false} PromptStopsAtFirstFinalLine(vs: seq<LineVerdict>)
    ensures Prompt(vs).Some? <==> exists j :: 0 <= j < |vs| && Ends(vs[j])
    ensures Prompt(vs).Some? ==>
      var s := Prompt(vs).value;
      && Ends(vs[s.consumed - 1])
      && s.files == Chosen(vs[s.consumed - 1])
      && forall j :: 0 <= j < s.consumed - 1 ==> !Ends(vs[j])
  {
    if vs != [] && !Ends(vs[0]) {
      var rest := vs[1..];
      PromptStopsAtFirstFinalLine(rest);
      assert forall j :: 1 <= j < |vs| ==> vs[j] == rest[j - 1];
      if exists j :: 0 <= j < |vs| && Ends(vs[j]) {
        var j :| 0 <= j < |vs| && Ends(vs[j]);
        assert Ends(rest[j - 1]);
      }
    }
  }

  /** In terms of the input lines: a result exists exactly when some line
      ends the dialogue. */
  lemma SelectSomeIffFinalLine(allFiles: seq<string>, lines: seq<string>)
    requires allFiles != []
    ensures Select(allFiles, lines).Some? <==> exists j :: 0 <= j < |lines| && Ends(Judge(allFiles, lines[j]))
  {
    var vs := Verdicts(allFiles, lines);
    PromptStopsAtFirstFinalLine(vs);
    if exists j :: 0 <= j < |lines| && Ends(Judge(allFiles, lines[j])) {
      var j :| 0 <= j < |lines| && Ends(Judge(allFiles, lines[j]));
      VerdictAt(allFiles, lines, j);
    } else {
      forall j | 0 <= j < |vs| ensures !Ends(vs[j]) {
        VerdictAt(allFiles, lines, j);
      }
    }
  }

  /** In terms of the input lines: the result comes from the first line
      that ends the dialogue, and every earlier line was rejected. */
  lemma SelectStopsAtFirstFinalLine(allFiles: seq<string>, lines: seq<string>)
    requires allFiles != [] && Select(allFiles, lines).Some?
    ensures var s := Select(allFiles, lines).value;
      && 1 <= s.consumed <= |lines|
      && Ends(Judge(allFiles, lines[s.consumed - 1]))
      && s.files == Chosen(Judge(allFiles, lines[s.consumed - 1]))
      && forall j :: 0 <= j < s.consumed - 1 ==> !Ends(Judge(allFiles, lines[j]))
  {
    var vs := Verdicts(allFiles, lines);
    PromptStopsAtFirstFinalLine(vs);
    var s := Prompt(vs).value;
    VerdictAt(allFiles, lines, s.consumed - 1);
    forall j | 0 <= j < s.consumed - 1 ensures !Ends(Judge(allFiles, lines[j])) {
      VerdictAt(allFiles, lines, j);
    }
  }

  /** With no files to choose from, nothing is asked. */
  lemma NoFilesNoQuestions(lines: seq<string>)
    ensures Select([], lines) == Some(Selection([], 0))
  {
  }

  /** A blank first line ends the dialogue with no files. */
  lemma BlankLineEnds(allFiles: seq<string>, line: string, rest: seq<string>)
    requires allFiles != [] && AllSpace(line)
    ensures Select(allFiles, [line] + rest) == Some(Selection([], 1))
  {
    SelectFirstLine(allFiles, line, rest);
  }

  /** A line whose indices parse and name at least one listed file ends
      the dialogue with those files after one line. */
  lemma PickingLineEnds(allFiles: seq<string>, line: string, rest: seq<string>)
    requires allFiles != [] && ParseIndices(line).Some? && Pick(allFiles, ParseIndices(line).value) != []
    ensures Select(allFiles, [line] + rest) == Some(Selection(Pick(allFiles, ParseIndices(line).value), 1))
  {
    JudgeAccepts(allFiles, line);
    SelectFirstLine(allFiles, line, rest);
  }

  /** A line that does not parse, or names no file in range, is consumed
      and the question is asked again. */
  lemma RejectedLineAsksAgain(allFiles: seq<string>, line: string, rest: seq<string>)
    requires allFiles != [] && !AllSpace(line)
    requires ParseIndices(line) == None || Pick(allFiles, ParseIndices(line).value) == []
    ensures Select(allFiles, [line] + rest) == Delay(Select(allFiles, rest), 1)
  {
    assert !Ends(Judge(allFiles, line));
    SelectFirstLine(allFiles, line, rest);
  }

  /** The first line's verdict decides whether the dialogue ends there. */
  lemma SelectFirstLine(allFiles: seq<string>, line: string, rest: seq<string>)
    requires allFiles != []
    ensures var v := Judge(allFiles, line);
      Select(allFiles, [line] + rest) ==
        if Ends(v) then Some(Selection(Chosen(v), 1)) else Delay(Select(allFiles, rest), 1)
  {
    assert ([line] + rest)[1..] == rest;
  }

  /** What a line that ends the dialogue selects. */
  lemma FinalLineChoice(allFiles: seq<string>, line: string)
    requires Ends(Judge(allFiles, line))
    ensures var files := Chosen(Judge(allFiles, line));
      && (forall f :: f in files ==> f in allFiles)
      && (files == [] <==> AllSpace(line))
      && (files != [] ==> ParseIndices(line).Some? && files == Pick(allFiles, ParseIndices(line).value))
  {
    var v := Judge(allFiles, line);
    if v.Picked? {
      PickListed(allFiles, ParseIndices(line).value);
    }
  }

  /** Whatever is selected is listed in `allFiles`; the result is empty
      exactly when there were no files or the last line read was blank,
      and otherwise it is what the last line's indices name. */
  lemma SelectionFacts(allFiles: seq<string>, lines: seq<string>)
    requires Select(allFiles, lines).Some?
    ensures var s := Select(allFiles, lines).value;
      && s.consumed <= |lines|
      && (forall f :: f in s.files ==> f in allFiles)
      && (allFiles != [] ==>
            && 1 <= s.consumed
            && (s.files == [] <==> AllSpace(lines[s.consumed - 1]))
            && (s.files != [] ==>
                  && ParseIndices(lines[s.consumed - 1]).Some?
                  && s.files == Pick(allFiles, ParseIndices(lines[s.consumed - 1]).value)))
  {
    var s := Select(allFiles, lines).value;
    if allFiles != [] {
      SelectStopsAtFirstFinalLine(allFiles, lines);
      FinalLineChoice(allFiles, lines[s.consumed - 1]);
    } else {
      assert s.files == [];
    }
  }

  /** Indices are taken in the order typed and repeats are kept, so the
      result need not be a sub-multiset of the listed files. */
  lemma OrderAndRepeatsExample(files: seq<string>, line: string)
    requires files == ["A.sol", "B.sol"] && line == "2,1,2"
    ensures Select(files, [line]) == Some(Selection(["B.sol", "A.sol", "B.sol"], 1))
  {
    RepeatingLine(files, line);
    SelectFirstLine(files, line, []);
    assert [line] + [] == [line];
  }

  /** An index past the end of the list is rejected, and the question is
      asked again. */
  lemma OutOfRangeExample(files: seq<string>, line: string, rest: seq<string>)
    requires files == ["A.sol", "B.sol"] && line == "7"
    ensures Select(files, [line] + rest) == Delay(Select(files, rest), 1)
  {
    OutOfRangeLine(files, line);
    RejectedLineAsksAgain(files, line, rest);
  }

  lemma OutOfRangeLine(files: seq<string>, line: string)
    requires files == ["A.sol", "B.sol"] && line == "7"
    ensures Judge(files, line) == NothingValid
  {
    assert Join(["7"], ',') == line;
    SplitJoin(["7"], ',');
    StripUnpadded(line);
    assert ParseInt(line) == Some(7) by {
      assert line[..0] == [];
    }
    var p := ParseIndices(line);
    assert p.Some? && |p.value| == 1 && p.value[0] == 7;
    assert p.value == [7];
    assert Pick(files, [7]) == [] by {
      assert [7][..0] == [];
    }
  }

  lemma RepeatingLine(files: seq<string>, line: string)
    requires files == ["A.sol", "B.sol"] && line == "2,1,2"
    ensures Judge(files, line) == Picked(["B.sol", "A.sol", "B.sol"])
  {
    RepeatingLineParses(line);
    PickInOrder(files, [2, 1, 2]);
    assert Pick(files, [2, 1, 2]) == ["B.sol", "A.sol", "B.sol"];
    assert !IsSpace(line[0]);
  }

  lemma RepeatingLineParses(line: string)
    requires line == "2,1,2"
    ensures ParseIndices(line) == Some([2, 1, 2])
  {
    var toks := ["2", "1", "2"];
    var ks := [2, 1, 2];
    assert Join(toks, ',') == line;
    SplitJoin(toks, ',');
    forall i | 0 <= i < |toks| ensures ParseInt(Strip(toks[i])) == Some(ks[i]) {
      SingleDigitToken(toks[i]);
    }
    ParseTokensMeaning(toks);
    var r := ParseTokens(toks);
    assert r.value == ks;
  }

  lemma SingleDigitToken(t: string)
    requires |t| == 1 && IsDigit(t[0])
    ensures ParseInt(Strip(t)) == Some(t[0] as int - '0' as int)
  {
    StripUnpadded(t);
    assert AllDigits(t);
    assert t[..0] == [];
    assert DigitsValue(t) == t[0] as int - '0' as int;
  }

  // ---------------------------------------------------------------------
  // Reading the chosen files (find_solidity_contracts)

  /** The files of `paths` whose read succeeds, in order, with their content. */
  function Readable(paths: seq<string>, read: string -> Option<string>): (r: seq<SolidityFile>)
    ensures |r| <= |paths|
  {
    if paths == [] then []
    else
      var p := paths[|paths| - 1];
      Readable(paths[..|paths| - 1], read) + (match read(p) case Some(c) => [SolidityFile(p, c)] case None => [])
  }

  /** Every collected file has a selected path and that path's content. */
  lemma {:induction false} ReadableSound(paths: seq<string>, read: string -> Option<string>)
    ensures forall f :: f in Readable(paths, read) ==> f.path in paths && read(f.path) == Some(f.content)
  {
    if paths != [] {
      var init := paths[..|paths| - 1];
      ReadableSound(init, read);
      assert forall p :: p in init ==> p in paths;
    }
  }

  lemma {:induction false} ReadableConcat(xs: seq<string>, ys: seq<string>, read: string -> Option<string>)
    ensures Readable(xs + ys, read) == Readable(xs, read) + Readable(ys, read)
  {
    if ys == [] {
      assert xs + ys == xs;
    } else {
      var init := ys[..|ys| - 1];
      ReadableConcat(xs, init, read);
      assert (xs + ys)[..|xs + ys| - 1] == xs + init;
    }
  }

  /** Every path whose read succeeds is in the result. */
  lemma {:induction false} ReadableComplete(paths: seq<string>, read: string -> Option<string>, p: string)
    requires p in paths && read(p).Some?
    ensures SolidityFile(p, read(p).value) in Readable(paths, read)
  {
    var init := paths[..|paths| - 1];
    if p != paths[|paths| - 1] {
      assert p in init by {
        var i :| 0 <= i < |paths| && paths[i] == p;
        assert init[i] == p;
      }
      ReadableComplete(init, read, p);
    }
  }

  /** When no read fails, nothing is dropped and the order is kept. */
  lemma {:induction false} ReadableAll(paths: seq<string>, read: string -> Option<string>)
    requires forall i :: 0 <= i < |paths| ==> read(paths[i]).Some?
    ensures |Readable(paths, read)| == |paths|
    ensures forall i :: 0 <= i < |paths| ==> Readable(paths, read)[i] == SolidityFile(paths[i], read(paths[i]).value)
  {
    if paths != [] {
      var init := paths[..|paths| - 1];
      assert forall i :: 0 <= i < |init| ==> init[i] == paths[i];
      ReadableAll(init, read);
      var p := paths[|paths| - 1];
      var r := Readable(paths, read);
      var ri := Readable(init, read);
      assert r == ri + [SolidityFile(p, read(p).value)];
      forall i | 0 <= i < |paths| ensures r[i] == SolidityFile(paths[i], read(paths[i]).value) {
        if i < |init| {
          assert r[i] == ri[i];
        }
      }
    }
  }

  /** A failed read drops only that file. */
  lemma OneUnreadableFile(read: string -> Option<string>, a: string)
    requires read("A.sol") == Some(a) && read("B.sol") == None
    ensures Readable(["A.sol", "B.sol"], read) == [SolidityFile("A.sol", a)]
  {
    ReadableConcat(["A.sol"], ["B.sol"], read);
    assert ["A.sol"] + ["B.sol"] == ["A.sol", "B.sol"];
    assert ["A.sol"][..0] == [] && ["B.sol"][..0] == [];
  }

  method CollectContracts(selected: seq<string>, read: string -> Option<string>) returns (files: seq<SolidityFile>)
    ensures files == Readable(selected, read)
  {
    files := [];
    for i := 0 to |selected|
      invariant files == Readable(selected[..i], read)
    {
      var path := selected[i];
      assert selected[..i + 1][..i] == selected[..i];
      match read(path) {
        case Some(content) => files := files + [SolidityFile(path, content)];
        case None =>
      }
    }
    assert selected[..|selected|] == selected;
  }

  /** The contracts a local run audits: all discovered files, or the ones
      chosen interactively; `None` when the dialogue ran out of input. */
  function Contracts(allFiles: seq<string>, onlySelected: bool, lines: seq<string>, read: string -> Option<string>): (r: Option<seq<SolidityFile>>)
    ensures !onlySelected ==> r.Some?
    ensures r.Some? ==> forall f :: f in r.value ==> f.path in allFiles && read(f.path) == Some(f.content)
  {
    if !onlySelected then
      ReadableSound(allFiles, read);
      Some(Readable(allFiles, read))
    else
      match Select(allFiles, lines)
      case None => None
      case Some(s) =>
        SelectionFacts(allFiles, lines);
        ReadableSound(s.files, read);
        Some(Readable(s.files, read))
  }

  method FindSolidityContracts(allFiles: seq<string>, onlySelected: bool, lines: seq<string>, read: string -> Option<string>)
    returns (r: Option<seq<SolidityFile>>)
    ensures r == Contracts(allFiles, onlySelected, lines, read)
  {
    var selectedFiles := allFiles;
    if onlySelected {
      var selection := SelectFilesInteractively(allFiles, lines);
      if selection.None? {
        return None;
      }
      selectedFiles := selection.value.files;
    }
    var files := CollectContracts(selectedFiles, read);
    return Some(files);
  }

  // ---------------------------------------------------------------------
  // Saving the results and the local run (save_audit_results, process_local)

  /** What `save_audit_results` is handed: Python text, or the auditor's
      response object itself. */
  datatype SaveArgument = StrValue(text: string) | ModelValue(audit: AuditResponse)

  datatype SaveError =
    | OpenFailed      // open(output_path, 'w') raised
    | WriteTypeError  // f.write() was given something that is not a str

  /** Opening the output file is an oracle; `f.write` accepts only text.
      Every failure is re-raised to the caller. */
  function SaveAuditResults(outputPath: string, audit: SaveArgument, canOpen: string -> bool): (r: Result<(), SaveError>)
    ensures r.Success? <==> canOpen(outputPath) && audit.StrValue?
    ensures !canOpen(outputPath) ==> r == Failure(OpenFailed)
    ensures canOpen(outputPath) && audit.ModelValue? ==> r == Failure(WriteTypeError)
  {
    if !canOpen(outputPath) then Failure(OpenFailed)
    else if !audit.StrValue? then Failure(WriteTypeError)
    else Success(())
  }

  /** The calls a local run makes to the outside world, in order. */
  datatype LocalCall = AuditCall(contracts: seq<SolidityFile>) | SaveCall(outputPath: string, audit: SaveArgument)

  datatype LocalOutcome =
    | NoContracts   // returned early: nothing to audit
    | Completed     // results saved
    | Raised        // an exception left process_local

  /** `process_local` after the repository is cloned and its `.sol` files
      listed.  `auditor` stands for constructing the auditor and calling
      `audit_files` (`None`: the construction raised). */
  method ProcessLocal(
    allFiles: seq<string>, onlySelected: bool, lines: seq<string>, read: string -> Option<string>,
    outputPath: string, auditor: seq<SolidityFile> -> Option<AuditResponse>, canOpen: string -> bool)
    returns (outcome: LocalOutcome, calls: seq<LocalCall>)
    ensures var found := Contracts(allFiles, onlySelected, lines, read);
      && (found.None? ==> outcome == Raised && calls == [])
      && (found == Some([]) ==> outcome == NoContracts && calls == [])
      && (found.Some? && found.value != [] ==>
            && outcome == Raised
            && calls == match auditor(found.value)
                        case None => [AuditCall(found.value)]
                        case Some(audit) => [AuditCall(found.value), SaveCall(outputPath, ModelValue(audit))])
    ensures outcome == NoContracts <==> Contracts(allFiles, onlySelected, lines, read) == Some([])
    ensures outcome != Completed
  {
    calls := [];
    var solidityContracts := FindSolidityContracts(allFiles, onlySelected, lines, read);
    if solidityContracts.None? {
      return Raised, calls;
    }
    if solidityContracts.value == [] {
      return NoContracts, calls;
    }
    calls := calls + [AuditCall(solidityContracts.value)];
    var audit := auditor(solidityContracts.value);
    if audit.None? {
      return Raised, calls;
    }
    // The response object itself is passed on, as at the call site.
    calls := calls + [SaveCall(outputPath, ModelValue(audit.value))];
    var saved := SaveAuditResults(outputPath, ModelValue(audit.value), canOpen);
    if saved.Failure? {
      return Raised, calls;
    }
    return Completed, calls;
  }
}
