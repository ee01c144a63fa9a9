/** The CSV import dialog: splitting the pasted text into lines and fields,
    checking the header row, turning each data line into a topic row or an
    error message, and the import guard. */
module ImportCsv {
  import opened Wrappers
  import opened Numbers
  import opened Seqs
  import opened Text
  import Types

  const TooShort := "CSV must have at least a header row and one data row"

  /** A row of the preview: the raw columns by (lower-cased) header, and
      the typed fields the dialog fills in. */
  datatype CsvRow = CsvRow(
    columns: map<string, string>,
    subject: string,
    title: string,
    estimatedMinutes: int,
    weightage: Types.Score,
    difficulty: Types.Score,
    masteryLevel: Types.Mastery,
    mustWin: bool,
    isArchived: bool,
    firstStudied: Types.Millis)

  /** What one data line turns into: its row object, from which the
      preview row is built, or the reason it was turned down. */
  datatype LineResult = Accepted(columns: map<string, string>) | Rejected(lineNo: int, problem: Problem)

  /** Why a data line was turned down. */
  datatype Problem = ColumnCountMismatch | MissingSubjectOrTitle

  /** The header check: the text is refused outright, or its data lines
      are read against these headers. */
  datatype ParseResult = Refused(error: string) | Parsed(headers: seq<string>)

  /** Each piece trimmed. */
  function TrimEach(parts: seq<string>): (r: seq<string>)
    ensures |r| == |parts|
  {
    seq(|parts|, k requires 0 <= k < |parts| => Trim(parts[k]))
  }

  /** Each piece trimmed and lower-cased. */
  function NormalizeEach(parts: seq<string>): (r: seq<string>)
    ensures |r| == |parts|
  {
    seq(|parts|, k requires 0 <= k < |parts| => ToLower(Trim(parts[k])))
  }

  /** `lines[0].split(',').map(h => h.trim().toLowerCase())`. */
  function Headers(line: string): seq<string>
  {
    NormalizeEach(Split(line, ','))
  }

  /** `lines[i].split(',').map(v => v.trim())`. */
  function Values(line: string): seq<string>
  {
    TrimEach(Split(line, ','))
  }

  /** The row object after `row[header] = values[index]` for every header
      in turn: a later column with the same header wins. */
  function Columns(hs: seq<string>, vs: seq<string>): (m: map<string, string>)
    requires |hs| == |vs|
    ensures forall k :: k in m <==> k in hs
    decreases |hs|
  {
    if hs == [] then map[]
    else
      var n := |hs| - 1;
      assert forall k :: k in hs <==> k in hs[..n] || k == hs[n];
      Columns(hs[..n], vs[..n])[hs[n] := vs[n]]
  }

  /** The value under a header is the one from its last column. */
  lemma {:induction false} ColumnsLast(hs: seq<string>, vs: seq<string>, i: nat)
    requires |hs| == |vs| && i < |hs|
    requires forall j :: i < j < |hs| ==> hs[j] != hs[i]
    ensures Columns(hs, vs)[hs[i]] == vs[i]
    decreases |hs|
  {
    var n := |hs| - 1;
    if i < n {
      ColumnsLast(hs[..n], vs[..n], i);
    }
  }

  /** A property read: the column's text, or `undefined`. */
  function Get(m: map<string, string>, key: string): Option<string>
  {
    if key in m then Some(m[key]) else None
  }

  /** JavaScript truthiness of an optional text. */
  predicate Truthy(v: Option<string>) { v.Some? && v.value != "" }

  /** `Math.max(1, Math.min(5, parseInt(v) || 3))`. */
  function ScoreOf(v: Option<string>): (s: Types.Score)
    ensures ParseIntOf(v).None? || ParseIntOf(v) == Some(0) ==> s == 3
    ensures ParseIntOf(v).Some? && 1 <= ParseIntOf(v).value <= 5 ==> s == ParseIntOf(v).value
    ensures ParseIntOf(v).Some? && ParseIntOf(v).value > 5 ==> s == 5
    ensures ParseIntOf(v).Some? && ParseIntOf(v).value < 0 ==> s == 1
  {
    Clamp(1, 5, IntOr(ParseIntOf(v), 3))
  }

  /** `row.masteryLevel` if it names a level, else 'Beginner'. */
  function MasteryOf(v: Option<string>): (l: Types.Mastery)
    ensures v.Some? && Types.ParseMastery(v.value).Some? ==> l == Types.ParseMastery(v.value).value
    ensures v.None? || Types.ParseMastery(v.value).None? ==> l == Types.Beginner
  {
    match v
    case Some(s) => Types.ParseMastery(s).GetOr(Types.Beginner)
    case None => Types.Beginner
  }

  /** `row.mustWin?.toLowerCase() === 'true'`. */
  function FlagOf(v: Option<string>): (b: bool)
    ensures b <==> v.Some? && ToLower(v.value) == "true"
  {
    v.Some? && ToLower(v.value) == "true"
  }

  /** The conversions as written: the three camel-case keys are looked up
      on a row whose keys are all lower case. */
  function BuildRowAsWritten(m: map<string, string>, now: Types.Millis): CsvRow
  {
    CsvRow(m, Get(m, "subject").GetOr(""), Get(m, "title").GetOr(""),
      IntOr(ParseIntOf(Get(m, "estimatedMinutes")), 30),
      ScoreOf(Get(m, "weightage")), ScoreOf(Get(m, "difficulty")),
      MasteryOf(Get(m, "masteryLevel")), FlagOf(Get(m, "mustWin")),
      false, now)
  }

  /** The conversions as intended: the same keys, lower-cased like the
      headers they come from. */
  function BuildRow(m: map<string, string>, now: Types.Millis): (r: CsvRow)
    ensures r.isArchived == false && r.firstStudied == now
    ensures r.columns == m
    ensures ("subject" in m ==> r.subject == m["subject"]) && ("title" in m ==> r.title == m["title"])
    ensures "estimatedminutes" !in m ==> r.estimatedMinutes == 30
    ensures "estimatedminutes" in m && ParseInt(m["estimatedminutes"]).Some? && ParseInt(m["estimatedminutes"]).value != 0 ==>
              r.estimatedMinutes == ParseInt(m["estimatedminutes"]).value
    ensures "estimatedminutes" in m && (ParseInt(m["estimatedminutes"]).None? || ParseInt(m["estimatedminutes"]) == Some(0)) ==>
              r.estimatedMinutes == 30
    ensures r.weightage == ScoreOf(Get(m, "weightage")) && r.difficulty == ScoreOf(Get(m, "difficulty"))
    ensures "masterylevel" in m && Types.ParseMastery(m["masterylevel"]).Some? ==>
              r.masteryLevel == Types.ParseMastery(m["masterylevel"]).value
    ensures ("masterylevel" !in m || Types.ParseMastery(m["masterylevel"]).None?) ==> r.masteryLevel == Types.Beginner
    ensures r.mustWin <==> "mustwin" in m && ToLower(m["mustwin"]) == "true"
  {
    ParseIntUndefined();
    CsvRow(m, Get(m, "subject").GetOr(""), Get(m, "title").GetOr(""),
      IntOr(ParseIntOf(Get(m, "estimatedminutes")), 30),
      ScoreOf(Get(m, "weightage")), ScoreOf(Get(m, "difficulty")),
      MasteryOf(Get(m, "masterylevel")), FlagOf(Get(m, "mustwin")),
      false, now)
  }

  /** On a row object built from lower-cased headers, the code as written
      differs from the intended conversion exactly in the three camel-case
      fields, which always take their defaults: 30 minutes, 'Beginner' and
      not must-win, whatever the columns say. */
  lemma AsWrittenIgnoresColumns(hs: seq<string>, vs: seq<string>, now: Types.Millis)
    requires |hs| == |vs|
    requires forall k, c :: 0 <= k < |hs| && 0 <= c < |hs[k]| ==> !IsUpperAscii(hs[k][c])
    ensures var m := Columns(hs, vs);
            BuildRowAsWritten(m, now)
            == BuildRow(m, now).(estimatedMinutes := 30, masteryLevel := Types.Beginner, mustWin := false)
  {
    AsWrittenOnLowerKeys(Columns(hs, vs), now);
  }

  /** No key of the row object holds an upper-case letter. */
  predicate LowerKeys(m: map<string, string>)
  {
    forall key :: key in m ==> forall c :: 0 <= c < |key| ==> !IsUpperAscii(key[c])
  }

  /** The row the code as written builds, with the three camel-case fields
      at their defaults. */
  function Defaulted(r: CsvRow): CsvRow
  {
    r.(estimatedMinutes := 30, masteryLevel := Types.Beginner, mustWin := false)
  }

  lemma AsWrittenOnLowerKeys(m: map<string, string>, now: Types.Millis)
    requires LowerKeys(m)
    ensures BuildRowAsWritten(m, now) == Defaulted(BuildRow(m, now))
  {
    assert IsUpperAscii("estimatedMinutes"[9]) && IsUpperAscii("masteryLevel"[7]) && IsUpperAscii("mustWin"[4]);
    assert "estimatedMinutes" !in m && "masteryLevel" !in m && "mustWin" !in m;
    assert Get(m, "estimatedMinutes") == None && Get(m, "masteryLevel") == None && Get(m, "mustWin") == None;
    ParseIntUndefined();
  }

  /** The tell-tale input: an estimate of 45 minutes in the
      `estimatedMinutes` column is reported as 30 as written, and kept as
      intended. */
  lemma CamelCaseColumnsLost(now: Types.Millis)
    ensures var m := map["subject" := "Mathematics", "title" := "Calculus", "estimatedminutes" := "45"];
            && BuildRowAsWritten(m, now).estimatedMinutes == 30
            && BuildRow(m, now).estimatedMinutes == 45
  {
    var m := map["subject" := "Mathematics", "title" := "Calculus", "estimatedminutes" := "45"];
    assert Get(m, "estimatedMinutes") == None;
    ParseIntUndefined();
    ParseIntFortyFive();
    assert Get(m, "estimatedminutes") == Some("45");
  }

  /** The message shown for a rejected line. */
  function ErrorText(lineNo: int, problem: Problem): string
  {
    "Row " + IntToString(lineNo) + ": "
      + (match problem
         case ColumnCountMismatch => "Column count mismatch"
         case MissingSubjectOrTitle => "Subject and title are required")
  }

  /** The verdict on one data line, numbered from 1 in messages. */
  function CheckLine(hs: seq<string>, line: string, lineNo: int): LineResult
  {
    var vs := Values(line);
    if |vs| != |hs| then Rejected(lineNo, ColumnCountMismatch)
    else
      var m := Columns(hs, vs);
      if !Truthy(Get(m, "subject")) || !Truthy(Get(m, "title")) then
        Rejected(lineNo, MissingSubjectOrTitle)
      else Accepted(m)
  }

  /** A line is rejected exactly when its field count differs from the
      header count or its subject or title is missing or empty, for the
      first of those checks that fails; an accepted line keeps its row
      object. */
  lemma CheckLineVerdict(hs: seq<string>, line: string, lineNo: int)
    ensures var r := CheckLine(hs, line, lineNo);
            && (r.Rejected? <==> (|Values(line)| != |hs|
                                  || !Truthy(Get(Columns(hs, Values(line)), "subject"))
                                  || !Truthy(Get(Columns(hs, Values(line)), "title"))))
            && (r.Rejected? ==> r.lineNo == lineNo)
            && (r.Rejected? ==> (r.problem == ColumnCountMismatch <==> |Values(line)| != |hs|))
            && (r.Accepted? ==> r.columns == Columns(hs, Values(line)))
  {
  }

  /** `requiredHeaders.filter(h => !headers.includes(h))`. */
  function MissingHeaders(hs: seq<string>): (r: seq<string>)
    ensures |r| == 0 <==> "subject" in hs && "title" in hs
  {
    (if "subject" in hs then [] else ["subject"]) + (if "title" in hs then [] else ["title"])
  }

  function Lines(content: string): seq<string>
  {
    Split(Trim(content), '\n')
  }

  /** What `parseCSV` decides for a text. */
  function Parse(content: string): ParseResult
  {
    var lines := Lines(content);
    if |lines| < 2 then Refused(TooShort)
    else
      var hs := Headers(lines[0]);
      var missing := MissingHeaders(hs);
      if |missing| > 0 then Refused("Missing required columns: " + Join(missing, ", "))
      else Parsed(hs)
  }

  /** For a text that passes the header check, the verdict on each of
      its data lines. */
  function Verdicts(content: string): seq<LineResult>
    requires Parse(content).Parsed?
  {
    Results(Parse(content).headers, Lines(content))
  }

  /** The verdicts on the data lines `lines[1..]`, in order; line `i`
      (counting the header as 0) is reported as row `i + 1`. */
  function Results(hs: seq<string>, lines: seq<string>): (rs: seq<LineResult>)
    requires |lines| >= 1
    ensures |rs| == |lines| - 1
    decreases |lines|
  {
    if |lines| == 1 then []
    else
      var n := |lines| - 1;
      Results(hs, lines[..n]) + [CheckLine(hs, lines[n], n + 1)]
  }

  /** Reading one more line appends its verdict. */
  lemma ResultsSnoc(hs: seq<string>, lines: seq<string>, i: nat)
    requires 1 <= i < |lines|
    ensures Results(hs, lines[..i + 1]) == Results(hs, lines[..i]) + [CheckLine(hs, lines[i], i + 1)]
  {
    assert lines[..i + 1][..i] == lines[..i];
  }

  /** Data line `k + 1` gives the `k`-th verdict. */
  lemma {:induction false} ResultsAt(hs: seq<string>, lines: seq<string>, k: nat)
    requires k < |lines| - 1
    ensures Results(hs, lines)[k] == CheckLine(hs, lines[k + 1], k + 2)
    decreases |lines|
  {
    if k < |lines| - 2 {
      ResultsAt(hs, lines[..|lines| - 1], k);
      ResultsFront(hs, lines, k);
    } else {
      ResultsLast(hs, lines, k);
    }
  }

  lemma ResultsLast(hs: seq<string>, lines: seq<string>, k: nat)
    requires k == |lines| - 2
    ensures Results(hs, lines)[k] == CheckLine(hs, lines[k + 1], k + 2)
  {
  }

  lemma ResultsFront(hs: seq<string>, lines: seq<string>, k: nat)
    requires k < |lines| - 2
    requires Results(hs, lines[..|lines| - 1])[k] == CheckLine(hs, lines[..|lines| - 1][k + 1], k + 2)
    ensures Results(hs, lines)[k] == CheckLine(hs, lines[k + 1], k + 2)
  {
    assert lines[..|lines| - 1][k + 1] == lines[k + 1];
  }

  /** The preview rows: one per accepted line, in line order. */
  function RowsOf(rs: seq<LineResult>, now: Types.Millis): seq<CsvRow>
  {
    if rs == [] then []
    else
      var n := |rs| - 1;
      RowsOf(rs[..n], now) + (if rs[n].Accepted? then [BuildRow(rs[n].columns, now)] else [])
  }

  /** The error list: one message per rejected line, in line order. */
  function ErrorsOf(rs: seq<LineResult>): seq<string>
  {
    if rs == [] then []
    else
      var n := |rs| - 1;
      ErrorsOf(rs[..n]) + (if rs[n].Rejected? then [ErrorText(rs[n].lineNo, rs[n].problem)] else [])
  }

  lemma RowsErrorsSnoc(rs: seq<LineResult>, x: LineResult, now: Types.Millis)
    ensures RowsOf(rs + [x], now) == RowsOf(rs, now) + (if x.Accepted? then [BuildRow(x.columns, now)] else [])
    ensures ErrorsOf(rs + [x]) == ErrorsOf(rs) + (if x.Rejected? then [ErrorText(x.lineNo, x.problem)] else [])
  {
    assert (rs + [x])[..|rs|] == rs;
  }

  /** Every data line gives exactly one row or exactly one error. */
  lemma {:induction false} RowsPlusErrors(rs: seq<LineResult>, now: Types.Millis)
    ensures |RowsOf(rs, now)| + |ErrorsOf(rs)| == |rs|
    decreases |rs|
  {
    if rs != [] {
      RowsPlusErrors(rs[..|rs| - 1], now);
    }
  }

  /** A text of fewer than two lines, or a header row without 'subject' or
      'title', is refused with one message; the message names the missing
      columns. */
  lemma ParseRefusals(content: string)
    ensures |Lines(content)| < 2 ==> Parse(content) == Refused(TooShort)
    ensures |Lines(content)| >= 2 && "subject" !in Headers(Lines(content)[0]) && "title" in Headers(Lines(content)[0]) ==>
              Parse(content) == Refused("Missing required columns: " + "subject")
    ensures |Lines(content)| >= 2 && "subject" in Headers(Lines(content)[0]) && "title" !in Headers(Lines(content)[0]) ==>
              Parse(content) == Refused("Missing required columns: " + "title")
    ensures |Lines(content)| >= 2 && "subject" !in Headers(Lines(content)[0]) && "title" !in Headers(Lines(content)[0]) ==>
              Parse(content) == Refused("Missing required columns: " + "subject, title")
    ensures Parse(content).Parsed? <==>
              |Lines(content)| >= 2 && "subject" in Headers(Lines(content)[0]) && "title" in Headers(Lines(content)[0])
  {
    JoinOfMissing();
    if |Lines(content)| >= 2 {
      var hs := Headers(Lines(content)[0]);
      MissingHeadersCases(hs);
    }
  }

  lemma MissingHeadersCases(hs: seq<string>)
    ensures "subject" !in hs && "title" in hs ==> MissingHeaders(hs) == ["subject"]
    ensures "subject" in hs && "title" !in hs ==> MissingHeaders(hs) == ["title"]
    ensures "subject" !in hs && "title" !in hs ==> MissingHeaders(hs) == ["subject", "title"]
  {
  }

  lemma JoinOfMissing()
    ensures Join(["subject"], ", ") == "subject"
    ensures Join(["title"], ", ") == "title"
    ensures Join(["subject", "title"], ", ") == "subject, title"
  {
    assert ["subject", "title"][1..] == ["title"];
  }

  /** A parsed text has one result per data line, each giving a row or an
      error. */
  lemma ParseCounts(content: string, now: Types.Millis)
    requires Parse(content).Parsed?
    ensures |Verdicts(content)| == |Lines(content)| - 1
    ensures |RowsOf(Verdicts(content), now)| + |ErrorsOf(Verdicts(content))| == |Lines(content)| - 1
  {
    RowsPlusErrors(Verdicts(content), now);
  }

  /** Every accepted row object carries a non-empty subject and title. */
  predicate AcceptedHaveNames(rs: seq<LineResult>)
  {
    forall k :: 0 <= k < |rs| && rs[k].Accepted? ==>
      Truthy(Get(rs[k].columns, "subject")) && Truthy(Get(rs[k].columns, "title"))
  }

  lemma {:induction false} ResultsHaveNames(hs: seq<string>, lines: seq<string>)
    requires |lines| >= 1
    ensures AcceptedHaveNames(Results(hs, lines))
    decreases |lines|
  {
    if |lines| > 1 {
      var n := |lines| - 1;
      ResultsHaveNames(hs, lines[..n]);
      assert Results(hs, lines) == Results(hs, lines[..n]) + [CheckLine(hs, lines[n], n + 1)];
    }
  }

  /** Every preview row has a subject and a title, is not archived, and
      was first studied at `now`. */
  lemma {:induction false} RowsShape(rs: seq<LineResult>, now: Types.Millis, i: nat)
    requires AcceptedHaveNames(rs)
    requires i < |RowsOf(rs, now)|
    ensures var r := RowsOf(rs, now)[i];
            r.subject != "" && r.title != "" && !r.isArchived && r.firstStudied == now
    decreases |rs|
  {
    var n := |rs| - 1;
    assert AcceptedHaveNames(rs[..n]) by {
      assert forall k :: 0 <= k < n ==> rs[..n][k] == rs[k];
    }
    if i < |RowsOf(rs[..n], now)| {
      RowsShape(rs[..n], now, i);
    }
  }

  /** Whatever the text, every row of a parsed preview is a named topic. */
  lemma ParsedRowsShape(content: string, now: Types.Millis, i: nat)
    requires Parse(content).Parsed?
    requires i < |RowsOf(Verdicts(content), now)|
    ensures var r := RowsOf(Verdicts(content), now)[i];
            r.subject != "" && r.title != "" && !r.isArchived && r.firstStudied == now
  {
    var lines := Lines(content);
    ResultsHaveNames(Headers(lines[0]), lines);
    RowsShape(Verdicts(content), now, i);
  }

  /** The preview rows as the code is written: the same rows, built with
      the camel-case lookups. */
  function RowsAsWrittenOf(rs: seq<LineResult>, now: Types.Millis): seq<CsvRow>
  {
    if rs == [] then []
    else
      var n := |rs| - 1;
      RowsAsWrittenOf(rs[..n], now) + (if rs[n].Accepted? then [BuildRowAsWritten(rs[n].columns, now)] else [])
  }

  /** Each row with its three camel-case fields at their defaults. */
  function DefaultedAll(rows: seq<CsvRow>): (r: seq<CsvRow>)
    ensures |r| == |rows| && forall i :: 0 <= i < |rows| ==> r[i] == Defaulted(rows[i])
  {
    seq(|rows|, i requires 0 <= i < |rows| => Defaulted(rows[i]))
  }

  lemma DefaultedAllConcat(b: seq<CsvRow>, y: seq<CsvRow>)
    ensures DefaultedAll(b + y) == DefaultedAll(b) + DefaultedAll(y)
  {
  }

  /** One verdict: the row as written is the intended row, defaulted. */
  lemma TailDefaulted(x: LineResult, now: Types.Millis)
    requires x.Accepted? ==> LowerKeys(x.columns)
    ensures (if x.Accepted? then [BuildRowAsWritten(x.columns, now)] else [])
            == DefaultedAll(if x.Accepted? then [BuildRow(x.columns, now)] else [])
  {
    if x.Accepted? {
      AsWrittenOnLowerKeys(x.columns, now);
      SingletonDefaulted(BuildRowAsWritten(x.columns, now), BuildRow(x.columns, now));
    } else {
      assert DefaultedAll([]) == [];
    }
  }

  lemma SingletonDefaulted(a: CsvRow, b: CsvRow)
    requires a == Defaulted(b)
    ensures [a] == DefaultedAll([b])
  {
  }

  /** The preview as written is the intended preview with the estimate,
      the mastery level and the must-win flag of every row at their
      defaults, whenever the row objects have lower-case keys. */
  lemma {:induction false} RowsAsWrittenDefaulted(rs: seq<LineResult>, now: Types.Millis)
    requires forall k :: 0 <= k < |rs| && rs[k].Accepted? ==> LowerKeys(rs[k].columns)
    ensures RowsAsWrittenOf(rs, now) == DefaultedAll(RowsOf(rs, now))
    decreases |rs|
  {
    if rs != [] {
      var n := |rs| - 1;
      assert forall k :: 0 <= k < n ==> rs[..n][k] == rs[k];
      RowsAsWrittenDefaulted(rs[..n], now);
      TailDefaulted(rs[n], now);
      DefaultedAllConcat(RowsOf(rs[..n], now), if rs[n].Accepted? then [BuildRow(rs[n].columns, now)] else []);
    } else {
      assert DefaultedAll([]) == [];
    }
  }

  /** The headers are lower case, so every row object of a parsed text
      has lower-case keys. */
  lemma VerdictsHaveLowerKeys(content: string, k: nat)
    requires Parse(content).Parsed?
    requires k < |Verdicts(content)| && Verdicts(content)[k].Accepted?
    ensures LowerKeys(Verdicts(content)[k].columns)
  {
    var lines := Lines(content);
    var hs := Parse(content).headers;
    assert hs == Headers(lines[0]);
    ResultsAt(hs, lines, k);
    CheckLineVerdict(hs, lines[k + 1], k + 2);
    ColumnsLowerKeys(hs, Values(lines[k + 1]));
  }

  lemma ColumnsLowerKeys(hs: seq<string>, vs: seq<string>)
    requires |hs| == |vs|
    requires forall j :: 0 <= j < |hs| ==> forall c :: 0 <= c < |hs[j]| ==> !IsUpperAscii(hs[j][c])
    ensures LowerKeys(Columns(hs, vs))
  {
    forall key | key in Columns(hs, vs) ensures forall c :: 0 <= c < |key| ==> !IsUpperAscii(key[c]) {
      var j :| 0 <= j < |hs| && hs[j] == key;
    }
  }

  /** For any text that passes the header check, the preview the dialog
      shows as written is the intended preview with every estimate 30,
      every level 'Beginner' and no row must-win. */
  lemma ParsedRowsAsWritten(content: string, now: Types.Millis)
    requires Parse(content).Parsed?
    ensures |RowsAsWrittenOf(Verdicts(content), now)| == |RowsOf(Verdicts(content), now)|
    ensures forall i :: 0 <= i < |RowsOf(Verdicts(content), now)| ==>
              RowsAsWrittenOf(Verdicts(content), now)[i] == Defaulted(RowsOf(Verdicts(content), now)[i])
  {
    var rs := Verdicts(content);
    forall k | 0 <= k < |rs| && rs[k].Accepted? ensures LowerKeys(rs[k].columns) {
      VerdictsHaveLowerKeys(content, k);
    }
    RowsAsWrittenDefaulted(rs, now);
  }

  /** The condition under which the Import button is enabled. */
  predicate CanImport(preview: seq<CsvRow>, errors: seq<string>)
  {
    |preview| > 0 && |errors| == 0
  }

  /** No error is listed exactly when every data line is accepted. */
  lemma {:induction false} NoErrorsIffAllAccepted(rs: seq<LineResult>)
    ensures ErrorsOf(rs) == [] <==> forall k :: 0 <= k < |rs| ==> rs[k].Accepted?
    decreases |rs|
  {
    if rs != [] {
      var n := |rs| - 1;
      NoErrorsIffAllAccepted(rs[..n]);
      assert forall k :: 0 <= k < n ==> rs[..n][k] == rs[k];
    }
  }

  /** After a parse that passes the header check, Import is enabled
      exactly when there is at least one data line and every data line is
      accepted. */
  lemma ImportableIffAllAccepted(rs: seq<LineResult>, now: Types.Millis)
    ensures CanImport(RowsOf(rs, now), ErrorsOf(rs)) <==>
              |rs| > 0 && forall k :: 0 <= k < |rs| ==> rs[k].Accepted?
  {
    NoErrorsIffAllAccepted(rs);
    RowsPlusErrors(rs, now);
  }

  /** The dialog's state. */
  class ImportDialog {
    var csvContent: string
    var previewData: seq<CsvRow>
    var errors: seq<string>

    constructor()
      ensures csvContent == "" && previewData == [] && errors == []
    {
      csvContent := "";
      previewData := [];
      errors := [];
    }

    /** `parseCSV`: a refused text replaces the errors by its one message
        and keeps the previous preview; otherwise the preview and the
        errors are the accepted rows and the messages, in line order. */
    method ParseCsv(content: string, now: Types.Millis)
      modifies this
      ensures csvContent == old(csvContent)
      ensures Parse(content).Refused? ==>
                errors == [Parse(content).error] && previewData == old(previewData)
      ensures Parse(content).Parsed? ==>
                previewData == RowsOf(Verdicts(content), now)
                && errors == ErrorsOf(Verdicts(content))
    {
      var lines := Split(Trim(content), '\n');
      if |lines| < 2 {
        errors := [TooShort];
        return;
      }
      var headers := Headers(lines[0]);
      var missing := MissingHeaders(headers);
      if |missing| > 0 {
        errors := ["Missing required columns: " + Join(missing, ", ")];
        return;
      }
      var validRows, newErrors := ReadLines(headers, lines, now);
      errors := newErrors;
      previewData := validRows;
    }

    /** `handleTextChange`: store the text and parse it. */
    method HandleTextChange(content: string, now: Types.Millis)
      modifies this
      ensures csvContent == content
      ensures Parse(content).Refused? ==>
                errors == [Parse(content).error] && previewData == old(previewData)
      ensures Parse(content).Parsed? ==>
                previewData == RowsOf(Verdicts(content), now)
                && errors == ErrorsOf(Verdicts(content))
    {
      csvContent := content;
      ParseCsv(content, now);
    }

    /** The Import button is enabled only with rows and no errors. */
    predicate ImportEnabled()
      reads this
    {
      CanImport(previewData, errors)
    }

    /** `handleClose`: everything is cleared. */
    method HandleClose()
      modifies this
      ensures csvContent == "" && previewData == [] && errors == []
    {
      csvContent := "";
      previewData := [];
      errors := [];
    }

    /** `handleImport`: with no rows nothing happens; otherwise the rows
        go to `onImport` and the dialog is cleared. */
    method HandleImport() returns (imported: Option<seq<CsvRow>>)
      modifies this
      ensures old(previewData) == [] ==> imported.None? && unchanged(this)
      ensures old(previewData) != [] ==> (imported == Some(old(previewData))
                && csvContent == "" && previewData == [] && errors == [])
    {
      if |previewData| == 0 {
        return None;
      }
      imported := Some(previewData);
      csvContent := "";
      previewData := [];
      errors := [];
    }
  }

  /** The loop of `parseCSV` over the data lines. */
  method ReadLines(headers: seq<string>, lines: seq<string>, now: Types.Millis)
    returns (validRows: seq<CsvRow>, newErrors: seq<string>)
    requires |lines| >= 1
    ensures validRows == RowsOf(Results(headers, lines), now)
    ensures newErrors == ErrorsOf(Results(headers, lines))
  {
    validRows := [];
    newErrors := [];
    var i := 1;
    while i < |lines|
      invariant 1 <= i <= |lines|
      invariant validRows == RowsOf(Results(headers, lines[..i]), now)
      invariant newErrors == ErrorsOf(Results(headers, lines[..i]))
    {
      ResultsSnoc(headers, lines, i);
      var result := ParseLine(headers, lines[i], i + 1);
      ghost var done := Results(headers, lines[..i]);
      assert Results(headers, lines[..i + 1]) == done + [result];
      RowsErrorsSnoc(done, result, now);
      if result.Accepted? {
        validRows := validRows + [BuildRow(result.columns, now)];
      } else {
        newErrors := newErrors + [ErrorText(result.lineNo, result.problem)];
      }
      i := i + 1;
    }
    assert lines[..i] == lines;
  }

  /** The body of `parseCSV`'s loop for one data line. */
  method ParseLine(hs: seq<string>, line: string, lineNo: int) returns (r: LineResult)
    ensures r == CheckLine(hs, line, lineNo)
  {
    var values := Values(line);
    if |values| != |hs| {
      return Rejected(lineNo, ColumnCountMismatch);
    }
    var row := FillColumns(hs, values);
    if !Truthy(Get(row, "subject")) || !Truthy(Get(row, "title")) {
      return Rejected(lineNo, MissingSubjectOrTitle);
    }
    r := Accepted(row);
  }

  /** The `headers.forEach` that fills the row object field by field. */
  method FillColumns(hs: seq<string>, vs: seq<string>) returns (row: map<string, string>)
    requires |hs| == |vs|
    ensures row == Columns(hs, vs)
  {
    row := map[];
    var j := 0;
    while j < |hs|
      invariant 0 <= j <= |hs|
      invariant row == Columns(hs[..j], vs[..j])
    {
      assert hs[..j + 1][..j] == hs[..j] && vs[..j + 1][..j] == vs[..j];
      row := row[hs[j] := vs[j]];
      j := j + 1;
    }
    assert hs[..j] == hs && vs[..j] == vs;
  }
}
