/** The renderer of `ChatBot.respond`: it turns the job postings found by
    the text search into the context text handed to the language model.
    Each posting becomes a block of 16 labelled lines, blocks are separated
    by a blank line, and an empty result set becomes a fixed sentence. */
module Render {
  import opened Text

  /** A job posting as the document store returns it: field name to text. */
  type Record = map<string, string>

  /** Shown for a field the posting does not have. */
  const Missing: string := "N/A"
  /** The whole context when the search finds nothing. */
  const NoResults: string := "No relevant job postings found."
  /** How many characters of the job description are shown. */
  const DescriptionLimit: nat := 500
  /** What separates the blocks of two postings: a blank line. */
  const BlockSeparator: string := "\n\n"

  /** Python's `rec.get(key, 'N/A')`. */
  function Get(rec: Record, key: string): (r: string)
    ensures key in rec ==> r == rec[key]
    ensures key !in rec ==> r == Missing
  {
    if key in rec then rec[key] else Missing
  }

  /** The shown part of the job description: Python's
      `rec.get('Job Description', 'N/A')[:500]`. */
  function Description(rec: Record): (d: string)
    ensures |d| <= DescriptionLimit
    ensures d <= Get(rec, "Job Description")
    ensures d == Get(rec, "Job Description") <==> |Get(rec, "Job Description")| <= DescriptionLimit
    ensures "Job Description" !in rec ==> d == Missing
  {
    Take(Get(rec, "Job Description"), DescriptionLimit)
  }

  /** The label that opens each of the sixteen lines, in order. */
  const Labels: seq<string> := [
    "\U{1F4CC} **", "\U{1F3E2} Company: ", "\U{1F4CD} Location: ",
    "\U{1F4B0} Salary: ", "\U{1F4C5} Posted on: ", "\U{1F4DE} Contact: ",
    "\U{1F393} Experience: ", "\U{1F4DC} Qualifications: ",
    "\U{1F6E0} Work Type: ", "\U{1F3AF} Preference: ",
    "\U{1F310} Job Portal: ", "\U{1F4CC} Role: ", "\U{1F4A1} Skills: ",
    "\U{1F4CB} Responsibilities: ", "\U{1F381} Benefits: ",
    "\U{1F4DD} Description: "
  ]

  /** The fields each line shows, in order of appearance. */
  const SlotKeys: seq<seq<string>> := [
    ["Job Title"], ["Company"], ["location", "Country"], ["Salary Range"],
    ["Job Posting Date"], ["Contact Person", "Contact"], ["Experience"],
    ["Qualifications"], ["Work Type"], ["Preference"], ["Job Portal"],
    ["Role"], ["skills"], ["Responsibilities"], ["Benefits"],
    ["Job Description"]
  ]

  /** What follows the label on each line. The title is closed by `**`,
      two lines show two fields, and the description line shows at most
      500 characters of the description followed by `...`. */
  function Shown(rec: Record): (r: seq<string>)
    ensures |r| == 16
    ensures 3 <= |r[15]| <= DescriptionLimit + 3 && r[15][|r[15]| - 3..] == "..."
  {
    [ Get(rec, "Job Title") + "**",
      Get(rec, "Company"),
      Get(rec, "location") + ", " + Get(rec, "Country"),
      Get(rec, "Salary Range"),
      Get(rec, "Job Posting Date"),
      Get(rec, "Contact Person") + " - " + Get(rec, "Contact"),
      Get(rec, "Experience"),
      Get(rec, "Qualifications"),
      Get(rec, "Work Type"),
      Get(rec, "Preference"),
      Get(rec, "Job Portal"),
      Get(rec, "Role"),
      Get(rec, "skills"),
      Get(rec, "Responsibilities"),
      Get(rec, "Benefits"),
      Description(rec) + "..." ]
  }

  /** The lines of a posting's block: each label followed by its text. */
  function Lines(rec: Record): (r: seq<string>)
    ensures |r| == 16
    ensures forall i :: 0 <= i < 16 ==> r[i] == Labels[i] + Shown(rec)[i]
  {
    seq(16, i requires 0 <= i < 16 => Labels[i] + Shown(rec)[i])
  }

  /** The block of one posting: its sixteen lines, each but the last ended
      by a line break. */
  function Block(rec: Record): (r: string)
    ensures Labels[0] <= r
    ensures forall i :: 0 <= i < 16 ==> Occurs(Lines(rec)[i], r)
  {
    JoinContainsParts("\n", Lines(rec));
    Join("\n", Lines(rec))
  }

  /** One block per posting, in the order the postings came. */
  function Blocks(results: seq<Record>): (r: seq<string>)
    ensures |r| == |results|
    ensures forall k :: 0 <= k < |r| ==> r[k] == Block(results[k])
  {
    seq(|results|, k requires 0 <= k < |results| => Block(results[k]))
  }

  /** The context handed to the language model. */
  function Context(results: seq<Record>): (r: string)
    ensures |results| == 0 ==> r == NoResults
    ensures |results| > 0 ==> Block(results[0]) <= r
    ensures forall k :: 0 <= k < |results| ==> Occurs(Block(results[k]), r)
  {
    if |results| == 0 then NoResults
    else
      JoinContainsParts(BlockSeparator, Blocks(results));
      Join(BlockSeparator, Blocks(results))
  }

  /** The fields a block shows whole: every field it reads but the
      description, of which it shows only the first 500 characters. */
  const WholeKeys: set<string> := {
    "Job Title", "Company", "location", "Country", "Salary Range",
    "Job Posting Date", "Contact Person", "Contact", "Experience",
    "Qualifications", "Work Type", "Preference", "Job Portal", "Role",
    "skills", "Responsibilities", "Benefits"
  }

  /** The shown fields that are followed on their line by more text (`**`,
      `, ` or ` - `) rather than by the line break. */
  const MidLineKeys: set<string> := {"Job Title", "location", "Contact Person"}

  /** Nothing the block shows holds a line break: no field it shows whole,
      and not the part of the description it shows. Fields the block does
      not read are unconstrained. */
  predicate SingleLineFields(rec: Record)
  {
    && (forall key :: key in rec && key in WholeKeys ==> '\n' !in rec[key])
    && '\n' !in Description(rec)
  }

  /** Nothing the block shows holds a blank line, and no field that ends
      its line ends in a line break: then no blank line can arise inside
      the posting's block. Fields the block does not read are
      unconstrained. */
  predicate TidyFields(rec: Record)
  {
    && (forall key :: key in rec && key in WholeKeys ==> !Occurs("\n\n", rec[key]))
    && (forall key :: key in rec && key in WholeKeys && key !in MidLineKeys ==> EndsOpen(rec[key]))
    && !Occurs("\n\n", Description(rec))
  }

  /** A field the block does not read changes neither the block nor
      whether the posting is tidy or shows a line break. */
  lemma UnreadFieldIsIgnored(rec: Record, key: string, v: string)
    requires key !in WholeKeys && key != "Job Description"
    ensures Block(rec[key := v]) == Block(rec)
    ensures TidyFields(rec[key := v]) == TidyFields(rec)
    ensures SingleLineFields(rec[key := v]) == SingleLineFields(rec)
  {
    var rec' := rec[key := v];
    forall k | k in WholeKeys || k == "Job Description"
      ensures Get(rec', k) == Get(rec, k)
    {
    }
    assert Description(rec') == Description(rec);
    assert Shown(rec') == Shown(rec);
  }

  /** A posting without any field renders every value as the placeholder. */
  lemma EmptyPostingShowsPlaceholders()
    ensures Shown(map[]) == [
      "N/A**", "N/A", "N/A, N/A", "N/A", "N/A", "N/A - N/A", "N/A", "N/A",
      "N/A", "N/A", "N/A", "N/A", "N/A", "N/A", "N/A", "N/A..."]
  {
    var e: Record := map[];
    assert Description(e) == Missing;
    assert Missing + "**" == "N/A**";
    assert Missing + ", " + Missing == "N/A, N/A";
    assert Missing + " - " + Missing == "N/A - N/A";
    assert Missing + "..." == "N/A...";
  }

  /** `v` stands whole between `a` and `b`. */
  lemma OccursBetween(v: string, a: string, b: string, s: string)
    requires s == a + v + b
    ensures Occurs(v, s)
  {
    OccursInMiddle(v, a, b);
  }

  /** The twelve lines that show one field show exactly that field. */
  lemma PlainSlot(rec: Record, i: nat)
    requires i < 15 && i != 0 && i != 2 && i != 5
    ensures |SlotKeys[i]| == 1 && Shown(rec)[i] == Get(rec, SlotKeys[i][0])
    ensures SlotKeys[i][0] in WholeKeys && SlotKeys[i][0] !in MidLineKeys
  {
    var r := Shown(rec);
    if i == 1 { assert SlotKeys[1] == ["Company"] && r[1] == Get(rec, "Company"); }
    else if i == 3 { assert SlotKeys[3] == ["Salary Range"] && r[3] == Get(rec, "Salary Range"); }
    else if i == 4 { assert SlotKeys[4] == ["Job Posting Date"] && r[4] == Get(rec, "Job Posting Date"); }
    else if i == 6 { assert SlotKeys[6] == ["Experience"] && r[6] == Get(rec, "Experience"); }
    else if i == 7 { assert SlotKeys[7] == ["Qualifications"] && r[7] == Get(rec, "Qualifications"); }
    else if i == 8 { assert SlotKeys[8] == ["Work Type"] && r[8] == Get(rec, "Work Type"); }
    else if i == 9 { assert SlotKeys[9] == ["Preference"] && r[9] == Get(rec, "Preference"); }
    else if i == 10 { assert SlotKeys[10] == ["Job Portal"] && r[10] == Get(rec, "Job Portal"); }
    else if i == 11 { assert SlotKeys[11] == ["Role"] && r[11] == Get(rec, "Role"); }
    else if i == 12 { assert SlotKeys[12] == ["skills"] && r[12] == Get(rec, "skills"); }
    else if i == 13 { assert SlotKeys[13] == ["Responsibilities"] && r[13] == Get(rec, "Responsibilities"); }
    else { assert SlotKeys[14] == ["Benefits"] && r[14] == Get(rec, "Benefits"); }
  }

  /** The title line shows the whole title. */
  lemma TitleShown(rec: Record)
    ensures Occurs(Get(rec, "Job Title"), Shown(rec)[0])
  {
    OccursBetween(Get(rec, "Job Title"), "", "**", Shown(rec)[0]);
  }

  /** The location line shows both the location and the country. */
  lemma LocationShown(rec: Record)
    ensures Occurs(Get(rec, "location"), Shown(rec)[2])
    ensures Occurs(Get(rec, "Country"), Shown(rec)[2])
  {
    var loc, country := Get(rec, "location"), Get(rec, "Country");
    OccursBetween(loc, "", ", " + country, Shown(rec)[2]);
    OccursBetween(country, loc + ", ", "", Shown(rec)[2]);
  }

  /** The contact line shows both the contact person and the contact. */
  lemma ContactShown(rec: Record)
    ensures Occurs(Get(rec, "Contact Person"), Shown(rec)[5])
    ensures Occurs(Get(rec, "Contact"), Shown(rec)[5])
  {
    var person, contact := Get(rec, "Contact Person"), Get(rec, "Contact");
    OccursBetween(person, "", " - " + contact, Shown(rec)[5]);
    OccursBetween(contact, person + " - ", "", Shown(rec)[5]);
  }

  /** The title line and the two lines that read two fields show each of
      their fields whole. */
  lemma CompoundSlot(rec: Record, i: nat, j: nat)
    requires i in {0, 2, 5} && j < |SlotKeys[i]|
    ensures Occurs(Get(rec, SlotKeys[i][j]), Shown(rec)[i])
  {
    if i == 0 {
      assert SlotKeys[0] == ["Job Title"];
      TitleShown(rec);
    } else if i == 2 {
      assert SlotKeys[2] == ["location", "Country"];
      LocationShown(rec);
    } else {
      assert SlotKeys[5] == ["Contact Person", "Contact"];
      ContactShown(rec);
    }
  }

  /** Each field a line reads appears, whole, in what the line shows;
      the description appears as far as it is shown. */
  lemma SlotShowsField(rec: Record, i: nat, j: nat)
    requires i < 16 && j < |SlotKeys[i]|
    ensures i < 15 ==> Occurs(Get(rec, SlotKeys[i][j]), Shown(rec)[i])
    ensures i == 15 ==> Occurs(Description(rec), Shown(rec)[i])
  {
    if i == 0 || i == 2 || i == 5 {
      CompoundSlot(rec, i, j);
    } else if i == 15 {
      OccursBetween(Description(rec), "", "...", Shown(rec)[15]);
    } else {
      PlainSlot(rec, i);
      OccursInItself(Shown(rec)[i]);
    }
  }

  /** Every field a posting's block reads appears in the context. */
  lemma FieldsInContext(results: seq<Record>, k: nat, i: nat, j: nat)
    requires k < |results| && i < 15 && j < |SlotKeys[i]|
    ensures Occurs(Get(results[k], SlotKeys[i][j]), Context(results))
  {
    var v := Get(results[k], SlotKeys[i][j]);
    SlotShowsField(results[k], i, j);
    OccursPrefixed(v, Labels[i], Shown(results[k])[i]);
    OccursInJoin(v, "\n", Lines(results[k]), i);
    OccursInJoin(v, BlockSeparator, Blocks(results), k);
  }

  /** No label holds a line break, and none is empty. */
  lemma LabelsAreSingleLine()
    ensures forall i :: 0 <= i < 16 ==> |Labels[i]| > 0 && '\n' !in Labels[i]
  {
  }

  /** When no field holds a line break, neither does any line of the block. */
  lemma LinesAreSingleLine(rec: Record)
    requires SingleLineFields(rec)
    ensures forall i :: 0 <= i < 16 ==> |Lines(rec)[i]| > 0 && '\n' !in Lines(rec)[i]
  {
    LabelsAreSingleLine();
    var r := Shown(rec);
    forall i | 0 <= i < 16
      ensures '\n' !in r[i]
    {
      if i == 0 || i == 2 || i == 5 {
        assert '\n' !in Get(rec, "Job Title") + "**";
        assert '\n' !in Get(rec, "location") + ", " + Get(rec, "Country");
        assert '\n' !in Get(rec, "Contact Person") + " - " + Get(rec, "Contact");
      } else if i == 15 {
        assert '\n' !in Description(rec) + "...";
      } else {
        PlainSlot(rec, i);
      }
    }
  }

  /** Splitting a block at its line breaks gives back its sixteen lines. */
  lemma BlockSplitsIntoLines(rec: Record)
    requires SingleLineFields(rec)
    ensures Split(Block(rec), "\n") == Lines(rec)
  {
    LinesAreSingleLine(rec);
    forall i | 0 <= i < 16
      ensures Separable(Lines(rec)[i], "\n")
    {
      LineIsSeparable(Lines(rec)[i]);
    }
    SplitJoin("\n", Lines(rec));
  }

  /** The line and the place on it where a field shown whole appears. */
  lemma WholeKeySlot(key: string) returns (i: nat, j: nat)
    requires key in WholeKeys
    ensures i < 15 && j < |SlotKeys[i]| && SlotKeys[i][j] == key
  {
    if key == "Job Title" { i, j := 0, 0; }
    else if key == "Company" { i, j := 1, 0; }
    else if key == "location" { i, j := 2, 0; }
    else if key == "Country" { i, j := 2, 1; }
    else if key == "Salary Range" { i, j := 3, 0; }
    else if key == "Job Posting Date" { i, j := 4, 0; }
    else if key == "Contact Person" { i, j := 5, 0; }
    else if key == "Contact" { i, j := 5, 1; }
    else if key == "Experience" { i, j := 6, 0; }
    else if key == "Qualifications" { i, j := 7, 0; }
    else if key == "Work Type" { i, j := 8, 0; }
    else if key == "Preference" { i, j := 9, 0; }
    else if key == "Job Portal" { i, j := 10, 0; }
    else if key == "Role" { i, j := 11, 0; }
    else if key == "skills" { i, j := 12, 0; }
    else if key == "Responsibilities" { i, j := 13, 0; }
    else { i, j := 14, 0; }
  }

  /** The converse of `BlockSplitsIntoLines`: a block that splits back into
      its sixteen lines shows no line break. */
  lemma BlockSplitsIntoLinesOnlyIf(rec: Record)
    requires Split(Block(rec), "\n") == Lines(rec)
    ensures SingleLineFields(rec)
  {
    SplitLinesHaveNoBreak(Block(rec));
    var r := Shown(rec);
    forall i | 0 <= i < 16
      ensures '\n' !in r[i]
    {
      assert Lines(rec)[i] == Labels[i] + r[i];
    }
    forall key | key in rec && key in WholeKeys
      ensures '\n' !in rec[key]
    {
      var i, j := WholeKeySlot(key);
      SlotShowsField(rec, i, j);
      if '\n' in rec[key] {
        OccurrenceInside(rec[key], r[i], '\n');
      }
    }
    assert r[15] == Description(rec) + "...";
  }

  /** With tidy fields, a field shown whole holds no blank line. */
  lemma GetHasNoBlankLine(rec: Record, key: string)
    requires TidyFields(rec) && key in WholeKeys
    ensures !Occurs("\n\n", Get(rec, key))
  {
    if key !in rec {
      NoBreakIsTidy(Missing);
    }
  }

  /** With tidy fields, a field that ends its line is tidy. */
  lemma GetIsTidy(rec: Record, key: string)
    requires TidyFields(rec) && key in WholeKeys && key !in MidLineKeys
    ensures Tidy(Get(rec, key))
  {
    if key !in rec {
      NoBreakIsTidy(Missing);
    }
  }

  /** With tidy fields, the description line's text is tidy: the shown
      description holds no blank line, and it is followed by "...". */
  lemma DescriptionShownIsTidy(rec: Record)
    requires TidyFields(rec)
    ensures Tidy(Description(rec) + "...")
  {
    NoBreakIsTidy("...");
    TidyAfterOpen(Description(rec), "...");
  }

  /** With tidy fields, everything shown after a label is tidy. */
  lemma ShownIsTidy(rec: Record)
    requires TidyFields(rec)
    ensures forall i :: 0 <= i < 16 ==> Tidy(Shown(rec)[i])
  {
    var r := Shown(rec);
    forall i | 0 <= i < 16
      ensures Tidy(r[i])
    {
      if i == 0 {
        GetHasNoBlankLine(rec, "Job Title");
        NoBreakIsTidy("**");
        TidyAfterOpen(Get(rec, "Job Title"), "**");
      } else if i == 2 {
        GetHasNoBlankLine(rec, "location");
        GetIsTidy(rec, "Country");
        NoBreakIsTidy(", ");
        TidyAfterOpen(Get(rec, "location"), ", ");
        TidyConcat(Get(rec, "location") + ", ", Get(rec, "Country"));
      } else if i == 5 {
        GetHasNoBlankLine(rec, "Contact Person");
        GetIsTidy(rec, "Contact");
        NoBreakIsTidy(" - ");
        TidyAfterOpen(Get(rec, "Contact Person"), " - ");
        TidyConcat(Get(rec, "Contact Person") + " - ", Get(rec, "Contact"));
      } else if i == 15 {
        DescriptionShownIsTidy(rec);
      } else {
        PlainSlot(rec, i);
        GetIsTidy(rec, SlotKeys[i][0]);
      }
    }
  }

  /** With tidy fields, every line of the block is tidy, non-empty and does
      not start with a line break. */
  lemma LinesAreTidy(rec: Record)
    requires TidyFields(rec)
    ensures forall i :: 0 <= i < 16 ==>
      |Lines(rec)[i]| > 0 && Lines(rec)[i][0] != '\n' && Tidy(Lines(rec)[i])
  {
    LabelsAreSingleLine();
    ShownIsTidy(rec);
    forall i | 0 <= i < 16
      ensures |Lines(rec)[i]| > 0 && Lines(rec)[i][0] != '\n' && Tidy(Lines(rec)[i])
    {
      NoBreakIsTidy(Labels[i]);
      TidyConcat(Labels[i], Shown(rec)[i]);
      assert Lines(rec)[i][0] == Labels[i][0];
    }
  }

  /** Single-line fields are tidy. */
  lemma SingleLineFieldsAreTidy(rec: Record)
    requires SingleLineFields(rec)
    ensures TidyFields(rec)
  {
    forall key | key in rec && key in WholeKeys
      ensures Tidy(rec[key])
    {
      NoBreakIsTidy(rec[key]);
    }
    NoBreakIsTidy(Description(rec));
  }

  /** A block holds no blank line, so the blank line after it ends it. */
  lemma BlockIsSeparable(rec: Record)
    requires TidyFields(rec)
    ensures Separable(Block(rec), BlockSeparator)
  {
    LinesAreTidy(rec);
    JoinedLinesHaveNoBlankLine(Lines(rec));
    assert BlockSeparator[..|BlockSeparator| - 1] == "\n";
  }

  /** Splitting the context at its blank lines gives back one block per
      posting, in the order of the postings. */
  lemma ContextSplitsIntoBlocks(results: seq<Record>)
    requires |results| > 0
    requires forall k :: 0 <= k < |results| ==> TidyFields(results[k])
    ensures Split(Context(results), BlockSeparator) == Blocks(results)
  {
    forall k | 0 <= k < |results|
      ensures Separable(Blocks(results)[k], BlockSeparator)
    {
      BlockIsSeparable(results[k]);
    }
    SplitJoin(BlockSeparator, Blocks(results));
  }

  /** `context` splits at its blank lines into one block per posting, in
      order, and each block that shows no line break splits further into
      that posting's sixteen lines. */
  predicate SplitsBackInto(context: string, results: seq<Record>)
  {
    var blocks := Split(context, BlockSeparator);
    && |blocks| == |results|
    && forall k :: 0 <= k < |blocks| ==>
         && blocks[k] == Block(results[k])
         && (SingleLineFields(results[k]) ==> Split(blocks[k], "\n") == Lines(results[k]))
  }

  /** For tidy postings, the context splits back into their blocks and
      lines. */
  lemma ContextSplitsIntoLinesOfBlocks(results: seq<Record>)
    requires |results| > 0
    requires forall k :: 0 <= k < |results| ==> TidyFields(results[k])
    ensures SplitsBackInto(Context(results), results)
  {
    ContextSplitsIntoBlocks(results);
    forall k | 0 <= k < |results| && SingleLineFields(results[k])
      ensures Split(Block(results[k]), "\n") == Lines(results[k])
    {
      BlockSplitsIntoLines(results[k]);
    }
  }

  /** The context is the "no results" sentence exactly when nothing was
      found: a non-empty context starts with the first block's pin. */
  lemma ContextIsNoResultsIff(results: seq<Record>)
    ensures Context(results) == NoResults <==> |results| == 0
  {
    if |results| > 0 {
      var first := Lines(results[0]);
      assert first[0][0] == '\U{1F4CC}';
      JoinStartsWith("\n", first);
      JoinStartsWith(BlockSeparator, Blocks(results));
      assert Context(results)[0] != NoResults[0];
    }
  }

  /** Whatever a line of a posting's block shows appears in the context. */
  lemma ShownInContext(results: seq<Record>, k: nat, i: nat, pre: string, v: string, post: string)
    requires k < |results| && i < 16
    requires Lines(results[k])[i] == pre + v + post
    ensures Occurs(v, Context(results))
  {
    OccursInMiddle(v, pre, post);
    OccursInJoin(v, "\n", Lines(results[k]), i);
    OccursInJoin(v, BlockSeparator, Blocks(results), k);
  }

  /** A posting's title and company appear in the context. */
  lemma TitleAndCompanyInContext(results: seq<Record>, k: nat)
    requires k < |results|
    ensures "Job Title" in results[k] ==> Occurs(results[k]["Job Title"], Context(results))
    ensures "Company" in results[k] ==> Occurs(results[k]["Company"], Context(results))
  {
    assert SlotKeys[0][0] == "Job Title" && SlotKeys[1][0] == "Company";
    FieldsInContext(results, k, 0, 0);
    FieldsInContext(results, k, 1, 0);
  }

}
