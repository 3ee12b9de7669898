/**
 The multi-period entry point: a period argument (day, week or month) selects
 the input JSON file, the output PDF name and the title; a missing input file is
 reported and the run returns without building anything.

 The working directory is modelled as a map from file name to the catalog that
 file parses to; a name that is not a key is a file that does not exist.
 */
module TasksList {
  import opened Wrappers
  import opened StoryBuilder

  datatype Period = Day | Week | Month

  /** The (input file, output file, title) triple a period selects. */
  datatype Request = Request(jsonFile: string, outputPdf: string, title: string)

  /** How one run ends: a story handed to the renderer for `pdf`, or the missing file reported. */
  datatype Outcome =
    | Generated(pdf: string, story: seq<Flowable>)
    | InputNotFound(file: string)

  /** The command-line spelling of each period. */
  function ArgumentOf(p: Period): string
  {
    match p
    case Day => "day"
    case Week => "week"
    case Month => "month"
  }

  /** The argument parser's `choices`: only the three spellings are accepted. */
  function ParsePeriod(arg: string): (p: Option<Period>)
    ensures p.Some? <==> arg == "day" || arg == "week" || arg == "month"
    ensures p.Some? ==> ArgumentOf(p.value) == arg
  {
    if arg == "day" then Some(Day)
    else if arg == "week" then Some(Week)
    else if arg == "month" then Some(Month)
    else None
  }

  /** Every period's spelling is accepted and parses back to that period. */
  lemma ParseArgumentOf(p: Period)
    ensures ParsePeriod(ArgumentOf(p)) == Some(p)
  {
  }

  /** The fixed triple for each period. */
  function RequestFor(p: Period): Request
  {
    match p
    case Day => Request("example_daily_tasks.json", "Tasks_Daily.pdf", "Daily Tasks")
    case Week => Request("example_weekly_tasks.json", "Tasks_Weekly.pdf", "Weekly Tasks")
    case Month => Request("example_monthly_tasks.json", "Tasks_Monthly.pdf", "Monthly Tasks")
  }

  /** Distinct periods read distinct files, write distinct files and carry distinct titles. */
  lemma RequestsDistinct(p: Period, q: Period)
    requires p != q
    ensures RequestFor(p).jsonFile != RequestFor(q).jsonFile
    ensures RequestFor(p).outputPdf != RequestFor(q).outputPdf
    ensures RequestFor(p).title != RequestFor(q).title
  {
  }

  /**
   One run of the script: the if-chain picks the triple, the load either finds the
   input or reports it missing (and nothing is built), then the story is built.
   */
  method Generate(period: Period, files: map<string, Catalog>) returns (out: Outcome)
    ensures var r := RequestFor(period);
      && (r.jsonFile !in files ==> out == InputNotFound(r.jsonFile))
      && (r.jsonFile in files ==> out == Generated(r.outputPdf, Story(r.title, files[r.jsonFile])))
  {
    var jsonFile, outputPdf, titleText;
    if period == Day {
      jsonFile := "example_daily_tasks.json";
      outputPdf := "Tasks_Daily.pdf";
      titleText := "Daily Tasks";
    } else if period == Week {
      jsonFile := "example_weekly_tasks.json";
      outputPdf := "Tasks_Weekly.pdf";
      titleText := "Weekly Tasks";
    } else {
      jsonFile := "example_monthly_tasks.json";
      outputPdf := "Tasks_Monthly.pdf";
      titleText := "Monthly Tasks";
    }

    if jsonFile !in files {
      return InputNotFound(jsonFile);
    }
    var data := files[jsonFile];

    var story := BuildStory(titleText, data);
    out := Generated(outputPdf, story);
  }
}
