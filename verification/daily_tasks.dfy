/**
 The single-purpose daily entry point: fixed input, output and title, and no
 guard on the load, so a missing input file is raised to the caller.
 */
module DailyTasks {
  import opened StoryBuilder
  import TasksList

  const FileName: string := "Daily_Tasks.pdf"
  const JsonInputFile: string := "example_daily_tasks.json"
  const PageTitle: string := "Daily Tasks"

  /** How one run ends: a story handed to the renderer, or FileNotFoundError propagated. */
  datatype Outcome =
    | Generated(pdf: string, story: seq<Flowable>)
    | FileNotFoundRaised(file: string)

  /** One run of the script over the working directory `files`. */
  method Generate(files: map<string, Catalog>) returns (out: Outcome)
    ensures JsonInputFile !in files ==> out == FileNotFoundRaised(JsonInputFile)
    ensures JsonInputFile in files ==> out == Generated(FileName, Story(PageTitle, files[JsonInputFile]))
  {
    if JsonInputFile !in files {
      return FileNotFoundRaised(JsonInputFile);
    }
    var data := files[JsonInputFile];

    var story := BuildStory(PageTitle, data);
    out := Generated(FileName, story);
  }

  /**
   The daily script reads the same file as the `day` period and builds the same story
   from it; only the output name differs ("Daily_Tasks.pdf" against "Tasks_Daily.pdf").
   */
  lemma SameStoryAsDayPeriod(c: Catalog)
    ensures JsonInputFile == TasksList.RequestFor(TasksList.Day).jsonFile
    ensures Story(PageTitle, c) == Story(TasksList.RequestFor(TasksList.Day).title, c)
    ensures FileName != TasksList.RequestFor(TasksList.Day).outputPdf
  {
  }
}
