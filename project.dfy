/** The project page of project.jsx: its two resizable sidebars, the title
    editor, and what it does with a fetched project. */
module Project {
  import opened Options
  import opened Widths

  const MinLeft := 160
  const MaxLeft := 400
  const MinRight := 400
  const MaxRight := 600

  /** The attachment record of a project. */
  datatype Asset = Asset(cardId: string, id: string, fileName: string, mimeType: string)

  /** A fetched project; `extra` holds every field the page only passes on.
      An absent `title` or `content` is "". */
  datatype ProjectData = ProjectData(title: string, content: string, asset: Option<Asset>,
                                     extra: map<string, string>)

  /** A browser `File`: its name, its type and its text. */
  datatype FileObj = FileObj(name: string, mimeType: string, text: string)

  /** `${title} – Stochify` (with an en dash). */
  function DocumentTitle(title: string): (t: string)
    ensures |t| == |title| + 11 && t[..|title|] == title && t[|title|..] == " \U{2013} Stochify"
  {
    title + " \U{2013} Stochify"
  }

  /** Lines 62-80: the file to show after a project arrives.  `downloaded` is what
      `loadFileFromServer` gave for the asset (`None` when it threw). */
  function ChooseFile(data: ProjectData, current: Option<FileObj>, downloaded: Option<FileObj>)
    : (f: Option<FileObj>)
    ensures data.asset.Some? ==> f == (if downloaded.Some? then downloaded else current)
    ensures data.asset.None? && data.content != "" ==>
              f == Some(FileObj(if data.title != "" then data.title else "file.txt", "text/plain", data.content))
    ensures data.asset.None? && data.content == "" ==> f == current
  {
    if data.asset.Some? then
      if downloaded.Some? then downloaded else current
    else if data.content != "" then
      Some(FileObj(if data.title != "" then data.title else "file.txt", "text/plain", data.content))
    else current
  }

  /** A text file made from the content always has a name. */
  lemma ContentFileIsNamed(data: ProjectData, current: Option<FileObj>, downloaded: Option<FileObj>)
    requires data.asset.None? && data.content != ""
    ensures ChooseFile(data, current, downloaded).Some?
    ensures ChooseFile(data, current, downloaded).value.name != ""
  {
  }

  class ProjectPage {
    var leftWidth: int
    var rightWidth: int
    var resizingLeft: bool
    var resizingRight: bool
    var userSelect: string
    var project: Option<ProjectData>
    var file: Option<FileObj>
    var loading: bool
    var documentTitle: string

    ghost predicate Valid()
      reads this
    {
      MinLeft <= leftWidth <= MaxLeft && MinRight <= rightWidth <= MaxRight
    }

    constructor()
      ensures leftWidth == 280 && rightWidth == 400 && !resizingLeft && !resizingRight
      ensures project == None && file == None && loading && documentTitle == "Project \U{2013} Stochify"
      ensures userSelect == ""
      ensures Valid()
    {
      leftWidth := 280;
      rightWidth := 400;
      resizingLeft := false;
      resizingRight := false;
      userSelect := "";
      project := None;
      file := None;
      loading := true;
      documentTitle := "Project \U{2013} Stochify";
    }

    /** `handleMouseMove`: the left sidebar follows the pointer, or else the right
        one follows the distance from the pointer to the window's right edge;
        never both. */
    method MouseMove(clientX: int, innerWidth: int)
      requires Valid()
      modifies this
      ensures Valid()
      ensures resizingLeft == old(resizingLeft) && resizingRight == old(resizingRight)
      ensures resizingLeft ==>
                leftWidth == Clamp(clientX, MinLeft, MaxLeft) && rightWidth == old(rightWidth)
      ensures !resizingLeft && resizingRight ==>
                rightWidth == Clamp(innerWidth - clientX, MinRight, MaxRight) && leftWidth == old(leftWidth)
      ensures !resizingLeft && !resizingRight ==>
                leftWidth == old(leftWidth) && rightWidth == old(rightWidth)
      ensures project == old(project) && file == old(file) && documentTitle == old(documentTitle)
      ensures userSelect == old(userSelect) && loading == old(loading)
    {
      if resizingLeft {
        leftWidth := Clamp(clientX, MinLeft, MaxLeft);
      } else if resizingRight {
        rightWidth := Clamp(innerWidth - clientX, MinRight, MaxRight);
      }
    }

    /** `stopResizing`. */
    method StopResizing()
      modifies this
      ensures !resizingLeft && !resizingRight && userSelect == ""
      ensures leftWidth == old(leftWidth) && rightWidth == old(rightWidth)
      ensures project == old(project) && file == old(file) && loading == old(loading)
      ensures documentTitle == old(documentTitle)
    {
      resizingLeft := false;
      resizingRight := false;
      userSelect := "";
    }

    /** `startResizingLeft`: only the left flag is raised. */
    method StartResizingLeft()
      modifies this
      ensures resizingLeft && resizingRight == old(resizingRight) && userSelect == "none"
      ensures leftWidth == old(leftWidth) && rightWidth == old(rightWidth)
      ensures project == old(project) && file == old(file) && loading == old(loading)
      ensures documentTitle == old(documentTitle)
    {
      resizingLeft := true;
      userSelect := "none";
    }

    /** `startResizingRight`: only the right flag is raised. */
    method StartResizingRight()
      modifies this
      ensures resizingRight && resizingLeft == old(resizingLeft) && userSelect == "none"
      ensures leftWidth == old(leftWidth) && rightWidth == old(rightWidth)
      ensures project == old(project) && file == old(file) && loading == old(loading)
      ensures documentTitle == old(documentTitle)
    {
      resizingRight := true;
      userSelect := "none";
    }

    /** `handleTitleUpdate`: only the title of the project changes (spreading a
        missing project gives one with the title alone), and the document title
        follows. */
    method HandleTitleUpdate(newTitle: string)
      modifies this
      ensures old(project).Some? ==> project == Some(old(project).value.(title := newTitle))
      ensures old(project).None? ==> project == Some(ProjectData(newTitle, "", None, map[]))
      ensures documentTitle == DocumentTitle(newTitle)
      ensures file == old(file) && leftWidth == old(leftWidth) && rightWidth == old(rightWidth)
      ensures loading == old(loading)
      ensures resizingLeft == old(resizingLeft) && resizingRight == old(resizingRight)
      ensures userSelect == old(userSelect)
    {
      if project.Some? {
        project := Some(project.value.(title := newTitle));
      } else {
        project := Some(ProjectData(newTitle, "", None, map[]));
      }
      documentTitle := DocumentTitle(newTitle);
    }

    /** The handler of a fetched project (lines 56-80), with the asset download
        already settled. */
    method OnProjectFetched(data: ProjectData, downloaded: Option<FileObj>)
      modifies this
      ensures project == Some(data) && !loading
      ensures documentTitle == if data.title != "" then DocumentTitle(data.title) else old(documentTitle)
      ensures file == ChooseFile(data, old(file), downloaded)
      ensures leftWidth == old(leftWidth) && rightWidth == old(rightWidth)
      ensures resizingLeft == old(resizingLeft) && resizingRight == old(resizingRight)
      ensures userSelect == old(userSelect)
    {
      project := Some(data);
      loading := false;
      if data.title != "" {
        documentTitle := DocumentTitle(data.title);
      }
      if data.asset.Some? {
        if downloaded.Some? {
          file := downloaded;
        }
      } else if data.content != "" {
        file := Some(FileObj(if data.title != "" then data.title else "file.txt", "text/plain", data.content));
      }
    }
  }
}
