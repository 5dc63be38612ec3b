/**
 * The task checklist and the bookmark list: entries, and the sequence
 * operations behind `add_task`, `remove_task`, `toggle_task`, `add_link`
 * and `remove_link`, each taking as parameters what the handler reads from
 * its entry widgets.
 */
module Lists {
  import opened Wrappers

  /** One to-do entry, `{'text': ..., 'completed': ...}`. */
  datatype Task = Task(text: string, completed: bool)

  /** One bookmark, `{'name': ..., 'url': ...}`. */
  datatype Link = Link(name: string, url: string)

  /** Why `add_link` refused its input (the "Enter name and URL" warning). */
  datatype LinkInputError = MissingNameOrUrl

  /** Why `del links[index]` raised. */
  datatype LinkIndexError = IndexOutOfRange

  /** `s` with the element at `i` deleted, the others kept in order. */
  function RemoveAt<T>(s: seq<T>, i: nat): (r: seq<T>)
    requires i < |s|
    ensures |r| == |s| - 1
    ensures forall j :: 0 <= j < i ==> r[j] == s[j]
    ensures forall j :: i <= j < |r| ==> r[j] == s[j + 1]
    ensures multiset(r) + multiset{s[i]} == multiset(s)
  {
    assert s == s[..i] + [s[i]] + s[i + 1..];
    s[..i] + s[i + 1..]
  }

  /** Deleting what was just appended gives back the original sequence. */
  lemma RemoveAtLast<T>(s: seq<T>, x: T)
    ensures RemoveAt(s + [x], |s|) == s
  {
  }

  // ----- tasks -----

  /** `add_task`: an empty entry is ignored; otherwise a new, not yet completed task goes last. */
  function AddTask(tasks: seq<Task>, text: string): (r: seq<Task>)
    ensures text == "" ==> r == tasks
    ensures text != "" ==> |r| == |tasks| + 1 && r[..|tasks|] == tasks && r[|tasks|] == Task(text, false)
  {
    if text != "" then tasks + [Task(text, false)] else tasks
  }

  /** `remove_task`: an index outside the list is ignored; otherwise only that task goes. */
  function RemoveTask(tasks: seq<Task>, index: int): (r: seq<Task>)
    ensures !(0 <= index < |tasks|) ==> r == tasks
    ensures 0 <= index < |tasks| ==> |r| == |tasks| - 1
    ensures 0 <= index < |tasks| ==> forall j :: 0 <= j < |r| ==> r[j] == tasks[if j < index then j else j + 1]
  {
    if 0 <= index < |tasks| then RemoveAt(tasks, index) else tasks
  }

  /**
   * `toggle_task(index, var)`: stores the check box's value `completed` in the
   * task at `index`; an index outside the list is ignored.
   */
  function SetTaskCompleted(tasks: seq<Task>, index: int, completed: bool): (r: seq<Task>)
    ensures |r| == |tasks|
    ensures forall j :: 0 <= j < |r| && j != index ==> r[j] == tasks[j]
    ensures 0 <= index < |tasks| ==> r[index].text == tasks[index].text && r[index].completed == completed
  {
    if 0 <= index < |tasks| then tasks[index := tasks[index].(completed := completed)] else tasks
  }

  /** A task just added can be removed again by its position, restoring the list. */
  lemma RemoveTaskUndoesAddTask(tasks: seq<Task>, text: string)
    requires text != ""
    ensures RemoveTask(AddTask(tasks, text), |tasks|) == tasks
  {
    RemoveAtLast(tasks, Task(text, false));
  }

  /** Writing back a task's previous flag undoes `toggle_task`. */
  lemma SetTaskCompletedUndo(tasks: seq<Task>, index: int, completed: bool)
    requires 0 <= index < |tasks|
    ensures SetTaskCompleted(SetTaskCompleted(tasks, index, completed), index, tasks[index].completed) == tasks
  {
  }

  /** Storing the flag the task already has changes nothing (repeated check-box events). */
  lemma SetTaskCompletedSame(tasks: seq<Task>, index: int)
    requires 0 <= index < |tasks|
    ensures SetTaskCompleted(tasks, index, tasks[index].completed) == tasks
  {
  }

  // ----- links -----

  predicate StartsWith(s: string, prefix: string) {
    |prefix| <= |s| && s[..|prefix|] == prefix
  }

  /** `url.startswith(('http', 'ftp'))`. */
  predicate HasScheme(url: string) {
    StartsWith(url, "http") || StartsWith(url, "ftp")
  }

  /** A URL not starting with `http` or `ftp` gets `https://` in front. */
  function NormaliseUrl(url: string): (r: string)
    ensures HasScheme(r)
    ensures |url| <= |r| && r[|r| - |url|..] == url
    ensures HasScheme(url) <==> r == url
    ensures !HasScheme(url) ==> r[..|r| - |url|] == "https://"
  {
    if HasScheme(url) then url
    else
      var r := "https://" + url;
      assert r[..4] == "http";
      r
  }

  /** Normalising twice is normalising once. */
  lemma NormaliseUrlIdempotent(url: string)
    ensures NormaliseUrl(NormaliseUrl(url)) == NormaliseUrl(url)
  {
  }

  /**
   * `add_link`: an empty name or an empty URL is refused and the list is kept;
   * otherwise the link goes last with its URL normalised.
   */
  function AddLink(links: seq<Link>, name: string, url: string): (r: Result<seq<Link>, LinkInputError>)
    ensures r.Failure? <==> name == "" || url == ""
    ensures r.Success? ==>
      |r.value| == |links| + 1 && r.value[..|links|] == links &&
      r.value[|links|].name == name && HasScheme(r.value[|links|].url)
    ensures r.Success? ==> r.value[|links|].url == NormaliseUrl(url)
  {
    if name != "" && url != "" then Success(links + [Link(name, NormaliseUrl(url))])
    else Failure(MissingNameOrUrl)
  }

  /**
   * `remove_link`: Python's `del links[index]`. A negative index counts from
   * the end; one outside `-|links| .. |links| - 1` raises and changes nothing.
   */
  function RemoveLink(links: seq<Link>, index: int): (r: Result<seq<Link>, LinkIndexError>)
    ensures r.Success? <==> -|links| <= index < |links|
    ensures 0 <= index < |links| ==> r == Success(RemoveAt(links, index))
    ensures -|links| <= index < 0 ==> r == Success(RemoveAt(links, |links| + index))
  {
    if 0 <= index < |links| then Success(RemoveAt(links, index))
    else if -|links| <= index < 0 then Success(RemoveAt(links, |links| + index))
    else Failure(IndexOutOfRange)
  }

  /** A link just added can be removed again by its position, restoring the list. */
  lemma RemoveLinkUndoesAddLink(links: seq<Link>, name: string, url: string)
    requires name != "" && url != ""
    ensures AddLink(links, name, url).Success?
    ensures RemoveLink(AddLink(links, name, url).value, |links|) == Success(links)
    ensures RemoveLink(AddLink(links, name, url).value, -1) == Success(links)
  {
    RemoveAtLast(links, Link(name, NormaliseUrl(url)));
  }

  /** The two normalisation cases named for `add_link`. */
  lemma AddLinkExamples()
    ensures AddLink([], "Docs", "example.com") == Success([Link("Docs", "https://example.com")])
    ensures AddLink([], "Docs", "http://x") == Success([Link("Docs", "http://x")])
  {
    assert "example.com"[0] == 'e';
    assert !HasScheme("example.com");
    assert "https://" + "example.com" == "https://example.com";
    assert NormaliseUrl("example.com") == "https://example.com";
    assert "https://example.com"[..4] == "http";
    assert "http://x"[..4] == "http";
  }
}
