/**
 * `code_quality_check`: a file loses ten points out of 100 for every
 * `TODO` it contains, in any letter case, down to zero.
 */
module CodeQualityCheck {
  import opened Wrappers
  import opened Text

  /** A missing file raises `FileNotFoundError`, which is passed on. */
  datatype CheckError = FileNotFound

  /** `content.upper().count('TODO')`. */
  function TodoCount(content: string): nat
  {
    CountOccurrences(Upper(content), "TODO")
  }

  /** The score for the file's content, or the error for a missing file. */
  function TodoScore(content: Option<string>): (r: Result<int, CheckError>)
    ensures r.Err? <==> content.None?
    ensures r.Ok? ==> 0 <= r.value <= 100 && r.value % 10 == 0
    ensures r.Ok? ==> r.value == if TodoCount(content.value) >= 10 then 0 else 100 - 10 * TodoCount(content.value)
  {
    match content
    case None => Err(FileNotFound)
    case Some(c) =>
      var score := 100 - TodoCount(c) * 10;
      Ok(if score > 0 then score else 0)
  }

  // ------------------------------------------------------------- properties

  /** Full marks exactly when no `TODO` occurs, whatever its letter case. */
  lemma FullMarksIffNoTodo(content: string)
    ensures TodoScore(Some(content)) == Ok(100) <==> !Contains(Upper(content), "TODO")
  {
    CountZeroIffAbsent(Upper(content), "TODO");
  }

  /** One more leading `TODO`, in upper or lower case, costs ten points, and
      the score stops at zero. */
  lemma LeadingTodoCostsTen(content: string)
    ensures TodoScore(Some("TODO" + content)).value == Max0(TodoScore(Some(content)).value - 10)
    ensures TodoScore(Some("todo" + content)).value == Max0(TodoScore(Some(content)).value - 10)
  {
    UpperAppend("TODO", content);
    UpperAppend("todo", content);
    assert Upper("TODO") == "TODO";
    assert Upper("todo") == "TODO";
    CountLeading("TODO", Upper(content));
  }

  function Max0(x: int): int { if x > 0 then x else 0 }

  /** The score never rises as the number of occurrences grows. */
  lemma MoreTodosNeverHigher(a: string, b: string)
    requires TodoCount(a) <= TodoCount(b)
    ensures TodoScore(Some(b)).value <= TodoScore(Some(a)).value
  {
  }

  /** Ten or more occurrences leave nothing. */
  lemma TenTodosScoreZero(content: string)
    requires TodoCount(content) >= 10
    ensures TodoScore(Some(content)) == Ok(0)
  {
  }

  /** The score depends on the text only through its upper-case form. */
  lemma CaseInsensitive(a: string, b: string)
    requires Upper(a) == Upper(b)
    ensures TodoScore(Some(a)) == TodoScore(Some(b))
  {
  }
}
