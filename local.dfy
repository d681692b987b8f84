/** The local-file source (sources/local.go): the non-empty lines of a file, verbatim. */
module Local {
  import opened Wrappers
  import opened Text
  import opened Effects

  /** What `os.Stat` reports for the path. */
  datatype Stat = Present | Missing | StatFailed(err: string)

  function FileMissing(path: string): string { "File does not exist: " + path + "\n" }
  function ReadFailed(path: string): string { "Failed to read file: " + path + "\n" }

  /** CheckInputErrors: only a path that does not exist is reported; any other stat
      error passes validation. */
  function CheckInputErrors(path: string, stat: Stat): (msg: string)
    ensures msg != "" <==> stat.Missing?
    ensures msg != "" ==> msg == FileMissing(path) && !IsWarning(msg)
  {
    NotWarning(FileMissing(path));
    if stat.Missing? then FileMissing(path) else ""
  }

  /** GetKeys, given what `ioutil.ReadFile` returned: on an error one warning and no keys,
      otherwise the file's lines with the empty ones dropped. */
  function GetKeys(path: string, file: Result<string>): (r: Gathered<string, string>)
    ensures file.Err? ==> r == Gathered([], [Warning(file.error, ReadFailed(path))], [])
    ensures file.Ok? ==> r.warnings == [] && r.requests == []
    ensures forall i :: 0 <= i < |r.values| ==> r.values[i] != "" && '\n' !in r.values[i]
  {
    match file
    case Err(e) => Gathered([], [Warning(e, ReadFailed(path))], [])
    case Ok(content) => Gathered(NonEmptyLines(content), [], [])
  }

  /** The lines returned are the file's own: every non-empty piece of the text between
      newlines, in order, and joining them back gives the text with its empty lines
      removed, so nothing is tagged or trimmed. */
  lemma LinesVerbatim(path: string, content: string)
    ensures var keys := GetKeys(path, Ok(content)).values;
      && keys == DropEmpty(Split(content, '\n'))
      && (forall x :: x in keys <==> x in Split(content, '\n') && x != "")
      && Join(Split(content, '\n'), "\n") == content
  {
    SplitJoin(content, '\n');
  }

  /** Feeding the keys back as a file gives the same keys: the filter is idempotent. */
  lemma GetKeysIdempotent(path: string, content: string)
    ensures var keys := GetKeys(path, Ok(content)).values;
      && DropEmpty(keys) == keys
      && GetKeys(path, Ok(Join(keys, "\n"))).values == keys
  {
    var keys := GetKeys(path, Ok(content)).values;
    if keys == [] {
      assert Split("", '\n') == [""];
    } else {
      JoinSplit(keys, '\n');
    }
    DropEmptyOfNonEmpty(keys);
  }

  lemma SplitBlankLine(a: string, b: string)
    requires '\n' !in a && '\n' !in b
    ensures Split(a + "\n\n" + b + "\n", '\n') == [a, "", b, ""]
  {
    var parts := [a, "", b, ""];
    assert Join(parts[2..], "\n") == b + "\n";
    assert Join(parts[1..], "\n") == "\n" + b + "\n";
    assert Join(parts, "\n") == a + "\n\n" + b + "\n";
    JoinSplit(parts, '\n');
  }

  /** Blank lines and the trailing newline are dropped. */
  lemma BlankLinesDropped(a: string, b: string)
    requires a != "" && '\n' !in a
    requires b != "" && '\n' !in b
    ensures GetKeys("authorized_keys", Ok(a + "\n\n" + b + "\n")).values == [a, b]
  {
    SplitBlankLine(a, b);
    DropEmptyCons("", []);
    DropEmptyCons(b, [""]);
    DropEmptyCons("", [b, ""]);
    DropEmptyCons(a, ["", b, ""]);
  }

  /** A line is returned as it stands: a carriage return or surrounding spaces are kept. */
  lemma LinesNotTrimmed(line: string)
    requires '\n' !in line
    ensures GetKeys("authorized_keys", Ok(" " + line + " \r\n")).values == [" " + line + " \r"]
  {
    var kept := " " + line + " \r";
    assert '\n' !in kept;
    SplitFirstLine(kept, "", '\n');
    assert " " + line + " \r\n" == kept + ['\n'] + "";
    DropEmptyCons("", []);
    DropEmptyCons(kept, [""]);
  }
}
