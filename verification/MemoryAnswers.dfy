/** When a memory update is answered with "ok", and with what it is refused otherwise. */
module MemoryAnswers {
  import opened Wrappers
  import opened PythonText
  import opened MemoryFile

  // ---- lists ----

  /** As many entries, characters in all and characters in one entry as a scope allows. */
  predicate Fits(scope: Scope, entries: seq<string>) {
    match scope
    case User => |entries| <= 24 && Total(entries) <= 2000 && forall k | 0 <= k < |entries| :: |entries[k]| <= 500
    case Machine => |entries| <= 20 && Total(entries) <= 1600 && forall k | 0 <= k < |entries| :: |entries[k]| <= 500
    case Project => |entries| <= 40 && Total(entries) <= 3600 && forall k | 0 <= k < |entries| :: |entries[k]| <= 600
  }

  ghost predicate IsClean(entries: seq<string>, judge: Judge) {
    Distinct(entries) && forall k | 0 <= k < |entries| :: !judge.isSensitive(entries[k])
  }

  /** A list is refused as full, else as repeating an entry, else as sensitive. */
  lemma ListErrorIff(scope: Scope, entries: seq<string>, judge: Judge)
    ensures var error := EntriesError(scope, entries, judge);
      && (error.None? <==> Fits(scope, entries) && IsClean(entries, judge))
      && (error == Some(Full) <==> !Fits(scope, entries))
      && (error == Some(Invalid) <==> Fits(scope, entries) && !Distinct(entries))
      && (error == Some(Sensitive) <==> Fits(scope, entries) && Distinct(entries) && !IsClean(entries, judge))
  {
    hide Total;
  }

  lemma {:induction false} TotalAdds(a: seq<string>, b: seq<string>)
    ensures Total(a + b) == Total(a) + Total(b)
    ensures |a| == 1 ==> Total(a) == |a[0]|
  {
    if a == [] {
      assert a + b == b;
    } else {
      TotalAdds(a[1..], b);
      assert (a + b)[0] == a[0] && (a + b)[1..] == a[1..] + b;
    }
  }

  /** A line is read as an entry: bulleted, and what follows the bullet, with single spaces, is neither empty nor holds a control character. */
  predicate IsReadAs(line: string, entry: string, judge: Judge) {
    "- " <= line && entry == Normalized(line[2..]) && entry != "" && IsPlain(entry, judge)
  }

  lemma {:induction false} LinesAreRead(lines: seq<string>, judge: Judge, entries: seq<string>)
    ensures ParseEntries(lines, judge) == Some(entries) <==>
      |entries| == |lines| && forall k | 0 <= k < |lines| :: IsReadAs(lines[k], entries[k], judge)
  {
    hide Normalized;
    if lines != [] && entries != [] {
      LinesAreRead(lines[1..], judge, entries[1..]);
      assert entries == [entries[0]] + entries[1..];
      assert forall k | 0 < k < |lines| && |entries| == |lines| :: lines[k] == lines[1..][k - 1] && entries[k] == entries[1..][k - 1];
      if |entries| == |lines| && forall k | 0 <= k < |lines| :: IsReadAs(lines[k], entries[k], judge) {
        forall k | 0 <= k < |lines[1..]| ensures IsReadAs(lines[1..][k], entries[1..][k], judge) {
          assert IsReadAs(lines[k + 1], entries[k + 1], judge);
        }
        assert IsReadAs(lines[0], entries[0], judge);
      }
    }
  }

  /** A file is read as these entries exactly if it is empty and there are none, or its first line that is not blank is the heading and the others are read as the entries, in order. */
  lemma ParsedIff(scope: Scope, content: string, judge: Judge, entries: seq<string>)
    ensures var lines := NonBlank(Lines(content));
      Parse(scope, content, judge, false) == Some(entries) <==>
      if content == "" then entries == [] else
        |lines| == |entries| + 1 && lines[0] == Heading(scope) && forall k | 0 <= k < |entries| :: IsReadAs(lines[k + 1], entries[k], judge)
  {
    hide Normalized, IsReadAs, Lines, NonBlank, Heading;
    var lines := NonBlank(Lines(content));
    if lines != [] {
      LinesAreRead(lines[1..], judge, entries);
    }
  }

  // ---- requests ----

  predicate IsPlain(s: string, judge: Judge) {
    forall k | 0 <= k < |s| :: !judge.isControl(s[k])
  }

  /** An addition brings content, a removal the old text, a replacement both; both are short and without control characters, and not blank. */
  predicate IsWellPut(r: Request, judge: Judge) {
    && (r.content != "" <==> r.action != Remove) && (r.oldText != "" <==> r.action != Add)
    && |r.content| <= 600 && |r.oldText| <= 200 && IsPlain(r.content, judge) && IsPlain(r.oldText, judge)
    && (r.action != Remove ==> Normalized(r.content) != "") && (r.action != Add ==> Normalized(r.oldText) != "")
  }

  predicate HasSecret(r: Request, judge: Judge) {
    Normalized(r.content) != "" && judge.isSensitive(Normalized(r.content))
  }

  lemma RequestErrorIff(r: Request, judge: Judge)
    ensures var error := RequestError(r, judge);
      && (error == Some(Invalid) <==> !IsWellPut(r, judge))
      && (error == Some(Sensitive) <==> IsWellPut(r, judge) && HasSecret(r, judge))
      && (error == Some(Unavailable) <==> IsWellPut(r, judge) && !HasSecret(r, judge) && r.scope == Project && !r.projectId)
      && (error.None? <==> IsWellPut(r, judge) && !HasSecret(r, judge) && (r.scope == Project ==> r.projectId))
  {
    hide Normalized;
    PlainParts(r.content, r.oldText, judge);
  }

  lemma PlainParts(a: string, b: string, judge: Judge)
    ensures HasNoControl(a + b, judge) <==> IsPlain(a, judge) && IsPlain(b, judge)
  {
    assert forall k | 0 <= k < |a| :: (a + b)[k] == a[k];
    assert forall k | 0 <= k < |b| :: (a + b)[|a| + k] == b[k];
  }

  // ---- the change ----

  /** An update has work to do exactly if some other list is intended, and then writes that one. */
  lemma ChangedIff(before: seq<string>, r: Request, judge: Judge, after: seq<string>)
    requires IsIntended(before, r, after, judge)
    ensures Changed(before, r.action, Normalized(r.content), Normalized(r.oldText), judge) == if after == before then Keep else Write(after)
  {
    hide Normalized, Matches, MatchesOf;
    var content, oldText := Normalized(r.content), Normalized(r.oldText);
    if r.action.Add? {
      assert content !in before ==> |before + [content]| == |before| + 1;
    } else {
      MatchCount(before, r, judge);
      var i: nat :| OnlyMatch(before, i, oldText, judge) && after == if r.action.Replace? then before[i := content] else before[..i] + before[i + 1..];
      MatchedIs(before, i, oldText, judge);
    }
  }

  lemma MatchedIs(entries: seq<string>, i: nat, oldText: string, judge: Judge)
    requires OnlyMatch(entries, i, oldText, judge)
    ensures MatchesOf(entries, oldText, judge) == [i]
  {
    hide Matches;
    CountOfMatches(entries, oldText, judge);
    OneMatch(entries, oldText, judge);
    var m := MatchesOf(entries, oldText, judge);
    assert m[0] == i;
  }

  /** Nothing is intended exactly if the change is refused. */
  lemma RefusedIff(before: seq<string>, r: Request, judge: Judge)
    ensures Changed(before, r.action, Normalized(r.content), Normalized(r.oldText), judge).Refuse? <==>
      !exists after :: IsIntended(before, r, after, judge)
  {
    hide Normalized, MatchesOf, IsIntended;
    ChangedIsIntended(before, r, judge);
    if after :| IsIntended(before, r, after, judge) {
      ChangedIff(before, r, judge, after);
    }
  }

  /** An update works on a file exactly if a reader accepts it, with the same entries. */
  lemma CurrentIff(scope: Scope, file: File, judge: Judge, entries: seq<string>)
    ensures Current(scope, file, judge) == Success(entries) <==> Inspect(scope, file, judge) == Some(entries)
  {
    hide EntriesError, Lines, NonBlank, ParseEntries, Heading;
    ListErrorIff(scope, [], judge);
  }

  // ---- the answer ----

  /** Nothing goes wrong around the writing of a changed list, and nobody leaves other bytes before the conflict check. */
  predicate IsWritten(file: File, c: Circumstances) {
    && c.prepared && c.safeBeforeWriting && c.written && c.readableAgain && c.safeBeforeReplacing && c.replaced
    && (c.edit.None? || c.edit.value == file)
  }

  /** The file is a valid memory with the list `before`, for which `after` is intended, and that is there already or is allowed and gets written. */
  ghost predicate Leads(file: File, r: Request, c: Circumstances, judge: Judge, before: seq<string>, after: seq<string>) {
    && Inspect(r.scope, file, judge) == Some(before) && IsIntended(before, r, after, judge)
    && (after == before || (Fits(r.scope, after) && IsClean(after, judge) && IsWritten(file, c)))
  }

  /**
   * An update is answered "ok" exactly if the request is well put, without a secret and for a known project, the file can be read and
   * is a valid memory, some list is intended, and that list is there already or is allowed and gets written.
   */
  lemma DoneIff(file: File, r: Request, c: Circumstances, judge: Judge)
    ensures Outcome(file, r, c, judge).1 == Done <==>
      && IsWellPut(r, judge) && !HasSecret(r, judge) && (r.scope == Project ==> r.projectId)
      && c.safeAtStart && (file.Some? ==> c.regular) && c.readable
      && exists before, after :: Leads(file, r, c, judge, before, after)
  {
    hide RequestError, IsWellPut, HasSecret, Leads, Decide;
    RequestErrorIff(r, judge);
    RefusalsAreNotDone(r, judge);
    DecisionIff(file, r, c, judge);
  }

  lemma DecisionIff(file: File, r: Request, c: Circumstances, judge: Judge)
    ensures var d := Decide(r, file, judge);
      && d != Refuse(Done)
      && (d.Keep? || (d.Write? && IsWritten(file, c)) <==> exists before, after :: Leads(file, r, c, judge, before, after))
  {
    hide Inspect, Current, Changed, EntriesError, Fits, IsClean, IsIntended, Normalized, IsWritten;
    CurrentIsNotDone(r.scope, file, judge);
    match Current(r.scope, file, judge)
    case Failure(_) =>
      forall before ensures Inspect(r.scope, file, judge) != Some(before) { CurrentIff(r.scope, file, judge, before); }
    case Success(before) =>
      CurrentIff(r.scope, file, judge, before);
      ChangedIsNotDone(before, r, judge);
      ChangedIsIntended(before, r, judge);
      RefusedIff(before, r, judge);
      var d := Changed(before, r.action, Normalized(r.content), Normalized(r.oldText), judge);
      ErrorsAreNotDone(r.scope, d, judge);
      if d.Keep? { assert Leads(file, r, c, judge, before, before); }
      if d.Write? {
        ListErrorIff(r.scope, d.entries, judge);
        if EntriesError(r.scope, d.entries, judge).None? && IsWritten(file, c) { assert Leads(file, r, c, judge, before, d.entries); }
      }
      forall b, after | Leads(file, r, c, judge, b, after) ensures b == before && d == if after == before then Keep else Write(after) {
        ChangedIff(before, r, judge, after);
      }
  }
}
