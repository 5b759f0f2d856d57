/** Memory files: the entry list of a scope, printed to and parsed from a small UTF-8 text file. */
module MemoryFile {
  import opened Wrappers
  import opened PythonText
  import opened Utf8

  datatype Scope = User | Machine | Project

  datatype Action = Add | Replace | Remove

  datatype Answer = Done | Invalid | Sensitive | Unavailable | Io | Full | Conflict | NotFound | Ambiguous

  /** Unicode's control and format characters; a plain space is neither. */
  type ControlTest = f: char -> bool | !f(' ') witness (c: char) => false

  /** What the store takes from outside: character categories, the sensitivity patterns and case folding. */
  datatype Judge = Judge(isControl: ControlTest, isSensitive: string -> bool, fold: string -> string)

  datatype Limit = Limit(entries: nat, chars: nat, entryChars: nat)

  const MAX_VIEW_BYTES := 65536

  function LimitOf(scope: Scope): Limit {
    match scope
    case User => Limit(24, 2000, 500)
    case Machine => Limit(20, 1600, 500)
    case Project => Limit(40, 3600, 600)
  }

  function Heading(scope: Scope): string {
    match scope
    case User => "# User Memory"
    case Machine => "# Machine Memory"
    case Project => "# Project Memory"
  }

  /** The bytes of a file, or None where there is none. */
  type File = Option<seq<Byte>>

  // ---- entries ----

  function Total(entries: seq<string>): nat {
    if entries == [] then 0 else |entries[0]| + Total(entries[1..])
  }

  predicate HasRepeat(entries: seq<string>) {
    exists i, j | 0 <= i < j < |entries| :: entries[i] == entries[j]
  }

  function EntriesError(scope: Scope, entries: seq<string>, judge: Judge): Option<Answer> {
    var limit := LimitOf(scope);
    if |entries| > limit.entries || Total(entries) > limit.chars || exists k | 0 <= k < |entries| :: |entries[k]| > limit.entryChars then
      Some(Full)
    else if HasRepeat(entries) then Some(Invalid)
    else if exists k | 0 <= k < |entries| :: judge.isSensitive(entries[k]) then Some(Sensitive)
    else None
  }

  /** An entry as the file holds it: normalised, not empty, without control characters. */
  predicate IsEntry(e: string, judge: Judge) {
    e != "" && Normalized(e) == e && HasNoControl(e, judge)
  }

  predicate HasNoControl(s: string, judge: Judge) {
    forall k | 0 <= k < |s| :: !judge.isControl(s[k])
  }

  predicate AreEntries(entries: seq<string>, judge: Judge) {
    forall k | 0 <= k < |entries| :: IsEntry(entries[k], judge)
  }

  // ---- parsing and printing ----

  function NonBlank(lines: seq<string>): seq<string> {
    if lines == [] then [] else (if IsBlank(lines[0]) then [] else [lines[0]]) + NonBlank(lines[1..])
  }

  function ParseEntries(lines: seq<string>, judge: Judge): (r: Option<seq<string>>)
    ensures r.Some? ==> |r.value| == |lines|
  {
    if lines == [] then Some([]) else
    if !("- " <= lines[0]) then None else
    var entry := Normalized(lines[0][2..]);
    if entry == "" || !HasNoControl(entry, judge) then None else
    match ParseEntries(lines[1..], judge)
    case None => None
    case Some(rest) => Some([entry] + rest)
  }

  /** `_parse`; with `enforce` a list over the limits is refused too. */
  function Parse(scope: Scope, content: string, judge: Judge, enforce: bool): Option<seq<string>> {
    if content == "" then Some([]) else
    var lines := NonBlank(Lines(content));
    if lines == [] || lines[0] != Heading(scope) then None else
    match ParseEntries(lines[1..], judge)
    case None => None
    case Some(entries) => if enforce && EntriesError(scope, entries, judge).Some? then None else Some(entries)
  }

  /** The entries as lines, joined by line feeds. */
  function Listed(entries: seq<string>): string {
    if entries == [] then "" else
    "- " + entries[0] + (if |entries| == 1 then "" else "\n" + Listed(entries[1..]))
  }

  function Render(scope: Scope, entries: seq<string>): string {
    Heading(scope) + "\n" + (if entries == [] then "" else "\n" + Listed(entries) + "\n")
  }

  // ---- one update ----

  /** `projectId` says whether the project id names a project file; other scopes need none. */
  datatype Request = Request(action: Action, scope: Scope, content: string, oldText: string, projectId: bool)

  /**
   * What happens around one update; `edit` is what someone else makes of the file while the update is prepared,
   * `lateEdit` what someone makes of it after the file was read again and before it is replaced.
   */
  datatype Circumstances = Circumstances(
    safeAtStart: bool, regular: bool, readable: bool,
    prepared: bool, safeBeforeWriting: bool, written: bool,
    edit: Option<File>,
    readableAgain: bool,
    lateEdit: Option<File>,
    safeBeforeReplacing: bool, replaced: bool)

  predicate HasShape(r: Request) {
    match r.action
    case Add => r.content != "" && r.oldText == ""
    case Replace => r.content != "" && r.oldText != ""
    case Remove => r.content == "" && r.oldText != ""
  }

  /** The refusal of a request before any file is touched. */
  function RequestError(r: Request, judge: Judge): Option<Answer> {
    var content, oldText := Normalized(r.content), Normalized(r.oldText);
    if !HasShape(r) || |r.content| > 600 || |r.oldText| > 200 then Some(Invalid)
    else if !HasNoControl(r.content + r.oldText, judge) then Some(Invalid)
    else if (!r.action.Remove? && content == "") || (!r.action.Add? && oldText == "") then Some(Invalid)
    else if content != "" && judge.isSensitive(content) then Some(Sensitive)
    else if r.scope.Project? && !r.projectId then Some(Unavailable)
    else None
  }

  predicate Contains(text: string, part: string) {
    exists k | 0 <= k <= |text| :: part <= text[k..]
  }

  predicate Matches(entry: string, oldText: string, judge: Judge) {
    Contains(judge.fold(entry), judge.fold(oldText))
  }

  /** The positions of the entries that contain the old text, ignoring case. */
  function MatchesOf(entries: seq<string>, oldText: string, judge: Judge): seq<nat> {
    if entries == [] then [] else
    var n := |entries| - 1;
    MatchesOf(entries[..n], oldText, judge) + (if Matches(entries[n], oldText, judge) then [n] else [])
  }

  datatype Decision = Refuse(answer: Answer) | Keep | Write(entries: seq<string>)

  /** The list after the action, or why there is none. */
  function Changed(entries: seq<string>, action: Action, content: string, oldText: string, judge: Judge): Decision {
    if action.Add? then
      (if content in entries then Keep else Write(entries + [content]))
    else
      var matches := MatchesOf(entries, oldText, judge);
      if matches == [] then Refuse(NotFound)
      else if |matches| > 1 then Refuse(Ambiguous)
      else
        MatchesAre(entries, oldText, judge);
        assert matches[0] in matches;
        var i := matches[0];
        if action.Replace? then
          (if entries[i] == content then Keep else Write(entries[i := content]))
        else Write(entries[..i] + entries[i + 1..])
  }

  lemma {:induction false} MatchesAre(entries: seq<string>, oldText: string, judge: Judge)
    ensures forall i :: i in MatchesOf(entries, oldText, judge) <==> 0 <= i < |entries| && Matches(entries[i], oldText, judge)
    ensures forall i, j | 0 <= i < j < |MatchesOf(entries, oldText, judge)| :: MatchesOf(entries, oldText, judge)[i] < MatchesOf(entries, oldText, judge)[j]
  {
    if entries != [] {
      var n := |entries| - 1;
      MatchesAre(entries[..n], oldText, judge);
      var before := MatchesOf(entries[..n], oldText, judge);
      assert forall k | 0 <= k < |before| :: before[k] in before;
      hide Matches;
    }
  }

  /** The entries of a file that an update accepts to work on. */
  function Current(scope: Scope, file: File, judge: Judge): Result<seq<string>, Answer> {
    var bytes := if file.Some? then file.value else [];
    if |bytes| > MAX_VIEW_BYTES then Failure(Full) else
    match Decode(bytes)
    case None => Failure(Invalid)
    case Some(text) =>
      match Parse(scope, text, judge, false)
      case None => Failure(Invalid)
      case Some(entries) =>
        match EntriesError(scope, entries, judge)
        case Some(error) => Failure(error)
        case None => Success(entries)
  }

  /** What an accepted request decides on reading the file. */
  function Decide(r: Request, file: File, judge: Judge): Decision {
    match Current(r.scope, file, judge)
    case Failure(error) => Refuse(error)
    case Success(entries) =>
      match Changed(entries, r.action, Normalized(r.content), Normalized(r.oldText), judge)
      case Write(updated) =>
        (match EntriesError(r.scope, updated, judge) case Some(error) => Refuse(error) case None => Write(updated))
      case other => other
  }

  function Edited(file: File, edit: Option<File>): File {
    if edit.Some? then edit.value else file
  }

  /** What others have left of the file when it is replaced. */
  function Left(file: File, c: Circumstances): File {
    Edited(Edited(file, c.edit), c.lateEdit)
  }

  /** The file after an update and its answer. */
  function Outcome(file: File, r: Request, c: Circumstances, judge: Judge): (File, Answer) {
    if RequestError(r, judge).Some? then (file, RequestError(r, judge).value)
    else if !c.safeAtStart || (file.Some? && !c.regular) then (file, Unavailable)
    else if !c.readable then (file, Io)
    else
      match Decide(r, file, judge)
      case Refuse(answer) => (file, answer)
      case Keep => (file, Done)
      case Write(entries) =>
        if !c.prepared then (file, Io)
        else if !c.safeBeforeWriting then (file, Unavailable)
        else if !c.written then (file, Io)
        else
          var now := Edited(file, c.edit);
          if !c.readableAgain then (now, Io)
          else if now != file then (now, Conflict)
          else if !c.safeBeforeReplacing then (Left(file, c), Unavailable)
          else if !c.replaced then (Left(file, c), Io)
          else (Some(Encode(Render(r.scope, entries))), Done)
  }

  /** What a reader of the file sees: None where the file does not count as a valid memory. */
  function Inspect(scope: Scope, file: File, judge: Judge): Option<seq<string>> {
    match file
    case None => Some([])
    case Some(bytes) =>
      if |bytes| > MAX_VIEW_BYTES then None else
      match Decode(bytes)
      case None => None
      case Some(text) => Parse(scope, text, judge, true)
  }

  // ---- printing and parsing undo each other ----

  lemma EntryIsLine(e: string, judge: Judge)
    requires IsEntry(e, judge)
    ensures IsLine("- " + e) && !IsBlank("- " + e)
  {
    var s := "- " + e;
    forall k | 0 <= k < |s| ensures !IsLineBreak(s[k]) {
      if k >= 2 {
        NormalizedChars(e, k - 2);
      }
    }
    assert s[0] == '-' && !IsSpace('-');
  }

  function Bulleted(entries: seq<string>): (r: seq<string>)
    ensures |r| == |entries| && forall k | 0 <= k < |r| :: r[k] == "- " + entries[k]
  {
    seq(|entries|, k requires 0 <= k < |entries| => "- " + entries[k])
  }

  lemma {:induction false} LinesOfListed(entries: seq<string>, judge: Judge)
    requires entries != [] && AreEntries(entries, judge)
    ensures Lines(Listed(entries) + "\n") == Bulleted(entries)
  {
    hide Lines, IsEntry, Bulleted;
    var first, rest := "- " + entries[0], entries[1..];
    EntryIsLine(entries[0], judge);
    BulletedFirst(entries);
    if rest == [] {
      FirstLine(first, "");
      assert Listed(entries) + "\n" == first + "\n" + "";
      NoLines();
    } else {
      LinesOfListed(rest, judge);
      FirstLine(first, Listed(rest) + "\n");
      assert Listed(entries) + "\n" == first + "\n" + (Listed(rest) + "\n");
    }
  }

  lemma NoLines()
    ensures Lines("") == [] && Bulleted([]) == []
  {}

  lemma BulletedFirst(entries: seq<string>)
    requires entries != []
    ensures Bulleted(entries) == ["- " + entries[0]] + Bulleted(entries[1..])
  {}

  lemma {:induction false} NonBlankOfBulleted(entries: seq<string>, judge: Judge)
    requires AreEntries(entries, judge)
    ensures NonBlank(Bulleted(entries)) == Bulleted(entries)
  {
    if entries != [] {
      assert IsEntry(entries[0], judge);
      EntryIsLine(entries[0], judge);
      assert Bulleted(entries)[1..] == Bulleted(entries[1..]);
      NonBlankOfBulleted(entries[1..], judge);
    }
  }

  lemma {:induction false} ParseOfBulleted(entries: seq<string>, judge: Judge)
    requires AreEntries(entries, judge)
    ensures ParseEntries(Bulleted(entries), judge) == Some(entries)
  {
    if entries != [] {
      var lines := Bulleted(entries);
      assert IsEntry(entries[0], judge);
      hide Bulleted, Normalized;
      BulletedFirst(entries);
      assert lines[0][2..] == entries[0] && lines[0][..2] == "- ";
      assert [entries[0]] + entries[1..] == entries;
      ParseOfBulleted(entries[1..], judge);
    }
  }

  lemma HeadingIsLine(scope: Scope)
    ensures IsLine(Heading(scope)) && !IsBlank(Heading(scope)) && |Heading(scope)| <= 16
  {
    assert Heading(scope)[0] == '#' && !IsSpace('#');
  }

  /** Parsing a rendered list gives the list back, for every list of entries. */
  lemma ParseOfRender(scope: Scope, entries: seq<string>, judge: Judge, enforce: bool)
    requires AreEntries(entries, judge)
    ensures Parse(scope, Render(scope, entries), judge, enforce) ==
            if enforce && EntriesError(scope, entries, judge).Some? then None else Some(entries)
  {
    hide EntriesError, Lines, ParseEntries, Listed, Heading, Bulleted, AreEntries, IsLine, IsBlank, NonBlank;
    HeadingIsLine(scope);
    var text, h := Render(scope, entries), Heading(scope);
    ParseOfBulleted(entries, judge);
    NoLines();
    NonBlankHeaded(h, entries, judge);
    if entries == [] {
      FirstLine(h, "");
      assert text == h + "\n" + "";
    } else {
      var body := Listed(entries) + "\n";
      FirstLine(h, "\n" + body);
      EmptyIsLine();
      FirstLine("", body);
      assert "" + "\n" + body == "\n" + body;
      assert text == h + "\n" + ("\n" + body);
      LinesOfListed(entries, judge);
    }
    assert NonBlank(Lines(text))[1..] == Bulleted(entries);
  }

  lemma EmptyIsLine()
    ensures IsLine("")
  {}

  lemma NonBlankHeaded(h: string, entries: seq<string>, judge: Judge)
    requires AreEntries(entries, judge) && !IsBlank(h)
    ensures NonBlank([h] + Bulleted(entries)) == [h] + Bulleted(entries)
    ensures NonBlank([h] + ([""] + Bulleted(entries))) == [h] + Bulleted(entries)
  {
    hide Bulleted, AreEntries, NonBlank, IsBlank;
    NonBlankOfBulleted(entries, judge);
    NonBlankCons(h, Bulleted(entries));
    NonBlankCons("", Bulleted(entries));
    NonBlankCons(h, [""] + Bulleted(entries));
    EmptyIsBlank();
    assert [] + Bulleted(entries) == Bulleted(entries);
  }

  lemma EmptyIsBlank()
    ensures IsBlank("")
  {}

  lemma NonBlankCons(line: string, rest: seq<string>)
    ensures NonBlank([line] + rest) == (if IsBlank(line) then [] else [line]) + NonBlank(rest)
  {
    hide IsBlank;
    assert ([line] + rest)[1..] == rest;
  }

  /** Parsed entries are entries. */
  lemma {:induction false} ParsedAreEntries(lines: seq<string>, judge: Judge)
    requires ParseEntries(lines, judge).Some?
    ensures AreEntries(ParseEntries(lines, judge).value, judge)
  {
    if lines != [] {
      NormalizedTwice(lines[0][2..]);
      ParsedAreEntries(lines[1..], judge);
    }
  }

  lemma NormalizedIsEntry(s: string, judge: Judge)
    requires HasNoControl(s, judge) && Normalized(s) != ""
    ensures IsEntry(Normalized(s), judge)
  {
    NormalizedTwice(s);
    forall k | 0 <= k < |Normalized(s)| ensures !judge.isControl(Normalized(s)[k]) {
      NormalizedChars(s, k);
    }
  }

  // ---- what an answer promises ----

  predicate OnlyMatch(entries: seq<string>, i: nat, oldText: string, judge: Judge) {
    i < |entries| && forall j | 0 <= j < |entries| :: Matches(entries[j], oldText, judge) <==> j == i
  }

  /** The list a request asks for: the new entry at the end once, or the only matching entry replaced or removed. */
  ghost predicate IsIntended(before: seq<string>, r: Request, after: seq<string>, judge: Judge) {
    var content, oldText := Normalized(r.content), Normalized(r.oldText);
    match r.action
    case Add => after == if content in before then before else before + [content]
    case Replace => exists i: nat :: OnlyMatch(before, i, oldText, judge) && after == before[i := content]
    case Remove => exists i: nat :: OnlyMatch(before, i, oldText, judge) && after == before[..i] + before[i + 1..]
  }

  /** How many entries match decides between "not found", "ambiguous" and a change of the one that does. */
  lemma MatchCount(entries: seq<string>, r: Request, judge: Judge)
    requires !r.action.Add?
    ensures var oldText := Normalized(r.oldText);
      var d := Changed(entries, r.action, Normalized(r.content), oldText, judge);
      && (d == Refuse(NotFound) <==> !AnyMatch(entries, oldText, judge))
      && (d == Refuse(Ambiguous) <==> TwoMatch(entries, oldText, judge))
      && (!d.Refuse? <==> exists i: nat :: OnlyMatch(entries, i, oldText, judge))
  {
    hide Normalized, AnyMatch, TwoMatch, OnlyMatch, MatchesOf;
    CountOfMatches(entries, Normalized(r.oldText), judge);
  }

  predicate AnyMatch(entries: seq<string>, oldText: string, judge: Judge) {
    exists i | 0 <= i < |entries| :: Matches(entries[i], oldText, judge)
  }

  predicate TwoMatch(entries: seq<string>, oldText: string, judge: Judge) {
    exists i, j | 0 <= i < j < |entries| :: Matches(entries[i], oldText, judge) && Matches(entries[j], oldText, judge)
  }

  lemma NoMatch(entries: seq<string>, oldText: string, judge: Judge)
    requires MatchesOf(entries, oldText, judge) == []
    ensures !AnyMatch(entries, oldText, judge)
  {
    hide Matches;
    MatchesAre(entries, oldText, judge);
    forall i | 0 <= i < |entries| ensures !Matches(entries[i], oldText, judge) {
      assert i in MatchesOf(entries, oldText, judge) <==> Matches(entries[i], oldText, judge);
    }
  }

  lemma SeveralMatches(entries: seq<string>, oldText: string, judge: Judge)
    requires |MatchesOf(entries, oldText, judge)| > 1
    ensures TwoMatch(entries, oldText, judge)
  {
    hide Matches;
    var m := MatchesOf(entries, oldText, judge);
    MatchesAre(entries, oldText, judge);
    assert m[0] in m && m[1] in m && m[0] < m[1];
  }

  lemma CasesExclude(entries: seq<string>, oldText: string, judge: Judge)
    ensures TwoMatch(entries, oldText, judge) ==> AnyMatch(entries, oldText, judge)
    ensures (exists i: nat :: OnlyMatch(entries, i, oldText, judge)) ==> AnyMatch(entries, oldText, judge) && !TwoMatch(entries, oldText, judge)
  {
    hide Matches;
    if k: nat :| OnlyMatch(entries, k, oldText, judge) {
      assert Matches(entries[k], oldText, judge);
    }
  }

  lemma CountOfMatches(entries: seq<string>, oldText: string, judge: Judge)
    ensures var m := MatchesOf(entries, oldText, judge);
      && (m == [] <==> !AnyMatch(entries, oldText, judge))
      && (|m| > 1 <==> TwoMatch(entries, oldText, judge))
      && (|m| == 1 <==> exists i: nat :: OnlyMatch(entries, i, oldText, judge))
  {
    hide AnyMatch, TwoMatch, OnlyMatch, MatchesOf;
    var m := MatchesOf(entries, oldText, judge);
    CasesExclude(entries, oldText, judge);
    if |m| == 0 {
      NoMatch(entries, oldText, judge);
    } else if |m| == 1 {
      OneMatch(entries, oldText, judge);
      assert OnlyMatch(entries, m[0], oldText, judge);
    } else {
      SeveralMatches(entries, oldText, judge);
    }
  }

  lemma OneMatch(entries: seq<string>, oldText: string, judge: Judge)
    requires |MatchesOf(entries, oldText, judge)| == 1
    ensures OnlyMatch(entries, MatchesOf(entries, oldText, judge)[0], oldText, judge)
  {
    hide Matches;
    var m := MatchesOf(entries, oldText, judge);
    MatchesAre(entries, oldText, judge);
    assert m[0] in m;
    forall j | 0 <= j < |entries| ensures Matches(entries[j], oldText, judge) <==> j == m[0] {
      if Matches(entries[j], oldText, judge) { assert j in m; }
    }
  }

  lemma ChangedIsIntended(before: seq<string>, r: Request, judge: Judge)
    ensures var d := Changed(before, r.action, Normalized(r.content), Normalized(r.oldText), judge);
      && (d.Keep? ==> IsIntended(before, r, before, judge))
      && (d.Write? ==> IsIntended(before, r, d.entries, judge))
  {
    hide Matches, Normalized;
    if !r.action.Add? {
      var oldText := Normalized(r.oldText);
      var m := MatchesOf(before, oldText, judge);
      MatchCount(before, r, judge);
      MatchesAre(before, oldText, judge);
      if |m| == 1 {
        assert m[0] in m;
        var i: nat :| OnlyMatch(before, i, oldText, judge);
        assert i == m[0];
        assert before[i] == Normalized(r.content) ==> before == before[i := Normalized(r.content)];
      }
    }
  }

  lemma ChangedAreEntries(before: seq<string>, r: Request, judge: Judge)
    requires AreEntries(before, judge) && RequestError(r, judge).None?
    ensures var d := Changed(before, r.action, Normalized(r.content), Normalized(r.oldText), judge);
      d.Write? ==> AreEntries(d.entries, judge)
  {
    hide Matches, Normalized, IsEntry;
    var m := MatchesOf(before, Normalized(r.oldText), judge);
    MatchesAre(before, Normalized(r.oldText), judge);
    if m != [] {
      assert m[0] in m;
    }
    if !r.action.Remove? {
      NoControlInParts(r, judge);
      NormalizedIsEntry(r.content, judge);
    }
  }

  lemma NoControlInParts(r: Request, judge: Judge)
    requires HasNoControl(r.content + r.oldText, judge)
    ensures HasNoControl(r.content, judge)
  {
    assert forall k | 0 <= k < |r.content| :: (r.content + r.oldText)[k] == r.content[k];
  }

  lemma CurrentAreEntries(scope: Scope, file: File, judge: Judge)
    requires Current(scope, file, judge).Success?
    ensures AreEntries(Current(scope, file, judge).value, judge)
    ensures EntriesError(scope, Current(scope, file, judge).value, judge).None?
    ensures Inspect(scope, file, judge) == Some(Current(scope, file, judge).value)
  {
    hide EntriesError, Lines, NonBlank, ParseEntries, AreEntries, Heading;
    var bytes := if file.Some? then file.value else [];
    var text := Decode(bytes).value;
    if text != "" {
      ParsedAreEntries(NonBlank(Lines(text))[1..], judge);
    } else {
      NoEntries(judge);
    }
    assert file.None? ==> text == "";
  }

  lemma NoEntries(judge: Judge)
    ensures AreEntries([], judge)
  {}

  // Sizes.

  lemma {:induction false} EncodeSize(s: string)
    ensures |Encode(s)| <= 4 * |s|
  {
    if s != [] {
      EncodeSize(s[1..]);
    }
  }

  lemma {:induction false} ListedSize(entries: seq<string>)
    ensures |Listed(entries)| <= Total(entries) + 3 * |entries|
  {
    if entries != [] {
      ListedSize(entries[1..]);
    }
  }

  /** Any list within the limits of its scope is printed to less than 16 KiB, far below what a reader takes in. */
  lemma RenderedSize(scope: Scope, entries: seq<string>, judge: Judge)
    requires EntriesError(scope, entries, judge).None?
    ensures |Encode(Render(scope, entries))| < 16384 < MAX_VIEW_BYTES
  {
    EncodeSize(Render(scope, entries));
    ListedSize(entries);
    HeadingIsLine(scope);
    hide Heading, Listed, Encode, HasRepeat;
  }

  /** A written list reads back. */
  lemma WrittenReadsBack(scope: Scope, entries: seq<string>, judge: Judge)
    requires AreEntries(entries, judge) && EntriesError(scope, entries, judge).None?
    ensures Inspect(scope, Some(Encode(Render(scope, entries))), judge) == Some(entries)
  {
    RenderedSize(scope, entries, judge);
    DecodeOfEncode(Render(scope, entries));
    ParseOfRender(scope, entries, judge, true);
    hide Render, Parse, Encode, Decode, EntriesError, AreEntries;
  }

  /**
   * Whenever an update answers "ok", the file reads back as a valid memory with exactly the intended entries,
   * which keep the limits of the scope.
   */
  lemma DoneReadsBack(file: File, r: Request, c: Circumstances, judge: Judge) returns (before: seq<string>, after: seq<string>)
    requires Outcome(file, r, c, judge).1 == Done
    ensures Current(r.scope, file, judge) == Success(before) && IsIntended(before, r, after, judge)
    ensures Inspect(r.scope, Outcome(file, r, c, judge).0, judge) == Some(after)
    ensures EntriesError(r.scope, after, judge).None?
  {
    hide Render, Parse, Encode, Decode, EntriesError, AreEntries, IsIntended, Current, Inspect, Changed, Normalized;
    assert RequestError(r, judge).None? by { RefusalsAreNotDone(r, judge); }
    CurrentIsNotDone(r.scope, file, judge);
    before := Current(r.scope, file, judge).value;
    CurrentAreEntries(r.scope, file, judge);
    ChangedIsIntended(before, r, judge);
    ChangedAreEntries(before, r, judge);
    ChangedIsNotDone(before, r, judge);
    ErrorsAreNotDone(r.scope, Changed(before, r.action, Normalized(r.content), Normalized(r.oldText), judge), judge);
    match Decide(r, file, judge)
    case Keep => after := before;
    case Write(entries) =>
      after := entries;
      WrittenReadsBack(r.scope, entries, judge);
  }

  /** The update has put a file of its own in place. */
  predicate Replaces(file: File, r: Request, c: Circumstances, judge: Judge) {
    Outcome(file, r, c, judge).1 == Done && Decide(r, file, judge).Write?
  }

  /** The conflict check saves every edit made before it; all edits are safe exactly when nobody leaves other bytes after it. */
  lemma NoEditIsOverwrittenIff(file: File, r: Request, c: Circumstances, judge: Judge)
    requires Replaces(file, r, c, judge)
    ensures Edited(file, c.edit) == file
    ensures Left(file, c) == file <==> c.lateEdit.None? || c.lateEdit.value == file
  {
    hide RequestError, Decide;
    RefusalsAreNotDone(r, judge);
  }

  /** An edit after the check is overwritten, and the answer is still "ok": the late entry is gone. */
  lemma LateEditIsOverwritten() returns (r: Request, c: Circumstances, judge: Judge)
    ensures Replaces(None, r, c, judge) && c.lateEdit.Some?
    ensures Inspect(User, c.lateEdit.value, judge) == Some(["b"])
    ensures Inspect(User, Outcome(None, r, c, judge).0, judge) == Some(["a"])
  {
    judge := Judge((ch: char) => false, (s: string) => false, (s: string) => s);
    r := Request(Add, User, "a", "", false);
    c := Circumstances(true, true, true, true, true, true, None, true, Some(Some(Encode(Render(User, ["b"])))), true, true);
    hide Encode, Render, Inspect, RequestError, Decide, EntriesError, AreEntries;
    FirstAddition(judge);
    WordsAreEntries(judge);
    WrittenReadsBack(User, ["a"], judge);
    WrittenReadsBack(User, ["b"], judge);
  }

  ghost predicate AcceptsAll(judge: Judge) {
    (forall s :: HasNoControl(s, judge)) && forall s :: !judge.isSensitive(s)
  }

  lemma FirstAddition(judge: Judge)
    requires AcceptsAll(judge)
    ensures var r := Request(Add, User, "a", "", false);
      RequestError(r, judge).None? && Decide(r, None, judge) == Write(["a"])
  {
    hide Normalized, Decode, HasNoControl, MatchesOf;
    WordsAreEntries(judge);
    NoBytes();
    var none: seq<string> := [];
    assert EntriesError(User, none, judge).None?;
    assert Current(User, None, judge) == Success(none);
    assert none + ["a"] == ["a"];
  }

  lemma WordsAreEntries(judge: Judge)
    requires AcceptsAll(judge)
    ensures AreEntries(["a"], judge) && AreEntries(["b"], judge) && Normalized("a") == "a" && Normalized("") == ""
    ensures EntriesError(User, ["a"], judge).None? && EntriesError(User, ["b"], judge).None?
  {
    WordsOfJoin([]);
    WordsOfJoin(["a"]);
    WordsOfJoin(["b"]);
  }

  lemma NoBytes()
    ensures Decode([]) == Some("")
  {}

  lemma RefusalsAreNotDone(r: Request, judge: Judge)
    ensures RequestError(r, judge) != Some(Done)
  {
    hide Normalized, HasNoControl, HasShape;
  }

  lemma CurrentIsNotDone(scope: Scope, file: File, judge: Judge)
    ensures Current(scope, file, judge) != Failure(Done)
  {
    hide Parse, Decode, HasRepeat;
  }

  lemma ChangedIsNotDone(before: seq<string>, r: Request, judge: Judge)
    ensures Changed(before, r.action, Normalized(r.content), Normalized(r.oldText), judge) != Refuse(Done)
  {
    hide Normalized, MatchesOf;
  }

  lemma ErrorsAreNotDone(scope: Scope, d: Decision, judge: Judge)
    ensures d.Write? ==> EntriesError(scope, d.entries, judge) != Some(Done)
  {
    hide HasRepeat;
  }

  /** Any other answer leaves the file as it was, or as the last one who edited it meanwhile has made it. */
  lemma OthersLeaveTheFile(file: File, r: Request, c: Circumstances, judge: Judge)
    requires Outcome(file, r, c, judge).1 != Done
    ensures Outcome(file, r, c, judge).0 in {file, Edited(file, c.edit), Left(file, c)}
    ensures c.edit.None? && c.lateEdit.None? ==> Outcome(file, r, c, judge).0 == file
  {
    hide RequestError, Decide;
  }

  /** Entries of a valid file are distinct, within the limits and none of them sensitive: exactly what a reader accepts. */
  lemma ReadersAcceptIff(scope: Scope, entries: seq<string>, judge: Judge)
    requires AreEntries(entries, judge)
    ensures Inspect(scope, Some(Encode(Render(scope, entries))), judge) == Some(entries) <==> EntriesError(scope, entries, judge).None?
  {
    if EntriesError(scope, entries, judge).None? {
      WrittenReadsBack(scope, entries, judge);
    } else {
      DecodeOfEncode(Render(scope, entries));
      ParseOfRender(scope, entries, judge, true);
    }
    hide Render, Parse, Encode, Decode, EntriesError, AreEntries;
  }

  // ---- the store as the source runs it ----

  /** `_parse` as a loop over the non-blank lines. */
  method ParseText(scope: Scope, content: string, judge: Judge, enforce: bool) returns (entries: Option<seq<string>>)
    ensures entries == Parse(scope, content, judge, enforce)
  {
    hide EntriesError, Lines, Heading, Normalized, HasNoControl;
    if content == "" { return Some([]); }
    var lines := NonBlank(Lines(content));
    if lines == [] || lines[0] != Heading(scope) { return None; }
    lines := lines[1..];
    var list: seq<string> := [];
    assert lines[0..] == lines;
    PrefixedByNothing(ParseEntries(lines, judge));
    var k := 0;
    while k < |lines|
      invariant k <= |lines|
      invariant ParseEntries(lines, judge) == Prefixed(list, ParseEntries(lines[k..], judge))
    {
      if !("- " <= lines[k]) { return None; }
      var entry := Normalized(lines[k][2..]);
      if entry == "" || !HasNoControl(entry, judge) { return None; }
      PrefixedStep(list, entry, ParseEntries(lines[k + 1..], judge));
      list := list + [entry];
      k := k + 1;
    }
    assert lines[k..] == [];
    assert list + [] == list;
    if enforce && EntriesError(scope, list, judge).Some? { return None; }
    return Some(list);
  }

  function Prefixed(list: seq<string>, rest: Option<seq<string>>): Option<seq<string>> {
    match rest case None => None case Some(r) => Some(list + r)
  }

  lemma PrefixedByNothing(rest: Option<seq<string>>)
    ensures Prefixed([], rest) == rest
  {
    if rest.Some? { assert [] + rest.value == rest.value; }
  }

  lemma PrefixedStep(list: seq<string>, entry: string, rest: Option<seq<string>>)
    ensures Prefixed(list, match rest case None => None case Some(r) => Some([entry] + r)) == Prefixed(list + [entry], rest)
  {
    match rest
    case None =>
    case Some(r) => assert list + ([entry] + r) == list + [entry] + r;
  }

  /** One memory file; other programs may edit it too. */
  class MemoryStore {
    var file: File
    const judge: Judge

    constructor (file: File, judge: Judge)
      ensures this.file == file && this.judge == judge
    {
      this.file, this.judge := file, judge;
    }

    method Update(r: Request, c: Circumstances) returns (answer: Answer)
      modifies this
      ensures (file, answer) == Outcome(old(file), r, c, judge)
    {
      hide RequestError, Decide, Render, Encode;
      var error := RequestError(r, judge);
      if error.Some? { return error.value; }
      answer := UpdateFile(r, c);
    }

    method UpdateFile(r: Request, c: Circumstances) returns (answer: Answer)
      requires RequestError(r, judge).None?
      modifies this
      ensures (file, answer) == Outcome(old(file), r, c, judge)
    {
      hide RequestError, EntriesError, Normalized, Render, Encode, Parse, Decode, Changed;
      if !c.safeAtStart || (file.Some? && !c.regular) { return Unavailable; }
      if !c.readable { return Io; }
      var original := if file.Some? then file.value else [];
      if |original| > MAX_VIEW_BYTES { return Full; }
      var text := Decode(original);
      if text.None? { return Invalid; }
      var entries := ParseText(r.scope, text.value, judge, false);
      if entries.None? { return Invalid; }
      var error := EntriesError(r.scope, entries.value, judge);
      if error.Some? { return error.value; }
      var changed := Changed(entries.value, r.action, Normalized(r.content), Normalized(r.oldText), judge);
      if changed.Refuse? { return changed.answer; }
      if changed.Keep? { return Done; }
      var updated := changed.entries;
      error := EntriesError(r.scope, updated, judge);
      if error.Some? { return error.value; }
      var encoded := Encode(Render(r.scope, updated));
      var seen := file;
      if !c.prepared { return Io; }
      if !c.safeBeforeWriting { return Unavailable; }
      if !c.written { return Io; }
      if c.edit.Some? { file := c.edit.value; }
      if !c.readableAgain { return Io; }
      if file != seen { return Conflict; }
      if c.lateEdit.Some? { file := c.lateEdit.value; }
      if !c.safeBeforeReplacing { return Unavailable; }
      if !c.replaced { return Io; }
      file := Some(encoded);
      return Done;
    }
  }
}
